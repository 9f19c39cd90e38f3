/**
 * The media gateway as the control plane sees it: the URL paths of its
 * session API, the JSON requests sent there (reduced to their fields), the
 * replies (reduced to the fields the control plane inspects) and the verdict
 * the send_session_* functions reach on a reply.
 */
module Gateway {
  import opened Wrappers
  import Decimal
  import opened Streams

  // ----- targets -----

  const Root: string := "/janus"

  /** make_target(): the session-creation endpoint. */
  function SessionsTarget(): string
  {
    Root
  }

  /** make_target(session_id). */
  function SessionTarget(sessionId: Id): string
  {
    Root + "/" + Decimal.ToString(sessionId)
  }

  /** make_target(session_id, session_plugin_id). */
  function HandleTarget(sessionId: Id, pluginId: Id): string
  {
    Root + "/" + Decimal.ToString(sessionId) + "/" + Decimal.ToString(pluginId)
  }

  /** Two digit strings separated by a '/' can be split back at that '/'. */
  lemma SplitAtSlash(a: string, b: string, c: string, d: string)
    requires Decimal.AllDigits(a) && Decimal.AllDigits(c)
    requires a + "/" + b == c + "/" + d
    ensures a == c && b == d
  {
    var l, r := a + "/" + b, c + "/" + d;
    FirstSlash(a, b);
    FirstSlash(c, d);
    assert |a| == |c|;
    assert a == l[..|a|] && c == r[..|c|];
    assert b == l[|a| + 1..] && d == r[|c| + 1..];
  }

  /** In a digit string followed by '/', that '/' is the first one. */
  lemma FirstSlash(a: string, b: string)
    requires Decimal.AllDigits(a)
    ensures (a + "/" + b)[|a|] == '/'
    ensures forall i :: 0 <= i < |a| ==> (a + "/" + b)[i] != '/'
  {
  }

  /**
   * Distinct sessions and distinct (session, plugin handle) pairs are
   * addressed by distinct paths, and the create path, the session paths
   * and the handle paths are three disjoint families.
   */
  lemma TargetsInjective(s1: Id, p1: Id, s2: Id, p2: Id)
    ensures SessionTarget(s1) == SessionTarget(s2) ==> s1 == s2
    ensures HandleTarget(s1, p1) == HandleTarget(s2, p2) ==> s1 == s2 && p1 == p2
    ensures SessionTarget(s1) != HandleTarget(s2, p2)
    ensures SessionsTarget() != SessionTarget(s1)
    ensures SessionsTarget() != HandleTarget(s1, p1)
  {
    var prefix := Root + "/";
    var a1, a2 := Decimal.ToString(s1), Decimal.ToString(s2);
    var b1, b2 := Decimal.ToString(p1), Decimal.ToString(p2);
    assert SessionTarget(s1) == prefix + a1;
    assert HandleTarget(s1, p1) == prefix + (a1 + "/" + b1);
    assert HandleTarget(s2, p2) == prefix + (a2 + "/" + b2);
    if SessionTarget(s1) == SessionTarget(s2) {
      assert a1 == (prefix + a1)[|prefix|..] && a2 == (prefix + a2)[|prefix|..];
      Decimal.ToStringInjective(s1, s2);
    }
    if HandleTarget(s1, p1) == HandleTarget(s2, p2) {
      assert a1 + "/" + b1 == (prefix + (a1 + "/" + b1))[|prefix|..];
      assert a2 + "/" + b2 == (prefix + (a2 + "/" + b2))[|prefix|..];
      SplitAtSlash(a1, b1, a2, b2);
      Decimal.ToStringInjective(s1, s2);
      Decimal.ToStringInjective(p1, p2);
    }
    var h := HandleTarget(s2, p2);
    assert h[|prefix| + |a2|] == '/';
    assert forall i :: |prefix| <= i < |SessionTarget(s1)| ==> SessionTarget(s1)[i] == a1[i - |prefix|];
    assert |SessionsTarget()| < |SessionTarget(s1)|;
    assert |SessionsTarget()| < |HandleTarget(s1, p1)|;
  }

  // ----- requests -----

  const StreamingPlugin: string := "janus.plugin.streaming"
  const VideoPt: nat := 96
  const VideoRtpMap: string := "H264/90000"
  const VideoFmtp: string := "profile-level-id=42e01f;packetization-mode=1"
  const AudioPt: nat := 8
  const AudioRtpMap: string := "PCMA/8000/1"

  /** The "body" object of a streaming-plugin "create" message. */
  datatype StreamRequest = StreamRequest(
    id: Id, kind: string,
    video: bool, videoPort: int, videoPt: nat, videoRtpMap: string, videoFmtp: string,
    audio: bool, audioPort: int, audioPt: nat, audioRtpMap: string,
    isPrivate: bool)

  /** The JSON requests, each with the transaction token it carries. */
  datatype Body =
    | SessionCreate(transaction: string)
    | PluginAttach(transaction: string, plugin: string)
    | StreamCreate(transaction: string, request: StreamRequest)
    | StreamDestroy(transaction: string, id: Id)

  /**
   * The mountpoint send_session_stream_create asks for: an RTP mountpoint
   * named by the stream id, H.264 video on the stream's base port and PCMA
   * audio two ports above it, kept private.
   */
  function MountRequest(stream: StreamInfo): (r: StreamRequest)
    ensures r.id == stream.id && r.kind == "rtp" && r.video && r.audio && r.isPrivate
    ensures r.videoPort == stream.port && r.audioPort == stream.port + 2
    ensures r.videoPt == 96 && r.videoRtpMap == "H264/90000" && r.videoFmtp == "profile-level-id=42e01f;packetization-mode=1"
    ensures r.audioPt == 8 && r.audioRtpMap == "PCMA/8000/1"
  {
    StreamRequest(stream.id, "rtp",
      true, stream.port, VideoPt, VideoRtpMap, VideoFmtp,
      true, stream.port + 2, AudioPt, AudioRtpMap,
      true)
  }

  /**
   * Two streams whose base ports differ by a nonzero multiple of 4, as the
   * allocator hands them out, ask for four different RTP ports.
   */
  lemma MountPortsDisjoint(s1: StreamInfo, s2: StreamInfo)
    requires s1.port != s2.port && (s1.port - s2.port) % 4 == 0
    ensures var r1, r2 := MountRequest(s1), MountRequest(s2);
      {r1.videoPort, r1.audioPort} !! {r2.videoPort, r2.audioPort}
  {
    var r1, r2 := MountRequest(s1), MountRequest(s2);
    assert s1.port + 4 <= s2.port || s2.port + 4 <= s1.port;
  }

  /** What the control plane does on its gateway connection: connect, or post a request to a target. */
  datatype Call = Connect | Request(target: string, body: Body)

  // ----- replies -----

  /**
   * A parsed reply, reduced to what the checks read: "janus" and
   * "transaction" when they are strings, "data"."id" when it converts to an
   * unsigned 64-bit number, and whether "plugindata"."data" has a "created"
   * key.
   */
  datatype Reply = Reply(janus: Option<string>, transaction: Option<string>, dataId: Option<Id>, created: bool)

  /**
   * What one exchange yields: an exception from the connection (connect,
   * write or read), or an HTTP answer whose status is 200 or not and whose
   * body parsed as JSON (Some) or not (None).
   */
  datatype Exchange = Thrown | Answered(ok: bool, reply: Option<Reply>)

  /** The result of one send_session_* call: an exception, false, or true with the id it stored, if any. */
  datatype Step = Threw | Rejected | Accepted(data: Option<Id>)

  /** The reply says "success" and echoes the request's transaction token. */
  predicate Echoes(r: Reply, token: string)
  {
    r.janus == Some("success") && r.transaction == Some(token)
  }

  /**
   * The verdict of send() and the reply checks of send_session_create,
   * send_session_plugin_attach, send_session_stream_create and
   * send_session_stream_remove. For a connection attempt only an exception
   * counts.
   */
  function Verdict(call: Call, ex: Exchange): (s: Step)
    ensures s.Threw? <==> ex.Thrown?
    ensures call.Request? ==>
      (s.Accepted? <==>
        && ex.Answered? && ex.ok && ex.reply.Some? && Echoes(ex.reply.value, call.body.transaction)
        && (call.body.SessionCreate? || call.body.PluginAttach? ==> ex.reply.value.dataId.Some?)
        && (call.body.StreamCreate? ==> ex.reply.value.created))
    ensures s.Accepted? && call.Request? ==>
      s.data == (if call.body.SessionCreate? || call.body.PluginAttach? then ex.reply.value.dataId else None)
  {
    match ex
    case Thrown => Threw
    case Answered(ok, reply) =>
      match call
      case Connect => Accepted(None)
      case Request(_, body) =>
        if !ok || reply.None? then Rejected
        else
          var r := reply.value;
          if !Echoes(r, body.transaction) then Rejected
          else
            match body
            case SessionCreate(_) => if r.dataId.Some? then Accepted(r.dataId) else Rejected
            case PluginAttach(_, _) => if r.dataId.Some? then Accepted(r.dataId) else Rejected
            case StreamCreate(_, _) => if r.created then Accepted(None) else Rejected
            case StreamDestroy(_, _) => Accepted(None)
  }

  /** A reply carrying another request's token, or none, never confirms a request. */
  lemma ForeignTokenRejected(target: string, body: Body, ok: bool, r: Reply)
    requires r.transaction != Some(body.transaction)
    ensures Verdict(Request(target, body), Answered(ok, Some(r))) == Rejected
  {
  }

  /** The id a reply reports is taken only from an accepted session-create or attach reply. */
  lemma IdOnlyFromSessionReplies(call: Call, ex: Exchange)
    requires Verdict(call, ex).Accepted? && Verdict(call, ex).data.Some?
    ensures call.Request? && (call.body.SessionCreate? || call.body.PluginAttach?)
    ensures ex.Answered? && ex.reply.Some? && ex.reply.value.dataId == Verdict(call, ex).data
  {
  }
}
