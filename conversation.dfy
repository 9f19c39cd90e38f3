/**
 * The conversation with the gateway, on values: a Wire holds the position
 * in the std::rand sequence and the log of every call made to the gateway,
 * and each step returns the Wire after it. The std::rand sequence, the MD5
 * digest and the gateway's answers are fixed functions the model is given.
 */
module Conversation {
  import opened Wrappers
  import opened Streams
  import opened Gateway
  import Hash
  import Decimal

  /** The exceptions that can escape a handler, the create and remove passes, or spawn. */
  datatype Exception =
    | Transport               // the gateway connection failed (connect, write or read)
    | PortFault(fault: Fault) // gen_port threw std::out_of_range
    | BadStreamId             // std::stoul refused the id element of the path
    | LaunchFailure           // the gateway process could not be started

  /** The connection and session a pass works in. */
  datatype Session = Opened(sessionId: Id, pluginId: Id) | Refused | Broken

  /**
   * The fixed functions the model is given: the std::rand sequence, the MD5
   * digest, and the gateway's answer to the n-th call made to it.
   */
  datatype Oracles = Oracles(rand: nat -> Word32, digestOf: string -> Hash.Digest, gateway: (nat, Call) -> Exchange)

  /**
   * The outside world as the control plane changes it: the number of
   * std::rand values drawn, every gateway call in order, and the verdict the
   * control plane reached on each.
   */
  datatype Traffic = Traffic(draws: nat, sent: seq<Call>, steps: seq<Step>)

  /** Each call has its verdict. */
  type Wire = t: Traffic | |t.sent| == |t.steps| witness Traffic(0, [], [])

  /**
   * The verdicts are the control plane's verdicts on the gateway's answers
   * to the calls, call by call.
   */
  ghost predicate Judged(o: Oracles, sent: seq<Call>, steps: seq<Step>)
    requires |sent| == |steps|
    decreases |sent|
  {
    |sent| == 0 ||
      var n := |sent| - 1;
      && Judged(o, sent[..n], steps[..n])
      && steps[n] == Verdict(sent[n], o.gateway(n, sent[n]))
  }

  /** w' is w with more draws, calls and verdicts after it. */
  ghost predicate Extends(w': Wire, w: Wire)
  {
    && w.draws <= w'.draws && |w.sent| <= |w'.sent|
    && w'.sent[..|w.sent|] == w.sent && w'.steps[..|w.sent|] == w.steps
  }

  /** The verdict on the last call of a nonempty log. */
  function Last(w: Wire): Step
    requires |w.sent| > 0
  {
    w.steps[|w.sent| - 1]
  }

  /** The transaction token md5() yields from the n-th draw. */
  function TokenAt(o: Oracles, n: nat): string
  {
    Hash.HexDigest(o.digestOf(Decimal.ToString(o.rand(n))))
  }

  /** Every call of the log from position `from` on was accepted. */
  ghost predicate AllAccepted(w: Wire, from: nat)
  {
    forall i :: from <= i < |w.sent| ==> w.steps[i].Accepted?
  }

  /** No call of the log from position `from` on raised an exception. */
  ghost predicate NoneThrew(w: Wire, from: nat)
  {
    forall i :: from <= i < |w.sent| ==> !w.steps[i].Threw?
  }

  // ----- talking to the gateway -----

  /**
   * One exchange with the gateway: the call is recorded with the verdict on
   * the gateway's answer to it.
   */
  method Transmit(o: Oracles, w: Wire, call: Call) returns (w': Wire, step: Step)
    ensures step == Verdict(call, o.gateway(|w.sent|, call))
    ensures w' == Traffic(w.draws, w.sent + [call], w.steps + [step])
    ensures Judged(o, w.sent, w.steps) ==> Judged(o, w'.sent, w'.steps)
  {
    step := Verdict(call, o.gateway(|w.sent|, call));
    w' := Traffic(w.draws, w.sent + [call], w.steps + [step]);
    assert w'.sent[..|w.sent|] == w.sent && w'.steps[..|w.sent|] == w.steps;
  }

  /** md5(): a fresh transaction token, 32 hexadecimal characters, from the next draw. */
  method NewToken(o: Oracles, w: Wire) returns (w': Wire, token: string)
    ensures w' == w.(draws := w.draws + 1)
    ensures token == TokenAt(o, w.draws) && |token| == 32
  {
    token := Hash.Md5OfUid(o.rand(w.draws), o.digestOf);
    w' := w.(draws := w.draws + 1);
  }

  /** send_session_create: a "create" request under a fresh token; acceptance carries the session id. */
  method SendSessionCreate(o: Oracles, w: Wire) returns (w': Wire, step: Step)
    ensures var call := Request(SessionsTarget(), SessionCreate(TokenAt(o, w.draws)));
      && w' == Traffic(w.draws + 1, w.sent + [call], w.steps + [step])
    ensures step.Accepted? ==> step.data.Some?
    ensures Judged(o, w.sent, w.steps) ==> Judged(o, w'.sent, w'.steps)
  {
    var w1, token := NewToken(o, w);
    w', step := Transmit(o, w1, Request(SessionsTarget(), SessionCreate(token)));
  }

  /** send_session_plugin_attach: attach the streaming plugin; acceptance carries the handle id. */
  method SendPluginAttach(o: Oracles, w: Wire, sessionId: Id) returns (w': Wire, step: Step)
    ensures var call := Request(SessionTarget(sessionId), PluginAttach(TokenAt(o, w.draws), StreamingPlugin));
      && w' == Traffic(w.draws + 1, w.sent + [call], w.steps + [step])
    ensures step.Accepted? ==> step.data.Some?
    ensures Judged(o, w.sent, w.steps) ==> Judged(o, w'.sent, w'.steps)
  {
    var w1, token := NewToken(o, w);
    w', step := Transmit(o, w1, Request(SessionTarget(sessionId), PluginAttach(token, StreamingPlugin)));
  }

  /** The request the loop of create (remove false) or remove (remove true) posts for one stream. */
  function PassRequest(o: Oracles, sessionId: Id, pluginId: Id, stream: StreamInfo, draw: nat, remove: bool): Call
  {
    Request(HandleTarget(sessionId, pluginId),
      if remove then StreamDestroy(TokenAt(o, draw), stream.id) else StreamCreate(TokenAt(o, draw), MountRequest(stream)))
  }

  /** send_session_stream_create (remove false) or send_session_stream_remove (remove true) for one stream. */
  method SendPassRequest(o: Oracles, w: Wire, sessionId: Id, pluginId: Id, stream: StreamInfo, remove: bool) returns (w': Wire, step: Step)
    ensures var call := PassRequest(o, sessionId, pluginId, stream, w.draws, remove);
      && w' == Traffic(w.draws + 1, w.sent + [call], w.steps + [step])
    ensures Judged(o, w.sent, w.steps) ==> Judged(o, w'.sent, w'.steps)
  {
    var w1, token := NewToken(o, w);
    if remove {
      w', step := Transmit(o, w1, Request(HandleTarget(sessionId, pluginId), StreamDestroy(token, stream.id)));
    } else {
      w', step := Transmit(o, w1, Request(HandleTarget(sessionId, pluginId), StreamCreate(token, MountRequest(stream))));
    }
  }

  /**
   * The calls made since w start the way a session opens: the connection,
   * send_session_create under the next token, then
   * send_session_plugin_attach on the session id the create returned under
   * the token after it; each of these three calls but the last one made
   * was accepted. Later calls are not constrained.
   */
  ghost predicate Opening(o: Oracles, w: Wire, w': Wire)
  {
    var b := |w.sent|;
    && b < |w'.sent|
    && w'.sent[b] == Connect
    && (forall i :: b <= i < |w'.sent| - 1 && i < b + 3 ==> w'.steps[i].Accepted?)
    && (b + 1 < |w'.sent| ==> w'.sent[b + 1] == Request(SessionsTarget(), SessionCreate(TokenAt(o, w.draws))))
    && (b + 2 < |w'.sent| ==>
          && w'.steps[b + 1].data.Some?
          && w'.sent[b + 2] == Request(SessionTarget(w'.steps[b + 1].data.value), PluginAttach(TokenAt(o, w.draws + 1), StreamingPlugin)))
  }

  /**
   * The calls made since w are a session opening and nothing more, or
   * (with a stream to mount) followed by send_session_stream_create on the
   * two ids; every call before the last was accepted.
   */
  ghost predicate Dialogue(o: Oracles, w: Wire, w': Wire, mount: Option<StreamInfo>)
  {
    var b := |w.sent|;
    && |w'.sent| <= b + (if mount.Some? then 4 else 3)
    && Opening(o, w, w')
    && (b + 3 < |w'.sent| ==>
          && mount.Some? && w'.steps[b + 2].Accepted? && w'.steps[b + 2].data.Some?
          && w'.sent[b + 3] == PassRequest(o, w'.steps[b + 1].data.value, w'.steps[b + 2].data.value, mount.value, w.draws + 2, false))
  }


  /**
   * Constructing the http_client (which connects), then
   * send_session_create and send_session_plugin_attach, stopping at the
   * first call that is not accepted: an exception breaks the session, a
   * rejection refuses it.
   */
  method Open(o: Oracles, w: Wire) returns (w': Wire, session: Session)
    ensures Extends(w', w) && |w.sent| < |w'.sent| <= |w.sent| + 3
    ensures w'.draws == w.draws + |w'.sent| - |w.sent| - 1
    ensures Dialogue(o, w, w', None)
    ensures session.Broken? <==> Last(w').Threw?
    ensures session.Refused? <==> Last(w').Rejected?
    ensures session.Opened? <==> |w'.sent| == |w.sent| + 3 && Last(w').Accepted?
    ensures session.Opened? ==>
      && w'.sent[|w.sent| + 1] == Request(SessionsTarget(), SessionCreate(TokenAt(o, w.draws)))
      && w'.sent[|w.sent| + 2] == Request(SessionTarget(session.sessionId), PluginAttach(TokenAt(o, w.draws + 1), StreamingPlugin))
      && w'.steps[|w.sent| + 1] == Accepted(Some(session.sessionId))
      && w'.steps[|w.sent| + 2] == Accepted(Some(session.pluginId))
    ensures Judged(o, w.sent, w.steps) ==> Judged(o, w'.sent, w'.steps)
  {
    var connected;
    w', connected := Transmit(o, w, Connect);
    if connected.Threw? {
      return w', Broken;
    }
    var created;
    w', created := SendSessionCreate(o, w');
    if created.Threw? {
      return w', Broken;
    } else if created.Rejected? {
      return w', Refused;
    }
    var sessionId := created.data.value;
    var attached;
    w', attached := SendPluginAttach(o, w', sessionId);
    if attached.Threw? {
      return w', Broken;
    } else if attached.Rejected? {
      return w', Refused;
    }
    session := Opened(sessionId, attached.data.value);
  }

  /** How the gateway part of handle_streams_post ended when nothing was thrown. */
  datatype Mount = Declined | Mounted(sessionId: Id, pluginId: Id)

  /**
   * The gateway part of handle_streams_post: connect, create a session,
   * attach the plugin and ask for the stream's mountpoint, stopping at the
   * first call that is not accepted. A rejection declines the stream; an
   * exception escapes.
   */
  method MountStream(o: Oracles, w: Wire, stream: StreamInfo) returns (w': Wire, out: Result<Mount, Exception>)
    ensures Extends(w', w) && |w.sent| < |w'.sent| <= |w.sent| + 4
    ensures w'.draws == w.draws + |w'.sent| - |w.sent| - 1
    ensures Dialogue(o, w, w', Some(stream))
    ensures out.Err? <==> Last(w').Threw?
    ensures out.Err? ==> out.error == Transport
    ensures out == Ok(Declined) <==> Last(w').Rejected?
    ensures out.Ok? && out.value.Mounted? ==>
      && |w'.sent| == |w.sent| + 4 && AllAccepted(w', |w.sent|)
      && w'.steps[|w.sent| + 1] == Accepted(Some(out.value.sessionId))
      && w'.steps[|w.sent| + 2] == Accepted(Some(out.value.pluginId))
      && w'.sent[|w.sent| + 3] == PassRequest(o, out.value.sessionId, out.value.pluginId, stream, w.draws + 2, false)
    ensures Judged(o, w.sent, w.steps) ==> Judged(o, w'.sent, w'.steps)
  {
    var session;
    w', session := Open(o, w);
    if session.Broken? {
      return w', Err(Transport);
    } else if session.Refused? {
      return w', Ok(Declined);
    }
    ghost var handshake := w';
    var created;
    w', created := SendPassRequest(o, w', session.sessionId, session.pluginId, stream, false);
    assert w'.sent[..|w.sent|] == w.sent && w'.steps[..|w.sent|] == w.steps;
    if created.Threw? {
      return w', Err(Transport);
    } else if created.Rejected? {
      return w', Ok(Declined);
    }
    forall i | |w.sent| <= i < |w'.sent|
      ensures w'.steps[i].Accepted?
    {
      if i < |handshake.sent| {
        assert w'.steps[i] == handshake.steps[i];
      }
    }
    out := Ok(Mounted(session.sessionId, session.pluginId));
  }
}
