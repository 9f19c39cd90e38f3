/**
 * The control plane's globals and entry points: the registry, the port
 * cursor and the Wire, updated in place by the HTTP handlers, by the first
 * spawn and by the deadline timer. Exceptions are Err results, propagated
 * exactly as far as the source lets them travel.
 */
module Service {
  import opened Wrappers
  import opened Streams
  import opened Gateway
  import opened Control
  import opened Conversation
  import opened Passes
  import opened Renewal
  import Uri

  /**
   * The allocation range holds: the cursor satisfies gen_port's guards
   * inside [min_port, max_port], every port is in [min_port, max_port)
   * on the 4-port grid, and port + 4 cannot wrap.
   */
  ghost predicate InRange(minPort: Port, maxPort: Port, cursor: Port, streams: Registry)
  {
    && RangeOk(minPort, maxPort, cursor) && minPort <= cursor <= maxPort && maxPort <= 0xFFFB
    && PortsConfined(streams, minPort, maxPort)
  }

  /**
   * What handle_streams_post leaves behind, from the registry, cursor and
   * Wire before it to those after it. gen_id consumes the draws up to the
   * first free tagged id and the cursor moves as gen_port moves it; a
   * gen_port failure (and only that) escapes as PortFault before any
   * gateway call. Otherwise the calls follow the Dialogue order for the new
   * stream, stopping at the first not accepted: a broken connection escapes
   * as Transport and a refused call answers a bare 500; either way the last
   * verdict says which. On 200 all four calls were accepted and the
   * registry gains exactly the new stream, with the fresh tagged id and the
   * requested expiry. Otherwise the registry is unchanged.
   */
  ghost predicate Posted(o: Oracles, minPort: Port, maxPort: Port, expiresAt: TimePoint,
                         before: Registry, cursorBefore: Port, w: Wire,
                         after: Registry, cursor: Port, w': Wire, out: Result<Response, Exception>)
  {
    var (choice, next) := PortChoice(UsedPorts(before), minPort, maxPort, cursorBefore);
    && cursor == next
    && Extends(w', w) && w.draws < w'.draws
    && (choice.Err? ==> out == Err(PortFault(choice.error)))
    && (out.Err? ==> out.error == Transport || out.error.PortFault?)
    && (out.Err? && out.error.PortFault? ==>
          && choice.Err? && w'.sent == w.sent && w'.steps == w.steps
          && FirstFreeDraw(before, o.rand, w.draws, w'.draws))
    && (out == Err(Transport) ==> |w.sent| < |w'.sent| && Last(w').Threw?)
    && (out.Ok? ==> out.value.status == StatusOk || out.value == Response(StatusInternalServerError, NoBody))
    && (out == Ok(Response(StatusInternalServerError, NoBody)) ==> |w.sent| < |w'.sent| && Last(w').Rejected?)
    && (out.Ok? && out.value.status == StatusOk ==>
          && choice.Ok? && out.value.payload.OneStream?
          && var id, base := out.value.payload.stream.id, |w.sent|;
          && id !in before && 0x8000_0000 <= id < 0x1_0000_0000 && id in after
          && after == before[id := after[id]]
          && after[id] == StreamInfo(id, choice.value, expiresAt)
          && out.value.payload.stream == StreamToJson(after[id])
          && w.draws + 4 <= w'.draws && id == SetBit31(o.rand(w'.draws - 4))
          && |w'.sent| == base + 4 && AllAccepted(w', base))
    && (choice.Ok? ==>
          && |w'.sent| <= w'.draws + |w.sent|
          && var drawn := w'.draws + |w.sent| + 1 - |w'.sent|;
          && FirstFreeDraw(before, o.rand, w.draws, drawn)
          && Dialogue(o, w.(draws := drawn), w', Some(StreamInfo(SetBit31(o.rand(drawn - 1)), choice.value, Epoch))))
    && (!(out.Ok? && out.value.status == StatusOk) ==> after == before)
  }

  /**
   * The gateway part of handle_streams_post and the registration, once
   * make_stream has produced a stream: the mountpoint is asked for, and
   * the stream is renewed to the requested expiry and stored under its id
   * only when every call was accepted.
   */
  method Publish(o: Oracles, streams: Registry, w: Wire, stream: StreamInfo, expiresAt: TimePoint)
    returns (streams': Registry, w': Wire, out: Result<Response, Exception>)
    ensures Extends(w', w) && |w.sent| < |w'.sent|
    ensures w'.draws == w.draws + |w'.sent| - |w.sent| - 1
    ensures Dialogue(o, w, w', Some(stream))
    ensures out.Err? ==> out.error == Transport && Last(w').Threw?
    ensures out.Ok? ==> out.value.status == StatusOk || out.value == Response(StatusInternalServerError, NoBody)
    ensures out == Ok(Response(StatusInternalServerError, NoBody)) ==> Last(w').Rejected?
    ensures out.Ok? && out.value.status == StatusOk ==>
      && var base := |w.sent|;
      && streams' == streams[stream.id := KeepAlive(stream, expiresAt)]
      && out.value == Response(StatusOk, OneStream(StreamToJson(KeepAlive(stream, expiresAt))))
      && |w'.sent| == base + 4 && AllAccepted(w', base)
    ensures !(out.Ok? && out.value.status == StatusOk) ==> streams' == streams
    ensures Judged(o, w.sent, w.steps) ==> Judged(o, w'.sent, w'.steps)
  {
    var mounted;
    w', mounted := MountStream(o, w, stream);
    if mounted.Err? {
      return streams, w', Err(Transport);
    } else if mounted.value.Declined? {
      return streams, w', Ok(Response(StatusInternalServerError, NoBody));
    }
    var renewed := KeepAlive(stream, expiresAt);
    streams' := streams[renewed.id := renewed];
    out := Ok(Response(StatusOk, OneStream(StreamToJson(renewed))));
  }

  /**
   * handle_streams_post on the control plane's state: make_stream (whose
   * exception escapes), then Publish.
   */
  method AddStream(o: Oracles, minPort: Port, maxPort: Port, expiresAt: TimePoint, streams: Registry, cursor: Port, w: Wire)
    returns (streams': Registry, cursor': Port, w': Wire, out: Result<Response, Exception>)
    requires exists k :: w.draws <= k && SetBit31(o.rand(k)) !in streams
    ensures Posted(o, minPort, maxPort, expiresAt, streams, cursor, w, streams', cursor', w', out)
    ensures Judged(o, w.sent, w.steps) ==> Judged(o, w'.sent, w'.steps)
  {
    var made, next;
    made, next, cursor' := MakeStream(streams, o.rand, w.draws, minPort, maxPort, cursor);
    if made.Err? {
      return streams, cursor', w.(draws := next), Err(PortFault(made.error));
    }
    streams', w', out := Publish(o, streams, w.(draws := next), made.value, expiresAt);
  }

  /** A stream handed out by handle_streams_post keeps the registry sound. */
  lemma PostedKeepsSound(o: Oracles, minPort: Port, maxPort: Port, expiresAt: TimePoint,
                         before: Registry, cursorBefore: Port, w: Wire,
                         after: Registry, cursor: Port, w': Wire, out: Result<Response, Exception>)
    requires Posted(o, minPort, maxPort, expiresAt, before, cursorBefore, w, after, cursor, w', out)
    requires Sound(before)
    ensures Sound(after)
  {
    PortChoiceAllocates(UsedPorts(before), minPort, maxPort, cursorBefore);
    if out.Ok? && out.value.status == StatusOk {
      RegisterKeepsSound(before, after[out.value.payload.stream.id]);
    }
  }

  /** handle_streams_post keeps the cursor and every port inside an allocation range that holds. */
  lemma PostedKeepsInRange(o: Oracles, minPort: Port, maxPort: Port, expiresAt: TimePoint,
                           before: Registry, cursorBefore: Port, w: Wire,
                           after: Registry, cursor: Port, w': Wire, out: Result<Response, Exception>)
    requires Posted(o, minPort, maxPort, expiresAt, before, cursorBefore, w, after, cursor, w', out)
    requires InRange(minPort, maxPort, cursorBefore, before)
    ensures InRange(minPort, maxPort, cursor, after)
  {
    PortChoiceAllocates(UsedPorts(before), minPort, maxPort, cursorBefore);
    AdvanceKeepsCursor(minPort, maxPort, cursorBefore);
    if out.Ok? && out.value.status == StatusOk {
      RegisterKeepsConfined(before, after[out.value.payload.stream.id], minPort, maxPort);
    }
  }

  /** A respawn followed by a remove pass: the Wire passes through the Wire between them. */
  lemma Reconciled(o: Oracles, w: Wire, mid: Wire, w': Wire, registry: Registry, probe: Option<bool>, launched: bool,
                   respawned: Result<Option<Spawned>, Exception>, swept: Registry, removed: Result<Pass, Exception>)
    requires Respawned(o, w, mid, registry, probe, launched, respawned)
    requires Synced(o, mid, w', swept, true, removed)
    ensures exists m: Wire :: Respawned(o, w, m, registry, probe, launched, respawned) && Synced(o, m, w', swept, true, removed)
    ensures Extends(w', w)
  {
    assert w'.sent[..|w.sent|] == mid.sent[..|w.sent|];
    assert w'.steps[..|w.sent|] == mid.steps[..|w.sent|];
  }

  /**
   * The globals of the control plane that the handlers and the deadline
   * timer update in place: the registry, the port cursor, and the Wire.
   * The port range, the oracles and the path decomposition are fixed.
   */
  class Manager {
    var streams: Registry
    var cursor: Port
    var wire: Wire

    const minPort: Port
    const maxPort: Port
    const oracles: Oracles
    /** The boost::filesystem decomposition of a request path. */
    const pathOf: string -> PathView

    /**
     * The manager's invariant: entries under their own ids, ids with bit
     * 31 set, ports nonzero and pairwise distinct; and each recorded
     * verdict is the one the gateway's answer to that call yields.
     */
    ghost predicate Valid()
      reads this
    {
      Sound(streams) && Judged(oracles, wire.sent, wire.steps)
    }

    /** The allocation range holds for the cursor and the registry. */
    ghost predicate Confined()
      reads this
    {
      InRange(minPort, maxPort, cursor, streams)
    }

    /** Some later draw yields an unused id, so that gen_id returns. */
    ghost predicate IdAvailable()
      reads this
    {
      exists k :: wire.draws <= k && SetBit31(oracles.rand(k)) !in streams
    }

    /**
     * The state at startup: an empty registry, the cursor at its static
     * initial value, no draws and no gateway calls yet.
     */
    constructor(minPort: Port, maxPort: Port, cursor: Port, oracles: Oracles, pathOf: string -> PathView)
      ensures this.minPort == minPort && this.maxPort == maxPort && this.cursor == cursor
      ensures this.oracles == oracles && this.pathOf == pathOf
      ensures streams == map[] && wire == Traffic(0, [], [])
      ensures Valid()
    {
      this.minPort, this.maxPort, this.cursor := minPort, maxPort, cursor;
      this.oracles, this.pathOf := oracles, pathOf;
      streams, wire := map[], Traffic(0, [], []);
    }

    // ----- the stream handlers -----

    /** handle_streams_post on the globals. */
    method PostStreams(expiresAt: TimePoint) returns (out: Result<Response, Exception>)
      requires IdAvailable()
      modifies this
      ensures Posted(oracles, minPort, maxPort, expiresAt, old(streams), old(cursor), old(wire), streams, cursor, wire, out)
      ensures old(Valid()) ==> Valid()
      ensures old(Confined()) ==> Confined()
    {
      streams, cursor, wire, out := AddStream(oracles, minPort, maxPort, expiresAt, streams, cursor, wire);
      if old(Sound(streams)) {
        PostedKeepsSound(oracles, minPort, maxPort, expiresAt, old(streams), old(cursor), old(wire), streams, cursor, wire, out);
      }
      if old(Confined()) {
        PostedKeepsInRange(oracles, minPort, maxPort, expiresAt, old(streams), old(cursor), old(wire), streams, cursor, wire, out);
      }
    }

    /** handle_streams_get: every stream's record in key order (JSON null when there is none). */
    method GetStreams() returns (res: Response)
      ensures res == Response(StatusOk, ListPayload(streams))
    {
      var keys := KeysInOrder(streams.Keys);
      var items := [];
      for i := 0 to |keys|
        invariant items == Listing(streams)[..i]
      {
        items := items + [StreamToJson(streams[keys[i]])];
      }
      assert items == Listing(streams);
      if streams != map[] {
        var k :| k in streams;
        assert k in keys;
      }
      res := Response(StatusOk, if |items| == 0 then JsonNull else StreamList(items));
    }

    /** handle_streams_put: renew every stream to the same expiry, then list them. */
    method PutStreams(expiresAt: TimePoint) returns (res: Response)
      modifies this
      ensures streams == Renewed(old(streams), expiresAt)
      ensures res == Response(StatusOk, ListPayload(streams))
      ensures cursor == old(cursor) && wire == old(wire)
      ensures old(Valid()) ==> Valid()
      ensures old(Confined()) ==> Confined()
    {
      ghost var before := streams;
      var renewed, items := RenewAll(streams, expiresAt);
      streams := renewed;
      SubRegistryKeepsSound(before, streams, minPort, maxPort);
      res := Response(StatusOk, if |items| == 0 then JsonNull else StreamList(items));
    }

    /** handle_streams_id_get: the record of one registered stream. */
    method GetStream(id: Id) returns (res: Response)
      requires id in streams
      ensures res.status == StatusOk && res.payload.OneStream?
      ensures res.payload.stream.id == streams[id].id && res.payload.stream == StreamToJson(streams[id])
    {
      res := Response(StatusOk, OneStream(StreamToJson(streams[id])));
    }

    /** handle_streams_id_put: renew one stream; every other entry is untouched. */
    method PutStream(id: Id, expiresAt: TimePoint) returns (res: Response)
      requires id in streams
      modifies this
      ensures streams == old(streams)[id := KeepAlive(old(streams)[id], expiresAt)]
      ensures res == Response(StatusOk, OneStream(StreamToJson(streams[id])))
      ensures cursor == old(cursor) && wire == old(wire)
      ensures old(Valid()) ==> Valid()
      ensures old(Confined()) ==> Confined()
    {
      ghost var before := streams;
      streams := streams[id := KeepAlive(streams[id], expiresAt)];
      SubRegistryKeepsSound(before, streams, minPort, maxPort);
      res := Response(StatusOk, OneStream(StreamToJson(streams[id])));
    }

    // ----- dispatch -----

    /**
     * What handle does, from the state before it to the state after it:
     * split the target, route by path shape and method, and run the
     * handler; POST and PUT handlers are passed the expiry computed from
     * the query (the clock is read only for them). std::stoul's exception and the exceptions of
     * handle_streams_post escape as Err.
     */
    twostate predicate Handled(verb: Verb, target: string, now: TimePoint, new out: Result<Response, Exception>)
      reads this
    {
      var uri := Uri.MakeUri(target);
      var action := Route(verb, pathOf(uri.path), old(streams));
      var t := if action.ReadsClock() && now < MaxTime - Minute then ExpiresAt(uri.query, now) else now;
      && (action == NotFound ==> out == Ok(Response(StatusNotFound, NoBody)))
      && (action == MethodNotAllowed ==> out == Ok(Response(StatusMethodNotAllowed, NoBody)))
      && (action == BadId ==> out == Err(BadStreamId))
      && (action == Create ==> Posted(oracles, minPort, maxPort, t, old(streams), old(cursor), old(wire), streams, cursor, wire, out))
      && (action == List ==> out == Ok(Response(StatusOk, ListPayload(old(streams)))))
      && (action == Renew ==> streams == Renewed(old(streams), t) && out == Ok(Response(StatusOk, ListPayload(streams))))
      && (action.Show? ==> out == Ok(Response(StatusOk, OneStream(StreamToJson(old(streams)[action.id])))))
      && (action.RenewOne? ==>
            && streams == old(streams)[action.id := KeepAlive(old(streams)[action.id], t)]
            && out == Ok(Response(StatusOk, OneStream(StreamToJson(streams[action.id])))))
      && (action != Create ==> cursor == old(cursor) && wire == old(wire))
      && (!action.Create? && !action.Renew? && !action.RenewOne? ==> streams == old(streams))
    }

    /** handle on the globals. */
    method Handle(verb: Verb, target: string, now: TimePoint) returns (out: Result<Response, Exception>)
      requires Route(verb, pathOf(Uri.MakeUri(target).path), streams) == Create ==> IdAvailable()
      requires Route(verb, pathOf(Uri.MakeUri(target).path), streams).ReadsClock() ==> now < MaxTime - Minute
      modifies this
      ensures Handled(verb, target, now, out)
      ensures old(Valid()) ==> Valid()
      ensures old(Confined()) ==> Confined()
    {
      var uri := Uri.MakeUri(target);
      var action := Route(verb, pathOf(uri.path), streams);
      match action
      case NotFound =>
        out := Ok(Response(StatusNotFound, NoBody));
      case MethodNotAllowed =>
        out := Ok(Response(StatusMethodNotAllowed, NoBody));
      case BadId =>
        out := Err(BadStreamId);
      case Create =>
        out := PostStreams(ExpiresAt(uri.query, now));
      case List =>
        var res := GetStreams();
        out := Ok(res);
      case Renew =>
        var res := PutStreams(ExpiresAt(uri.query, now));
        out := Ok(res);
      case Show(id) =>
        var res := GetStream(id);
        out := Ok(res);
      case RenewOne(id) =>
        var res := PutStream(id, ExpiresAt(uri.query, now));
        out := Ok(res);
    }

    /**
     * handle_safe: handle's response passes through, and any exception
     * from handle becomes a bare 500 response; `handled` is what handle
     * returned.
     */
    method HandleSafe(verb: Verb, target: string, now: TimePoint) returns (res: Response, ghost handled: Result<Response, Exception>)
      requires Route(verb, pathOf(Uri.MakeUri(target).path), streams) == Create ==> IdAvailable()
      requires Route(verb, pathOf(Uri.MakeUri(target).path), streams).ReadsClock() ==> now < MaxTime - Minute
      modifies this
      ensures Handled(verb, target, now, handled)
      ensures res == (if handled.Err? then Response(StatusInternalServerError, NoBody) else handled.value)
      ensures res.status in {StatusOk, StatusNotFound, StatusMethodNotAllowed, StatusInternalServerError}
      ensures res.status == StatusInternalServerError ==> res.payload == NoBody && streams == old(streams)
      ensures old(Valid()) ==> Valid()
      ensures old(Confined()) ==> Confined()
    {
      var out := Handle(verb, target, now);
      handled := out;
      match out
      case Ok(r) => res := r;
      case Err(_) => res := Response(StatusInternalServerError, NoBody);
    }

    // ----- the gateway process and the deadline timer -----

    /**
     * work's start: spawn over the current registry (empty at startup, so
     * a launched gateway is settled at once, without any gateway call).
     */
    method Start(launched: bool) returns (out: Result<Spawned, Exception>)
      modifies this
      ensures streams == old(streams) && cursor == old(cursor)
      ensures Spawns(oracles, old(wire), wire, streams, launched, out)
      ensures launched && streams == map[] ==> out == Ok(Spawned(1, true)) && wire == old(wire)
      ensures old(Valid()) ==> Valid()
      ensures old(Confined()) ==> Confined()
    {
      var w;
      w, out := Spawn(oracles, wire, streams, launched);
      wire := w;
      if launched && streams == map[] {
        SpawnsOverEmpty(oracles, old(wire), wire, launched, out);
      }
    }

    /**
     * remove(expired(streams)): sweep the due entries out of the registry,
     * then destroy their mountpoints. The entries are gone from the
     * registry whatever the gateway answers.
     */
    method Expire(now: TimePoint) returns (gone: Registry, out: Result<Pass, Exception>)
      modifies this
      ensures streams == Live(old(streams), now) && cursor == old(cursor)
      ensures gone == Swept(old(streams), KeysInOrder(old(streams).Keys), now)
      ensures WellKeyed(old(streams)) ==> gone == Expired(old(streams), now) && streams + gone == old(streams)
      ensures Synced(oracles, old(wire), wire, gone, true, out)
      ensures old(Valid()) ==> Valid()
      ensures old(Confined()) ==> Confined()
    {
      ghost var before := streams;
      var kept;
      kept, gone := Sweep(streams, now);
      streams := kept;
      SubRegistryKeepsSound(before, streams, minPort, maxPort);
      if WellKeyed(before) {
        SweepPartitions(before, now);
      }
      var w;
      w, out := SyncMountpoints(oracles, wire, gone, true);
      wire := w;
    }

    /**
     * One expiry of the deadline timer: nothing when the wait was aborted;
     * otherwise respawn (its exception caught), then the expiry pass (its
     * exception caught), then the timer is armed again.
     */
    method Tick(aborted: bool, probe: Option<bool>, launched: bool, now: TimePoint)
      returns (rearm: bool, respawned: Result<Option<Spawned>, Exception>, removed: Result<Pass, Exception>)
      modifies this
      ensures rearm == !aborted
      ensures aborted ==> streams == old(streams) && cursor == old(cursor) && wire == old(wire)
      ensures !aborted ==> streams == Live(old(streams), now) && cursor == old(cursor)
      ensures !aborted ==> exists mid: Wire ::
        && Respawned(oracles, old(wire), mid, old(streams), probe, launched, respawned)
        && Synced(oracles, mid, wire, Swept(old(streams), KeysInOrder(old(streams).Keys), now), true, removed)
      ensures Extends(wire, old(wire))
      ensures old(Valid()) ==> Valid()
      ensures old(Confined()) ==> Confined()
    {
      if aborted {
        return false, Ok(None), Ok(Idle);
      }
      var w;
      w, respawned := Respawn(oracles, wire, streams, probe, launched);
      wire := w;
      ghost var afterRespawn := wire;
      var gone;
      gone, removed := Expire(now);
      Reconciled(oracles, old(wire), afterRespawn, wire, old(streams), probe, launched, respawned, gone, removed);
      rearm := true;
    }
  }
}
