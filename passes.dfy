/**
 * The create and remove passes over a registry snapshot, and the spawning
 * of the gateway process, which retries the create pass.
 */
module Passes {
  import opened Wrappers
  import opened Streams
  import opened Gateway
  import opened Conversation

  /** The number of create attempts spawn makes. */
  const Retries: nat := 256

  /**
   * How create or remove returned: nothing to do, no session, or every
   * stream visited in the session and plugin handle it opened.
   */
  datatype Pass = Idle | Unopened | Completed(sessionId: Id, pluginId: Id)

  /** How spawn returned: the number of create attempts and whether the last one returned normally. */
  datatype Spawned = Spawned(attempts: nat, settled: bool)

  /** The registered streams in iteration order: ascending by key. */
  function EntriesInOrder(snapshot: Registry): (e: seq<StreamInfo>)
    ensures |e| == |KeysInOrder(snapshot.Keys)|
  {
    var keys := KeysInOrder(snapshot.Keys);
    seq(|keys|, j requires 0 <= j < |keys| => snapshot[keys[j]])
  }

  /** The requests of the first n iterations of the loop of create (or remove) over the given streams. */
  function PassRequests(o: Oracles, sessionId: Id, pluginId: Id, entries: seq<StreamInfo>, firstDraw: nat, remove: bool, n: nat): seq<Call>
    requires n <= |entries|
  {
    seq(n, j requires 0 <= j < n => PassRequest(o, sessionId, pluginId, entries[j], firstDraw + j, remove))
  }

  /** One more iteration appends the next stream's request. */
  lemma PassRequestsGrow(log: seq<Call>, o: Oracles, sessionId: Id, pluginId: Id, entries: seq<StreamInfo>, firstDraw: nat, remove: bool, n: nat)
    requires n < |entries|
    ensures log + PassRequests(o, sessionId, pluginId, entries, firstDraw, remove, n + 1)
         == log + PassRequests(o, sessionId, pluginId, entries, firstDraw, remove, n)
            + [PassRequest(o, sessionId, pluginId, entries[n], firstDraw + n, remove)]
  {
  }

  /**
   * The loop of create (or remove) inside an opened session: one request per
   * stream in iteration order, each under the next token. A rejected
   * request is skipped; an exception ends the loop with that call last.
   */
  method EachStream(o: Oracles, w: Wire, sessionId: Id, pluginId: Id, entries: seq<StreamInfo>, remove: bool) returns (w': Wire, threw: bool)
    ensures Extends(w', w)
    ensures var n := |w'.sent| - |w.sent|;
      && 0 <= n <= |entries| && w'.draws == w.draws + n
      && w'.sent == w.sent + PassRequests(o, sessionId, pluginId, entries, w.draws, remove, n)
    ensures threw <==> |w.sent| < |w'.sent| && Last(w').Threw?
    ensures threw ==> forall i :: |w.sent| <= i < |w'.sent| - 1 ==> !w'.steps[i].Threw?
    ensures !threw ==> |w'.sent| == |w.sent| + |entries| && NoneThrew(w', |w.sent|)
    ensures Judged(o, w.sent, w.steps) ==> Judged(o, w'.sent, w'.steps)
  {
    w' := w;
    for i := 0 to |entries|
      invariant w'.draws == w.draws + i
      invariant w'.sent == w.sent + PassRequests(o, sessionId, pluginId, entries, w.draws, remove, i)
      invariant w'.steps[..|w.sent|] == w.steps
      invariant NoneThrew(w', |w.sent|)
      invariant Judged(o, w.sent, w.steps) ==> Judged(o, w'.sent, w'.steps)
    {
      PassRequestsGrow(w.sent, o, sessionId, pluginId, entries, w.draws, remove, i);
      ghost var before := w';
      var step;
      w', step := SendPassRequest(o, w', sessionId, pluginId, entries[i], remove);
      assert w'.steps[..|w.sent|] == before.steps[..|w.sent|];
      if step.Threw? {
        assert w'.sent[..|w.sent|] == w.sent;
        assert w'.steps[..|before.sent|] == before.steps;
        return w', true;
      }
    }
    assert w'.sent[..|w.sent|] == w.sent;
    threw := false;
  }

  /**
   * What create(snapshot) (remove false) or remove(snapshot) (remove true)
   * does to the Wire, and how it returns: nothing for an empty snapshot;
   * otherwise the session opens (Opening), then the stream requests follow
   * in key order on the two ids, and an exception, which ends the pass, is
   * the only verdict of the pass that is one.
   */
  ghost predicate Synced(o: Oracles, w: Wire, w': Wire, snapshot: Registry, remove: bool, out: Result<Pass, Exception>)
  {
    && Extends(w', w)
    && w'.draws + |w.sent| + (if out == Ok(Idle) then 0 else 1) == w.draws + |w'.sent|
    && (out == Ok(Idle) <==> snapshot == map[])
    && (out == Ok(Idle) ==> w' == w)
    && (out != Ok(Idle) ==>
          && |w.sent| < |w'.sent|
          && Opening(o, w, w'))
    && (out.Err? ==> out == Err(Transport) && |w.sent| < |w'.sent| && Last(w').Threw?)
    && (out.Err? && |w.sent| + 3 < |w'.sent| ==>
          var entries, base := EntriesInOrder(snapshot), |w.sent| + 3;
          && |w'.sent| <= base + |entries|
          && w'.steps[base - 2].data.Some? && w'.steps[base - 1].Accepted? && w'.steps[base - 1].data.Some?
          && w'.sent[base..] == PassRequests(o, w'.steps[base - 2].data.value, w'.steps[base - 1].data.value,
                                             entries, w.draws + 2, remove, |w'.sent| - base)
          && forall i :: base <= i < |w'.sent| - 1 ==> !w'.steps[i].Threw?)
    && (out == Ok(Unopened) ==> |w.sent| < |w'.sent| <= |w.sent| + 3 && Last(w').Rejected?)
    && (out.Ok? && out.value.Completed? ==>
          var entries, base := EntriesInOrder(snapshot), |w.sent| + 3;
          && |w'.sent| == base + |entries|
          && w'.sent[|w.sent|] == Connect
          && w'.steps[base - 2] == Accepted(Some(out.value.sessionId))
          && w'.steps[base - 1] == Accepted(Some(out.value.pluginId))
          && w'.sent[base..] == PassRequests(o, out.value.sessionId, out.value.pluginId, entries, w.draws + 2, remove, |entries|)
          && NoneThrew(w', base))
    && (Judged(o, w.sent, w.steps) ==> Judged(o, w'.sent, w'.steps))
  }

  /**
   * create(snapshot) (remove false) and remove(snapshot) (remove true):
   * nothing for an empty snapshot; otherwise a session, then one create (or
   * destroy) request per stream in key order. A rejected request is
   * skipped, an exception ends the pass and escapes.
   */
  method SyncMountpoints(o: Oracles, w: Wire, snapshot: Registry, remove: bool) returns (w': Wire, out: Result<Pass, Exception>)
    ensures Synced(o, w, w', snapshot, remove, out)
  {
    if snapshot == map[] {
      return w, Ok(Idle);
    }
    var w1, session := Open(o, w);
    if session.Broken? {
      return w1, Err(Transport);
    } else if session.Refused? {
      return w1, Ok(Unopened);
    }
    w', out := PassOverEntries(o, w, w1, session.sessionId, session.pluginId, snapshot, remove);
  }

  /**
   * The loop of create(snapshot) / remove(snapshot) once the session is
   * open (w1 is w after the connection and the two accepted session
   * calls): the pass ends in Err when a request throws, and completes
   * otherwise.
   */
  method PassOverEntries(o: Oracles, w: Wire, w1: Wire, sessionId: Id, pluginId: Id, snapshot: Registry, remove: bool)
    returns (w': Wire, out: Result<Pass, Exception>)
    requires snapshot != map[]
    requires Extends(w1, w) && |w1.sent| == |w.sent| + 3 && w1.draws == w.draws + 2
    requires Dialogue(o, w, w1, None)
    requires w1.steps[|w.sent| + 1] == Accepted(Some(sessionId)) && w1.steps[|w.sent| + 2] == Accepted(Some(pluginId))
    requires Judged(o, w.sent, w.steps) ==> Judged(o, w1.sent, w1.steps)
    ensures Synced(o, w, w', snapshot, remove, out)
  {
    var threw;
    w', threw := EachStream(o, w1, sessionId, pluginId, EntriesInOrder(snapshot), remove);
    assert w'.sent[..|w.sent|] == w1.sent[..|w.sent|] && w'.steps[..|w.sent|] == w1.steps[..|w.sent|];
    assert w'.sent[|w.sent|] == w1.sent[|w.sent|];
    if threw {
      return w', Err(Transport);
    }
    assert w'.steps[|w1.sent| - 2] == w1.steps[|w1.sent| - 2] && w'.steps[|w1.sent| - 1] == w1.steps[|w1.sent| - 1];
    out := Ok(Completed(sessionId, pluginId));
  }

  // ----- the gateway process -----

  /**
   * w' is w after n create passes over the registry in a row, each but the
   * last ending in an exception (Transport); the last returned normally
   * exactly when settled. No pass at all leaves w as it is.
   */
  ghost predicate Retried(o: Oracles, w: Wire, w': Wire, registry: Registry, n: nat, settled: bool)
    decreases n
  {
    if n == 0 then w' == w && !settled
    else exists mid: Wire, pass: Result<Pass, Exception> ::
      && Retried(o, w, mid, registry, n - 1, false)
      && Synced(o, mid, w', registry, false, pass)
      && (pass.Ok? <==> settled)
  }

  /** One more create pass after n that all threw makes n + 1 passes. */
  lemma RetriedStep(o: Oracles, w: Wire, mid: Wire, w': Wire, registry: Registry, n: nat, pass: Result<Pass, Exception>)
    requires Retried(o, w, mid, registry, n, false)
    requires Synced(o, mid, w', registry, false, pass)
    ensures Retried(o, w, w', registry, n + 1, pass.Ok?)
  {
  }

  /** One create pass of spawn's loop, after `n` that threw. */
  method Attempt(o: Oracles, w: Wire, cur: Wire, registry: Registry, ghost n: nat) returns (w': Wire, pass: Result<Pass, Exception>)
    requires Retried(o, w, cur, registry, n, false)
    ensures Retried(o, w, w', registry, n + 1, pass.Ok?)
  {
    w', pass := SyncMountpoints(o, cur, registry, false);
    RetriedStep(o, w, cur, w', registry, n, pass);
  }

  /** A Wire that extends one extending w extends w. */
  lemma ExtendsTrans(w: Wire, mid: Wire, w': Wire)
    requires Extends(mid, w) && Extends(w', mid)
    ensures Extends(w', w)
  {
    assert w'.sent[..|w.sent|] == mid.sent[..|w.sent|] && w'.steps[..|w.sent|] == mid.steps[..|w.sent|];
  }

  /** Create passes only append to the Wire, each call with its verdict. */
  lemma {:induction false} RetriedFrame(o: Oracles, w: Wire, w': Wire, registry: Registry, n: nat, settled: bool)
    requires Retried(o, w, w', registry, n, settled)
    ensures Extends(w', w)
    ensures Judged(o, w.sent, w.steps) ==> Judged(o, w'.sent, w'.steps)
    decreases n
  {
    if n > 0 {
      var mid: Wire, pass: Result<Pass, Exception> :| Retried(o, w, mid, registry, n - 1, false) && Synced(o, mid, w', registry, false, pass) && (pass.Ok? <==> settled);
      RetriedFrame(o, w, mid, registry, n - 1, false);
      ExtendsTrans(w, mid, w');
    }
  }

  /**
   * What spawn does: a launch failure escapes with the Wire untouched;
   * otherwise between 1 and Retries create passes, stopping at the first
   * that returns normally, and all Retries of them only when none does.
   */
  ghost predicate Spawns(o: Oracles, w: Wire, w': Wire, registry: Registry, launched: bool, out: Result<Spawned, Exception>)
  {
    && (out.Err? <==> !launched)
    && (out.Err? ==> out.error == LaunchFailure && w' == w)
    && (out.Ok? ==>
          && 1 <= out.value.attempts <= Retries && (out.value.settled || out.value.attempts == Retries)
          && Retried(o, w, w', registry, out.value.attempts, out.value.settled))
    && Extends(w', w)
    && (Judged(o, w.sent, w.steps) ==> Judged(o, w'.sent, w'.steps))
  }

  /**
   * A pass over an empty registry returns at once without a call, so
   * spawn over it settles on its first attempt.
   */
  lemma {:induction false} SpawnsOverEmpty(o: Oracles, w: Wire, w': Wire, launched: bool, out: Result<Spawned, Exception>)
    requires Spawns(o, w, w', map[], launched, out) && launched
    ensures out == Ok(Spawned(1, true)) && w' == w
  {
    var n, settled := out.value.attempts, out.value.settled;
    var mid: Wire, pass: Result<Pass, Exception> :| Retried(o, w, mid, map[], n - 1, false) && Synced(o, mid, w', map[], false, pass) && (pass.Ok? <==> settled);
    assert pass == Ok(Idle) && w' == mid;
    if n > 1 {
      assert false;
    }
  }

  /**
   * spawn: launch the gateway (an exception if that fails), then up to
   * Retries create passes over the registry, stopping at the first that
   * returns normally. The rethrow in the catch block tests
   * retry == retries inside a loop that runs only while retry < retries,
   * so it never fires: exhausting the attempts returns normally.
   */
  method Spawn(o: Oracles, w: Wire, registry: Registry, launched: bool) returns (w': Wire, out: Result<Spawned, Exception>)
    ensures Spawns(o, w, w', registry, launched, out)
  {
    if !launched {
      return w, Err(LaunchFailure);
    }
    w' := w;
    var retry := 0;
    while retry < Retries
      invariant 0 <= retry <= Retries
      invariant Retried(o, w, w', registry, retry, false)
    {
      var pass;
      w', pass := Attempt(o, w, w', registry, retry);
      if pass.Ok? {
        RetriedFrame(o, w, w', registry, retry + 1, true);
        return w', Ok(Spawned(retry + 1, true));
      }
      // The catch block: retry < Retries holds here, so its rethrow test never succeeds.
      assert retry < Retries;
      retry := retry + 1;
    }
    RetriedFrame(o, w, w', registry, Retries, false);
    out := Ok(Spawned(Retries, false));
  }

  /** The spawn outcome a dead-process respawn reports. */
  function Unwrap(r: Result<Option<Spawned>, Exception>): Result<Spawned, Exception>
    requires r.Err? || r.value.Some?
  {
    if r.Err? then Err(r.error) else Ok(r.value.value)
  }

  /**
   * What respawn does: nothing while the process runs (the probe says it
   * has not exited); otherwise it spawns, and reports spawn's outcome.
   */
  ghost predicate Respawned(o: Oracles, w: Wire, w': Wire, registry: Registry, probe: Option<bool>, launched: bool,
                            out: Result<Option<Spawned>, Exception>)
  {
    && (probe == Some(false) ==> w' == w && out == Ok(None))
    && (probe != Some(false) ==> (out.Err? || out.value.Some?) && Spawns(o, w, w', registry, launched, Unwrap(out)))
    && Extends(w', w)
    && (Judged(o, w.sent, w.steps) ==> Judged(o, w'.sent, w'.steps))
  }

  /**
   * respawn: probe the process (Some(exited) from wait_for, None when
   * wait_for throws, which counts as dead) and spawn again when it is dead.
   */
  method Respawn(o: Oracles, w: Wire, registry: Registry, probe: Option<bool>, launched: bool)
    returns (w': Wire, out: Result<Option<Spawned>, Exception>)
    ensures Respawned(o, w, w', registry, probe, launched, out)
  {
    var dead := probe != Some(false);
    if !dead {
      return w, Ok(None);
    }
    var spawned;
    w', spawned := Spawn(o, w, registry, launched);
    if spawned.Err? {
      return w', Err(spawned.error);
    }
    out := Ok(Some(spawned.value));
  }
}
