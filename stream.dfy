/**
 * The stream allocator and registry: identifiers drawn from std::rand with
 * bit 31 forced on, base ports handed out in 4-port blocks by a rotating
 * cursor, keep-alive, and the sweep that moves expired entries out of the
 * registry. The registry is a std::map from id to stream, iterated in
 * ascending key order.
 */
module Streams {
  import opened Wrappers

  type Word32 = x: int | 0 <= x < 0x1_0000_0000
  type Port = x: int | 0 <= x < 0x1_0000
  type Id = x: int | 0 <= x < 0x1_0000_0000_0000_0000

  /** A system_clock time point: a signed 64-bit tick count (nanoseconds in libstdc++). */
  const MinTime: int := -0x8000_0000_0000_0000
  const MaxTime: int := 0x7FFF_FFFF_FFFF_FFFF
  type TimePoint = t: int | MinTime <= t <= MaxTime

  /** The default-constructed time point: the clock's epoch. */
  const Epoch: TimePoint := 0

  datatype StreamInfo = StreamInfo(id: Id, port: Port, expiresAt: TimePoint)

  type Registry = map<Id, StreamInfo>

  /** The two std::out_of_range errors gen_port throws. */
  datatype Fault = InvalidRange | NoMorePorts

  /** Every entry is stored under its own id, as every insertion does. */
  ghost predicate WellKeyed(streams: Registry)
  {
    forall k :: k in streams ==> streams[k].id == k
  }

  /**
   * What every registry the control plane builds satisfies: entries under
   * their own ids, ids with bit 31 set, ports nonzero and pairwise distinct.
   */
  ghost predicate Sound(streams: Registry)
  {
    && WellKeyed(streams)
    && (forall k :: k in streams ==> 0x8000_0000 <= k < 0x1_0000_0000 && streams[k].port != 0)
    && (forall j, k :: j in streams && k in streams && j != k ==> streams[j].port != streams[k].port)
  }

  /** Every port lies in [minPort, maxPort) on the 4-port grid starting at minPort. */
  ghost predicate PortsConfined(streams: Registry, minPort: Port, maxPort: Port)
  {
    forall k :: k in streams ==> minPort <= streams[k].port < maxPort && (streams[k].port - minPort) % 4 == 0
  }

  /** Registering a stream with a fresh tagged id and an unused nonzero port keeps a registry sound. */
  lemma RegisterKeepsSound(streams: Registry, stream: StreamInfo)
    requires Sound(streams) && stream.id !in streams && 0x8000_0000 <= stream.id < 0x1_0000_0000
    requires stream.port != 0 && stream.port !in UsedPorts(streams)
    ensures Sound(streams[stream.id := stream])
  {
    var after := streams[stream.id := stream];
    forall j, k | j in after && k in after && j != k
      ensures after[j].port != after[k].port
    {
      if j == stream.id {
        assert after[k] == streams[k];
      } else if k == stream.id {
        assert after[j] == streams[j];
      }
    }
  }

  /** Registering a stream whose port is in range and on the grid keeps the ports confined. */
  lemma RegisterKeepsConfined(streams: Registry, stream: StreamInfo, minPort: Port, maxPort: Port)
    requires PortsConfined(streams, minPort, maxPort)
    requires minPort <= stream.port < maxPort && (stream.port - minPort) % 4 == 0
    ensures PortsConfined(streams[stream.id := stream], minPort, maxPort)
  {
  }

  /**
   * Dropping entries and changing expiries keeps a registry sound and its
   * ports confined: only ids and ports matter to either.
   */
  lemma SubRegistryKeepsSound(before: Registry, after: Registry, minPort: Port, maxPort: Port)
    requires after.Keys <= before.Keys
    requires forall k :: k in after ==> after[k].id == before[k].id && after[k].port == before[k].port
    ensures Sound(before) ==> Sound(after)
    ensures PortsConfined(before, minPort, maxPort) ==> PortsConfined(after, minPort, maxPort)
  {
  }

  // ----- identifiers -----

  /** res |= 0x80000000 on a 32-bit value: bit 31 on, the other bits kept. */
  function SetBit31(x: Word32): (r: Word32)
    ensures r >= 0x8000_0000
    ensures r % 0x8000_0000 == x % 0x8000_0000
  {
    if x < 0x8000_0000 then x + 0x8000_0000 else x
  }

  /**
   * gen_id: the candidates rand(from), rand(from + 1), ... each get bit 31
   * set; the first that is nonzero and not a key of streams is returned,
   * with the index of the next unused draw. The source loops for ever when
   * no such draw comes, so the requires names the draw that ends the loop.
   */
  method GenId(streams: Registry, rand: nat -> Word32, from: nat) returns (id: Id, next: nat)
    requires exists k :: from <= k && SetBit31(rand(k)) !in streams
    ensures 0x8000_0000 <= id < 0x1_0000_0000 && id !in streams
    ensures from < next && id == SetBit31(rand(next - 1))
    ensures forall k :: from <= k < next - 1 ==> SetBit31(rand(k)) in streams
  {
    ghost var w :| from <= w && SetBit31(rand(w)) !in streams;
    var k := from;
    while true
      invariant from <= k <= w
      invariant forall j :: from <= j < k ==> SetBit31(rand(j)) in streams
      decreases w - k
    {
      var res := SetBit31(rand(k));
      if res != 0 && res !in streams {
        return res, k + 1;
      }
      k := k + 1;
    }
  }

  // ----- ports -----

  /** The base ports of the registered streams. */
  function UsedPorts(streams: Registry): set<int>
  {
    set k | k in streams :: streams[k].port
  }

  /** has_port: a scan over every entry for one whose port is the given one. */
  method HasPort(streams: Registry, port: int) returns (found: bool)
    ensures found <==> port in UsedPorts(streams)
  {
    var unvisited := streams.Keys;
    while unvisited != {}
      invariant unvisited <= streams.Keys
      invariant forall k :: k in streams && k !in unvisited ==> streams[k].port != port
      decreases unvisited
    {
      var k :| k in unvisited;
      if streams[k].port == port {
        return true;
      }
      unvisited := unvisited - {k};
    }
    return false;
  }

  /**
   * The two guards of gen_port, on int-promoted uint16 values; C's
   * truncating % and Dafny's % agree on whether the remainder is zero.
   */
  predicate RangeOk(minPort: Port, maxPort: Port, port: Port)
  {
    (maxPort + 1 - minPort) % 4 == 0 && (maxPort + 1 - port) % 4 == 0
  }

  /** The first candidate from, from + 4, ... below bound that is nonzero and unused. */
  function FirstFreePort(used: set<int>, from: int, bound: int): (r: Option<int>)
    ensures r.Some? ==> from <= r.value < bound
    decreases bound - from
  {
    if from >= bound then None
    else if from != 0 && from !in used then Some(from)
    else FirstFreePort(used, from + 4, bound)
  }

  /** port += 4 on the uint16 cursor (wrapping modulo 2^16), then back to min_port if past max_port. */
  function Advance(minPort: Port, maxPort: Port, port: Port): Port
  {
    var next := (port + 4) % 0x1_0000;
    if next > maxPort then minPort else next
  }

  /**
   * What gen_port returns and where it leaves the cursor: the first free
   * candidate scanning forward from the cursor to max_port, else the first
   * scanning from min_port up to the cursor; the cursor moves only on success.
   */
  function PortChoice(used: set<int>, minPort: Port, maxPort: Port, port: Port): (Result<Port, Fault>, Port)
  {
    if !RangeOk(minPort, maxPort, port) then (Err(InvalidRange), port)
    else
      match FirstFreePort(used, port, maxPort)
      case Some(p) => (Ok(p as Port), Advance(minPort, maxPort, port))
      case None =>
        match FirstFreePort(used, minPort, port)
        case Some(p) => (Ok(p as Port), Advance(minPort, maxPort, port))
        case None => (Err(NoMorePorts), port)
  }

  /** gen_port: the two scans of the source, each probing with has_port. */
  method GenPort(streams: Registry, minPort: Port, maxPort: Port, port: Port)
    returns (r: Result<Port, Fault>, port': Port)
    ensures (r, port') == PortChoice(UsedPorts(streams), minPort, maxPort, port)
  {
    if (maxPort + 1 - minPort) % 4 != 0 || (maxPort + 1 - port) % 4 != 0 {
      return Err(InvalidRange), port;
    }
    var res: int := port;
    while res < maxPort
      invariant port <= res
      invariant FirstFreePort(UsedPorts(streams), res, maxPort) == FirstFreePort(UsedPorts(streams), port, maxPort)
      decreases maxPort - res
    {
      var taken := HasPort(streams, res);
      if res != 0 && !taken {
        return Ok(res as Port), Advance(minPort, maxPort, port);
      }
      res := res + 4;
    }
    res := minPort;
    while res < port
      invariant minPort <= res
      invariant FirstFreePort(UsedPorts(streams), res, port) == FirstFreePort(UsedPorts(streams), minPort, port)
      decreases port - res
    {
      var taken := HasPort(streams, res);
      if res != 0 && !taken {
        return Ok(res as Port), Advance(minPort, maxPort, port);
      }
      res := res + 4;
    }
    return Err(NoMorePorts), port;
  }

  /**
   * FirstFreePort finds the least stride-4 candidate that is nonzero and
   * unused, and finds none only when every candidate is zero or used.
   */
  lemma {:induction false} FirstFreePortIsFirst(used: set<int>, from: int, bound: int)
    ensures var r := FirstFreePort(used, from, bound);
      && (r.Some? ==> from <= r.value < bound && (r.value - from) % 4 == 0 && r.value != 0 && r.value !in used)
      && (r.Some? ==> forall c :: from <= c < r.value && (c - from) % 4 == 0 ==> c == 0 || c in used)
      && (r.None? ==> forall c :: from <= c < bound && (c - from) % 4 == 0 ==> c == 0 || c in used)
    decreases bound - from
  {
    if from < bound && !(from != 0 && from !in used) {
      FirstFreePortIsFirst(used, from + 4, bound);
      var r := FirstFreePort(used, from + 4, bound);
      var top := if r.Some? then r.value else bound;
      if r.Some? {
        StrideStep(r.value, from);
      }
      forall c | from <= c < top && (c - from) % 4 == 0
        ensures c == 0 || c in used
      {
        StrideStep(c, from);
      }
    }
  }

  /** One stride further along the same grid. */
  lemma StrideStep(c: int, from: int)
    ensures (c - from) % 4 == 0 <==> (c - (from + 4)) % 4 == 0
    ensures from < c && (c - from) % 4 == 0 ==> from + 4 <= c
  {
  }

  /**
   * An allocated port is nonzero and unused, and lies inside
   * [min_port, max_port) a multiple of 4 away from min_port whenever the
   * cursor starts inside [min_port, max_port].
   */
  lemma PortChoiceAllocates(used: set<int>, minPort: Port, maxPort: Port, port: Port)
    ensures var r := PortChoice(used, minPort, maxPort, port).0;
      && (r.Ok? ==> r.value != 0 && r.value !in used)
      && (r.Ok? && minPort <= port <= maxPort ==> minPort <= r.value < maxPort && (r.value - minPort) % 4 == 0)
  {
    if RangeOk(minPort, maxPort, port) {
      FirstFreePortIsFirst(used, port, maxPort);
      if FirstFreePort(used, port, maxPort).Some? {
        var p := FirstFreePort(used, port, maxPort).value;
        GridShift(p, port, maxPort + 1, minPort);
      } else {
        FirstFreePortIsFirst(used, minPort, port);
      }
    }
  }

  /** Candidates on the grid of one point of an aligned range are on the grid of any other. */
  lemma GridShift(p: int, from: int, top: int, minPort: int)
    requires (p - from) % 4 == 0 && (top - from) % 4 == 0 && (top - minPort) % 4 == 0
    ensures (p - minPort) % 4 == 0
  {
    var a, b, c := (p - from) / 4, (top - from) / 4, (top - minPort) / 4;
    assert p - minPort == 4 * (a - b + c);
  }

  /**
   * gen_port fails with "invalid range of ports" exactly when a guard fails,
   * and with "no more ports!" only when every stride-4 candidate of both
   * scans is zero or used; in both cases the cursor is left as it was.
   */
  lemma PortChoiceFailures(used: set<int>, minPort: Port, maxPort: Port, port: Port)
    ensures var (r, port') := PortChoice(used, minPort, maxPort, port);
      && (r == Err(InvalidRange) <==> !RangeOk(minPort, maxPort, port))
      && (r.Err? ==> port' == port)
      && (r == Err(NoMorePorts) ==>
            (forall c :: port <= c < maxPort && (c - port) % 4 == 0 ==> c == 0 || c in used)
            && (forall c :: minPort <= c < port && (c - minPort) % 4 == 0 ==> c == 0 || c in used))
  {
    FirstFreePortIsFirst(used, port, maxPort);
    FirstFreePortIsFirst(used, minPort, port);
  }

  /** The forward scan wins whenever it finds a candidate; the wrapped scan is tried only after it. */
  lemma PortChoicePrefersForward(used: set<int>, minPort: Port, maxPort: Port, port: Port, c: int)
    requires RangeOk(minPort, maxPort, port)
    requires port <= c < maxPort && (c - port) % 4 == 0 && c != 0 && c !in used
    ensures var r := PortChoice(used, minPort, maxPort, port).0; r.Ok? && port <= r.value <= c
  {
    FirstFreePortIsFirst(used, port, maxPort);
  }

  /**
   * A successful allocation moves the cursor to port + 4, or back to
   * min_port past max_port, whichever slot was returned; with max_port at
   * most 65531 (so port + 4 cannot wrap) the cursor stays inside the range
   * and aligned.
   */
  lemma AdvanceKeepsCursor(minPort: Port, maxPort: Port, port: Port)
    requires RangeOk(minPort, maxPort, port) && minPort <= port <= maxPort
    requires maxPort <= 0xFFFB
    ensures var next := Advance(minPort, maxPort, port);
      && next == (if port + 4 > maxPort then minPort else port + 4)
      && RangeOk(minPort, maxPort, next) && minPort <= next <= maxPort
  {
  }

  /**
   * At the top of the port space the uint16 cursor wraps: with the range
   * [65532, 65535] the first allocation leaves the cursor at 0, and the
   * next one then hands out port 4, outside the range, and leaves the
   * cursor at 4.
   */
  lemma TopOfPortSpace()
    ensures PortChoice({}, 0xFFFC, 0xFFFF, 0xFFFC) == (Ok(0xFFFC), 0)
    ensures PortChoice({0xFFFC}, 0xFFFC, 0xFFFF, 0) == (Ok(4), 4)
  {
    assert FirstFreePort({0xFFFC}, 0, 0xFFFF) == FirstFreePort({0xFFFC}, 4, 0xFFFF);
  }

  // ----- make_stream, keep_alive -----

  /**
   * The draws from `from` up to next - 1 are the ones gen_id consumed:
   * draw next - 1 is the first whose tagged value is not a key.
   */
  ghost predicate FirstFreeDraw(streams: Registry, rand: nat -> Word32, from: nat, next: nat)
  {
    && from < next && SetBit31(rand(next - 1)) !in streams
    && forall k :: from <= k < next - 1 ==> SetBit31(rand(k)) in streams
  }

  /**
   * make_stream: gen_id, then gen_port (whose exception propagates); the
   * map is only read. The new stream's expiry is the default time point.
   */
  method MakeStream(streams: Registry, rand: nat -> Word32, from: nat, minPort: Port, maxPort: Port, port: Port)
    returns (r: Result<StreamInfo, Fault>, next: nat, port': Port)
    requires exists k :: from <= k && SetBit31(rand(k)) !in streams
    ensures FirstFreeDraw(streams, rand, from, next)
    ensures var (choice, cursor) := PortChoice(UsedPorts(streams), minPort, maxPort, port);
      && port' == cursor
      && (choice.Err? ==> r == Err(choice.error))
      && (choice.Ok? ==> r.Ok? && r.value.port == choice.value)
    ensures r.Ok? ==> && r.value.id !in streams && 0x8000_0000 <= r.value.id < 0x1_0000_0000
                      && r.value.id == SetBit31(rand(next - 1)) && r.value.expiresAt == Epoch
  {
    var id;
    id, next := GenId(streams, rand, from);
    var p;
    p, port' := GenPort(streams, minPort, maxPort, port);
    match p
    case Ok(base) => r := Ok(StreamInfo(id, base, Epoch));
    case Err(e) => r := Err(e);
  }

  /** keep_alive: only the expiry changes. */
  function KeepAlive(stream: StreamInfo, expiresAt: TimePoint): (r: StreamInfo)
    ensures r.id == stream.id && r.port == stream.port && r.expiresAt == expiresAt
  {
    stream.(expiresAt := expiresAt)
  }

  // ----- the registry in iteration order -----

  /** The least key of a nonempty key set. */
  function MinOf(keys: set<Id>): (m: Id)
    requires keys != {}
    ensures m in keys && forall k :: k in keys ==> m <= k
  {
    var least := Least(keys);
    var m :| m in keys && forall k :: k in keys ==> m <= k;
    m
  }

  ghost function Least(keys: set<Id>): (m: Id)
    requires keys != {}
    ensures m in keys && forall k :: k in keys ==> m <= k
    decreases keys
  {
    var x :| x in keys;
    var rest := keys - {x};
    assert forall k :: k in keys ==> k == x || k in rest;
    if rest == {} then x
    else
      var m := Least(rest);
      if x < m then x else m
  }

  /** The keys of a std::map in iteration order: ascending. */
  function KeysInOrder(keys: set<Id>): (r: seq<Id>)
    ensures forall i :: 0 <= i < |r| ==> r[i] in keys
    ensures forall k :: k in keys ==> k in r
    decreases keys
  {
    if keys == {} then []
    else
      var m := MinOf(keys);
      [m] + KeysInOrder(keys - {m})
  }

  predicate Ascending(s: seq<Id>)
  {
    forall i, j :: 0 <= i < j < |s| ==> s[i] < s[j]
  }

  /** The iteration order is strictly ascending, so each key is visited once. */
  lemma {:induction false} KeysAscend(keys: set<Id>)
    ensures Ascending(KeysInOrder(keys))
    decreases keys
  {
    if keys != {} {
      var m := MinOf(keys);
      var tail := KeysInOrder(keys - {m});
      KeysAscend(keys - {m});
      forall i | 0 <= i < |tail|
        ensures m < tail[i]
      {
        assert tail[i] in keys - {m};
      }
      AscendingCons(m, tail);
    }
  }

  /** A key below every key of an ascending sequence can be put in front of it. */
  lemma AscendingCons(m: Id, tail: seq<Id>)
    requires Ascending(tail)
    requires forall i :: 0 <= i < |tail| ==> m < tail[i]
    ensures Ascending([m] + tail)
  {
    var r := [m] + tail;
    forall i, j | 0 <= i < j < |r|
      ensures r[i] < r[j]
    {
      assert r[j] == tail[j - 1];
      if i > 0 {
        assert r[i] == tail[i - 1];
      }
    }
  }

  // ----- the sweep -----

  predicate Due(stream: StreamInfo, now: TimePoint)
  {
    stream.expiresAt <= now
  }

  /** The entries the sweep keeps in place. */
  function Live(streams: Registry, now: TimePoint): Registry
  {
    map k | k in streams && !Due(streams[k], now) :: streams[k]
  }

  /** The entries whose expiry has come, under their keys. */
  function Expired(streams: Registry, now: TimePoint): Registry
  {
    map k | k in streams && Due(streams[k], now) :: streams[k]
  }

  /**
   * The map the sweep returns after visiting the keys ks in order: every
   * due stream stored under its own id (a later one overwriting).
   */
  function Swept(streams: Registry, ks: seq<Id>, now: TimePoint): Registry
    requires forall i :: 0 <= i < |ks| ==> ks[i] in streams
  {
    if ks == [] then map[]
    else
      var acc := Swept(streams, ks[..|ks| - 1], now);
      var stream := streams[ks[|ks| - 1]];
      if Due(stream, now) then acc[stream.id := stream] else acc
  }

  /** The registry after the sweep has visited the keys ks in order: due entries erased. */
  function Kept(streams: Registry, ks: seq<Id>, now: TimePoint): Registry
    requires forall i :: 0 <= i < |ks| ==> ks[i] in streams
  {
    if ks == [] then streams
    else
      var acc := Kept(streams, ks[..|ks| - 1], now);
      var k := ks[|ks| - 1];
      if Due(streams[k], now) then acc - {k} else acc
  }

  /**
   * expired(streams): one pass in key order that erases every entry with
   * expires_at <= now and stores it in the returned map under stream.id.
   */
  method Sweep(streams: Registry, now: TimePoint) returns (kept: Registry, expires: Registry)
    ensures kept == Live(streams, now)
    ensures expires == Swept(streams, KeysInOrder(streams.Keys), now)
  {
    var keys := KeysInOrder(streams.Keys);
    kept, expires := streams, map[];
    for i := 0 to |keys|
      invariant kept == Kept(streams, keys[..i], now)
      invariant expires == Swept(streams, keys[..i], now)
    {
      var stream := streams[keys[i]];
      assert keys[..i + 1][..i] == keys[..i] && keys[..i + 1][i] == keys[i];
      if stream.expiresAt <= now {
        expires := expires[stream.id := stream];
        kept := kept - {keys[i]};
      }
    }
    assert keys[..|keys|] == keys;
    KeptIsLive(streams, keys, now);
  }

  /** What the sweep keeps: the entries not visited and the visited ones not yet due. */
  lemma {:induction false} KeptEntries(streams: Registry, ks: seq<Id>, now: TimePoint)
    requires forall i :: 0 <= i < |ks| ==> ks[i] in streams
    ensures forall k :: k in Kept(streams, ks, now) <==> k in streams && (k !in ks || !Due(streams[k], now))
    ensures forall k :: k in Kept(streams, ks, now) ==> Kept(streams, ks, now)[k] == streams[k]
    decreases |ks|
  {
    if ks != [] {
      var init := ks[..|ks| - 1];
      KeptEntries(streams, init, now);
      assert forall k :: k in ks <==> k in init || k == ks[|ks| - 1];
    }
  }

  /** Once every key has been visited, what is kept is the live part of the registry. */
  lemma KeptIsLive(streams: Registry, ks: seq<Id>, now: TimePoint)
    requires forall i :: 0 <= i < |ks| ==> ks[i] in streams
    requires forall k :: k in streams ==> k in ks
    ensures Kept(streams, ks, now) == Live(streams, now)
  {
    KeptEntries(streams, ks, now);
    var a, b := Kept(streams, ks, now), Live(streams, now);
    assert a.Keys == b.Keys;
  }

  /** On a registry whose entries sit under their own ids, the swept map holds the visited due entries. */
  lemma {:induction false} SweptEntries(streams: Registry, ks: seq<Id>, now: TimePoint)
    requires WellKeyed(streams)
    requires forall i :: 0 <= i < |ks| ==> ks[i] in streams
    ensures forall k :: k in Swept(streams, ks, now) <==> k in streams && k in ks && Due(streams[k], now)
    ensures forall k :: k in Swept(streams, ks, now) ==> Swept(streams, ks, now)[k] == streams[k]
    decreases |ks|
  {
    if ks != [] {
      var init := ks[..|ks| - 1];
      SweptEntries(streams, init, now);
      assert forall k :: k in ks <==> k in init || k == ks[|ks| - 1];
    }
  }

  /**
   * The sweep partitions the registry: the kept entries and the returned
   * ones are disjoint, together they are the registry before the call,
   * every returned entry had expires_at <= now and every kept one
   * expires_at > now.
   */
  lemma SweepPartitions(streams: Registry, now: TimePoint)
    requires WellKeyed(streams)
    ensures var kept := Live(streams, now);
      var expires := Swept(streams, KeysInOrder(streams.Keys), now);
      && expires == Expired(streams, now)
      && kept.Keys !! expires.Keys
      && kept + expires == streams
      && (forall k :: k in expires ==> expires[k].expiresAt <= now)
      && (forall k :: k in kept ==> now < kept[k].expiresAt)
  {
    var keys := KeysInOrder(streams.Keys);
    SweptEntries(streams, keys, now);
    var kept, expires := Live(streams, now), Swept(streams, keys, now);
    assert expires == Expired(streams, now) by {
      assert expires.Keys == Expired(streams, now).Keys;
    }
    assert kept + expires == streams by {
      assert (kept + expires).Keys == streams.Keys;
      forall k | k in streams
        ensures (kept + expires)[k] == streams[k]
      {
        if Due(streams[k], now) {
          assert k in expires;
        }
      }
    }
  }

  /**
   * The sentinels: an entry at the minimum time point is always swept, one
   * at the maximum only when now is the maximum too.
   */
  lemma SweepSentinels(streams: Registry, now: TimePoint, k: Id)
    requires WellKeyed(streams) && k in streams
    ensures var expires := Swept(streams, KeysInOrder(streams.Keys), now);
      && (streams[k].expiresAt == MinTime ==> k in expires)
      && (streams[k].expiresAt == MaxTime ==> (k in expires <==> now == MaxTime))
  {
    SweptEntries(streams, KeysInOrder(streams.Keys), now);
  }
}
