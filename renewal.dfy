/**
 * The loop of handle_streams_put, proved against the renewed registry and
 * its listing.
 */
module Renewal {
  import opened Streams
  import opened Control

  /** The registry after the renewal loop has visited the keys ks in order. */
  ghost function RenewedUpTo(streams: Registry, ks: seq<Id>, expiresAt: TimePoint): Registry
  {
    if ks == [] then streams
    else
      var k, r := ks[|ks| - 1], RenewedUpTo(streams, ks[..|ks| - 1], expiresAt);
      if k in streams then r[k := KeepAlive(streams[k], expiresAt)] else r
  }

  /** The visited entries are renewed, the others untouched. */
  lemma {:induction false} RenewedUpToEntries(streams: Registry, ks: seq<Id>, expiresAt: TimePoint)
    ensures RenewedUpTo(streams, ks, expiresAt).Keys == streams.Keys
    ensures forall k :: k in streams ==>
      RenewedUpTo(streams, ks, expiresAt)[k] == if k in ks then KeepAlive(streams[k], expiresAt) else streams[k]
    decreases |ks|
  {
    if ks != [] {
      var init := ks[..|ks| - 1];
      RenewedUpToEntries(streams, init, expiresAt);
      assert forall k :: k in ks <==> k in init || k == ks[|ks| - 1];
    }
  }

  /** The records the renewal loop has collected after visiting the first n keys. */
  ghost function RenewedItems(registry: Registry, keys: seq<Id>, expiresAt: TimePoint, n: nat): seq<StreamJson>
    requires n <= |keys| && forall j :: 0 <= j < |keys| ==> keys[j] in registry
  {
    seq(n, j requires 0 <= j < n => StreamToJson(KeepAlive(registry[keys[j]], expiresAt)))
  }

  /** Renewing keeps every key, id and port. */
  lemma {:induction false} RenewedUpToShape(streams: Registry, ks: seq<Id>, expiresAt: TimePoint)
    ensures var r := RenewedUpTo(streams, ks, expiresAt);
      && r.Keys == streams.Keys
      && forall k :: k in r ==> r[k].id == streams[k].id && r[k].port == streams[k].port
    decreases |ks|
  {
    if ks != [] {
      RenewedUpToShape(streams, ks[..|ks| - 1], expiresAt);
    }
  }

  /** One iteration of the renewal loop: the next key is registered, and renewing it extends the renewed prefix. */
  lemma RenewalStep(registry: Registry, keys: seq<Id>, i: nat, expiresAt: TimePoint, renewed: Registry)
    requires keys == KeysInOrder(registry.Keys) && i < |keys|
    requires renewed == RenewedUpTo(registry, keys[..i], expiresAt)
    ensures keys[i] in renewed && KeepAlive(renewed[keys[i]], expiresAt) == KeepAlive(registry[keys[i]], expiresAt)
    ensures renewed[keys[i] := KeepAlive(renewed[keys[i]], expiresAt)] == RenewedUpTo(registry, keys[..i + 1], expiresAt)
  {
    var k, prefix := keys[i], keys[..i + 1];
    assert k in registry;
    assert prefix[..|prefix| - 1] == keys[..i] && prefix[|prefix| - 1] == k;
    RenewedUpToShape(registry, keys[..i], expiresAt);
  }

  /** Collecting the next key's record extends the collected prefix. */
  lemma RenewedItemsGrow(registry: Registry, keys: seq<Id>, expiresAt: TimePoint, i: nat)
    requires i < |keys| && forall j :: 0 <= j < |keys| ==> keys[j] in registry
    ensures RenewedItems(registry, keys, expiresAt, i) + [StreamToJson(KeepAlive(registry[keys[i]], expiresAt))]
         == RenewedItems(registry, keys, expiresAt, i + 1)
  {
  }

  /** Once the renewal loop has visited every key, it has built the renewed registry and its listing. */
  lemma RenewalComplete(registry: Registry, keys: seq<Id>, expiresAt: TimePoint, renewed: Registry, items: seq<StreamJson>)
    requires keys == KeysInOrder(registry.Keys)
    requires renewed == RenewedUpTo(registry, keys[..|keys|], expiresAt)
    requires items == RenewedItems(registry, keys, expiresAt, |keys|)
    ensures renewed == Renewed(registry, expiresAt)
    ensures items == Listing(renewed) && (|items| == 0 <==> registry == map[])
  {
    assert keys[..|keys|] == keys;
    RenewedUpToEntries(registry, keys, expiresAt);
    assert renewed == Renewed(registry, expiresAt);
    assert KeysInOrder(renewed.Keys) == keys;
    if registry != map[] {
      var k :| k in registry;
      assert k in keys;
    }
  }

  /** The loop of handle_streams_put over a registry: renew each entry and collect its record. */
  method RenewAll(registry: Registry, expiresAt: TimePoint) returns (renewed: Registry, items: seq<StreamJson>)
    ensures renewed == Renewed(registry, expiresAt)
    ensures items == Listing(renewed) && (|items| == 0 <==> registry == map[])
  {
    var keys := KeysInOrder(registry.Keys);
    renewed, items := registry, [];
    for i := 0 to |keys|
      invariant renewed == RenewedUpTo(registry, keys[..i], expiresAt)
      invariant items == RenewedItems(registry, keys, expiresAt, i)
    {
      RenewalStep(registry, keys, i, expiresAt, renewed);
      RenewedItemsGrow(registry, keys, expiresAt, i);
      var stream := KeepAlive(renewed[keys[i]], expiresAt);
      renewed := renewed[keys[i] := stream];
      items := items + [StreamToJson(stream)];
    }
    RenewalComplete(registry, keys, expiresAt, renewed, items);
  }
}
