# janus-manager control plane, modelled in Dafny

janus-manager is a small HTTP control plane for a Janus media gateway. It
keeps a registry of RTP streams (a `std::map` from a 64-bit id to the
stream's id, base port and expiry). Each stream gets a random id with bit 31
set and a block of four RTP ports from a rotating `uint16` cursor. Clients
create, list and renew streams through `/streams` and `/streams/{id}`; every
new stream is mirrored as a mountpoint of the gateway's streaming plugin. A
one-second deadline timer respawns the gateway process when it has died and
sweeps expired streams out of the registry, destroying their mountpoints.

The model has one module per concern:

- `Streams` (stream.cpp): the allocator and the registry.
  - `GenId` is the id draw loop.
  - `HasPort` and `GenPort` are the two cursor scans, specified by `PortChoice`.
  - `MakeStream` and `KeepAlive`.
  - `Sweep` is the in-place sweep of `expired`, specified by `Live` and `Swept`.
  - The registry iterates in ascending key order, as `KeysInOrder`.
- `Hash` (src/hash.cpp): `Md5` is the hex formatting loop over the four digest words. Its partner is a decoder (`DecodeDigest`) with a round-trip proof. `Md5OfUid` is `md5()`.
- `Uri` (uri.cpp):
  - `MakeUri` is the single regex match, described by its parts.
  - `MakeQuery` is the insertion loop over the `k=v&` matches, specified by `QueryPairs` and `InsertAll`.
- `Decimal`: `std::to_string` for unsigned values and `std::stoul` in base 10, both as the control plane uses them.
- `Gateway` (main.cpp):
  - the gateway URL paths (`make_target`);
  - the JSON requests, reduced to their fields;
  - `Verdict`, the outcome `send` and the reply checks of the `send_session_*` functions reach on one answer.
- `Control` (main.cpp): `expires_at`, `stream_to_json`, the listing, the response payloads and `handle`'s routing (`Route`).
- `Conversation` (main.cpp): the gateway conversation as a `Wire`.
  - The `Wire` records the number of `std::rand` values drawn, every call made to the gateway, and the verdict on each call.
  - `Judged` states that each recorded verdict is the one the gateway's answer yields.
  - The send functions, the session opening and the gateway part of `handle_streams_post` are methods over the `Wire`.
- `Passes` (main.cpp): the `create`/`remove` passes over a registry snapshot, `spawn` with its bounded retry loop, and `respawn`.
- `Renewal` (main.cpp): the loop of `handle_streams_put`.
- `Service` (main.cpp): the globals are a `Manager` class.
  - Its fields are `streams`, `cursor` and `wire`, updated in place.
  - Its methods are the HTTP handlers, `handle`, `handle_safe`, the start of `work` and one expiry of the deadline timer.
  - `Valid` (a sound registry whose verdicts stay recorded) and `Confined` (the cursor and every port inside the allocation range) are preserved by every method.

The environment enters only through parameters:
- `std::rand` is `rand: nat -> Word32`, indexed by the number of draws so far.
- The MD5 digest is `digestOf: string -> Digest`.
- The gateway's answer to the n-th call is `gateway: (nat, Call) -> Exchange`.
- The clock reading `now` is a parameter.
- The boost::filesystem path decomposition is `pathOf`.
- The process launch result and the `wait_for` probe are parameters of `Start` and `Tick`.

Time points are signed 64-bit tick counts (nanoseconds, as libstdc++'s
`system_clock`), with `time_point::min()` and `max()` as sentinels.

Behaviour of the code that the model reproduces, and that a reader might not expect:

- The rethrow in `spawn` (main.cpp:376) tests `retry == retries` inside a loop that only runs while `retry < retries`, so it never fires. After 256 failed `create` passes, `spawn` returns normally (`Passes.Spawn`).
- The port cursor is a `uint16` and `port += 4` wraps. With the range [65532, 65535], the second allocation hands out port 4, outside the range (`Streams.TopOfPortSpace`). With `max_port <= 65531` the cursor stays in range (`Streams.AdvanceKeepsCursor`).
- `gen_port` never returns `max_port` itself: candidates are strictly below it, so ports lie in [min_port, max_port).
- The `-y` option changes `client_rtp_port_min`, but the cursor `client_rtp_port` keeps its static initial value (main.cpp:22). The `Manager` constructor therefore takes the initial cursor separately.
- `expires_at` is evaluated before the handler runs, so a POST that ends in 500 has already read the clock. Its matching is exact: `expires_at=min&x=1` renews by a minute.
- A listing of an empty registry is the JSON `null`, not an empty array (`Control.ListPayload`).
- In `handle_streams_post`, the cursor moves as soon as `make_stream` succeeds, even when a gateway call then fails and the answer is 500.
- stream.hpp declares `keep_alive(stream_info&)` with one parameter; stream.cpp defines and main.cpp calls a two-parameter version. The model follows stream.cpp.
- `gen_id` also tests `res != 0`, which cannot fail once bit 31 is set; the loop has no bound, and the throw after it is unreachable.

## Model

| member | source | states |
|---|---|---|
| `Streams.GenId` | stream.cpp:3-16 | the id has bit 31 set, is a 32-bit value and is not a key of the registry; it is the first draw with that property, and the draws before it were all taken |
| `Streams.SetBit31` | stream.cpp:11 | the result has bit 31 set and keeps the low 31 bits of the draw |
| `Streams.HasPort` | stream.cpp:18-26 | true exactly when some registered stream has that base port |
| `Streams.GenPort` | stream.cpp:28-51 | the two scans return what `PortChoice` specifies and leave the cursor where it says |
| `Streams.FirstFreePortIsFirst` | stream.cpp:34-49 | a scan finds the least stride-4 candidate that is nonzero and unused, and finds none only when every candidate is zero or used |
| `Streams.PortChoiceAllocates` | stream.cpp:34-49 | an allocated port is nonzero and unused, and lies in [min_port, max_port) on the 4-port grid from min_port when the cursor is in range |
| `Streams.PortChoiceFailures` | stream.cpp:31-50 | "invalid range of ports" exactly when a guard fails; "no more ports!" only when both scans find every candidate zero or used; on failure the cursor is untouched |
| `Streams.PortChoicePrefersForward` | stream.cpp:34-41 | when the forward scan has a free candidate, the wrapped scan is never used and the result is at most that candidate |
| `Streams.AdvanceKeepsCursor` | stream.cpp:36-38 | the cursor becomes port + 4, or min_port past max_port, and stays guarded and in range when max_port <= 65531 |
| `Streams.TopOfPortSpace` | stream.cpp:36-38 | at the top of the port space the uint16 cursor wraps to 0 and the next port handed out is 4 |
| `Streams.MakeStream` | stream.cpp:53-60 | the new stream has a fresh tagged id, the port and cursor `PortChoice` gives, and the default expiry; a `gen_port` fault is passed on |
| `Streams.KeepAlive` | stream.cpp:62-65 | only the expiry changes |
| `Streams.RegisterKeepsSound` | main.cpp:221-222 | storing a stream with a fresh tagged id and an unused nonzero port keeps ids keyed, tagged and ports pairwise distinct |
| `Streams.RegisterKeepsConfined` | main.cpp:221-222 | storing a stream whose port is in range keeps every port in range |
| `Streams.SubRegistryKeepsSound` | stream.cpp:67-79 | dropping entries or changing expiries keeps the registry sound and its ports in range |
| `Streams.KeysInOrder` | stream.hpp:14 | the iteration order holds every key of the map and nothing else |
| `Streams.KeysAscend` | stream.hpp:14 | the iteration order is strictly ascending |
| `Streams.MinOf` | stream.hpp:14 | The result is a key of the nonempty set and no key of the set is smaller than it. |
| `Streams.Sweep` | stream.cpp:67-79 | the sweep leaves the live entries in place and returns the swept map |
| `Streams.KeptEntries` | stream.cpp:71-77 | after visiting some keys the map holds the unvisited entries and the visited ones not yet due, unchanged |
| `Streams.KeptIsLive` | stream.cpp:71-77 | once every key is visited the map holds exactly the live entries |
| `Streams.SweptEntries` | stream.cpp:71-77 | the returned map holds exactly the visited due entries, under their ids |
| `Streams.SweepPartitions` | stream.cpp:67-79 | kept and returned entries are disjoint, together are the registry before, returned ones have expires_at <= now and kept ones expires_at > now |
| `Streams.SweepSentinels` | stream.cpp:73 | an entry at the minimum time point is always swept, one at the maximum only when now is the maximum |
| `Decimal.ToString` | main.cpp:36-39 | a nonempty digit string with no leading zero, "0" for zero |
| `Decimal.ValueOfToString` | main.cpp:36-39 | reading a rendering back gives the number |
| `Decimal.ToStringInjective` | main.cpp:36-39 | distinct numbers render differently |
| `Decimal.Stoul` | main.cpp:290 | a converted value is at most ULONG_MAX |
| `Decimal.StoulOfToString` | main.cpp:290 | the rendering of a registered id converts back to that id |
| `Decimal.StoulNeedsDigit` | main.cpp:290 | a path element with no digit is refused (std::stoul throws) |
| `Hash.Md5` | src/hash.cpp:16-35 | exactly 32 characters, each in "0123456789abcdef", character 8i+k the k-th nibble from the top of word i |
| `Hash.GroupChars` | src/hash.cpp:25-32 | the eight characters pushed for word i are characters 8i to 8i+7 of the rendering |
| `Hash.Md5OfUid` | src/hash.cpp:5-14 | md5() is the rendering of the digest of the decimal rendering of one rand() value |
| `Hash.DecodeHexDigest` | src/hash.cpp:24-33 | every character is a hex digit and reading each group of eight as big-endian hex gives back the digest word |
| `Hash.GroupValue` | src/hash.cpp:24-33 | a group of eight nibbles, most significant first, reads back as the word |
| `Hash.HexDigestInjective` | src/hash.cpp:24-33 | distinct digests give distinct renderings |
| `Hash.HexDigitsTable` | src/hash.cpp:18 | the table maps each value below 16 to the hex digit of that value |
| `Uri.MakeUri` | uri.cpp:5-18 | path is the longest prefix without ' ', '#' or '?'; the parts avoid their stop characters; the query is nonempty only after a '?' |
| `Uri.QueryIsMaximal` | uri.cpp:8-14 | the query is the maximal run after the path without ' ' or '#' |
| `Uri.FragmentNeedsHash` | uri.cpp:8-15 | a nonempty fragment follows a '#' right after the path and query; the fragment is the longest run after that '#' (if any) up to the first space or the end |
| `Uri.MakeUriCovers` | uri.cpp:8-16 | for a space-free target, path, "?" if taken, query, "#" if taken and fragment concatenate back to it |
| `Uri.MakeUriOfParts` | uri.cpp:8-16 | composing a target from stop-free parts and splitting it gives back the parts |
| `Uri.Span` | uri.cpp:8 | the longest prefix without a stop character |
| `Uri.QueryPairs` | uri.cpp:26-35 | each matched key has no '=' and each value no '&' |
| `Uri.MakeQuery` | uri.cpp:25-36 | the loop inserts the matches in order into an empty map, each insert leaving an existing key alone |
| `Uri.InsertAllCons` | uri.cpp:33 | std::map::insert of a pair does not overwrite an existing key |
| `Uri.MakeQueryShape` | uri.cpp:25-36 | every key of the result has no '=' and every value no '&' |
| `Uri.MakeQueryWithoutEquals` | uri.cpp:25-36 | a string with no '=' yields the empty map |
| `Uri.QueryPairsCons` | uri.cpp:27-32 | on "k=v" followed by nothing or '&', the first match is (k, v) and matching resumes after the '&' |
| `Uri.QueryPairsOfJoin` | uri.cpp:27-32 | on k1=v1&k2=v2..., the matches are exactly the pairs in order |
| `Uri.InsertAllFirstWins` | uri.cpp:33 | for a duplicated key the first value is the one kept |
| `Uri.InsertAllKeeps` | uri.cpp:33 | a key already present keeps its value through later inserts |
| `Uri.InsertAllKeepsShape` | uri.cpp:33 | inserting stop-free pairs keeps keys without '=' and values without '&' |
| `Uri.MakeQueryOfJoin` | uri.cpp:25-36 | on k1=v1&k2=v2..., the result has exactly the keys k1, k2, ... and each key maps to the value of its first occurrence |
| `Uri.InsertAllKeys` | uri.cpp:31-34 | inserting the matches adds exactly their keys to the map |
| `Gateway.TargetsInjective` | main.cpp:34-39 | distinct sessions and distinct (session, plugin) pairs have distinct paths; session paths, handle paths and the create path never coincide |
| `Gateway.SplitAtSlash` | main.cpp:38-39 | two digit strings joined by '/' split back uniquely |
| `Gateway.MountRequest` | main.cpp:127-141 | an RTP, private mountpoint named by the stream id, H.264 video (pt 96) on the base port and PCMA audio (pt 8) on the base port + 2 |
| `Gateway.MountPortsDisjoint` | main.cpp:133-138 | two streams whose base ports differ by a nonzero multiple of 4 ask for four different RTP ports |
| `Gateway.Verdict` | main.cpp:50-178 | a call is accepted exactly when the answer is a 200 whose body parses, says "success" and echoes the token, with an id for create and attach and a "created" key for stream-create; only a connection failure throws; an accepted create or attach carries the reply's id |
| `Gateway.ForeignTokenRejected` | main.cpp:85-87 | a reply echoing another token, or none, is rejected |
| `Gateway.IdOnlyFromSessionReplies` | main.cpp:88-112 | an id is taken only from an accepted session-create or attach reply |
| `Control.ExpiresAt` | main.cpp:41-48 | the minimum time point exactly for "expires_at=min", the maximum exactly for "expires_at=max", otherwise now plus 60 s |
| `Control.ExpiresAtIsExact` | main.cpp:43-46 | matching is by equality, not containment or case-folding |
| `Control.StreamToJson` | main.cpp:180-190 | the record carries the id, video_port the base port and audio_port two above it |
| `Control.ExpiryMilliseconds` | main.cpp:186-188 | the reported expiry is the time point in whole milliseconds truncated toward zero |
| `Control.SentinelMilliseconds` | main.cpp:186-188 | the sentinels are reported as plus or minus 9223372036854 ms |
| `Control.Listing` | main.cpp:234-237 | one record per registered stream |
| `Control.ListingIds` | main.cpp:234-237 | the listing names each registered stream once, with its record, in ascending id order |
| `Control.Renewed` | main.cpp:247-250 | every entry keeps its key, id and port and gets the same expiry |
| `Control.ListPayload` | main.cpp:233-238 | the body is the JSON null exactly when the registry is empty |
| `Control.Route` | main.cpp:276-302 | the collection path goes to a handler for POST, GET and PUT; an item path reaches a handler only for a known id; a non-numeric id throws |
| `Control.RouteCollection` | main.cpp:279-286 | on /streams POST creates, GET lists, PUT renews, any other method is 405 |
| `Control.RouteUnknownId` | main.cpp:290-294 | an unknown id is 404 whatever the method |
| `Control.RouteKnownId` | main.cpp:295-300 | a known id is shown by GET, renewed by PUT, and any other method (POST included) is 405 |
| `Control.RouteRenderedId` | main.cpp:290 | the decimal rendering of a registered id routes to that stream |
| `Control.RouteNonNumericId` | main.cpp:290 | an id element without digits makes the lookup throw |
| `Control.RouteElsewhere` | main.cpp:301-302 | every other path is 404 |
| `Conversation.Transmit` | main.cpp:50-72 | the call and the verdict on the gateway's answer to it are appended; verdicts stay recorded |
| `Conversation.NewToken` | src/hash.cpp:11-14 | md5() consumes one draw and yields a 32-character token |
| `Conversation.SendSessionCreate` | main.cpp:74-94 | one "create" request to /janus under the next token; acceptance carries the session id |
| `Conversation.SendPluginAttach` | main.cpp:96-118 | one "attach" request for the streaming plugin to the session path; acceptance carries the handle id |
| `Conversation.SendPassRequest` | main.cpp:120-178 | one stream-create or stream-destroy request for the stream to the handle path under the next token |
| `Conversation.Open` | main.cpp:323-331 | connect, create, then attach on the session id the create returned, each under the next token, stopping at the first call not accepted (`Dialogue`); broken on an exception, refused on a rejection, opened with the two ids when all three are accepted |
| `Conversation.MountStream` | main.cpp:210-220 | connect, create, attach and stream-create in that order on the ids the gateway returned, every call before the last accepted (`Dialogue`); an exception escapes, a rejection declines; mounted only when all four are accepted |
| `Passes.EachStream` | main.cpp:332-338 | one request per stream in key order under consecutive tokens; a rejected request is skipped; the first exception ends the loop, so it is the last call and no earlier request of the loop threw |
| `Passes.PassOverEntries` | main.cpp:332-338 | after a session opened in `Dialogue` order, `Synced`: the pass completes with one request per stream in key order, or escapes at the first exception with the requests sent up to it, none earlier having thrown |
| `Passes.SyncMountpoints` | main.cpp:319-361 | `Synced`: nothing for an empty snapshot; otherwise connect, session create and plugin attach on the returned session id (`Opening`), each earlier one accepted; a rejection there gives up, an exception there escapes; after them every stream's request in key order on the two ids, skipping rejections and escaping at the first exception |
| `Passes.Spawn` | main.cpp:363-381 | `Spawns`: a launch failure escapes with the Wire untouched; otherwise the Wire is `attempts` create passes over the registry in a row (`Retried`), each earlier one ending in an exception, the last returning normally exactly when `settled`; only 256 failures leave it unsettled, and spawn then returns normally |
| `Passes.SpawnsOverEmpty` | main.cpp:319-381 | over an empty registry spawn settles on its first attempt without a gateway call |
| `Passes.Respawn` | main.cpp:383-393 | `Respawned`: a live process is left alone with the Wire untouched; a dead one, or a failed probe, is spawned again and respawn's outcome is spawn's (`Spawns`) |
| `Renewal.RenewAll` | main.cpp:247-251 | the loop renews every entry to the same expiry and collects the renewed records in key order |
| `Renewal.RenewedUpToEntries` | main.cpp:247-249 | after visiting some keys, the visited entries are renewed and the others untouched |
| `Renewal.RenewedUpToShape` | main.cpp:247-249 | renewing keeps every key, id and port |
| `Service.Publish` | main.cpp:212-227 | the stream is stored with the requested expiry and answered 200 only when all four gateway calls were accepted; a failed call answers 500 or escapes, and the registry is unchanged |
| `Service.AddStream` | main.cpp:205-228 | handle_streams_post from the state before to the state after (`Posted`): gen_id's draws up to the first free tagged id, cursor moved as gen_port moves it, a port fault only when gen_port failed, the gateway calls in `Dialogue` order for the new stream, registry grown by exactly the new stream on 200 and unchanged otherwise |
| `Service.PostedKeepsSound` | main.cpp:221-222 | a POST keeps the registry sound |
| `Service.PostedKeepsInRange` | main.cpp:205-222 | a POST keeps the cursor and every port in the allocation range |
| `Service.Manager.constructor` | main.cpp:20-25 | the globals at startup: empty registry, the initial cursor, no draws, no calls |
| `Service.Manager.PostStreams` | main.cpp:205-228 | `Posted` on the globals, with the invariants kept |
| `Service.Manager.GetStreams` | main.cpp:230-240 | 200 with every stream's record in key order, the JSON null when there is none |
| `Service.Manager.PutStreams` | main.cpp:242-254 | every entry renewed to the same expiry, answered with the renewed listing; cursor and Wire unchanged |
| `Service.Manager.GetStream` | main.cpp:256-263 | 200 with the stream's record |
| `Service.Manager.PutStream` | main.cpp:265-274 | only that entry's expiry changes, answered with its record |
| `Service.Manager.Handle` | main.cpp:276-307 | `Handled`: each route gets its response; only POST touches the cursor and the Wire; GET and the error routes leave the registry alone |
| `Service.Manager.HandleSafe` | main.cpp:309-317 | the state changes as `handle` changes it (`Handled`); handle's response passes through, and an exception from it (a non-numeric id, a broken gateway connection, a port fault) becomes a bodiless 500 |
| `Service.Manager.Start` | main.cpp:428 | the first spawn over the registry (`Spawns`), keeping the invariants; with an empty registry spawn settles without a call |
| `Service.Manager.Expire` | main.cpp:407-411 | the due entries leave the registry whatever the gateway answers, and the Wire is a remove pass over them (`Synced`: connect, session create and attach as `Opening` states, then one destroy per swept stream in key order) |
| `Service.Manager.Tick` | main.cpp:395-414 | nothing when aborted; otherwise respawn over the registry (`Respawned`, its exception caught), then the sweep and the remove pass over the swept entries (`Synced`, its exception caught), and the timer re-armed |

## Left out

- HTTP and sockets: `http_client`, `http_server`, `io_context`, request versions, `prepare_payload` and body serialisation are not modelled. A response is a status plus an abstract payload. A gateway exchange is the oracle's answer to the n-th call.
- JSON building and parsing: a reply is reduced to the fields the checks read (`janus`, `transaction`, `data.id`, whether `plugindata.data` has `created`). A `data.id` that does not convert to `uint64` is a reply without an id.
- The deadline timer's event loop: `Tick` is one expiry of the timer, and re-arming is its `rearm` result. The one-second period and the 100 ms `sleep_for` between spawn attempts are left out, since time passing has no effect on the state.
- Process mechanics: `boost::process::child` and `wait_for` become the `launched` and `probe` parameters.
- The MD5 digest, `std::rand` and `system_clock::now` are parameters, as described above.
- Logging, `init`, `usage`, `getopt` and `application` are configuration and I/O only.
- The `guard` classes in definitions.hpp: destructor-callback plumbing with no behaviour to state. Only `retries = 256` is used.
- src/stream.hpp and src/definitions.hpp: another revision, declarations only, not part of this model.
- `make_path`, the boost::filesystem wrapper, is the `pathOf` parameter. main.cpp calls a `make_uri(begin, end)` overload that uri.hpp does not declare; the model applies `Uri.MakeUri` to the whole target.
- Decimal.Stoul: its contract states only the range of a converted value. Its behaviour on rendered ids and on digit-free elements is stated by `StoulOfToString` and `StoulNeedsDigit`.
- Streams.GenId: requires that some later draw gives an unused id, because the source loops for ever otherwise.
- Control.ExpiresAt: a clock reading within a minute of the largest time point is excluded. Otherwise `now + 60s` would overflow the signed 64-bit tick count, which the source does not guard against.
- Service.Manager.Handle: for a POST or PUT route only, the clock reading must be more than a minute before the largest time point, inheriting `ExpiresAt`'s requirement. Every other route accepts any time point.
- Service.Manager.HandleSafe: stated for a POST only when some later draw gives an unused id, inheriting `GenId`'s requirement.
- Concurrency: none exists here, since the handlers and the timer run on one `io_context` thread.
