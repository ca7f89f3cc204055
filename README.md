# Urban Airship PHP client: payload builders and request assembly

This project models the part of the Urban Airship PHP client that builds what
is sent to the push service, and proves properties of it:

- **`BatchPushRequest`** (`batch_push.dfy`, module `BatchPush`). An
  insertion-ordered map from a notification name to a fragment. A fragment is
  itself an ordered map from a field key to a value.
  - A name must be registered with `createNewNotification` before anything can
    be set on it. Registering it again does nothing.
  - The five setters each overwrite one key of one fragment.
  - `pushDeviceType` appends to a list.
  - `getPayload` returns the fragments in registration order, without the names.
  - `resetBatchPayloadMap` empties the map.
  - The class `BatchPushRequest` holds the map as a field that its methods
    reassign. Each method is tied to a pure function of the old map, and the
    lemmas are stated about those functions.
  - `batch_push_example.dfy` replays the repository's batch-of-two scenario.
- **`PushRequest`** (`push.dfy`, module `Push`). Five fields set by chained
  setters. `getPayload` always emits `audience`, `notification` and
  `device_types`, then `message` and `options` only when they are set.
- **`ScheduledPushRequest`** (`scheduled_push.dfy`, module `ScheduledPush`).
  A schedule, an optional name and a wrapped `PushRequest`, held by reference.
  The payload is `schedule`, then `push` (the wrapped push's payload at the
  moment of the call), then `name` when it is set.
- **`Airship`** (`airship.dfy`, module `AirshipClient`).
  - `buildUrl` appends the path and an optional `?k=v&k=v` query to the base
    URL.
  - `request` builds the header array (`Accept`, then `Content-type` when one
    is given) and turns a response with status 300 or more into an
    `AirshipException`.
- **`endpoints.dfy`** ties each builder's endpoint and reply key to the
  client's base URL.

Shared pieces:
- PHP arrays with string keys are ordered lists of (key, value) entries
  (`ordered_maps.dfy`). `Put` is `$a[$k] = $v`: it overwrites in place or
  appends.
- Field values are a small JSON-like `Value` (`json.dfy`): null, booleans,
  integers, strings, lists and ordered objects.
- `Option`, `Result` and `Outcome` live in `wrappers.dfy`.
- A PHP exception is a `Failure`/`Fail` result. A method that returns one
  leaves the object as it was.

Parameters stand in for code outside the model:
- `urlencode` is a function parameter. The general lemmas assume only that
  its output never contains `&`. The example from the repository's test also
  assumes that it leaves the plain words `foo`, `bar`, `baz` and `ack`
  unchanged.
- The HTTP transport (the Httpful request object the constructor accepts) is
  the `send` parameter of `Airship.Request`.

Two behaviours a reader might expect are not in the code, and the model
follows the code:
- Batch `pushDeviceType` does not de-duplicate. It appends under the key
  `deviceTypes`, not `device_types`.
- `createNewNotification` accepts the empty string as a name, because it only
  checks that the name is a string.

## Model

| member | source | states |
|---|---|---|
| OrderedMaps.Lookup | src/UrbanAirship/Push/BatchPushRequest.php:62 | `$a[$k]` is set exactly when `k` is among the keys, and then it is the value of an entry with that key |
| OrderedMaps.Put | src/UrbanAirship/Push/BatchPushRequest.php:66 | `$a[$k] = $v` leaves the value under every other key unchanged |
| OrderedMaps.PutLookup | src/UrbanAirship/Push/BatchPushRequest.php:66 | after `$a[$k] = $v`, `$a[$k]` is `v` |
| OrderedMaps.PutKeysPresent | src/UrbanAirship/Push/BatchPushRequest.php:81 | assigning to an existing key keeps the key order |
| OrderedMaps.PutKeysAbsent | src/UrbanAirship/Push/BatchPushRequest.php:66 | assigning to a new key appends it at the end of the key order |
| OrderedMaps.PutDistinct | src/UrbanAirship/Push/BatchPushRequest.php:66 | assignment keeps keys unique |
| OrderedMaps.PutAt | src/UrbanAirship/Push/BatchPushRequest.php:81 | with unique keys, assigning to the key of entry `i` replaces entry `i` and nothing else |
| OrderedMaps.PutNew | src/UrbanAirship/Push/PushRequest.php:72-78 | assigning a new key to an array with unique keys appends one entry, keeps keys unique and makes the key readable |
| BatchPush.CreateNotification | src/UrbanAirship/Push/BatchPushRequest.php:56-67 | fails with the not-a-string error exactly when the name is not a string; on success the name is registered; an already registered name leaves the map as it was |
| BatchPush.CreateFresh | src/UrbanAirship/Push/BatchPushRequest.php:66 | registering a new name appends it with an empty fragment at the end of the map and of the name order, keeping the invariant |
| BatchPush.CreateFreshPayload | src/UrbanAirship/Push/BatchPushRequest.php:197-200 | registering a new name adds one to the count and an empty fragment at the end of the payload |
| BatchPush.SetField | src/UrbanAirship/Push/BatchPushRequest.php:183-190 | a setter fails with the "not defined" error for that name exactly when the name is not registered, and leaves the name registered otherwise |
| BatchPush.SetFieldReplaces | src/UrbanAirship/Push/BatchPushRequest.php:81 | a setter replaces the name's fragment by the fragment with its own key overwritten, which keeps unique keys and reads back the new value |
| BatchPush.SetFieldFrame | src/UrbanAirship/Push/BatchPushRequest.php:98 | on a registered name a setter succeeds, keeps the invariant and the name order, writes its own key and leaves every other key of that fragment alone |
| BatchPush.SetFieldOthers | src/UrbanAirship/Push/BatchPushRequest.php:115 | a setter leaves the fragments of all other names unchanged, by name and by payload position, and keeps the count |
| BatchPush.ReplaceFragment | src/UrbanAirship/Push/BatchPushRequest.php:153 | replacing one registered fragment keeps the invariant and the name order and changes only that name's payload entry |
| BatchPush.PushDeviceTypeAsWritten | src/UrbanAirship/Push/BatchPushRequest.php:128-139 | fails with the "not defined" error exactly when the name is not registered; otherwise the name stays registered |
| BatchPush.PushAppendsAsWritten | src/UrbanAirship/Push/BatchPushRequest.php:132-136 | on a registered name the guard never fires, the value is appended to the `deviceTypes` list and `device_types` is untouched |
| BatchPush.PushTwiceKeepsDuplicate | src/UrbanAirship/Push/BatchPushRequest.php:132-136 | pushing the same type twice leaves it twice in `deviceTypes` and leaves `device_types` as it was |
| BatchPush.PushAgain | src/UrbanAirship/Push/BatchPushRequest.php:136 | pushing onto an existing `deviceTypes` list appends to its end |
| BatchPush.PushDeviceTypeDeduped | src/UrbanAirship/Push/BatchPushRequest.php:128-139 | the corrected push fails exactly as the written one does on an unregistered name |
| BatchPush.DedupedIsOrderedUnion | src/UrbanAirship/Push/BatchPushRequest.php:132-136 | the corrected push appends a new type at the end of `device_types` and leaves the map unchanged for a type already there |
| BatchPush.DedupedIdempotent | src/UrbanAirship/Push/BatchPushRequest.php:132-136 | with the corrected push, pushing a type twice is the same as pushing it once |
| BatchPush.PayloadAt | src/UrbanAirship/Push/BatchPushRequest.php:28-31 | once the map is an array, the payload is a list with one element per name, and element `i` is the fragment of the `i`-th registered name, without the name |
| BatchPush.ResetMap | src/UrbanAirship/Push/BatchPushRequest.php:205-208 | after a reset the count is 0, the payload is the empty list and the invariant holds |
| BatchPush.ApplyStep | src/UrbanAirship/Push/BatchPushRequest.php:56-208 | every builder call that does not throw keeps the invariant and moves the name order as registration says |
| BatchPush.RunFollowsRegistrationOrder | src/UrbanAirship/Push/BatchPushRequest.php:28-31 | after any run of calls that does not throw, the payload is one fragment per name, in first-registration order since the last reset |
| BatchPush.BatchPushRequest.constructor | src/UrbanAirship/Push/BatchPushRequest.php:15 | the map starts out null and the invariant holds |
| BatchPush.BatchPushRequest.GetPayload | src/UrbanAirship/Push/BatchPushRequest.php:28-31 | the payload is null exactly while the map is null; otherwise it is a list with one element per registered name |
| BatchPush.BatchPushRequest.GetPayloadCount | src/UrbanAirship/Push/BatchPushRequest.php:197-200 | the count is the number of registered names |
| BatchPush.BatchPushRequest.ValidateNotificationName | src/UrbanAirship/Push/BatchPushRequest.php:183-190 | throws the "not defined" error for that name exactly when the name is not registered |
| BatchPush.BatchPushRequest.CreateNewNotification | src/UrbanAirship/Push/BatchPushRequest.php:56-67 | a non-string name throws and leaves the map unchanged; otherwise the map becomes what `CreateNotification` gives; the invariant holds |
| BatchPush.BatchPushRequest.SetKey | src/UrbanAirship/Push/BatchPushRequest.php:183-190 | an unregistered name throws and leaves the map unchanged; otherwise the map becomes what `SetField` gives and the same object is returned |
| BatchPush.BatchPushRequest.SetAudience | src/UrbanAirship/Push/BatchPushRequest.php:77-84 | `SetKey` on the `audience` key |
| BatchPush.BatchPushRequest.SetNotification | src/UrbanAirship/Push/BatchPushRequest.php:94-101 | `SetKey` on the `notification` key, for an array argument |
| BatchPush.BatchPushRequest.SetDeviceTypes | src/UrbanAirship/Push/BatchPushRequest.php:111-118 | `SetKey` on the `device_types` key |
| BatchPush.BatchPushRequest.SetMessage | src/UrbanAirship/Push/BatchPushRequest.php:149-156 | `SetKey` on the `message` key, for an array argument |
| BatchPush.BatchPushRequest.SetOptions | src/UrbanAirship/Push/BatchPushRequest.php:167-174 | `SetKey` on the `options` key, for an array argument |
| BatchPush.BatchPushRequest.PushDeviceType | src/UrbanAirship/Push/BatchPushRequest.php:128-139 | an unregistered name throws and leaves the map unchanged; otherwise the map becomes what the written push gives |
| BatchPush.BatchPushRequest.ResetBatchPayloadMap | src/UrbanAirship/Push/BatchPushRequest.php:205-208 | the map becomes the empty array and the invariant holds |
| BatchPushExample.RunAppend | src/tests/BatchPushTest.php:152-168 | running two sequences of calls is running the first, then the second from where it stopped |
| BatchPushExample.RunCalls | src/tests/BatchPushTest.php:152-157 | the test's four calls for a new name append that name with `audience`, `notification` and `device_types` in that order |
| BatchPushExample.FirstNotification | src/tests/BatchPushTest.php:100-108 | the first name's calls on a fresh builder give a one-entry map |
| BatchPushExample.SecondNotification | src/tests/BatchPushTest.php:110-118 | the second name's calls append its entry after the first |
| BatchPushExample.TwoFragments | src/UrbanAirship/Push/BatchPushRequest.php:28-31 | a two-entry map counts two and sends its two fragments in order, without names |
| BatchPushExample.BatchOfTwo | src/tests/BatchPushTest.php:175-200 | for any two distinct names, the test's calls give count 2 and exactly the expected two fragments, in creation order |
| Push.PayloadShape | src/UrbanAirship/Push/PushRequest.php:64-81 | the keys are `audience`, `notification`, `device_types`, then `message` exactly when it is not null, then `options` exactly when it is not null; the keys are unique and each key holds its field |
| Push.ShapeOver | src/UrbanAirship/Push/PushRequest.php:66-78 | three fixed entries followed by two conditional assignments of new keys give that key order and those values |
| Push.PushRequest.constructor | src/UrbanAirship/Push/PushRequest.php:15-35 | all five fields start out null |
| Push.PushRequest.GetPayload | src/UrbanAirship/Push/PushRequest.php:64-81 | the payload of the object's current fields has the shape `PayloadShape` states; as a function it changes nothing, so two calls agree |
| Push.PushRequest.SetAudience | src/UrbanAirship/Push/PushRequest.php:88-93 | sets `audience`, leaves the other four fields and returns the same object |
| Push.PushRequest.SetNotification | src/UrbanAirship/Push/PushRequest.php:100-105 | sets `notification` (an array), leaves the other four fields and returns the same object |
| Push.PushRequest.SetDeviceTypes | src/UrbanAirship/Push/PushRequest.php:112-117 | sets `deviceTypes`, leaves the other four fields and returns the same object |
| Push.PushRequest.SetMessage | src/UrbanAirship/Push/PushRequest.php:126-131 | sets `message` (an array), leaves the other four fields and returns the same object |
| Push.PushRequest.SetOptions | src/UrbanAirship/Push/PushRequest.php:140-145 | sets `options` (an array), leaves the other four fields and returns the same object |
| Push.ChainWithEmptyOptions | src/tests/PushTest.php:24-29 | after the test's chain with `setOptions(array())`, `options` is present and holds the empty array, and `message` is absent |
| ScheduledPush.ScheduledShape | src/UrbanAirship/Push/ScheduledPushRequest.php:54-66 | the keys are `schedule`, `push`, then `name` exactly when it is not null; the keys are unique and `push` holds the wrapped push's payload |
| ScheduledPush.TwoThenOne | src/UrbanAirship/Push/ScheduledPushRequest.php:56-63 | two fixed entries followed by one conditional assignment of a new key give that key order and those values |
| ScheduledPush.PayloadAsWritten | src/UrbanAirship/Push/ScheduledPushRequest.php:58 | with the `array` that `setPush` is declared to take (or nothing set), building the payload always fails; PHP's refusal of a method call on a non-object is stated as the result, not derived |
| ScheduledPush.ScheduledPushRequest.constructor | src/UrbanAirship/Push/ScheduledPushRequest.php:15-25 | schedule, name and push start out null |
| ScheduledPush.ScheduledPushRequest.GetPayload | src/UrbanAirship/Push/ScheduledPushRequest.php:54-66 | fails exactly when no push is set; otherwise `schedule`, then `push` holding the wrapped push's current payload, then `name` when it is not null; it reads both objects and changes neither |
| ScheduledPush.ScheduledPushRequest.SetSchedule | src/UrbanAirship/Push/ScheduledPushRequest.php:73-78 | sets `schedule` (an array), leaves the other fields and returns the same object |
| ScheduledPush.ScheduledPushRequest.SetName | src/UrbanAirship/Push/ScheduledPushRequest.php:85-90 | sets `name`, leaves the other fields and returns the same object |
| ScheduledPush.ScheduledPushRequest.SetPush | src/UrbanAirship/Push/ScheduledPushRequest.php:97-102 | stores a reference to the push request, leaves the other fields and returns the same object |
| ScheduledPush.LaterChangeShows | src/UrbanAirship/Push/ScheduledPushRequest.php:58 | an audience set on the wrapped push after `setPush` appears in the scheduled payload |
| AirshipClient.Airship.constructor | src/UrbanAirship/Airship.php:42-47 | stores the key and the secret |
| AirshipClient.Airship.BuildUrl | src/UrbanAirship/Airship.php:110-125 | without arguments: base URL then path; with arguments (even none): base URL, path, `?`, then the encoded `key=value` pairs joined by `&` in argument order |
| AirshipClient.QueryPairsAt | src/UrbanAirship/Airship.php:117-119 | pair `i` is the encoded key, `=`, and the encoded value of argument `i` |
| AirshipClient.QueryRoundTrip | src/UrbanAirship/Airship.php:117-121 | the query splits back at `&` into exactly the pairs, one per argument, with one `&` fewer than there are arguments |
| AirshipClient.SplitJoin | src/UrbanAirship/Airship.php:121 | splitting at the separator undoes `implode` when no piece holds the separator |
| AirshipClient.JoinSeparators | src/UrbanAirship/Airship.php:121 | `implode` of `n` pieces without the separator holds exactly `n - 1` separators |
| AirshipClient.EmptyArgsKeepQuestionMark | src/UrbanAirship/Airship.php:113-121 | an empty argument array still adds `?`, with nothing after it |
| AirshipClient.NoArgsIsBaseAndPath | src/UrbanAirship/Airship.php:110-111 | without arguments the URL is the base URL followed by the path |
| AirshipClient.BuildUrlExample | src/tests/AirshipTest.php:61-73 | the test's two URLs, for an encoder that leaves plain letters alone |
| AirshipClient.FormatIntRoundTrip | src/UrbanAirship/Airship.php:142 | the `%d` text of any integer reads back as that integer |
| AirshipClient.VersionStringRoundTrip | src/UrbanAirship/Airship.php:18 | the Accept value is the media type with `version=`, the version in decimal, then `;` |
| AirshipClient.DefaultHeaders | src/UrbanAirship/Airship.php:140-146 | with the default arguments (no content type, version 3) the headers are only `Accept`, asking for version 3 |
| AirshipClient.Headers | src/UrbanAirship/Airship.php:142-146 | `Accept` comes first and holds the version string; `Content-type` is present exactly when a content type is given, and holds it |
| AirshipClient.CheckStatus | src/UrbanAirship/Airship.php:171-175 | raises exactly when the code is 300 or more, carrying the response; otherwise the response is returned unchanged |
| AirshipClient.StatusExamples | src/tests/AirshipTest.php:37-59 | status 200 passes the response through and status 400 raises |
| AirshipClient.Airship.Request | src/UrbanAirship/Airship.php:140-176 | hands the transport the method, URI, key, secret, body and `Headers`, then raises exactly when the returned code is 300 or more, with an exception that carries the response, and otherwise returns the response |
| Endpoints.EndpointUrls | src/UrbanAirship/Push/PushRequest.php:40-59 | single pushes go to `https://go.urbanairship.com/api/push/` and read `push_ids`; batch pushes use the same endpoint and key (src/UrbanAirship/Push/BatchPushRequest.php:20-47); scheduled pushes go to `/api/schedules/` and read `schedule_urls` (src/UrbanAirship/Push/ScheduledPushRequest.php:30-49) |

## Left out

- The Httpful call chain and the network. `request` hands an `Outgoing` value to a function parameter. Authentication is reduced to passing the key and secret along.
- `BasePushRequest::send`. It does JSON encoding and decoding, logging and a transport call. Payloads stay structured values.
- `UALog` logging. It has no effect on results.
- `AirshipException::fromResponse`, `PushResponse`, `DeviceTokenList`, `APIDList` and the `listDeviceTokens`, `listAPIDs`, `push`, `scheduledPush` and `batchPush` factories. `AirshipException::fromResponse` and the response and list classes are not part of this model. The error here just carries the response.
- The `P\` payload helpers (`P\notification`, `P\alias`, `P\all` and the rest). Their source is not part of this model. The example lemmas use plain values in their place.
- `getLogMessage` of each builder. It is only a log text.
- `urlencode` itself. It is a function parameter. The general lemmas assume only that its output never contains `&`; `AirshipClient.BuildUrlExample` also assumes that it leaves `foo`, `bar`, `baz` and `ack` unchanged.
- `time()`-based schedule values. They depend on the clock.
- Floats, objects and closures as field values. `Value` has no such cases, so `createNewNotification` with a float, object or closure name appears as any non-string `Value`.
- PHP's conversion of integer-like string keys and of non-string query values. Names and query arguments are plain strings.
- PHP 8 `TypeError`s for arguments that break a type hint. An `array` hint is a precondition (`IsArray()`).
- `array_values(null)` and `count(null)` before the first registration. They are modelled as a `null` payload and a count of 0.
- ScheduledPush.ScheduledPushRequest.GetPayload: calling `getPayload` with no push set is a fatal error in PHP. Here it is the error value `PushNotSet`.
- AirshipClient.Airship.Request: the request object injected through the constructor is a parameter of this method instead of a field.

## Findings

| source | as written | input that shows it | evidently intended | confidence | as-written member | corrected member |
|---|---|---|---|---|---|---|
| src/UrbanAirship/Push/BatchPushRequest.php:132-136 | the duplicate guard reads key `deviceType`, which nothing writes, and the append goes to `deviceTypes`, not the `device_types` key the service reads | a registered name with no `deviceTypes`, then `pushDeviceType(name, "ios")` twice: `deviceTypes` is `["ios", "ios"]` and `device_types` is unchanged | add the type to `device_types` unless it is already there, keeping first-seen order; in the corrected member a `device_types` that is not a list (such as `"all"`) is replaced by the one-element list of the pushed type | high; not executed | BatchPush.PushTwiceKeepsDuplicate | BatchPush.DedupedIdempotent |
| src/UrbanAirship/Push/ScheduledPushRequest.php:97 | `setPush` is declared to take an `array`, but `getPayload` (line 58) calls `getPayload()` on what was stored, and an array has no methods | `setPush($push)` with a `PushRequest` object, as src/tests/ScheduledPushTest.php:31 does, breaks the `array` type; any array that is accepted makes line 58 fail | `setPush` takes a `PushRequest` | high; not executed | ScheduledPush.PayloadAsWritten | ScheduledPush.ScheduledPushRequest.GetPayload |
