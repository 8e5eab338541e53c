# clog forward-event logging, modelled in Dafny

clog is a Core Lightning plugin. It subscribes to `forward_event` notifications and, for each forward
that settles or fails locally, logs one line that names both channels' peers. It resolves a peer
name in two steps, each behind a cache:

1. short channel id → the counterparty's public key (`listchannels`);
2. public key → the node's alias (`listnodes`). This cache has a one-hour time to live. When a node
   advertises no alias, its public key string is used instead.

This project models both parts:

- `node_names.dfy`, module `NodeNameCache`: the resolver. The class `NodeNames` holds the two caches
  as map fields and counts RPC round trips in a ghost field. The pure functions `ChannelPeer`,
  `NodeAlias` and `ChannelPeerAlias` state what one resolution does to a snapshot of both caches.
  Each method is proved to do exactly what its function says.
- `forward_notifications.dfy`, module `ForwardNotifications`: the notification handler. The pure
  functions classify the payload by status and flag, resolve both endpoints (inbound, then
  outbound), and give the records logged. The methods run the same steps on a shared `NodeNames`
  and a `Log` whose contents are a ghost sequence, and are proved against those functions.
- `primitives.dfy`, module `Primitives`: short channel ids, public keys and how they display (lowercase hex),
  and the error kinds with the messages the source attaches.
- `wrappers.dfy`, module `Wrappers`: `Option` and `Result`.

The node's control interface is an input value, `Gateway`. For every request it gives the records
listed or the message of a failed round trip. The short channel id parser belongs to the RPC
client library, so it is a parameter (`Parser`). Time is a parameter `now`, in seconds.

Two behaviours of the code worth noting:

- Peer selection only compares the record's `source` with the local key. If the local key is not
  the source, the source is returned, even in the case (which should not happen) where the local
  node is neither endpoint.
- A status that is not a string makes the code panic (`unwrap`), rather than fail with an error.
  An unrecognised status string is ignored, not treated as an error.

## Model

| member | source | states |
|---|---|---|
| `NodeNameCache.SelectPeer` | src/logs/node_names.rs:61-67 | the destination when the record's source is the local node, the source otherwise; so when the local node is the destination the peer is the source, and when the local node is one of two distinct endpoints the result is the other one |
| `NodeNameCache.AliasOrPubkey` | src/logs/node_names.rs:86-87 | the first record's alias when present, otherwise the public key's string form |
| `NodeNameCache.FallbackNamesDistinct` | src/logs/node_names.rs:87 | two different nodes without an alias never get the same display name |
| `Primitives.PubkeyString` | src/logs/node_names.rs:87 | a key displays as two lowercase hex digits per byte |
| `Primitives.PubkeyStringInjective` | src/logs/node_names.rs:84 | two keys display alike exactly when they are equal, so the not-found message and the fallback name identify the node |
| `Primitives.Message` | src/logs/node_names.rs:59 | the texts the errors carry: parse and gateway messages verbatim; "could not find channel with id: " followed by the id as given; "could not find node with id: " followed by the key's string; the two fixed texts for a payload without `forward_event` (src/forward_notifications.rs:18) or without a status (src/forward_notifications.rs:24) |
| `Primitives.NotFoundMessagesIdentify` | src/logs/node_names.rs:84 | two node-not-found messages are equal exactly when the keys are, and two channel-not-found messages exactly when the ids are |
| `NodeNameCache.ChannelPeer` | src/logs/node_names.rs:42-71 | an id that fails to parse gives the parse error with no call and no cache change; a cached id gives the cached key with no call; a miss makes exactly one `listchannels` call, and its answer decides the outcome (gateway error, not-found for an empty list, otherwise the peer selected from the first record); the alias cache is never touched; a failure changes no cache; a success inserts exactly the returned key under the parsed id and nothing else changes |
| `NodeNameCache.NodeAlias` | src/logs/node_names.rs:73-91 | a live cached name is returned with no call; any other lookup, expired entries included, makes exactly one `listnodes` call; its answer decides the outcome (gateway error, not-found for an empty list, otherwise alias-or-key of the first record); the channel-peer cache is never touched; a failure changes no cache; a fetched name is inserted exactly as returned, stamped with the current time |
| `NodeNameCache.ChannelPeerAlias` | src/logs/node_names.rs:37-40 | a failed peer resolution is returned as it is, with no node lookup and no cache change; otherwise the result, the calls and the caches are those the peer lookup and then the name lookup leave, so a failed name lookup keeps the channel entry the peer lookup stored; at most two calls; after a success both caches hold the entries that give back the returned name, and the name entry is live |
| `NodeNameCache.CachedResolutionIsFree` | src/logs/node_names.rs:45-47 | with the channel cached and a live name for its peer, resolution returns the cached name, makes no call and changes nothing |
| `NodeNameCache.RepeatResolutionIsFree` | src/logs/node_names.rs:37-40 | repeating a successful resolution at the same time returns the same name with no call, whatever the gateway now answers |
| `NodeNameCache.FetchedNameServedWithinTtl` | src/logs/node_names.rs:31-33 | a name fetched at time t is served from the cache without a call, for any repeat at a time in [t, t + 3600) |
| `NodeNameCache.ExpiredNameRefetched` | src/logs/node_names.rs:74-90 | with the peer cached but its name expired, the next resolution issues exactly one call, leaves the channel cache as it was, and stores the fresh name stamped with the current time |
| `NodeNameCache.EvictedChannelPeerRefetched` | src/logs/node_names.rs:45-69 | after a resolution that fetched the peer, dropping its channel entry and resolving again against the same gateway gives the same name with exactly one call and the caches as before the drop |
| `NodeNameCache.EvictedNameRefetched` | src/logs/node_names.rs:74-90 | after a resolution that fetched the name, dropping its alias entry and resolving again at the same time against the same gateway gives the same name with exactly one call and the caches as before the drop |
| `NodeNameCache.NodeNames.constructor` | src/logs/node_names.rs:23-35 | the local key is the one given and both caches start empty |
| `NodeNameCache.NodeNames.GetChannelPeerAlias` | src/logs/node_names.rs:37-40 | the result, the new caches and the calls counted are those of `ChannelPeerAlias` on the old caches |
| `NodeNameCache.NodeNames.GetChannelPeer` | src/logs/node_names.rs:42-71 | the result, the new caches and the calls counted are those of `ChannelPeer` on the old caches |
| `NodeNameCache.NodeNames.GetNodeAlias` | src/logs/node_names.rs:73-91 | the result, the new caches and the calls counted are those of `NodeAlias` on the old caches |
| `NodeNameCache.NodeNames.EvictChannelPeer` | src/logs/node_names.rs:30 | the cache library may drop one channel-peer entry; nothing else changes |
| `NodeNameCache.NodeNames.EvictName` | src/logs/node_names.rs:31-33 | the cache library may drop one alias entry; nothing else changes |
| `ForwardNotifications.Classify` | src/forward_notifications.rs:16-44 | a missing `forward_event` or status is rejected with its own error; the event is logged as a success exactly when the status is `settled` and the successful-forwards flag is on, and as a failure exactly when it is `local_failed` and the failed-forwards flag is on; it is ignored exactly in every other case with a status |
| `ForwardNotifications.ParseChannelInfo` | src/forward_notifications.rs:111-119 | success exactly when the resolution succeeded, pairing the short id unchanged with the resolved name; otherwise the same error |
| `ForwardNotifications.ChannelsInfo` | src/forward_notifications.rs:85-109 | both resolutions always run, inbound then outbound, and their calls and cache updates add up; success exactly when both succeed, with (inbound id, name) and (outbound id, name); the inbound error is reported when the inbound fails, the outbound error otherwise; an inbound failure does not stop the outbound lookup from being cached |
| `ForwardNotifications.SuccessLog` | src/forward_notifications.rs:54-69 | one success line carrying `in_msat`, `fee_msat`, then the inbound and outbound (id, name) pairs, exactly when both resolve; otherwise the error and no line |
| `ForwardNotifications.FailureLog` | src/forward_notifications.rs:71-83 | one failure line carrying `in_msat`, both (id, name) pairs and `failreason` verbatim, exactly when both resolve; otherwise the error and no line |
| `ForwardNotifications.Digits` | src/forward_notifications.rs:61-62 | an amount displays as at least one decimal digit, with no leading zero |
| `ForwardNotifications.DigitsRoundTrip` | src/forward_notifications.rs:61-62 | reading the displayed digits back as a decimal number gives the amount |
| `ForwardNotifications.DigitsInjective` | src/forward_notifications.rs:61-62 | two amounts display alike exactly when they are equal |
| `ForwardNotifications.Display` | src/forward_notifications.rs:61-62 | a JSON string displays between double quotes with its contents verbatim; a number in decimal, with a leading minus when negative, and reads back as itself; any other value as its JSON text |
| `ForwardNotifications.Render` | src/forward_notifications.rs:59-81 | the success text starts with "Forwarded "; the failure text starts with "Forward for " and ends with "failed because: " followed by the reason verbatim; the warning text is "Could not handle forward event: " followed by the error's message |
| `ForwardNotifications.HandlerEffect` | src/forward_notifications.rs:15-45 | rejected or ignored events make no call, change no cache and log nothing; enabled events are handled by the success or failure logger; at most one line is logged, only when handling succeeded, and its kind matches the status and its flag |
| `ForwardNotifications.ForwardEventOutcome` | src/forward_notifications.rs:47-51 | the result is always `Ok`; the handler's error, if any, becomes exactly one warning after its lines; at most one record is logged per event, and none exactly when the event is ignored |
| `ForwardNotifications.OtherStatusIsSilent` | src/forward_notifications.rs:43 | a status other than `settled` or `local_failed` makes no call, changes no cache and logs nothing, whatever the flags |
| `ForwardNotifications.DisabledStatusIsSilent` | src/forward_notifications.rs:29-42 | a `settled` or `local_failed` event whose flag is off makes no call, changes no cache and logs nothing |
| `ForwardNotifications.MalformedPayloadOnlyWarns` | src/forward_notifications.rs:16-26 | a payload with no `forward_event` object, or an event with no status, logs exactly one warning with the matching error, makes no call and changes no cache |
| `ForwardNotifications.UnresolvedEndpointOnlyWarns` | src/forward_notifications.rs:105-108 | when an enabled event's endpoints do not both resolve, the only record is one warning, carrying the inbound error if the inbound failed and the outbound error otherwise |
| `ForwardNotifications.SettledScenario` | src/forward_notifications.rs:54-69 | a settled 100100 msat forward with a 100 msat fee, starting from empty caches, makes four calls and logs one success line naming Alice for the inbound channel and the outbound peer by its key |
| `ForwardNotifications.LocalFailedScenario` | src/forward_notifications.rs:71-83 | the same forward failing locally logs one failure line carrying both resolved names and the reason "WIRE_TEMPORARY_CHANNEL_FAILURE" verbatim |
| `ForwardNotifications.SettledScenarioText` | src/forward_notifications.rs:59-67 | the scenario's success record renders as "Forwarded 100100msat (100msat fee) from 700000x1x0 (Alice) to 700001x2x0 (0302)" |
| `ForwardNotifications.LocalFailedScenarioText` | src/forward_notifications.rs:73-81 | the scenario's failure record renders as "Forward for 100100msat from 700000x1x0 (Alice) to 700001x2x0 (0302) failed because: WIRE_TEMPORARY_CHANNEL_FAILURE" |
| `ForwardNotifications.Log.Emit` | src/forward_notifications.rs:48 | one record is appended to the log |
| `ForwardNotifications.GetChannelsInfo` | src/forward_notifications.rs:85-109 | the result, the new caches and the calls counted are those of `ChannelsInfo` on the old caches |
| `ForwardNotifications.LogForwardEventSuccess` | src/forward_notifications.rs:54-69 | the result, the lines appended, the new caches and the calls counted are those of `SuccessLog` |
| `ForwardNotifications.LogForwardEventFailed` | src/forward_notifications.rs:71-83 | the result, the lines appended, the new caches and the calls counted are those of `FailureLog` |
| `ForwardNotifications.HandleForwardEvent` | src/forward_notifications.rs:15-45 | the result, the lines appended, the new caches and the calls counted are those of `HandlerEffect` |
| `ForwardNotifications.ForwardEventHandler` | src/forward_notifications.rs:14-52 | returns `Ok`; the lines appended, the new caches and the calls counted are those of `ForwardEventOutcome` |

## Left out

- Process start-up in src/main.rs (plugin builder, option registration, runtime) is not modelled. The two flags are passed in as `Options`. Their defaults (both true, src/main.rs:14-24) are `DEFAULT_OPTIONS`.
- A failing `plugin.option(...)` lookup is not modelled: both options are registered at start-up, so the lookup reads a boolean.
- The RPC transport (`ClnRpc::new`, `call_typed`, and the `getinfo` call in `NodeNames::new`) is replaced by the `Gateway` value and the constructor's key parameter. A failed connection and a failed call are the same error, and each counts as one attempted call.
- Capacity eviction: `CACHE_SIZE` is a constant only. The cache library's eviction is the environment calling `EvictChannelPeer` or `EvictName`. The model proves no bound on cache size and says nothing about which entry is evicted or about the admission policy.
- Expired alias entries stay in the map until overwritten or evicted. They are never served.
- Thread-safe sharing of cache clones, and races between concurrent dispatches, are not modelled. One `NodeNames` object stands for all clones.
- The two endpoint resolutions run concurrently in the source (`join!`). They are modelled one after the other, inbound first, with no eviction between them and the same `now` for both. A name fetched from the gateway is stamped with the time the resolution started. When both channels lead to the same peer whose name is not cached, the model issues three calls (the outbound resolution finds the name the inbound one stored); under `join!` both name lookups can miss at once, so the source may issue four.
- Parsing short channel ids and formatting public keys belong to the RPC client library. The parser is an abstract parameter. A key displays as the lowercase hex of its bytes, which is injective. Key length is abstracted: a key is any byte sequence, and the scenario keys are two bytes long, where the node would use 33-byte compressed keys shown as 66 hex digits.
- Each `unwrap` that can panic becomes a precondition (`NoPanic`, built from `StatusIsString`, `SuccessReady` and `FailureReady`): a non-string status, missing or non-string channel ids, and a missing `in_msat`, `fee_msat` or `failreason` (the last must be a string). The amounts and the reason are required only when both resolutions succeed, because only then does the source read them.
- ForwardNotifications.Render: for an arbitrary record the contract fixes only the leading text of a success or failure line and the trailing "failed because: " and reason; the full text, field by field, is proved for the two scenario records (`SettledScenarioText`, `LocalFailedScenarioText`).
- Log formatting: JSON string escaping in displayed values and the log level are not modelled. Only the record kind separates info lines from warnings. The text of a parse or gateway error is passed through as the library gives it.
