# OpenChat canister handlers in Dafny

This project models five request handlers of the OpenChat canisters. Each handler reads or changes one canister's `RuntimeState`. The model covers:

- **online_users `mark_as_online`.** It resolves the caller's principal to a `UserId`: first through the local `principal_to_user_id_map`, and on a miss through the user index canister's `c2c_lookup_user`. It then records the user as online: last-online date, counter, one `user_online` event. The await splits the handler in two methods. `TryLocal` runs the part before the await. `CompleteLookup(p, outcome)` runs the part after it, with the lookup's outcome as a parameter.
- **event_relay `push_events`.** Each incoming event goes through the deduper's `try_push`. The user of each accepted event is obfuscated with the canister's salt. The survivors go to the event sink in one `push_many` call.
- **community `inspect_message`.** A fail-closed accept-list decision on ingress messages, as a pure function returning `true` exactly when the hook calls `accept_message()`.
- **user `c2c_undelete_messages`.** A check against the blocked list, a lookup of the caller's direct chat, then an undelete in that chat with fixed arguments.
- **community `end_video_call`.** A lookup of the channel, the video call ended in its chat events, the three-way result mapped to a response, and the activity notification sent on success only.

Files and modules:

- `common.dfy`: `Common` holds identifiers, `Option`, `Result`, `Env` (caller, time, own canister id) and `Event`. `EventSink` holds the event sink client's queue.
- `chats.dfy`: `Chats`, a stand-in for the chat-events crate.
- `mark_as_online.dfy`, `push_events.dfy`, `inspect_message.dfy`, `c2c_undelete_messages.dfy`, `end_video_call.dfy`: one module per handler.

Collaborators that are not part of this model are modelled as follows:

- **Foreign library calls.** These are `Principal::from_text` validity, `str::as_bytes` and `sha256_string`. They are the function-valued fields of `PushEvents.Primitives` and are left uninterpreted. `DigestShape` requires the digest to be 64 lower-case hex digits.
- **Internal helpers.** These are `run_regular_jobs`, `handle_activity_notification`, and the chat-events operations `undelete_messages` and `end_video_call`. They are state-class methods that log a ghost `Effect`. The two chat-events operations may change only the chat or channel they are given. `run_regular_jobs` and `handle_activity_notification` may change none of the modelled entities. The handler proofs do not depend on the stand-in bodies.
- **The deduper.** Its stand-in body keeps a map from key to last-seen time. Its contract only logs each call (key, `now`, verdict), so no property depends on the window.
- **Principals.** A principal is represented by its canonical text, so `to_string()` is that text.

Two design points, one decided by the code and one left open by it:

- `accept_if_valid` refuses every `c2c…` method and `wallet_receive` at ingress. It does so even though these are internal methods that a design might let through the gate. `AcceptIfValid` follows the code.
- The policy of `LastOnlineDates::mark_online` is not part of this model's source. The model overwrites the date with `now`. This matches a max-merge whenever the clock does not go backwards.

## Model

| member | source | states |
|---|---|---|
| `MarkAsOnline.RuntimeState.TryGetUserIdLocally` | backend/canisters/online_users/impl/src/updates/mark_as_online.rs:30-37 | `Ok` exactly when the caller's principal is cached, with the cached `UserId`. Otherwise `Err(caller, user_index_canister_id)`. |
| `MarkAsOnline.RuntimeState.MarkAsOnlineImpl` | backend/canisters/online_users/impl/src/updates/mark_as_online.rs:39-51 | Always `Success`. `last_online_dates[user] = now` and the counter goes up by exactly 1. Exactly one event is queued: name "user_online", timestamp `now`, user = the user id's text, source = the canister id's text, empty payload. |
| `MarkAsOnline.RuntimeState.TryLocal` | backend/canisters/online_users/impl/src/updates/mark_as_online.rs:12-27 | On a cache hit, the cached user is marked online and no lookup is needed. On a miss, nothing changes and the caller and user index id are returned for the lookup. |
| `MarkAsOnline.RuntimeState.CompleteLookup` | backend/canisters/online_users/impl/src/updates/mark_as_online.rs:14-27 | `Success(u)` inserts (p, u), marks that same `u` online, and makes the next local lookup for p return `u`. Any other `Ok` gives `UserNotFound` and `Err(e)` gives `InternalError(e)`, both with all state unchanged. No negative result is cached. |
| `MarkAsOnline.ResolveThenHit` | backend/canisters/online_users/impl/src/updates/mark_as_online.rs:12-27 | A miss followed by a successful lookup, then a second call for the same caller: the second call finishes locally with `Success` for the same user, and the counter has gone up by 2. |
| `PushEvents.ObfuscateUser` | backend/canisters/event_relay/impl/src/updates/push_events.rs:38-49 | A string that `Principal::from_text` rejects is returned unchanged. A principal gives 32 lower-case hex digits: the suffix, from index 32, of `sha256_string(user bytes ++ salt)`. Being a function, it is deterministic. |
| `PushEvents.Relayed` | backend/canisters/event_relay/impl/src/updates/push_events.rs:25-34 | A forwarded event keeps `name`, `timestamp`, `source` and `payload`. Only `user` is rewritten through `ObfuscateUser`, and `None` stays `None`. |
| `PushEvents.RuntimeState.PushEventsImpl` | backend/canisters/event_relay/impl/src/updates/push_events.rs:16-36 | `try_push` is called once per incoming event, in input order, with that event's key and the same `now` for all. Then `push_many` is called exactly once, with `Forwarded` of the batch and the verdicts, using the one stored salt. No other state changes. |
| `PushEvents.Forwarded` | backend/canisters/event_relay/impl/src/updates/push_events.rs:22-34 | The batch for the given verdicts has one event per accepted position and never more events than came in. Its k-th event is the input event at the k-th accepted position, rewritten by `Relayed`. |
| `PushEvents.EventDeduper.TryPush` | backend/canisters/event_relay/impl/src/updates/push_events.rs:24 | Each call is logged with its key, its `now` and the verdict it gave. The verdict itself is not constrained. |
| `EventSink.EventSinkClient.Push` | backend/canisters/online_users/impl/src/updates/mark_as_online.rs:43-49 | The event is appended to the sink client's queue and the call is logged. |
| `EventSink.EventSinkClient.PushMany` | backend/canisters/event_relay/impl/src/updates/push_events.rs:21-35 | The events are appended to the queue in the order given, and the call is logged once. |
| `PushEvents.ForwardedSelection` | backend/canisters/event_relay/impl/src/updates/push_events.rs:21-34 | The forwarded batch holds exactly the events whose `try_push` returned true. Each appears once, in original relative order, rewritten by `Relayed`. |
| `PushEvents.KeptAt` | backend/canisters/event_relay/impl/src/updates/push_events.rs:22-24 | The k-th kept event is the input event at the k-th accepted position. |
| `PushEvents.TrueIndicesExact` | backend/canisters/event_relay/impl/src/updates/push_events.rs:24 | The accepted positions are listed in strictly increasing order, and each one is a position whose `try_push` returned true. Every such position is listed. |
| `PushEvents.KeptAllOrNothing` | backend/canisters/event_relay/impl/src/updates/push_events.rs:24 | If every verdict is false, nothing is forwarded. If every verdict is true, every event is forwarded. |
| `PushEvents.Kept` | backend/canisters/event_relay/impl/src/updates/push_events.rs:22-24 | The filter never forwards more events than it was given. |
| `InspectMessage.AcceptIfValid` | backend/canisters/community/impl/src/lifecycle/inspect_message.rs:9-29 | `c2c*` and `wallet_receive` are never accepted, and a frozen community accepts nothing. Otherwise a member is accepted for any method, an invited user for `decline_invitation`, and a video call operator for `send_message`. Nothing else is accepted (fail closed). |
| `InspectMessage.IsC2cMethod` | backend/canisters/community/impl/src/lifecycle/inspect_message.rs:12-13 | A method counts as internal exactly when its name is `wallet_receive` or its first three characters are `c`, `2`, `c`. |
| `InspectMessage.LookupUserId` | backend/canisters/community/impl/src/lifecycle/inspect_message.rs:22-23 | `lookup_user_id` finds the caller exactly when the caller is a member or invited. |
| `InspectMessage.C2cPrefixRefused` | backend/canisters/community/impl/src/lifecycle/inspect_message.rs:12-18 | Any method named "c2c" followed by anything is refused, whatever the caller and state. |
| `InspectMessage.UnknownCallerRefused` | backend/canisters/community/impl/src/lifecycle/inspect_message.rs:20-28 | A caller who is not a member, not invited and not an operator is refused for every method. |
| `InspectMessage.InvitedOnlyDeclines` | backend/canisters/community/impl/src/lifecycle/inspect_message.rs:21-23 | An invited non-member who is not an operator is accepted exactly for `decline_invitation`, when the community is not frozen. |
| `InspectMessage.OperatorMaySendMessage` | backend/canisters/community/impl/src/lifecycle/inspect_message.rs:24 | A video call operator's `send_message` is accepted in an unfrozen community, even when the operator is not a member. |
| `InspectMessage.AcceptIfValidIsAcceptList` | backend/canisters/community/impl/src/lifecycle/inspect_message.rs:9-29 | The string-based gate is equal to a closed match over method kinds (cross-canister, decline-invitation, send-message, ordinary) and caller standings (member, invited, stranger). |
| `UndeleteMessages.RuntimeState.UndeleteIn` | backend/canisters/user/impl/src/updates/c2c_undelete_messages.rs:21-29 | The chat-events undelete changes only the selected direct chat and logs its argument record. |
| `UndeleteMessages.RuntimeState.C2cUndeleteMessagesImpl` | backend/canisters/user/impl/src/updates/c2c_undelete_messages.rs:16-34 | A blocked caller gets `UserBlocked`, even if a chat with them exists, and nothing changes. A caller with no direct chat gets `ChatNotFound` and nothing changes. Otherwise the response is `Success` and exactly one undelete runs, on the caller's own chat only. Its arguments are: `caller` = the caller, `is_admin` false, `min_visible_event_index` 0, `thread_root_message_index` `None`, the args' `message_ids` and `now`. |
| `UndeleteMessages.RuntimeState.C2cUndeleteMessages` | backend/canisters/user/impl/src/updates/c2c_undelete_messages.rs:10-14 | `run_regular_jobs` runs first. Then the impl runs with the caller's principal as its `UserId`. |
| `EndVideoCall.RuntimeState.EndVideoCallInChannel` | backend/canisters/community/impl/src/updates/end_video_call.rs:18-19 | The chat-events `end_video_call(message_index, now)` changes only the selected channel. Its result is logged and may be any of the three. |
| `EndVideoCall.RuntimeState.EndVideoCallImpl` | backend/canisters/community/impl/src/updates/end_video_call.rs:17-30 | An unknown channel gives `MessageNotFound` and nothing changes. Otherwise the call ends in `args.channel_id` with `args.message_index` and `now`, and no other channel changes. The result maps one-to-one to the response. The activity notification follows exactly when the result is `Success`. |
| `EndVideoCall.RuntimeState.EndVideoCall` | backend/canisters/community/impl/src/updates/end_video_call.rs:11-15 | `run_regular_jobs` runs first, then the impl. |
| `EndVideoCall.ResponseFor` | backend/canisters/community/impl/src/updates/end_video_call.rs:19-26 | The response is `Success`, `MessageNotFound` or `AlreadyEnded` exactly when the chat-events result is the one of the same name. |
| `EndVideoCall.ResponseForIsOneToOne` | backend/canisters/community/impl/src/updates/end_video_call.rs:19-26 | `Success`, `MessageNotFound` and `AlreadyEnded` map to the responses of the same name, and distinct results give distinct responses. |

## Left out

- The `#[update]`, `#[trace]` and `#[inspect_message]` macros and tracing are not modelled. Neither are the `read_state`/`mutate_state` wrappers: each handler is a method on its canister's state class. For `push_events`, only the impl is modelled, since the outer function only wraps it.
- The guards `caller_can_push_events` and `caller_is_video_call_operator` are not modelled. They reject a call before the handler runs.
- The ambient `ic_cdk::api::call::method_name()` becomes the `methodName` parameter of `AcceptIfValid`.
- Scheduling and interleaving are not modelled. Other messages may run between `TryLocal` and `CompleteLookup`, and `CompleteLookup` overwrites whatever was cached meanwhile. No scheduler is modelled.
- `c2c_lookup_user` is an inter-canister call. Its outcome is a parameter. The error's `{error:?}` text is taken as already formatted.
- `Principal::from_text`, `str::as_bytes` and `sha256_string` are foreign library code and are uninterpreted. The principal text encoding is not modelled: a principal is its text.
- ObfuscateUser: salt dependence and non-invertibility are not proved. They rest on SHA-256 being collision resistant, which is outside the model.
- The deduper's window and eviction are not part of this model's source. Properties about re-ingesting a batch within or beyond the window are therefore not modelled.
- `LastOnlineDates::mark_online`'s internals are not part of this model's source. The model records `now` without a max-merge clamp.
- `mark_as_online_count` is unbounded: u64 overflow is not modelled, since it cannot be reached in practice.
- The internals of `ChatEvents::undelete_messages`, `ChatEvents::end_video_call`, `handle_activity_notification`, `run_regular_jobs` and the event sink clients' flushing are not part of this model's source. They are abstract methods, and their effects are logged. The chat-events operations promise only which chat or channel may change. The other two are assumed to change no modelled entity, as the next three lines say.
- UndeleteMessages.RuntimeState.RunRegularJobs: assumed not to touch the blocked list or the direct chats. Its contract changes only the effect log, so `C2cUndeleteMessages` states the impl's outcome against the state from before the jobs ran.
- EndVideoCall.RuntimeState.RunRegularJobs: assumed not to touch the channels. Its contract changes only the effect log, so `EndVideoCall` states the impl's outcome against the state from before the jobs ran.
- EndVideoCall.RuntimeState.HandleActivityNotification: assumed not to touch the channels, although the helper takes the community state mutably. Its contract changes only the effect log, so `EndVideoCallImpl` promises that no channel other than `args.channel_id` changes, even after the notification.
- PushEvents.EventDeduper.TryPush: its verdict is unconstrained. The window is not part of this model's source.
- PushEvents.RuntimeState.PushEventsImpl: in the source the filter is lazy, so each `try_push` runs inside `push_many` as it consumes the iterator. The model makes every `try_push` call first and then calls `push_many` once. The final state is the same only if `push_many` drains the whole iterator. The sink client's code is not part of this model's source.
- The frontend identity client and its Candid bindings are network and serialization code. The icp_dispenser lifecycle is timer and randomness plumbing. `access_token.rs` holds type definitions only. None of them is modelled.
