/** The online_users canister's `mark_as_online` update: resolve the caller's
    principal to a user id (locally, or through the user index canister on a
    miss), then record the user as online.

    The handler suspends while it awaits `c2c_lookup_user`. That await splits it
    in two methods: `TryLocal` runs the synchronous first part and either
    finishes or reports the principal to look up; `CompleteLookup` resumes with
    the lookup's outcome. Other messages may run between the two calls. */
module MarkAsOnline {
  import opened Common
  import opened EventSink

  datatype Response = Success | UserNotFound | InternalError(detail: string)

  /** The outcome of `c2c_lookup_user`: the `Success` response, any other `Ok`
      response, or a call error (carried as its debug-formatted text). */
  datatype LookupOutcome =
    | LookupSuccess(userId: UserId)
    | LookupOtherOk
    | LookupErr(debug: string)

  /** Where the handler stands after its synchronous first part. */
  datatype Phase =
    | Finished(response: Response)
    | AwaitingLookup(principal: Principal, userIndexCanisterId: CanisterId)

  class RuntimeState {
    var env: Env
    var principalToUserId: map<Principal, UserId>
    var userIndexCanisterId: CanisterId
    var lastOnlineDates: map<UserId, Timestamp>
    var markAsOnlineCount: nat
    const eventSinkClient: EventSinkClient

    constructor (env: Env, userIndexCanisterId: CanisterId)
      ensures this.env == env && this.userIndexCanisterId == userIndexCanisterId
      ensures principalToUserId == map[] && lastOnlineDates == map[] && markAsOnlineCount == 0
      ensures fresh(eventSinkClient) && eventSinkClient.queue == [] && eventSinkClient.calls == []
    {
      this.env := env;
      this.userIndexCanisterId := userIndexCanisterId;
      principalToUserId := map[];
      lastOnlineDates := map[];
      markAsOnlineCount := 0;
      eventSinkClient := new EventSinkClient();
    }

    /** `try_get_user_id_locally`: the cached user id of the caller, or the
        caller together with the user index canister to ask. */
    function TryGetUserIdLocally(): (r: Result<UserId, (Principal, CanisterId)>)
      reads this
      ensures r.Ok? <==> env.caller in principalToUserId
      ensures r.Ok? ==> r.value == principalToUserId[env.caller]
      ensures r.Err? ==> r.error == (env.caller, userIndexCanisterId)
    {
      if env.caller in principalToUserId then Ok(principalToUserId[env.caller])
      else Err((env.caller, userIndexCanisterId))
    }

    /** The effects of one `mark_as_online_impl(userId, ..)`: the user's last
        online date is now, the counter went up by one, and exactly one
        "user_online" event for the user, from this canister, was queued. */
    twostate predicate MarkedOnline(userId: UserId)
      reads this, eventSinkClient
    {
      && lastOnlineDates == old(lastOnlineDates)[userId := env.now]
      && markAsOnlineCount == old(markAsOnlineCount) + 1
      && var e := Event("user_online", env.now, Some(UserIdText(userId)), Some(env.canisterId.text), []);
      && eventSinkClient.queue == old(eventSinkClient.queue) + [e]
      && eventSinkClient.calls == old(eventSinkClient.calls) + [PushCall(e)]
    }

    /** `mark_as_online_impl`. */
    method MarkAsOnlineImpl(userId: UserId) returns (r: Response)
      modifies this`lastOnlineDates, this`markAsOnlineCount, eventSinkClient
      ensures r == Success
      ensures MarkedOnline(userId)
    {
      var now := env.now;
      lastOnlineDates := lastOnlineDates[userId := now];
      markAsOnlineCount := markAsOnlineCount + 1;
      eventSinkClient.Push(Event("user_online", now, Some(UserIdText(userId)), Some(env.canisterId.text), []));
      r := Success;
    }

    /** The part of `mark_as_online` that runs before the await: on a cache hit
        the user is marked online at once; on a miss nothing changes and the
        principal to look up is returned. */
    method TryLocal() returns (phase: Phase)
      modifies this`lastOnlineDates, this`markAsOnlineCount, eventSinkClient
      ensures old(env.caller in principalToUserId) ==>
        phase == Finished(Success) && MarkedOnline(old(principalToUserId[env.caller]))
      ensures old(env.caller !in principalToUserId) ==>
        && phase == AwaitingLookup(env.caller, userIndexCanisterId)
        && unchanged(this, eventSinkClient)
    {
      var local := TryGetUserIdLocally();
      match local
      case Ok(u) =>
        var r := MarkAsOnlineImpl(u);
        phase := Finished(r);
      case Err((p, userIndex)) =>
        phase := AwaitingLookup(p, userIndex);
    }

    /** The part of `mark_as_online` that runs after `c2c_lookup_user` for
        principal `p` returned `outcome`. Only a `Success` is written back, with
        last-write-wins over whatever another message cached meanwhile. */
    method CompleteLookup(p: Principal, outcome: LookupOutcome) returns (r: Response)
      modifies this`principalToUserId, this`lastOnlineDates, this`markAsOnlineCount, eventSinkClient
      ensures outcome.LookupSuccess? ==>
        && r == Success
        && principalToUserId == old(principalToUserId)[p := outcome.userId]
        && MarkedOnline(outcome.userId)
      ensures outcome.LookupSuccess? && p == env.caller ==> TryGetUserIdLocally() == Ok(outcome.userId)
      ensures outcome.LookupOtherOk? ==> r == UserNotFound && unchanged(this, eventSinkClient)
      ensures outcome.LookupErr? ==> r == InternalError(outcome.debug) && unchanged(this, eventSinkClient)
    {
      match outcome
      case LookupSuccess(u) =>
        principalToUserId := principalToUserId[p := u];
        r := MarkAsOnlineImpl(u);
      case LookupOtherOk =>
        r := UserNotFound;
      case LookupErr(debug) =>
        r := InternalError(debug);
    }
  }

  /** A caller resolved through the user index is found locally the next time:
      the second `mark_as_online` finishes without a lookup and marks the same
      user online again. */
  method ResolveThenHit(s: RuntimeState, u: UserId) returns (first: Response, second: Phase)
    requires s.env.caller !in s.principalToUserId
    modifies s, s.eventSinkClient
    ensures first == Success && second == Finished(Success)
    ensures s.principalToUserId == old(s.principalToUserId)[old(s.env.caller) := u]
    ensures s.markAsOnlineCount == old(s.markAsOnlineCount) + 2
    ensures s.lastOnlineDates == old(s.lastOnlineDates)[u := s.env.now]
  {
    var phase := s.TryLocal();
    first := s.CompleteLookup(phase.principal, LookupSuccess(u));
    second := s.TryLocal();
  }
}
