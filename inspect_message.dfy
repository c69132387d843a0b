/** The community canister's `inspect_message` hook: before an ingress message
    is executed, decide whether to accept it. The hook only ever accepts
    explicitly; returning without accepting rejects the message. */
module InspectMessage {
  import opened Common

  datatype FrozenGroupInfo = FrozenGroupInfo(timestamp: Timestamp, frozenBy: UserId, reason: Option<string>)

  /** The part of the community's data the gate reads: the freeze marker, the
      members by principal, the principals known only through an invitation, and
      the video call operators. */
  datatype Data = Data(
    frozen: Option<FrozenGroupInfo>,
    members: map<Principal, UserId>,
    invited: map<Principal, UserId>,
    videoCallOperators: set<Principal>)

  datatype RuntimeState = RuntimeState(env: Env, data: Data)

  predicate StartsWith(s: string, prefix: string)
  {
    |prefix| <= |s| && s[..|prefix|] == prefix
  }

  /** Methods meant for other canisters; `inspect_message` never sees a genuine
      call to one, so an ingress message naming one is refused. */
  function IsC2cMethod(methodName: string): (r: bool)
    ensures methodName == "wallet_receive" ==> r
    ensures 3 <= |methodName| && methodName[0] == 'c' && methodName[1] == '2' && methodName[2] == 'c' ==> r
    ensures r ==>
      || methodName == "wallet_receive"
      || (3 <= |methodName| && methodName[0] == 'c' && methodName[1] == '2' && methodName[2] == 'c')
  {
    StartsWith(methodName, "c2c") || methodName == "wallet_receive"
  }

  /** `members.get(caller).is_some()`. */
  predicate IsMember(data: Data, caller: Principal)
  {
    caller in data.members
  }

  /** `members.lookup_user_id(caller)`: a member's or an invited user's id. */
  function LookupUserId(data: Data, caller: Principal): (r: Option<UserId>)
    ensures r.Some? <==> caller in data.members || caller in data.invited
  {
    if caller in data.members then Some(data.members[caller])
    else if caller in data.invited then Some(data.invited[caller])
    else None
  }

  /** `is_caller_video_call_operator`. */
  predicate IsCallerVideoCallOperator(state: RuntimeState)
  {
    state.env.caller in state.data.videoCallOperators
  }

  /** `accept_if_valid`: true exactly when the hook calls `accept_message()`. */
  function AcceptIfValid(methodName: string, state: RuntimeState): (accept: bool)
    // c2c methods are refused, and nothing is accepted while frozen
    ensures IsC2cMethod(methodName) ==> !accept
    ensures state.data.frozen.Some? ==> !accept
    // the three accept rules
    ensures !IsC2cMethod(methodName) && state.data.frozen.None? ==>
      && (IsMember(state.data, state.env.caller) ==> accept)
      && (LookupUserId(state.data, state.env.caller).Some? && methodName == "decline_invitation" ==> accept)
      && (methodName == "send_message" && IsCallerVideoCallOperator(state) ==> accept)
    // fail closed: nothing else is accepted
    ensures accept ==>
      || IsMember(state.data, state.env.caller)
      || (LookupUserId(state.data, state.env.caller).Some? && methodName == "decline_invitation")
      || (methodName == "send_message" && IsCallerVideoCallOperator(state))
  {
    var isC2cMethod := IsC2cMethod(methodName);
    var isFrozen := state.data.frozen.Some?;
    if isC2cMethod || isFrozen then false
    else
      var caller := state.env.caller;
      IsMember(state.data, caller)
      || (LookupUserId(state.data, caller).Some? && methodName == "decline_invitation")
      || (methodName == "send_message" && IsCallerVideoCallOperator(state))
  }

  /** Every method whose name begins with "c2c" is refused, whoever calls it. */
  lemma C2cPrefixRefused(suffix: string, state: RuntimeState)
    ensures !AcceptIfValid("c2c" + suffix, state)
  {
  }

  /** A caller who is neither a member, nor invited, nor a video call operator
      is refused for every method. */
  lemma UnknownCallerRefused(methodName: string, state: RuntimeState)
    requires state.env.caller !in state.data.members
    requires state.env.caller !in state.data.invited
    requires !IsCallerVideoCallOperator(state)
    ensures !AcceptIfValid(methodName, state)
  {
  }

  /** An invited non-member who is not an operator may only decline the invitation. */
  lemma InvitedOnlyDeclines(methodName: string, state: RuntimeState)
    requires state.env.caller !in state.data.members
    requires state.env.caller in state.data.invited
    requires !IsCallerVideoCallOperator(state)
    ensures AcceptIfValid(methodName, state) <==> state.data.frozen.None? && methodName == "decline_invitation"
  {
    assert "decline_invitation"[..3][0] == 'd';
  }

  /** A video call operator may send a message to a community it has not joined. */
  lemma OperatorMaySendMessage(state: RuntimeState)
    requires state.data.frozen.None?
    requires IsCallerVideoCallOperator(state)
    ensures AcceptIfValid("send_message", state)
  {
    assert "send_message"[..3][0] == 's';
  }

  /** The same gate written as a closed match over kinds of method and kinds of
      caller, rather than as string comparisons and booleans. */
  datatype MethodKind = CrossCanister | DeclineInvitation | SendMessage | Ordinary

  datatype Standing = Member | Invited | Stranger

  function Classify(methodName: string): MethodKind
  {
    if IsC2cMethod(methodName) then CrossCanister
    else if methodName == "decline_invitation" then DeclineInvitation
    else if methodName == "send_message" then SendMessage
    else Ordinary
  }

  function StandingOf(data: Data, caller: Principal): Standing
  {
    if caller in data.members then Member
    else if caller in data.invited then Invited
    else Stranger
  }

  /** The accept-list: which kinds of caller may send which kinds of method. */
  function Allowed(kind: MethodKind, frozen: bool, standing: Standing, isOperator: bool): bool
  {
    match kind
    case CrossCanister => false
    case _ =>
      !frozen &&
      match standing
      case Member => true
      case Invited => kind == DeclineInvitation || (kind == SendMessage && isOperator)
      case Stranger => kind == SendMessage && isOperator
  }

  /** `accept_if_valid` agrees with the accept-list on every message and state. */
  lemma AcceptIfValidIsAcceptList(methodName: string, state: RuntimeState)
    ensures AcceptIfValid(methodName, state)
      == Allowed(Classify(methodName), state.data.frozen.Some?,
                 StandingOf(state.data, state.env.caller), IsCallerVideoCallOperator(state))
  {
  }
}
