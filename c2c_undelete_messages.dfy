/** The user canister's `c2c_undelete_messages` update, called by the canister
    of the other user in a direct chat to undelete messages in that chat. */
module UndeleteMessages {
  import opened Common
  import Chats

  /** A direct chat is keyed by the other user's id. */
  datatype ChatId = ChatId(principal: Principal)

  /** `From<UserId> for ChatId`. */
  function ChatIdOf(u: UserId): ChatId
  {
    ChatId(u.principal)
  }

  datatype DirectChat = DirectChat(events: Chats.ChatEvents)

  datatype Args = Args(messageIds: seq<Chats.MessageId>)

  datatype Response = Success | UserBlocked | ChatNotFound

  /** What the handler did, in order: the periodic jobs, and the calls into a
      chat's events. */
  datatype Effect =
    | RegularJobs
    | UndeleteMessagesIn(chat: ChatId, args: Chats.DeleteUndeleteMessagesArgs)

  class RuntimeState {
    var env: Env
    var blockedUsers: set<UserId>
    var directChats: map<ChatId, DirectChat>
    ghost var effects: seq<Effect>

    constructor (env: Env, blockedUsers: set<UserId>, directChats: map<ChatId, DirectChat>)
      ensures this.env == env && this.blockedUsers == blockedUsers
      ensures this.directChats == directChats && effects == []
    {
      this.env := env;
      this.blockedUsers := blockedUsers;
      this.directChats := directChats;
      effects := [];
    }

    /** `run_regular_jobs`: its work is not modelled, only that it ran. */
    method RunRegularJobs()
      modifies this`effects
      ensures effects == old(effects) + [RegularJobs]
    {
      effects := effects + [RegularJobs];
    }

    /** `chat.events.undelete_messages(args)` on the direct chat `id`: only that
        chat may change. */
    method UndeleteIn(id: ChatId, args: Chats.DeleteUndeleteMessagesArgs)
      requires id in directChats
      modifies this`directChats, this`effects
      ensures directChats.Keys == old(directChats).Keys
      ensures forall c :: c in directChats && c != id ==> directChats[c] == old(directChats)[c]
      ensures effects == old(effects) + [UndeleteMessagesIn(id, args)]
    {
      var chat := directChats[id];
      directChats := directChats[id := chat.(events := Chats.UndeleteMessages(chat.events, args))];
      effects := effects + [UndeleteMessagesIn(id, args)];
    }

    /** The outcome of `c2c_undelete_messages_impl(args, caller)`, with `before`
        the effects logged when it began. */
    twostate predicate UndeleteOutcome(args: Args, caller: UserId, r: Response, before: seq<Effect>)
      reads this
    {
      if caller in old(blockedUsers) then
        r == UserBlocked && directChats == old(directChats) && effects == before
      else if ChatIdOf(caller) !in old(directChats) then
        r == ChatNotFound && directChats == old(directChats) && effects == before
      else
        && r == Success
        && directChats.Keys == old(directChats).Keys
        && (forall c :: c in directChats && c != ChatIdOf(caller) ==> directChats[c] == old(directChats)[c])
        && effects == before + [UndeleteMessagesIn(ChatIdOf(caller),
             Chats.DeleteUndeleteMessagesArgs(caller, false, 0, None, args.messageIds, env.now))]
    }

    /** `c2c_undelete_messages_impl`: a blocked caller is refused before the
        chat is looked up; otherwise the caller's own chat is undeleted in with
        fixed arguments, and the response is `Success` whatever that did. */
    method C2cUndeleteMessagesImpl(args: Args, caller: UserId) returns (r: Response)
      modifies this`directChats, this`effects
      ensures UndeleteOutcome(args, caller, r, old(effects))
    {
      if caller in blockedUsers {
        return UserBlocked;
      }
      var id := ChatIdOf(caller);
      if id in directChats {
        UndeleteIn(id, Chats.DeleteUndeleteMessagesArgs(caller, false, 0, None, args.messageIds, env.now));
        r := Success;
      } else {
        r := ChatNotFound;
      }
    }

    /** `c2c_undelete_messages`: the regular jobs run first, then the impl with
        the caller's principal as its user id. */
    method C2cUndeleteMessages(args: Args) returns (r: Response)
      modifies this`directChats, this`effects
      ensures UndeleteOutcome(args, UserIdOf(env.caller), r, old(effects) + [RegularJobs])
    {
      RunRegularJobs();
      r := C2cUndeleteMessagesImpl(args, UserIdOf(env.caller));
    }
  }
}
