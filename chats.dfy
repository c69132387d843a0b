/** A stand-in for the `chat_events` crate, whose internals are not part of this
    model. The handlers reach it only through state-class methods whose
    contracts say which chat is touched and nothing about what happens inside
    it, so no property of the handlers rests on the definitions below. */
module Chats {
  import opened Common

  type MessageId = nat
  type MessageIndex = nat
  type EventIndex = nat

  /** `chat_events::EndVideoCallResult`. */
  datatype EndVideoCallResult = Success | MessageNotFound | AlreadyEnded

  /** `chat_events::DeleteUndeleteMessagesArgs`. */
  datatype DeleteUndeleteMessagesArgs = DeleteUndeleteMessagesArgs(
    caller: UserId,
    isAdmin: bool,
    minVisibleEventIndex: EventIndex,
    threadRootMessageIndex: Option<MessageIndex>,
    messageIds: seq<MessageId>,
    now: Timestamp)

  /** The events of one chat: which messages are deleted, and the video calls
      by message index with the time each one ended, if it has. */
  datatype ChatEvents = ChatEvents(
    deletedMessages: set<MessageId>,
    videoCalls: map<MessageIndex, Option<Timestamp>>)

  function UndeleteMessages(chat: ChatEvents, args: DeleteUndeleteMessagesArgs): ChatEvents
  {
    chat.(deletedMessages := chat.deletedMessages - set id | id in args.messageIds)
  }

  function EndVideoCall(chat: ChatEvents, messageIndex: MessageIndex, now: Timestamp): (ChatEvents, EndVideoCallResult)
  {
    if messageIndex !in chat.videoCalls then (chat, MessageNotFound)
    else if chat.videoCalls[messageIndex].Some? then (chat, AlreadyEnded)
    else (chat.(videoCalls := chat.videoCalls[messageIndex := Some(now)]), Success)
  }
}
