/** The community canister's `end_video_call` update, called by the video call
    operator when a call in one of the community's channels ends. */
module EndVideoCall {
  import opened Common
  import Chats

  type ChannelId = nat

  datatype Channel = Channel(chat: Chats.ChatEvents)

  datatype Args = Args(channelId: ChannelId, messageIndex: Chats.MessageIndex)

  datatype Response = Success | MessageNotFound | AlreadyEnded

  /** What the handler did, in order: the periodic jobs, the call into a
      channel's events (with the result it gave), and the activity notification. */
  datatype Effect =
    | RegularJobs
    | ChatEndVideoCall(channel: ChannelId, messageIndex: Chats.MessageIndex, now: Timestamp, result: Chats.EndVideoCallResult)
    | ActivityNotification

  /** The response for each result of the chat-events operation. */
  function ResponseFor(result: Chats.EndVideoCallResult): (r: Response)
    ensures r.Success? <==> result.Success?
    ensures r.MessageNotFound? <==> result.MessageNotFound?
    ensures r.AlreadyEnded? <==> result.AlreadyEnded?
  {
    match result
    case Success => Success
    case MessageNotFound => MessageNotFound
    case AlreadyEnded => AlreadyEnded
  }

  /** The translation of results into responses loses nothing. */
  lemma ResponseForIsOneToOne(a: Chats.EndVideoCallResult, b: Chats.EndVideoCallResult)
    ensures ResponseFor(a) == ResponseFor(b) ==> a == b
    ensures ResponseFor(a) == Success <==> a == Chats.Success
    ensures ResponseFor(a) == MessageNotFound <==> a == Chats.MessageNotFound
    ensures ResponseFor(a) == AlreadyEnded <==> a == Chats.AlreadyEnded
  {
  }

  class RuntimeState {
    var env: Env
    var channels: map<ChannelId, Channel>
    ghost var effects: seq<Effect>

    constructor (env: Env, channels: map<ChannelId, Channel>)
      ensures this.env == env && this.channels == channels && effects == []
    {
      this.env := env;
      this.channels := channels;
      effects := [];
    }

    /** `run_regular_jobs`: its work is not modelled, only that it ran. */
    method RunRegularJobs()
      modifies this`effects
      ensures effects == old(effects) + [RegularJobs]
    {
      effects := effects + [RegularJobs];
    }

    /** `handle_activity_notification`: its work is not modelled, only that it ran. */
    method HandleActivityNotification()
      modifies this`effects
      ensures effects == old(effects) + [ActivityNotification]
    {
      effects := effects + [ActivityNotification];
    }

    /** `channel.chat.events.end_video_call(messageIndex, now)` on channel `id`:
        only that channel may change, and any of the three results may come back. */
    method EndVideoCallInChannel(id: ChannelId, messageIndex: Chats.MessageIndex, now: Timestamp) returns (result: Chats.EndVideoCallResult)
      requires id in channels
      modifies this`channels, this`effects
      ensures channels.Keys == old(channels).Keys
      ensures forall c :: c in channels && c != id ==> channels[c] == old(channels)[c]
      ensures effects == old(effects) + [ChatEndVideoCall(id, messageIndex, now, result)]
    {
      var channel := channels[id];
      var (chat, res) := Chats.EndVideoCall(channel.chat, messageIndex, now);
      channels := channels[id := channel.(chat := chat)];
      result := res;
      effects := effects + [ChatEndVideoCall(id, messageIndex, now, result)];
    }

    /** The outcome of `end_video_call_impl(args)`, with `before` the effects
        logged when it began. */
    twostate predicate EndVideoCallOutcome(args: Args, r: Response, before: seq<Effect>)
      reads this
    {
      if args.channelId !in old(channels) then
        r == MessageNotFound && channels == old(channels) && effects == before
      else
        && channels.Keys == old(channels).Keys
        && (forall c :: c in channels && c != args.channelId ==> channels[c] == old(channels)[c])
        && |before| < |effects|
        && effects[|before|].ChatEndVideoCall?
        && var result := effects[|before|].result;
        && effects == before + [ChatEndVideoCall(args.channelId, args.messageIndex, env.now, result)]
             + (if result == Chats.Success then [ActivityNotification] else [])
        && r == ResponseFor(result)
    }

    /** `end_video_call_impl`. */
    method EndVideoCallImpl(args: Args) returns (r: Response)
      modifies this`channels, this`effects
      ensures EndVideoCallOutcome(args, r, old(effects))
    {
      if args.channelId in channels {
        var result := EndVideoCallInChannel(args.channelId, args.messageIndex, env.now);
        match result
        case Success =>
          HandleActivityNotification();
          r := Success;
        case MessageNotFound =>
          r := MessageNotFound;
        case AlreadyEnded =>
          r := AlreadyEnded;
      } else {
        r := MessageNotFound;
      }
    }

    /** `end_video_call`: the regular jobs run first, then the impl. */
    method EndVideoCall(args: Args) returns (r: Response)
      modifies this`channels, this`effects
      ensures EndVideoCallOutcome(args, r, old(effects) + [RegularJobs])
    {
      RunRegularJobs();
      r := EndVideoCallImpl(args);
    }
  }
}
