/** Identifiers, wrappers and records shared by the canister handlers. */
module Common {

  newtype byte = b: int | 0 <= b < 256

  /** TimestampMillis: milliseconds since the epoch. */
  type Timestamp = nat

  datatype Option<+T> = None | Some(value: T)

  datatype Result<+T, +E> = Ok(value: T) | Err(error: E)

  /** An Internet Computer principal, identified by its canonical textual form.
      The textual encoding itself (base32 with a checksum) is not modelled. */
  datatype Principal = Principal(text: string)

  type CanisterId = Principal

  /** A user's identity: the principal of the user's own canister. */
  datatype UserId = UserId(principal: Principal)

  /** `UserId::to_string()`: the text of the underlying principal. */
  function UserIdText(u: UserId): string
  {
    u.principal.text
  }

  /** `From<Principal> for UserId`. */
  function UserIdOf(p: Principal): UserId
  {
    UserId(p)
  }

  /** The environment of the running canister: the caller of the message being
      handled, the current time and the canister's own id. */
  datatype Env = Env(caller: Principal, now: Timestamp, canisterId: CanisterId)

  /** An analytics event as queued for an event sink. */
  datatype Event = Event(
    name: string,
    timestamp: Timestamp,
    user: Option<string>,
    source: Option<string>,
    payload: seq<byte>)
}

/** The client that queues events for the event sink canister. Flushing the
    queue to the sink (timers, inter-canister calls) is not modelled. */
module EventSink {
  import opened Common

  datatype SinkCall = PushCall(event: Event) | PushManyCall(events: seq<Event>)

  class EventSinkClient {
    /** Events accepted for delivery and not yet flushed. */
    var queue: seq<Event>
    /** Every call made on the client, in order. */
    ghost var calls: seq<SinkCall>

    constructor ()
      ensures queue == [] && calls == []
    {
      queue := [];
      calls := [];
    }

    method Push(e: Event)
      modifies this
      ensures queue == old(queue) + [e]
      ensures calls == old(calls) + [PushCall(e)]
    {
      queue := queue + [e];
      calls := calls + [PushCall(e)];
    }

    method PushMany(es: seq<Event>)
      modifies this
      ensures queue == old(queue) + es
      ensures calls == old(calls) + [PushManyCall(es)]
    {
      queue := queue + es;
      calls := calls + [PushManyCall(es)];
    }
  }
}
