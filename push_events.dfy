/** The event_relay canister's `push_events` update: drop the events whose
    idempotency key the deduper has seen, obfuscate the user of each event that
    remains, and hand the survivors to the event sink in a single call. */
module PushEvents {
  import opened Common
  import opened EventSink

  /** The canister's secret salt, `[u8; 32]`. */
  type Salt = s: seq<byte> | |s| == 32 witness seq(32, _ => 0 as byte)

  /** An incoming event: an analytics event with the caller's idempotency key (u128). */
  datatype IdempotentEvent = IdempotentEvent(
    idempotencyKey: nat,
    name: string,
    timestamp: Timestamp,
    user: Option<string>,
    source: Option<string>,
    payload: seq<byte>)

  datatype Args = Args(events: seq<IdempotentEvent>)

  /** The library functions the relay calls, left uninterpreted:
      whether `Principal::from_text` accepts a string, `str::as_bytes`, and
      `sha256_string` (the SHA-256 digest of its input as hex text). */
  datatype Primitives = Primitives(
    isPrincipalText: string -> bool,
    utf8: string -> seq<byte>,
    sha256Hex: seq<byte> -> string)

  predicate IsLowerHexDigit(c: char)
  {
    '0' <= c <= '9' || 'a' <= c <= 'f'
  }

  /** What is assumed of `sha256_string`: its result is 64 lower-case hex digits. */
  ghost predicate DigestShape(prims: Primitives)
  {
    forall bytes: seq<byte> ::
      && |prims.sha256Hex(bytes)| == 64
      && forall i :: 0 <= i < 64 ==> IsLowerHexDigit(prims.sha256Hex(bytes)[i])
  }

  /** `obfuscate_user`: a string that is not a principal is returned as it is;
      a principal becomes the second half of the hex digest of its bytes
      followed by the salt, a 32-digit token. */
  function ObfuscateUser(user: string, salt: Salt, prims: Primitives): (r: string)
    requires DigestShape(prims)
    ensures !prims.isPrincipalText(user) ==> r == user
    ensures prims.isPrincipalText(user) ==>
      var digest := prims.sha256Hex(prims.utf8(user) + salt);
      && |r| == 32
      && digest == digest[..32] + r
      && forall i :: 0 <= i < |r| ==> IsLowerHexDigit(r[i])
  {
    if !prims.isPrincipalText(user) then user
    else prims.sha256Hex(prims.utf8(user) + salt)[32..]
  }

  /** The event forwarded for a kept incoming event: every field but the
      idempotency key is carried over, the user (when there is one) obfuscated. */
  function Relayed(e: IdempotentEvent, salt: Salt, prims: Primitives): (r: Event)
    requires DigestShape(prims)
    ensures r.name == e.name && r.timestamp == e.timestamp
    ensures r.source == e.source && r.payload == e.payload
    ensures e.user.None? ==> r.user.None?
    ensures e.user.Some? ==> r.user == Some(ObfuscateUser(e.user.value, salt, prims))
  {
    var user := match e.user
      case None => None
      case Some(u) => Some(ObfuscateUser(u, salt, prims));
    Event(e.name, e.timestamp, user, e.source, e.payload)
  }

  /** The elements of `xs` whose verdict is true, in their original order. */
  function Kept<T>(xs: seq<T>, verdicts: seq<bool>): (r: seq<T>)
    requires |xs| == |verdicts|
    ensures |r| <= |xs|
    decreases |xs|
  {
    if xs == [] then []
    else
      var n := |xs| - 1;
      Kept(xs[..n], verdicts[..n]) + (if verdicts[n] then [xs[n]] else [])
  }

  /** The positions whose verdict is true, in increasing order. */
  function TrueIndices(verdicts: seq<bool>): seq<nat>
    decreases |verdicts|
  {
    if verdicts == [] then []
    else
      var n := |verdicts| - 1;
      TrueIndices(verdicts[..n]) + (if verdicts[n] then [n] else [])
  }

  /** The events handed to the sink for a batch and the deduper's verdicts on it. */
  function Forwarded(events: seq<IdempotentEvent>, verdicts: seq<bool>, salt: Salt, prims: Primitives): (r: seq<Event>)
    requires |events| == |verdicts| && DigestShape(prims)
    ensures |r| == |TrueIndices(verdicts)| <= |events|
    ensures forall k :: 0 <= k < |r| ==>
      TrueIndices(verdicts)[k] < |events| && r[k] == Relayed(events[TrueIndices(verdicts)[k]], salt, prims)
  {
    KeptAt(events, verdicts);
    var kept := Kept(events, verdicts);
    seq(|kept|, k requires 0 <= k < |kept| => Relayed(kept[k], salt, prims))
  }

  /** `TrueIndices` lists exactly the positions with a true verdict, each once,
      in increasing order. */
  lemma {:induction false} TrueIndicesExact(verdicts: seq<bool>)
    ensures forall k :: 0 <= k < |TrueIndices(verdicts)| ==>
      TrueIndices(verdicts)[k] < |verdicts| && verdicts[TrueIndices(verdicts)[k]]
    ensures forall k, l :: 0 <= k < l < |TrueIndices(verdicts)| ==>
      TrueIndices(verdicts)[k] < TrueIndices(verdicts)[l]
    ensures forall i :: 0 <= i < |verdicts| && verdicts[i] ==> i in TrueIndices(verdicts)
    decreases |verdicts|
  {
    if verdicts != [] {
      var n := |verdicts| - 1;
      TrueIndicesExact(verdicts[..n]);
      assert forall i :: 0 <= i < n ==> verdicts[..n][i] == verdicts[i];
    }
  }

  /** The k-th kept element is the element at the k-th true position. */
  lemma {:induction false} KeptAt<T>(xs: seq<T>, verdicts: seq<bool>)
    requires |xs| == |verdicts|
    ensures |Kept(xs, verdicts)| == |TrueIndices(verdicts)|
    ensures forall k :: 0 <= k < |Kept(xs, verdicts)| ==>
      TrueIndices(verdicts)[k] < |xs| && Kept(xs, verdicts)[k] == xs[TrueIndices(verdicts)[k]]
    decreases |xs|
  {
    TrueIndicesExact(verdicts);
    if xs != [] {
      var n := |xs| - 1;
      KeptAt(xs[..n], verdicts[..n]);
    }
  }

  /** The batch handed to the sink is exactly the incoming events with a true
      verdict, in their original relative order, each rewritten by `Relayed`. */
  lemma ForwardedSelection(events: seq<IdempotentEvent>, verdicts: seq<bool>, salt: Salt, prims: Primitives)
    requires |events| == |verdicts| && DigestShape(prims)
    ensures var f, idx := Forwarded(events, verdicts, salt, prims), TrueIndices(verdicts);
      && |f| == |idx|
      && (forall k :: 0 <= k < |f| ==> idx[k] < |events| && verdicts[idx[k]] && f[k] == Relayed(events[idx[k]], salt, prims))
      && (forall k, l :: 0 <= k < l < |idx| ==> idx[k] < idx[l])
      && (forall i :: 0 <= i < |events| && verdicts[i] ==> i in idx)
  {
    KeptAt(events, verdicts);
    TrueIndicesExact(verdicts);
  }

  /** A batch on which every verdict is false forwards nothing; one on which
      every verdict is true forwards every event. */
  lemma {:induction false} KeptAllOrNothing<T>(xs: seq<T>, verdicts: seq<bool>)
    requires |xs| == |verdicts|
    ensures (forall i :: 0 <= i < |verdicts| ==> !verdicts[i]) ==> Kept(xs, verdicts) == []
    ensures (forall i :: 0 <= i < |verdicts| ==> verdicts[i]) ==> Kept(xs, verdicts) == xs
    decreases |xs|
  {
    if xs != [] {
      var n := |xs| - 1;
      KeptAllOrNothing(xs[..n], verdicts[..n]);
      assert xs[..n] + [xs[n]] == xs;
    }
  }

  /** One call to `EventDeduper::try_push`: its arguments and its verdict. */
  datatype TryPushCall = TryPushCall(key: nat, now: Timestamp, accepted: bool)

  function Verdicts(calls: seq<TryPushCall>): seq<bool>
  {
    seq(|calls|, i requires 0 <= i < |calls| => calls[i].accepted)
  }

  /** The calls made for a batch at time `now` that received these verdicts. */
  function CallsFor(events: seq<IdempotentEvent>, now: Timestamp, verdicts: seq<bool>): seq<TryPushCall>
    requires |events| == |verdicts|
  {
    seq(|events|, i requires 0 <= i < |events| => TryPushCall(events[i].idempotencyKey, now, verdicts[i]))
  }

  /** The deduper. Its window and eviction policy are not part of this model:
      the body is a stand-in (a key is accepted when unseen or last seen more
      than `window` ago), and the contract promises only that the call is logged. */
  class EventDeduper {
    var lastSeen: map<nat, Timestamp>
    const window: nat
    ghost var calls: seq<TryPushCall>

    constructor (window: nat)
      ensures this.window == window && lastSeen == map[] && calls == []
    {
      this.window := window;
      lastSeen := map[];
      calls := [];
    }

    method TryPush(key: nat, now: Timestamp) returns (accepted: bool)
      modifies this
      ensures calls == old(calls) + [TryPushCall(key, now, accepted)]
    {
      accepted := key !in lastSeen || lastSeen[key] + window < now;
      if accepted {
        lastSeen := lastSeen[key := now];
      }
      calls := calls + [TryPushCall(key, now, accepted)];
    }
  }

  class RuntimeState {
    var env: Env
    var salt: Salt
    const eventDeduper: EventDeduper
    const eventsSinkClient: EventSinkClient

    constructor (env: Env, salt: Salt, window: nat)
      ensures this.env == env && this.salt == salt
      ensures fresh(eventDeduper) && fresh(eventsSinkClient)
      ensures eventDeduper.calls == [] && eventsSinkClient.queue == [] && eventsSinkClient.calls == []
    {
      this.env := env;
      this.salt := salt;
      eventDeduper := new EventDeduper(window);
      eventsSinkClient := new EventSinkClient();
    }

    /** `push_events_impl`: `try_push` is called once per incoming event, in
        order, all at the same `now`; then `push_many` is called exactly once,
        with the events it accepted, rewritten with the one salt. */
    method PushEventsImpl(args: Args, prims: Primitives)
      requires DigestShape(prims)
      modifies eventDeduper, eventsSinkClient
      ensures |old(eventDeduper.calls)| <= |eventDeduper.calls|
      ensures var made := eventDeduper.calls[|old(eventDeduper.calls)|..];
        && eventDeduper.calls == old(eventDeduper.calls) + made
        && |made| == |args.events|
        && made == CallsFor(args.events, env.now, Verdicts(made))
        && eventsSinkClient.calls == old(eventsSinkClient.calls) + [PushManyCall(Forwarded(args.events, Verdicts(made), salt, prims))]
        && eventsSinkClient.queue == old(eventsSinkClient.queue) + Forwarded(args.events, Verdicts(made), salt, prims)
    {
      var now := env.now;
      var salt := this.salt;
      ghost var made: seq<TryPushCall> := [];
      ghost var verdicts: seq<bool> := [];
      var forwarded: seq<Event> := [];
      var i := 0;
      while i < |args.events|
        invariant 0 <= i <= |args.events|
        invariant |made| == i && |verdicts| == i
        invariant eventDeduper.calls == old(eventDeduper.calls) + made
        invariant made == CallsFor(args.events[..i], now, verdicts)
        invariant forwarded == Forwarded(args.events[..i], verdicts, salt, prims)
        invariant eventsSinkClient.calls == old(eventsSinkClient.calls)
        invariant eventsSinkClient.queue == old(eventsSinkClient.queue)
      {
        var e := args.events[i];
        var accepted := eventDeduper.TryPush(e.idempotencyKey, now);
        ForwardedStep(args.events[..i], verdicts, e, accepted, salt, prims);
        assert args.events[..i + 1] == args.events[..i] + [e];
        made := made + [TryPushCall(e.idempotencyKey, now, accepted)];
        verdicts := verdicts + [accepted];
        if accepted {
          forwarded := forwarded + [Relayed(e, salt, prims)];
        }
        i := i + 1;
      }
      assert args.events[..i] == args.events;
      assert Verdicts(made) == verdicts;
      eventsSinkClient.PushMany(forwarded);
    }
  }

  /** How `Forwarded` grows by one incoming event. */
  lemma ForwardedStep(events: seq<IdempotentEvent>, verdicts: seq<bool>, e: IdempotentEvent, accepted: bool, salt: Salt, prims: Primitives)
    requires |events| == |verdicts| && DigestShape(prims)
    ensures Forwarded(events + [e], verdicts + [accepted], salt, prims)
      == Forwarded(events, verdicts, salt, prims) + (if accepted then [Relayed(e, salt, prims)] else [])
  {
  }
}
