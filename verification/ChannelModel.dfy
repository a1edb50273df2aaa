/** The bounded channel as its callers see it: a queue instead of a ring, a set of sender ids
    instead of a mask. Each operation is a function from the state before to the state after,
    the result, and the wakers it invoked; `ChannelImpl` proves the ring buffer against these
    functions and `Protocol` runs them under every schedule. */
module ChannelModel {
  import opened Prelude
  import opened SenderIds

  /** A task handle: `will_wake` and the effect of `wake` both depend on the task alone. */
  datatype Waker = Waker(task: nat)

  datatype Poll<+R> = Pending | Ready(value: R)

  datatype Chan<T> = Chan(
    capacity: nat,
    limit: nat,
    queue: seq<T>,
    rxWaker: Option<Waker>,
    txWakers: seq<Option<Waker>>,
    ids: set<nat>,
    rxAlive: bool)

  datatype Effect<T, +R> = Effect(chan: Chan<T>, result: R, woken: set<Waker>)

  ghost predicate WellFormed<T>(c: Chan<T>) {
    && 0 < c.capacity
    && 0 < c.limit <= MASK_BITS
    && |c.txWakers| == c.limit
    && |c.queue| <= c.capacity
    && c.ids <= Below(c.limit)
  }

  function Woken(slot: Option<Waker>): set<Waker> {
    if slot.Some? then {slot.value} else {}
  }

  function AllWoken(slots: seq<Option<Waker>>): set<Waker> {
    set i | 0 <= i < |slots| && slots[i].Some? :: slots[i].value
  }

  function Cleared(n: nat): seq<Option<Waker>> {
    seq(n, _ => None)
  }

  function New<T>(capacity: nat, limit: nat): Chan<T> {
    Chan(capacity, limit, [], None, Cleared(limit), {}, false)
  }

  /** Leftover values, and a stale receiver waker, survive a second split. */
  function Split<T>(c: Chan<T>): Chan<T> {
    c.(rxAlive := true, ids := {0})
  }

  function TryClone<T>(c: Chan<T>): Effect<T, Option<nat>> {
    match LeastFree(c.ids, c.limit)
    case None => Effect(c, None, {})
    case Some(id) => Effect(c.(ids := c.ids + {id}), Some(id), {})
  }

  function Push<T>(c: Chan<T>, v: T): Effect<T, Result<(), T>> {
    if |c.queue| == c.capacity then Effect(c, Err(v), {})
    else Effect(c.(queue := c.queue + [v], rxWaker := None), Ok(()), Woken(c.rxWaker))
  }

  function WakeTx<T>(c: Chan<T>): Effect<T, ()> {
    Effect(c.(txWakers := Cleared(|c.txWakers|)), (), AllWoken(c.txWakers))
  }

  function Pop<T>(c: Chan<T>): Effect<T, Option<T>> {
    if c.queue == [] then Effect(c, None, {})
    else
      var woke := WakeTx(c.(queue := c.queue[1..]));
      Effect(woke.chan, Some(c.queue[0]), woke.woken)
  }

  function TrySend<T>(c: Chan<T>, v: T): Effect<T, Result<(), T>> {
    if !c.rxAlive then Effect(c, Err(v), {}) else Push(c, v)
  }

  /** One poll of a send future that holds `v`. */
  function PollSend<T>(c: Chan<T>, id: nat, v: T, cx: Waker): Effect<T, Poll<Result<(), T>>>
    requires id < |c.txWakers|
  {
    if !c.rxAlive then Effect(c, Ready(Err(v)), {})
    else
      var pushed := Push(c, v);
      if pushed.result.Ok? then Effect(pushed.chan, Ready(Ok(())), pushed.woken)
      else Effect(c.(txWakers := c.txWakers[id := Some(cx)]), Pending, {})
  }

  function PollRecv<T>(c: Chan<T>, cx: Waker): Effect<T, Poll<Option<T>>> {
    if c.queue != [] then
      var popped := Pop(c);
      Effect(popped.chan, Ready(popped.result), popped.woken)
    else if c.ids == {} then Effect(c, Ready(None), {})
    else Effect(c.(rxWaker := Some(cx)), Pending, {})
  }

  function DropSender<T>(c: Chan<T>, id: nat): Effect<T, ()>
    requires id < |c.txWakers|
  {
    var d := c.(txWakers := c.txWakers[id := None], ids := c.ids - {id});
    if d.ids == {} then Effect(d.(rxWaker := None), (), Woken(d.rxWaker)) else Effect(d, (), {})
  }

  function DropReceiver<T>(c: Chan<T>): Effect<T, ()> {
    WakeTx(c.(rxAlive := false))
  }
}
