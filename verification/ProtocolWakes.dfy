/** Which wakers a step invokes, which it leaves registered, and what each call answers. A waker
    is invoked exactly when what its future waits for has come: room or the end of the receiver
    for a sender, a value or the end of the senders for the receiver. */
module ProtocolWakes {
  import opened Prelude
  import opened SenderIds
  import opened ChannelModel
  import opened Protocol
  import ProtocolInvariant
  import ProtocolRuns

  /** A value has left the queue, or the receiver is gone. */
  ghost predicate SendersGo<T>(s: Sys<T>, t: Sys<T>) {
    |t.chan.queue| < |s.chan.queue| || (s.receiver.Some? && t.receiver.None?)
  }

  /** A value has come into the queue, or the last sender is gone. */
  ghost predicate ReceiverGoes<T>(s: Sys<T>, t: Sys<T>) {
    |t.chan.queue| > |s.chan.queue| || (s.senders.Keys != {} && t.senders.Keys == {})
  }

  /** Exactly these wakers are invoked on the way from `s` to `t`. */
  ghost predicate WakesExactly<T>(s: Sys<T>, t: Sys<T>, woken: set<Waker>) {
    forall w :: w in woken
      <==> (SendersGo(s, t) && Some(w) in s.chan.txWakers) || (ReceiverGoes(s, t) && s.chan.rxWaker == Some(w))
  }

  /** A waker leaves its cell when it is invoked, when its future is polled again, and with its
      handle; otherwise it stays. */
  ghost predicate CellsExactly<T>(s: Sys<T>, a: Action<T>, t: Sys<T>) {
    && |t.chan.txWakers| == |s.chan.txWakers|
    && (forall j :: 0 <= j < |s.chan.txWakers| ==>
          t.chan.txWakers[j]
          == if a.PollSend? && a.id == j && j in t.senders && t.senders[j].fut.Parked? then Some(a.cx)
             else if SendersGo(s, t) || (a.DropSender? && a.id == j) then None
             else s.chan.txWakers[j])
    && t.chan.rxWaker
       == if a.PollRecv? && t.receiver.Some? && t.receiver.value.ParkedRecv? then Some(a.cx)
          else if ReceiverGoes(s, t) then None
          else s.chan.rxWaker
  }

  lemma PollSendWakes<T>(s: Sys<T>, id: nat, cx: Waker)
    requires Inv(s) && Legal(s, PollSend(id, cx))
    ensures WakesExactly(s, Step(s, PollSend(id, cx)), Invoked(s, PollSend(id, cx)))
  {
    hide Values, HistoryMatches, NoLostWakeup, Below;
    assert FutureOwnsOp(s, id) && id in s.chan.ids;
  }

  lemma PollSendCells<T>(s: Sys<T>, id: nat, cx: Waker)
    requires Inv(s) && Legal(s, PollSend(id, cx))
    ensures CellsExactly(s, PollSend(id, cx), Step(s, PollSend(id, cx)))
  {
    hide Values, HistoryMatches, NoLostWakeup, Below;
    assert FutureOwnsOp(s, id) && id in s.chan.ids;
  }

  lemma TrySendWakes<T>(s: Sys<T>, id: nat, v: T)
    requires Inv(s) && Legal(s, TrySend(id, v))
    ensures WakesExactly(s, Step(s, TrySend(id, v)), Invoked(s, TrySend(id, v)))
    ensures CellsExactly(s, TrySend(id, v), Step(s, TrySend(id, v)))
  {
    hide Values, HistoryMatches, NoLostWakeup;
  }

  lemma DropSenderWakes<T>(s: Sys<T>, id: nat)
    requires Inv(s) && Legal(s, DropSender(id))
    ensures WakesExactly(s, Step(s, DropSender(id)), Invoked(s, DropSender(id)))
    ensures CellsExactly(s, DropSender(id), Step(s, DropSender(id)))
  {
    hide Values, HistoryMatches, NoLostWakeup;
    assert id in s.chan.ids;
  }

  lemma RecvWakes<T>(s: Sys<T>, a: Action<T>)
    requires Inv(s) && Legal(s, a) && (a.PollRecv? || a.TryRecv? || a.DropReceiver?)
    ensures WakesExactly(s, Step(s, a), Invoked(s, a))
    ensures CellsExactly(s, a, Step(s, a))
  {
    hide Values, HistoryMatches, NoLostWakeup;
  }

  /** No waker is invoked without reason, and none that has reason stays behind. */
  lemma StepWakes<T>(s: Sys<T>, a: Action<T>)
    requires Inv(s) && Legal(s, a)
    ensures WakesExactly(s, Step(s, a), Invoked(s, a))
    ensures CellsExactly(s, a, Step(s, a))
  {
    hide Values, HistoryMatches, NoLostWakeup;
    match a
    case PollSend(id, cx) =>
      PollSendWakes(s, id, cx);
      PollSendCells(s, id, cx);
    case TrySend(id, v) => TrySendWakes(s, id, v);
    case DropSender(id) => DropSenderWakes(s, id);
    case PollRecv(_) => RecvWakes(s, a);
    case TryRecv => RecvWakes(s, a);
    case DropReceiver => RecvWakes(s, a);
    case _ =>
  }

  // ----- what the wakers reach -----

  /** The future of `f` is still there: only the invocation of its waker may have been noted. */
  ghost predicate Waits(f: SendFut, g: SendFut, woken: set<Waker>) {
    match f
    case NoSend => g.NoSend?
    case Fresh(op) => g == Fresh(op)
    case Parked(op, cx, notified) => g == Parked(op, cx, notified || cx in woken)
  }

  ghost predicate WaitsRecv(f: RecvFut, g: RecvFut, woken: set<Waker>) {
    match f
    case NoRecv => g.NoRecv?
    case FreshRecv => g.FreshRecv?
    case ParkedRecv(cx, notified) => g == ParkedRecv(cx, notified || cx in woken)
  }

  /** The step is a call or a poll of this handle's own future. */
  ghost predicate Handles<T>(a: Action<T>, id: nat) {
    (a.StartSend? || a.PollSend? || a.CancelSend?) && a.id == id
  }

  ghost predicate HandlesRecv<T>(a: Action<T>) {
    a.Split? || a.StartRecv? || a.PollRecv? || a.CancelRecv? || a.DropReceiver?
  }

  lemma NotifyReaches<T>(s: Sys<T>, woken: set<Waker>, id: nat)
    requires id in s.senders
    ensures
      var t := Notify(s, woken);
      && id in t.senders && t.senders[id].serial == s.senders[id].serial
      && Waits(s.senders[id].fut, t.senders[id].fut, woken)
  {}

  /** `t` differs from `s`, for this handle and the receiver, only by the wakers invoked. */
  ghost predicate OtherWaits<T>(s: Sys<T>, t: Sys<T>, id: nat, woken: set<Waker>)
    requires id in s.senders
  {
    id in t.senders ==>
      t.senders[id].serial == s.senders[id].serial && Waits(s.senders[id].fut, t.senders[id].fut, woken)
  }

  lemma PollSendOthers<T>(s: Sys<T>, id: nat, cx: Waker, j: nat)
    requires Inv(s) && Legal(s, PollSend(id, cx)) && j in s.senders && j != id
    ensures OtherWaits(s, PollSendStep(s, id, cx), j, Invoked(s, PollSend(id, cx)))
  {
    hide Values, HistoryMatches, NoLostWakeup, NotifySenders, Waits, Push;
    assert FutureOwnsOp(s, id);
    var op := s.senders[id].fut.op;
    var e := ChannelModel.PollSend(s.chan, id, s.ops[op].value, cx);
    var t :=
      match e.result
      case Pending => SetFut(s, id, Parked(op, cx, false))
      case Ready(Ok(_)) => Settle(s, id, Accepted).(accepted := s.accepted + [op])
      case Ready(Err(back)) => Settle(s, id, Returned(back));
    NotifyReaches(t.(chan := e.chan, turns := Begin(s.turns, op)), e.woken, j);
  }

  lemma TrySendOthers<T>(s: Sys<T>, id: nat, v: T, j: nat)
    requires Inv(s) && Legal(s, TrySend(id, v)) && j in s.senders
    ensures OtherWaits(s, TrySendStep(s, id, v), j, Invoked(s, TrySend(id, v)))
  {
    hide Values, HistoryMatches, NoLostWakeup, Push;
  }

  lemma CloneOthers<T>(s: Sys<T>, id: nat, j: nat)
    requires Inv(s) && Legal(s, TryClone(id)) && j in s.senders
    ensures OtherWaits(s, TryCloneStep(s), j, Invoked(s, TryClone(id)))
  {
    hide Values, HistoryMatches, NoLostWakeup;
  }

  lemma DropSenderOthers<T>(s: Sys<T>, id: nat, j: nat)
    requires Inv(s) && Legal(s, DropSender(id)) && j in s.senders
    ensures OtherWaits(s, Step(s, DropSender(id)), j, Invoked(s, DropSender(id)))
  {
    hide Values, HistoryMatches, NoLostWakeup;
  }

  lemma RecvOthers<T>(s: Sys<T>, a: Action<T>, j: nat)
    requires Inv(s) && Legal(s, a) && (a.PollRecv? || a.TryRecv? || a.DropReceiver?) && j in s.senders
    ensures OtherWaits(s, Step(s, a), j, Invoked(s, a))
  {
    hide Values, HistoryMatches, NoLostWakeup;
  }

  /** A step reaches another handle's future only through its waker. */
  lemma StepOthers<T>(s: Sys<T>, a: Action<T>, id: nat)
    requires Inv(s) && Legal(s, a) && id in s.senders && !Handles(a, id)
    ensures OtherWaits(s, Step(s, a), id, Invoked(s, a))
  {
    hide Values, HistoryMatches, NoLostWakeup, OpsMatch, Notify;
    match a
    case PollSend(j, cx) => PollSendOthers(s, j, cx, id);
    case TrySend(j, v) => TrySendOthers(s, j, v, id);
    case TryClone(j) => CloneOthers(s, j, id);
    case DropSender(j) => DropSenderOthers(s, j, id);
    case PollRecv(_) => RecvOthers(s, a, id);
    case TryRecv => RecvOthers(s, a, id);
    case DropReceiver => RecvOthers(s, a, id);
    case _ =>
  }

  /** ... and so the receiver's. */
  lemma StepReceiver<T>(s: Sys<T>, a: Action<T>)
    requires Inv(s) && Legal(s, a) && s.receiver.Some? && !HandlesRecv(a)
    ensures Step(s, a).receiver.Some?
    ensures WaitsRecv(s.receiver.value, Step(s, a).receiver.value, Invoked(s, a))
  {
    hide Values, HistoryMatches, NoLostWakeup, NotifySenders;
    if a.PollSend? {
      assert FutureOwnsOp(s, a.id);
    }
  }

  // ----- what each call answers, in every reachable state -----

  /** `try_send` takes the value exactly when there is a receiver and room; otherwise it gives
      back that same value, changes nothing and invokes no waker. */
  lemma TrySendAnswers<T(!new)>(t: Sys<T>, capacity: nat, limit: nat, id: nat, v: T)
    requires 0 < capacity && 0 < limit <= MASK_BITS && ProtocolRuns.Reachable(t, capacity, limit)
    requires id in t.senders
    ensures Inv(t)
    ensures
      var e := ChannelModel.TrySend(t.chan, v);
      var u := Step(t, Action.TrySend(id, v));
      if t.receiver.Some? && |t.chan.queue| < capacity then
        && e.result == Ok(()) && e.chan.queue == t.chan.queue + [v]
        && u.ops == t.ops + [Op(t.senders[id].serial, v, Accepted)] && u.accepted == t.accepted + [|t.ops|]
      else
        && e.result == Err(v) && e.chan == t.chan && e.woken == {}
        && u == t.(ops := t.ops + [Op(t.senders[id].serial, v, Returned(v))], turns := u.turns)
  {
    hide Values, HistoryMatches, NoLostWakeup;
    ProtocolRuns.ReachableHolds(t, capacity, limit);
    if t.receiver.None? || |t.chan.queue| == capacity {
      ProtocolInvariant.NotifyNothing(
        t.(ops := t.ops + [Op(t.senders[id].serial, v, Returned(v))], turns := Begin(t.turns, |t.ops|)));
    }
  }

  /** A poll of a send waits exactly when there is a receiver and no room. Then it is registered
      and not woken, by itself or anyone, and nothing else has changed. */
  lemma PollSendAnswers<T(!new)>(t: Sys<T>, capacity: nat, limit: nat, id: nat, cx: Waker)
    requires 0 < capacity && 0 < limit <= MASK_BITS && ProtocolRuns.Reachable(t, capacity, limit)
    requires Legal(t, Action.PollSend(id, cx))
    ensures Inv(t) && id < |t.chan.txWakers| && t.senders[id].fut.op < |t.ops|
    ensures
      var op := t.senders[id].fut.op;
      var v := t.ops[op].value;
      var u := Step(t, Action.PollSend(id, cx));
      if t.receiver.None? then
        && ChannelModel.PollSend(t.chan, id, v, cx) == Effect(t.chan, Ready(Err(v)), {})
        && u.ops[op].status == Returned(v)
      else if |t.chan.queue| < capacity then
        && ChannelModel.PollSend(t.chan, id, v, cx).result == Ready(Ok(()))
        && u.chan.queue == t.chan.queue + [v] && u.accepted == t.accepted + [op]
      else
        && ChannelModel.PollSend(t.chan, id, v, cx).result == Pending
        && Invoked(t, Action.PollSend(id, cx)) == {}
        && ProtocolRuns.Stuck(u.senders[id].fut)
        && u.chan == t.chan.(txWakers := t.chan.txWakers[id := Some(cx)])
        && u == t.(chan := u.chan, senders := t.senders[id := u.senders[id]], turns := u.turns)
  {
    hide Values, HistoryMatches, NoLostWakeup;
    ProtocolRuns.ReachableHolds(t, capacity, limit);
    assert FutureOwnsOp(t, id) && id in t.chan.ids;
    var op := t.senders[id].fut.op;
    if t.receiver.Some? && |t.chan.queue| == capacity {
      var e := ChannelModel.PollSend(t.chan, id, t.ops[op].value, cx);
      ProtocolInvariant.NotifyNothing(
        SetFut(t, id, Parked(op, cx, false)).(chan := e.chan, turns := Begin(t.turns, op)));
    }
  }

  /** A poll of `recv` waits exactly when the queue is empty and a sender is left; the same holds
      of it then. */
  lemma PollRecvAnswers<T(!new)>(t: Sys<T>, capacity: nat, limit: nat, cx: Waker)
    requires 0 < capacity && 0 < limit <= MASK_BITS && ProtocolRuns.Reachable(t, capacity, limit)
    requires Legal(t, Action.PollRecv(cx))
    ensures Inv(t)
    ensures
      var e := ChannelModel.PollRecv(t.chan, cx);
      var u := Step(t, Action.PollRecv(cx));
      if t.chan.queue != [] then
        e.result == Ready(Some(t.chan.queue[0])) && u.delivered == t.delivered + [t.chan.queue[0]]
      else if t.senders.Keys == {} then
        e == Effect(t.chan, Ready(None), {}) && u == t.(receiver := Some(NoRecv))
      else
        && e == Effect(t.chan.(rxWaker := Some(cx)), Pending, {})
        && ProtocolRuns.StuckRecv(u.receiver) && u == t.(chan := e.chan, receiver := u.receiver)
  {
    hide Values, HistoryMatches, NoLostWakeup;
    ProtocolRuns.ReachableHolds(t, capacity, limit);
    if t.chan.queue == [] {
      var e := ChannelModel.PollRecv(t.chan, cx);
      var fut := if t.senders.Keys == {} then NoRecv else ParkedRecv(cx, false);
      ProtocolInvariant.NotifyNothing(t.(chan := e.chan, receiver := Some(fut)));
    }
  }

  /** A new channel holds no value and no waker, and has no handle. */
  lemma StartsEmpty<T>(capacity: nat, limit: nat)
    ensures
      var c := Init<T>(capacity, limit).chan;
      && c.capacity == capacity && c.limit == limit && c.queue == [] && c.ids == {} && !c.rxAlive
      && c.rxWaker == None && |c.txWakers| == limit && forall j :: 0 <= j < limit ==> c.txWakers[j] == None
  {}

  /** Every send that failed handed back its own value. */
  lemma OwnValueBack<T(!new)>(t: Sys<T>, capacity: nat, limit: nat, op: nat)
    requires 0 < capacity && 0 < limit <= MASK_BITS && ProtocolRuns.Reachable(t, capacity, limit)
    requires op < |t.ops| && t.ops[op].status.Returned?
    ensures t.ops[op].status.back == t.ops[op].value && op !in t.accepted
  {
    ProtocolRuns.ReachableHolds(t, capacity, limit);
  }
}
