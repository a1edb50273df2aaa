/** Every schedule of the channel's callers, as runs of a transition system. A step is one
    call or one poll: the channel is single-threaded, so nothing happens in between. A handle
    has at most one future outstanding, because it owns one waker cell. Polls may be spurious
    and may come from any task; a pending future may be dropped at any time. */
module Protocol {
  import opened Prelude
  import opened ChannelModel

  /** `notified`: the waker that the last poll registered has been invoked since. */
  datatype SendFut = NoSend | Fresh(op: nat) | Parked(op: nat, waker: Waker, notified: bool)

  datatype RecvFut = NoRecv | FreshRecv | ParkedRecv(waker: Waker, notified: bool)

  /** Sender ids are reused; serial numbers are not. */
  datatype Handle = Handle(serial: nat, fut: SendFut)

  /** A send that fails hands a value back. */
  datatype Status<T> = InFlight | Accepted | Returned(back: T) | Cancelled

  datatype Op<T> = Op(handle: nat, value: T, status: Status<T>)

  /** `ops` records every send ever created, `accepted` the ones that entered the queue, in
      order, and `delivered` every value a receiver was given. An `async` send does nothing
      before its first poll: `turns` numbers the sends by their first poll or their `try_send`. */
  datatype Sys<T> = Sys(
    chan: Chan<T>,
    senders: map<nat, Handle>,
    receiver: Option<RecvFut>,
    serials: nat,
    ops: seq<Op<T>>,
    accepted: seq<nat>,
    delivered: seq<T>,
    turns: map<nat, nat>)

  datatype Action<T> =
    | Split
    | StartSend(id: nat, value: T)
    | PollSend(id: nat, cx: Waker)
    | CancelSend(id: nat)
    | TrySend(id: nat, value: T)
    | TryClone(id: nat)
    | DropSender(id: nat)
    | StartRecv
    | PollRecv(cx: Waker)
    | CancelRecv
    | TryRecv
    | DropReceiver

  function Init<T>(capacity: nat, limit: nat): Sys<T> {
    Sys(New(capacity, limit), map[], None, 0, [], [], [], map[])
  }

  /** What borrowing and ownership let a caller do: a future borrows its handle, and a second
      split needs every handle gone. */
  predicate Legal<T>(s: Sys<T>, a: Action<T>) {
    match a
    case Split => s.senders == map[] && s.receiver.None?
    case StartSend(id, _) => id in s.senders && s.senders[id].fut.NoSend?
    case PollSend(id, _) => id in s.senders && !s.senders[id].fut.NoSend?
    case CancelSend(id) => id in s.senders && !s.senders[id].fut.NoSend?
    case TrySend(id, _) => id in s.senders
    case TryClone(id) => id in s.senders
    case DropSender(id) => id in s.senders && s.senders[id].fut.NoSend?
    case StartRecv => s.receiver == Some(NoRecv)
    case PollRecv(_) => s.receiver.Some? && !s.receiver.value.NoRecv?
    case CancelRecv => s.receiver.Some? && !s.receiver.value.NoRecv?
    case TryRecv => s.receiver.Some?
    case DropReceiver => s.receiver == Some(NoRecv)
  }

  function NotifySend(f: SendFut, woken: set<Waker>): SendFut {
    if f.Parked? && f.waker in woken then f.(notified := true) else f
  }

  function NotifyRecv(f: RecvFut, woken: set<Waker>): RecvFut {
    if f.ParkedRecv? && f.waker in woken then f.(notified := true) else f
  }

  function NotifySenders(senders: map<nat, Handle>, woken: set<Waker>): map<nat, Handle> {
    map id | id in senders :: Handle(senders[id].serial, NotifySend(senders[id].fut, woken))
  }

  function Notify<T>(s: Sys<T>, woken: set<Waker>): Sys<T> {
    s.(senders := NotifySenders(s.senders, woken),
       receiver := if s.receiver.Some? then Some(NotifyRecv(s.receiver.value, woken)) else None)
  }

  function SetFut<T>(s: Sys<T>, id: nat, fut: SendFut): Sys<T>
    requires id in s.senders
  {
    s.(senders := s.senders[id := Handle(s.senders[id].serial, fut)])
  }

  function SetStatus<T>(ops: seq<Op<T>>, op: nat, status: Status<T>): seq<Op<T>>
    requires op < |ops|
  {
    ops[op := ops[op].(status := status)]
  }

  /** The send acts for the first time, unless it has before. */
  function Begin(turns: map<nat, nat>, op: nat): map<nat, nat> {
    if op in turns then turns else turns[op := |turns|]
  }

  /** The future of `id` ends, and the send it held gets its final status. */
  function Settle<T>(s: Sys<T>, id: nat, status: Status<T>): Sys<T>
    requires id in s.senders && !s.senders[id].fut.NoSend? && s.senders[id].fut.op < |s.ops|
  {
    SetFut(s.(ops := SetStatus(s.ops, s.senders[id].fut.op, status)), id, NoSend)
  }

  function SplitStep<T>(s: Sys<T>): Sys<T> {
    s.(chan := ChannelModel.Split(s.chan),
       senders := map[0 := Handle(s.serials, NoSend)],
       serials := s.serials + 1,
       receiver := Some(NoRecv))
  }

  function StartSendStep<T>(s: Sys<T>, id: nat, v: T): Sys<T>
    requires id in s.senders
  {
    SetFut(s.(ops := s.ops + [Op(s.senders[id].serial, v, InFlight)]), id, Fresh(|s.ops|))
  }

  function PollSendStep<T>(s: Sys<T>, id: nat, cx: Waker): Sys<T>
    requires Inv(s) && Legal(s, PollSend(id, cx))
  {
    var op := s.senders[id].fut.op;
    var e := ChannelModel.PollSend(s.chan, id, s.ops[op].value, cx);
    var turns := Begin(s.turns, op);
    var t :=
      match e.result
      case Pending => SetFut(s, id, Parked(op, cx, false))
      case Ready(Ok(_)) => Settle(s, id, Accepted).(accepted := s.accepted + [op])
      case Ready(Err(back)) => Settle(s, id, Returned(back));
    Notify(t.(chan := e.chan, turns := turns), e.woken)
  }

  function CancelSendStep<T>(s: Sys<T>, id: nat): Sys<T>
    requires Inv(s) && Legal(s, CancelSend(id))
  {
    Settle(s, id, Cancelled)
  }

  function TrySendStep<T>(s: Sys<T>, id: nat, v: T): Sys<T>
    requires id in s.senders
  {
    var e := ChannelModel.TrySend(s.chan, v);
    var serial := s.senders[id].serial;
    var turns := Begin(s.turns, |s.ops|);
    var t :=
      match e.result
      case Ok(_) => s.(ops := s.ops + [Op(serial, v, Accepted)], accepted := s.accepted + [|s.ops|])
      case Err(back) => s.(ops := s.ops + [Op(serial, v, Returned(back))]);
    Notify(t.(chan := e.chan, turns := turns), e.woken)
  }

  function TryCloneStep<T>(s: Sys<T>): Sys<T> {
    var e := ChannelModel.TryClone(s.chan);
    var t :=
      match e.result
      case None => s
      case Some(id) => s.(senders := s.senders[id := Handle(s.serials, NoSend)], serials := s.serials + 1);
    Notify(t.(chan := e.chan), e.woken)
  }

  function DropSenderStep<T>(s: Sys<T>, id: nat): Sys<T>
    requires id < |s.chan.txWakers|
  {
    var e := ChannelModel.DropSender(s.chan, id);
    Notify(s.(chan := e.chan, senders := s.senders - {id}), e.woken)
  }

  function PollRecvStep<T>(s: Sys<T>, cx: Waker): Sys<T> {
    var e := ChannelModel.PollRecv(s.chan, cx);
    var t :=
      match e.result
      case Pending => s.(receiver := Some(ParkedRecv(cx, false)))
      case Ready(None) => s.(receiver := Some(NoRecv))
      case Ready(Some(v)) => s.(receiver := Some(NoRecv), delivered := s.delivered + [v]);
    Notify(t.(chan := e.chan), e.woken)
  }

  function TryRecvStep<T>(s: Sys<T>): Sys<T> {
    var e := ChannelModel.Pop(s.chan);
    var t := if e.result.Some? then s.(delivered := s.delivered + [e.result.value]) else s;
    Notify(t.(chan := e.chan), e.woken)
  }

  function DropReceiverStep<T>(s: Sys<T>): Sys<T> {
    var e := ChannelModel.DropReceiver(s.chan);
    Notify(s.(chan := e.chan, receiver := None), e.woken)
  }

  function Step<T>(s: Sys<T>, a: Action<T>): Sys<T>
    requires Inv(s) && Legal(s, a)
  {
    match a
    case Split => SplitStep(s)
    case StartSend(id, v) => StartSendStep(s, id, v)
    case PollSend(id, cx) => PollSendStep(s, id, cx)
    case CancelSend(id) => CancelSendStep(s, id)
    case TrySend(id, v) => TrySendStep(s, id, v)
    case TryClone(_) => TryCloneStep(s)
    case DropSender(id) => DropSenderStep(s, id)
    case StartRecv => s.(receiver := Some(FreshRecv))
    case PollRecv(cx) => PollRecvStep(s, cx)
    case CancelRecv => s.(receiver := Some(NoRecv))
    case TryRecv => TryRecvStep(s)
    case DropReceiver => DropReceiverStep(s)
  }

  /** The wakers that a step invokes. */
  ghost function Invoked<T>(s: Sys<T>, a: Action<T>): set<Waker>
    requires Inv(s) && Legal(s, a)
  {
    match a
    case PollSend(id, cx) => ChannelModel.PollSend(s.chan, id, s.ops[s.senders[id].fut.op].value, cx).woken
    case TrySend(_, v) => ChannelModel.TrySend(s.chan, v).woken
    case TryClone(_) => ChannelModel.TryClone(s.chan).woken
    case DropSender(id) => ChannelModel.DropSender(s.chan, id).woken
    case PollRecv(cx) => ChannelModel.PollRecv(s.chan, cx).woken
    case TryRecv => ChannelModel.Pop(s.chan).woken
    case DropReceiver => ChannelModel.DropReceiver(s.chan).woken
    case _ => {}
  }

  // ----- the invariant -----

  /** The mask names the live senders, and an id without one has an empty waker cell, so a
      sender that reuses an id starts clean. */
  ghost predicate HandlesMatch<T>(s: Sys<T>) {
    && WellFormed(s.chan)
    && s.chan.ids == s.senders.Keys
    && (s.chan.rxAlive <==> s.receiver.Some?)
    && (forall id :: 0 <= id < s.chan.limit && id !in s.senders ==> s.chan.txWakers[id] == None)
  }

  /** A parked future whose waker has not been invoked has that waker in its own cell, and
      still has nothing to do. */
  ghost predicate SenderWaits<T>(s: Sys<T>, id: nat)
    requires WellFormed(s.chan) && id in s.senders && id < s.chan.limit
  {
    var f := s.senders[id].fut;
    f.Parked? && !f.notified ==>
      s.chan.txWakers[id] == Some(f.waker) && |s.chan.queue| == s.chan.capacity && s.chan.rxAlive
  }

  ghost predicate ReceiverWaits<T>(s: Sys<T>) {
    s.receiver.Some? && s.receiver.value.ParkedRecv? && !s.receiver.value.notified ==>
      s.chan.rxWaker == Some(s.receiver.value.waker) && s.chan.queue == [] && s.chan.ids != {}
  }

  ghost predicate NoLostWakeup<T>(s: Sys<T>)
    requires HandlesMatch(s)
  {
    && (forall id :: id in s.senders ==> SenderWaits(s, id))
    && ReceiverWaits(s)
  }

  /** A future in flight owns one unsettled send of its own handle. */
  ghost predicate FutureOwnsOp<T>(s: Sys<T>, id: nat)
    requires id in s.senders
  {
    var h := s.senders[id];
    !h.fut.NoSend? ==>
      h.fut.op < |s.ops| && s.ops[h.fut.op].status == InFlight && s.ops[h.fut.op].handle == h.serial
  }

  /** Serial numbers are not reused, and what a failed send hands back is its own value. */
  ghost predicate OpsMatch<T>(s: Sys<T>) {
    && (forall id :: id in s.senders ==> s.senders[id].serial < s.serials && FutureOwnsOp(s, id))
    && (forall i, j :: i in s.senders && j in s.senders && i != j ==> s.senders[i].serial != s.senders[j].serial)
    && (forall k :: 0 <= k < |s.ops| ==> s.ops[k].handle < s.serials)
    && (forall k :: 0 <= k < |s.ops| && s.ops[k].status.Returned? ==> s.ops[k].status.back == s.ops[k].value)
  }

  function Values<T>(ops: seq<Op<T>>, order: seq<nat>): (vs: seq<T>)
    requires forall i :: 0 <= i < |order| ==> order[i] < |ops|
  {
    seq(|order|, i requires 0 <= i < |order| => ops[order[i]].value)
  }

  /** Accepted sends are numbered once each, and their values are the delivered ones followed
      by the queued ones. */
  ghost predicate HistoryMatches<T>(s: Sys<T>) {
    && (forall i :: 0 <= i < |s.accepted| ==> s.accepted[i] < |s.ops| && s.ops[s.accepted[i]].status == Accepted)
    && (forall i, j :: 0 <= i < j < |s.accepted| ==> s.accepted[i] != s.accepted[j])
    && (forall k :: 0 <= k < |s.ops| && s.ops[k].status == Accepted ==> k in s.accepted)
    && Values(s.ops, s.accepted) == s.delivered + s.chan.queue
  }

  ghost predicate Inv<T>(s: Sys<T>) {
    HandlesMatch(s) && NoLostWakeup(s) && OpsMatch(s) && HistoryMatches(s)
  }
}
