/** Every step keeps the invariant of `Protocol`, so every run does. */
module ProtocolInvariant {
  import opened Prelude
  import opened SenderIds
  import opened ChannelModel
  import opened Protocol

  lemma InitHolds<T>(capacity: nat, limit: nat)
    requires 0 < capacity && 0 < limit <= MASK_BITS
    ensures Inv(Init<T>(capacity, limit))
  {
    assert Values(Init<T>(capacity, limit).ops, []) == [];
  }

  lemma ValuesSame<T>(ops: seq<Op<T>>, more: seq<Op<T>>, order: seq<nat>)
    requires |ops| <= |more|
    requires forall i :: 0 <= i < |order| ==> order[i] < |ops|
    requires forall k :: 0 <= k < |ops| ==> more[k].value == ops[k].value
    ensures Values(more, order) == Values(ops, order)
  {}

  lemma ValuesSnoc<T>(ops: seq<Op<T>>, order: seq<nat>, op: nat)
    requires op < |ops|
    requires forall i :: 0 <= i < |order| ==> order[i] < |ops|
    ensures Values(ops, order + [op]) == Values(ops, order) + [ops[op].value]
  {}

  lemma SplitKeeps<T>(s: Sys<T>)
    requires Inv(s) && Legal(s, Split)
    ensures Inv(SplitStep(s))
  {
    assert 0 in Below(s.chan.limit);
  }

  lemma StartSendKeeps<T>(s: Sys<T>, id: nat, v: T)
    requires Inv(s) && Legal(s, StartSend(id, v))
    ensures Inv(StartSendStep(s, id, v))
  {
    hide Values;
    var t := StartSendStep(s, id, v);
    ValuesSame(s.ops, t.ops, s.accepted);
    forall j | j in t.senders
      ensures SenderWaits(t, j) && FutureOwnsOp(t, j)
    {
      assert SenderWaits(s, j) && FutureOwnsOp(s, j);
    }
  }

  /** What has to hold before the wakers of a step are invoked. */
  ghost predicate WaitsUnless<T>(s: Sys<T>, woken: set<Waker>)
    requires HandlesMatch(s)
  {
    && (forall id :: id in s.senders ==>
         SenderWaits(s, id) || (s.senders[id].fut.Parked? && s.senders[id].fut.waker in woken))
    && (ReceiverWaits(s)
        || (s.receiver.Some? && s.receiver.value.ParkedRecv? && s.receiver.value.waker in woken))
  }

  lemma NotifyKeeps<T>(s: Sys<T>, woken: set<Waker>)
    requires HandlesMatch(s) && WaitsUnless(s, woken) && OpsMatch(s) && HistoryMatches(s)
    ensures Inv(Notify(s, woken))
  {
    var t := Notify(s, woken);
    assert t.senders.Keys == s.senders.Keys;
    forall id | id in t.senders
      ensures SenderWaits(t, id) && FutureOwnsOp(t, id)
    {
      assert SenderWaits(s, id) || (s.senders[id].fut.Parked? && s.senders[id].fut.waker in woken);
      assert FutureOwnsOp(s, id);
    }
  }

  lemma NotifyNothing<T>(s: Sys<T>)
    ensures Notify(s, {}) == s
  {
    assert NotifySenders(s.senders, {}) == s.senders;
  }

  ghost predicate OwnBack<T>(s: Sys<T>, id: nat, status: Status<T>)
    requires id in s.senders && !s.senders[id].fut.NoSend?
  {
    var op := s.senders[id].fut.op;
    status.Returned? ==> op < |s.ops| && status.back == s.ops[op].value
  }

  lemma SettleOps<T>(s: Sys<T>, id: nat, status: Status<T>)
    requires OpsMatch(s) && id in s.senders && !s.senders[id].fut.NoSend? && FutureOwnsOp(s, id)
    requires OwnBack(s, id, status)
    ensures OpsMatch(Settle(s, id, status))
  {
    var t := Settle(s, id, status);
    forall j | j in t.senders
      ensures FutureOwnsOp(t, j)
    {
      assert FutureOwnsOp(s, j);
    }
  }

  lemma SettleHistory<T>(s: Sys<T>, id: nat, status: Status<T>)
    requires HistoryMatches(s) && status != Accepted
    requires id in s.senders && !s.senders[id].fut.NoSend? && FutureOwnsOp(s, id)
    ensures HistoryMatches(Settle(s, id, status))
  {
    ValuesSame(s.ops, Settle(s, id, status).ops, s.accepted);
  }

  lemma SettleKeeps<T>(s: Sys<T>, id: nat, status: Status<T>)
    requires Inv(s) && id in s.senders && !s.senders[id].fut.NoSend? && status != Accepted
    requires OwnBack(s, id, status)
    ensures FutureOwnsOp(s, id) && Inv(Settle(s, id, status))
  {
    assert FutureOwnsOp(s, id);
    SettleOps(s, id, status);
    SettleHistory(s, id, status);
    var t := Settle(s, id, status);
    forall j | j in t.senders
      ensures SenderWaits(t, j)
    {
      assert SenderWaits(s, j);
    }
  }

  /** Send `op` is the newest accepted one and its value is the newest in the queue. */
  lemma AcceptHistory<T>(s: Sys<T>, t: Sys<T>, op: nat)
    requires HistoryMatches(s) && op < |t.ops| && |s.ops| <= |t.ops| <= |s.ops| + 1
    requires forall k :: 0 <= k < |s.ops| && k != op ==> t.ops[k] == s.ops[k]
    requires op < |s.ops| ==> s.ops[op].status != Accepted && t.ops[op].value == s.ops[op].value
    requires |s.ops| < |t.ops| ==> op == |s.ops|
    requires t.ops[op].status == Accepted && t.accepted == s.accepted + [op]
    requires t.delivered == s.delivered && t.chan.queue == s.chan.queue + [t.ops[op].value]
    ensures HistoryMatches(t)
  {
    ValuesSame(s.ops, t.ops, s.accepted);
    ValuesSnoc(t.ops, s.accepted, op);
    forall k | 0 <= k < |t.ops| && t.ops[k].status == Accepted
      ensures k in t.accepted
    {
      assert k in s.accepted || k == op;
    }
  }

  lemma PushWaits<T>(s: Sys<T>, t: Sys<T>, v: T)
    requires Inv(s) && HandlesMatch(t) && |s.chan.queue| < s.chan.capacity
    requires t.chan == Push(s.chan, v).chan && t.receiver == s.receiver
    requires t.senders.Keys == s.senders.Keys
    requires forall id :: id in t.senders ==> t.senders[id] == s.senders[id] || t.senders[id].fut.NoSend?
    ensures WaitsUnless(t, Push(s.chan, v).woken)
  {
    forall id | id in t.senders
      ensures SenderWaits(t, id)
    {
      assert SenderWaits(s, id);
    }
  }

  lemma OpsSame<T>(s: Sys<T>, t: Sys<T>)
    requires OpsMatch(s) && t.ops == s.ops && t.senders == s.senders && t.serials == s.serials
    ensures OpsMatch(t)
  {
    forall id | id in t.senders
      ensures FutureOwnsOp(t, id)
    {
      assert FutureOwnsOp(s, id);
    }
  }

  lemma HistorySame<T>(s: Sys<T>, t: Sys<T>)
    requires HistoryMatches(s) && t.ops == s.ops && t.accepted == s.accepted && t.delivered == s.delivered
    requires t.chan.queue == s.chan.queue
    ensures HistoryMatches(t)
  {
    hide Values;
  }

  lemma AcceptKeeps<T>(s: Sys<T>, id: nat)
    requires Inv(s) && id in s.senders && !s.senders[id].fut.NoSend? && FutureOwnsOp(s, id)
    requires |s.chan.queue| < s.chan.capacity
    ensures
      var op := s.senders[id].fut.op;
      var e := Push(s.chan, s.ops[op].value);
      var t := Settle(s, id, Accepted).(chan := e.chan, accepted := s.accepted + [op], turns := Begin(s.turns, op));
      Inv(Notify(t, e.woken))
  {
    hide Values, OpsMatch, HistoryMatches, NoLostWakeup, WaitsUnless;
    var op := s.senders[id].fut.op;
    var e := Push(s.chan, s.ops[op].value);
    var t := Settle(s, id, Accepted).(chan := e.chan, accepted := s.accepted + [op], turns := Begin(s.turns, op));
    SettleOps(s, id, Accepted);
    OpsSame(Settle(s, id, Accepted), t);
    AcceptHistory(s, t, op);
    PushWaits(s, t, s.ops[op].value);
    NotifyKeeps(t, e.woken);
  }

  lemma TurnsKeep<T>(s: Sys<T>, turns: map<nat, nat>)
    requires Inv(s)
    ensures Inv(s.(turns := turns))
  {
    hide Values;
    var t := s.(turns := turns);
    forall id | id in t.senders
      ensures SenderWaits(t, id) && FutureOwnsOp(t, id)
    {
      assert SenderWaits(s, id) && FutureOwnsOp(s, id);
    }
  }

  lemma PollSendKeeps<T>(s: Sys<T>, id: nat, cx: Waker)
    requires Inv(s) && Legal(s, PollSend(id, cx))
    ensures Inv(PollSendStep(s, id, cx))
  {
    hide Values, HistoryMatches, NoLostWakeup, Notify;
    assert FutureOwnsOp(s, id);
    var op := s.senders[id].fut.op;
    var e := ChannelModel.PollSend(s.chan, id, s.ops[op].value, cx);
    if e.result.Pending? {
      ParkSenderKeeps(s, id, cx);
      NotifyNothing(SetFut(s, id, Parked(op, cx, false)).(chan := e.chan, turns := Begin(s.turns, op)));
    } else if e.result.value.Err? {
      var back := s.ops[op].value;
      SettleKeeps(s, id, Returned(back));
      TurnsKeep(Settle(s, id, Returned(back)), Begin(s.turns, op));
      NotifyNothing(Settle(s, id, Returned(back)).(turns := Begin(s.turns, op)));
    } else {
      AcceptKeeps(s, id);
    }
  }

  lemma ParkSenderKeeps<T>(s: Sys<T>, id: nat, cx: Waker)
    requires Inv(s) && id in s.senders && !s.senders[id].fut.NoSend?
    requires s.chan.rxAlive && |s.chan.queue| == s.chan.capacity
    ensures id < |s.chan.txWakers|
    ensures Inv(SetFut(s.(chan := s.chan.(txWakers := s.chan.txWakers[id := Some(cx)]),
                          turns := Begin(s.turns, s.senders[id].fut.op)), id,
                       Parked(s.senders[id].fut.op, cx, false)))
  {
    hide HistoryMatches;
    assert id in s.chan.ids;
    var t := SetFut(s.(chan := s.chan.(txWakers := s.chan.txWakers[id := Some(cx)]),
                       turns := Begin(s.turns, s.senders[id].fut.op)), id,
                    Parked(s.senders[id].fut.op, cx, false));
    HistorySame(s, t);
    forall j | j in t.senders
      ensures SenderWaits(t, j) && FutureOwnsOp(t, j)
    {
      assert SenderWaits(s, j) && FutureOwnsOp(s, j);
    }
  }

  lemma TrySendKeeps<T>(s: Sys<T>, id: nat, v: T)
    requires Inv(s) && Legal(s, TrySend(id, v))
    ensures Inv(TrySendStep(s, id, v))
  {
    var e := ChannelModel.TrySend(s.chan, v);
    var status := if e.result.Ok? then Accepted else Returned(v);
    var op := Op(s.senders[id].serial, v, status);
    var t := s.(chan := e.chan, ops := s.ops + [op], turns := Begin(s.turns, |s.ops|));
    assert OpsMatch(t) by {
      forall j | j in t.senders
        ensures FutureOwnsOp(t, j)
      {
        assert FutureOwnsOp(s, j);
      }
    }
    if e.result.Ok? {
      var u := t.(accepted := s.accepted + [|s.ops|]);
      AcceptHistory(s, u, |s.ops|);
      PushWaits(s, u, v);
      NotifyKeeps(u, e.woken);
    } else {
      ValuesSame(s.ops, t.ops, s.accepted);
      NotifyNothing(t);
    }
  }

  ghost function WithClone<T>(s: Sys<T>, id: nat): Sys<T> {
    s.(chan := s.chan.(ids := s.chan.ids + {id}), senders := s.senders[id := Handle(s.serials, NoSend)],
       serials := s.serials + 1)
  }

  lemma CloneOps<T>(s: Sys<T>, id: nat)
    requires OpsMatch(s) && id !in s.senders
    ensures OpsMatch(WithClone(s, id))
  {
    var t := WithClone(s, id);
    forall j | j in t.senders
      ensures t.senders[j].serial < t.serials && FutureOwnsOp(t, j)
    {
      if j != id {
        assert FutureOwnsOp(s, j);
      }
    }
  }

  lemma CloneKeeps<T>(s: Sys<T>, id: nat)
    requires Inv(s) && id in Below(s.chan.limit) && id !in s.senders && s.senders.Keys != {}
    ensures Inv(WithClone(s, id))
  {
    hide OpsMatch, HistoryMatches, Below;
    CloneOps(s, id);
    HistorySame(s, WithClone(s, id));
    forall j | j in WithClone(s, id).senders
      ensures SenderWaits(WithClone(s, id), j)
    {
      if j != id {
        assert SenderWaits(s, j);
      }
    }
  }

  lemma TryCloneKeeps<T>(s: Sys<T>, id: nat)
    requires Inv(s) && Legal(s, TryClone(id))
    ensures Inv(TryCloneStep(s))
  {
    hide OpsMatch, HistoryMatches, NoLostWakeup, LeastFree, Notify;
    var e := ChannelModel.TryClone(s.chan);
    if e.result.None? {
      NotifyNothing(s);
    } else {
      CloneKeeps(s, e.result.value);
      NotifyNothing(WithClone(s, e.result.value));
    }
  }

  lemma CancelSendKeeps<T>(s: Sys<T>, id: nat)
    requires Inv(s) && Legal(s, CancelSend(id))
    ensures Inv(CancelSendStep(s, id))
  {
    SettleKeeps(s, id, Cancelled);
  }

  lemma DropSenderKeeps<T>(s: Sys<T>, id: nat)
    requires Inv(s) && Legal(s, DropSender(id))
    ensures id < |s.chan.txWakers| && Inv(DropSenderStep(s, id))
  {
    hide HistoryMatches, Notify;
    assert id in s.chan.ids;
    var e := ChannelModel.DropSender(s.chan, id);
    var t := s.(chan := e.chan, senders := s.senders - {id});
    HistorySame(s, t);
    forall j | j in t.senders
      ensures SenderWaits(t, j) && FutureOwnsOp(t, j)
    {
      assert SenderWaits(s, j) && FutureOwnsOp(s, j);
    }
    NotifyKeeps(t, e.woken);
  }

  /** Taking a value out wakes every parked sender. */
  lemma PopKeeps<T>(s: Sys<T>, receiver: RecvFut)
    requires Inv(s) && s.receiver.Some? && s.chan.queue != []
    requires receiver == s.receiver.value || receiver == NoRecv
    ensures
      var e := Pop(s.chan);
      e.result.Some?
      && Inv(Notify(s.(chan := e.chan, receiver := Some(receiver), delivered := s.delivered + [e.result.value]),
                    e.woken))
  {
    var e := Pop(s.chan);
    var v := e.result.value;
    var t := s.(chan := e.chan, receiver := Some(receiver), delivered := s.delivered + [v]);
    assert s.delivered + s.chan.queue == t.delivered + t.chan.queue;
    forall j | j in t.senders
      ensures SenderWaits(t, j) || (t.senders[j].fut.Parked? && t.senders[j].fut.waker in e.woken)
    {
      assert SenderWaits(s, j);
    }
    forall j | j in t.senders
      ensures FutureOwnsOp(t, j)
    {
      assert FutureOwnsOp(s, j);
    }
    NotifyKeeps(t, e.woken);
  }

  lemma PollRecvKeeps<T>(s: Sys<T>, cx: Waker)
    requires Inv(s) && Legal(s, PollRecv(cx))
    ensures Inv(PollRecvStep(s, cx))
  {
    if s.chan.queue != [] {
      PopKeeps(s, NoRecv);
    } else {
      var fut := if s.chan.ids == {} then NoRecv else ParkedRecv(cx, false);
      var t := s.(chan := ChannelModel.PollRecv(s.chan, cx).chan, receiver := Some(fut));
      NotifyNothing(t);
      forall j | j in t.senders
        ensures SenderWaits(t, j) && FutureOwnsOp(t, j)
      {
        assert SenderWaits(s, j) && FutureOwnsOp(s, j);
      }
    }
  }

  lemma TryRecvKeeps<T>(s: Sys<T>)
    requires Inv(s) && Legal(s, TryRecv)
    ensures Inv(TryRecvStep(s))
  {
    if s.chan.queue != [] {
      PopKeeps(s, s.receiver.value);
    } else {
      NotifyNothing(s);
    }
  }

  lemma DropReceiverKeeps<T>(s: Sys<T>)
    requires Inv(s) && Legal(s, DropReceiver)
    ensures Inv(DropReceiverStep(s))
  {
    var e := ChannelModel.DropReceiver(s.chan);
    var t := s.(chan := e.chan, receiver := None);
    forall j | j in t.senders
      ensures SenderWaits(t, j) || (t.senders[j].fut.Parked? && t.senders[j].fut.waker in e.woken)
      ensures FutureOwnsOp(t, j)
    {
      assert SenderWaits(s, j) && FutureOwnsOp(s, j);
    }
    NotifyKeeps(t, e.woken);
  }

  lemma StepKeeps<T>(s: Sys<T>, a: Action<T>)
    requires Inv(s) && Legal(s, a)
    ensures Inv(Step(s, a))
  {
    match a
    case Split => SplitKeeps(s);
    case StartSend(id, v) => StartSendKeeps(s, id, v);
    case PollSend(id, cx) => PollSendKeeps(s, id, cx);
    case CancelSend(id) => CancelSendKeeps(s, id);
    case TrySend(id, v) => TrySendKeeps(s, id, v);
    case TryClone(id) => TryCloneKeeps(s, id);
    case DropSender(id) => DropSenderKeeps(s, id);
    case StartRecv =>
    case PollRecv(cx) => PollRecvKeeps(s, cx);
    case CancelRecv =>
    case TryRecv => TryRecvKeeps(s);
    case DropReceiver => DropReceiverKeeps(s);
  }
}
