/** What callers can rely on after any run of the channel. */
module ProtocolRuns {
  import opened Prelude
  import opened SenderIds
  import opened ChannelModel
  import opened Protocol
  import ProtocolInvariant

  ghost predicate LegalRun<T>(s: Sys<T>, run: seq<Action<T>>)
    requires Inv(s)
    decreases |run|
  {
    run == []
    || (Legal(s, run[0]) && (ProtocolInvariant.StepKeeps(s, run[0]); LegalRun(Step(s, run[0]), run[1..])))
  }

  ghost function Exec<T>(s: Sys<T>, run: seq<Action<T>>): (t: Sys<T>)
    requires Inv(s) && LegalRun(s, run)
    ensures Inv(t)
    decreases |run|
  {
    if run == [] then s
    else
      ProtocolInvariant.StepKeeps(s, run[0]);
      Exec(Step(s, run[0]), run[1..])
  }

  /** The state after a run from a new channel. */
  ghost predicate Reachable<T(!new)>(t: Sys<T>, capacity: nat, limit: nat)
    requires 0 < capacity && 0 < limit <= MASK_BITS
  {
    ProtocolInvariant.InitHolds<T>(capacity, limit);
    exists run: seq<Action<T>> :: LegalRun(Init(capacity, limit), run) && Exec(Init(capacity, limit), run) == t
  }

  lemma ReachableHolds<T(!new)>(t: Sys<T>, capacity: nat, limit: nat)
    requires 0 < capacity && 0 < limit <= MASK_BITS && Reachable(t, capacity, limit)
    ensures Inv(t) && t.chan.capacity == capacity && t.chan.limit == limit
  {
    ProtocolInvariant.InitHolds<T>(capacity, limit);
    var run :| LegalRun(Init(capacity, limit), run) && Exec(Init(capacity, limit), run) == t;
    SizesFixed(Init(capacity, limit), run);
  }

  lemma {:induction false} SizesFixed<T>(s: Sys<T>, run: seq<Action<T>>)
    requires Inv(s) && LegalRun(s, run)
    ensures Exec(s, run).chan.capacity == s.chan.capacity && Exec(s, run).chan.limit == s.chan.limit
    decreases |run|
  {
    if run != [] {
      ProtocolInvariant.StepKeeps(s, run[0]);
      StepSizes(s, run[0]);
      SizesFixed(Step(s, run[0]), run[1..]);
    }
  }

  lemma StepSizes<T>(s: Sys<T>, a: Action<T>)
    requires Inv(s) && Legal(s, a)
    ensures Step(s, a).chan.capacity == s.chan.capacity && Step(s, a).chan.limit == s.chan.limit
  {
    hide Values, HistoryMatches, ProtocolInvariant.WaitsUnless;
  }

  ghost predicate Stuck(f: SendFut) {
    f.Parked? && !f.notified
  }

  ghost predicate StuckRecv(f: Option<RecvFut>) {
    f.Some? && f.value.ParkedRecv? && !f.value.notified
  }

  /** No lost wakeup and no deadlock: a future nobody has woken is registered and has reason to
      wait, and the two sides never wait for each other. */
  lemma Wakeups<T(!new)>(t: Sys<T>, capacity: nat, limit: nat)
    requires 0 < capacity && 0 < limit <= MASK_BITS && Reachable(t, capacity, limit)
    ensures forall id :: id in t.senders && Stuck(t.senders[id].fut) ==>
              && id < |t.chan.txWakers| && t.chan.txWakers[id] == Some(t.senders[id].fut.waker)
              && |t.chan.queue| == capacity && t.chan.rxAlive && !StuckRecv(t.receiver)
    ensures StuckRecv(t.receiver) ==>
              && t.chan.rxWaker == Some(t.receiver.value.waker)
              && t.chan.queue == [] && t.senders.Keys != {}
  {
    ReachableHolds(t, capacity, limit);
    forall id | id in t.senders && Stuck(t.senders[id].fut)
      ensures id < |t.chan.txWakers| && t.chan.txWakers[id] == Some(t.senders[id].fut.waker)
      ensures |t.chan.queue| == capacity && t.chan.rxAlive && !StuckRecv(t.receiver)
    {
      assert id in t.chan.ids;
      assert SenderWaits(t, id);
    }
  }

  /** Refinement of a FIFO over whole runs: the delivered values are those of the first accepted
      sends, in order; the rest are in the queue, which bounds the lag. */
  lemma Fifo<T(!new)>(t: Sys<T>, capacity: nat, limit: nat)
    requires 0 < capacity && 0 < limit <= MASK_BITS && Reachable(t, capacity, limit)
    ensures |t.delivered| <= |t.accepted| <= |t.delivered| + capacity
    ensures forall i :: 0 <= i < |t.accepted| ==> t.accepted[i] < |t.ops|
    ensures t.delivered == Values(t.ops, t.accepted[..|t.delivered|])
    ensures t.chan.queue == Values(t.ops, t.accepted[|t.delivered|..])
  {
    ReachableHolds(t, capacity, limit);
    var all := Values(t.ops, t.accepted);
    assert all[..|t.delivered|] == t.delivered;
    assert all[|t.delivered|..] == t.chan.queue;
    assert Values(t.ops, t.accepted[..|t.delivered|]) == all[..|t.delivered|];
    assert Values(t.ops, t.accepted[|t.delivered|..]) == all[|t.delivered|..];
  }

  /** Exactly once: a send that reported success is in the accepted order once; any other send,
      still pending, given back or dropped, is not in it. */
  lemma ExactlyOnce<T(!new)>(t: Sys<T>, capacity: nat, limit: nat, op: nat)
    requires 0 < capacity && 0 < limit <= MASK_BITS && Reachable(t, capacity, limit) && op < |t.ops|
    ensures multiset(t.accepted)[op] == if t.ops[op].status == Accepted then 1 else 0
  {
    ReachableHolds(t, capacity, limit);
    CountOf(t.accepted, op);
  }

  /** A send that is settled stays as it is, and no settled or unsettled send leaves the
      accepted order again. */
  lemma {:induction false} SettledForever<T>(s: Sys<T>, run: seq<Action<T>>, op: nat)
    requires Inv(s) && LegalRun(s, run) && op < |s.ops|
    ensures
      var t := Exec(s, run);
      && op < |t.ops| && t.ops[op].value == s.ops[op].value && t.ops[op].handle == s.ops[op].handle
      && (s.ops[op].status != InFlight ==> t.ops[op].status == s.ops[op].status)
      && s.accepted <= t.accepted && s.delivered <= t.delivered
    decreases |run|
  {
    if run != [] {
      ProtocolInvariant.StepKeeps(s, run[0]);
      StepSettles(s, run[0], op);
      SettledForever(Step(s, run[0]), run[1..], op);
    }
  }

  /** What one step leaves of a send and of the history. */
  ghost predicate Settles<T>(s: Sys<T>, t: Sys<T>, op: nat)
    requires op < |s.ops|
  {
    && op < |t.ops| && t.ops[op].value == s.ops[op].value && t.ops[op].handle == s.ops[op].handle
    && (s.ops[op].status != InFlight ==> t.ops[op].status == s.ops[op].status)
    && s.accepted <= t.accepted && s.delivered <= t.delivered
  }

  lemma PollSettles<T>(s: Sys<T>, id: nat, cx: Waker, op: nat)
    requires Inv(s) && Legal(s, PollSend(id, cx)) && op < |s.ops|
    ensures Settles(s, PollSendStep(s, id, cx), op)
  {
    hide Values, HistoryMatches, NoLostWakeup, NotifySenders, NotifyRecv;
    assert FutureOwnsOp(s, id);
  }

  lemma CallSettles<T>(s: Sys<T>, a: Action<T>, op: nat)
    requires Inv(s) && Legal(s, a) && op < |s.ops|
    requires a.TrySend? || a.PollRecv? || a.TryRecv? || a.DropReceiver? || a.DropSender?
    ensures Settles(s, Step(s, a), op)
  {
    hide Values, HistoryMatches, NoLostWakeup, OpsMatch, NotifySenders, NotifyRecv, PollSendStep;
  }

  lemma StepSettles<T>(s: Sys<T>, a: Action<T>, op: nat)
    requires Inv(s) && Legal(s, a) && op < |s.ops|
    ensures Settles(s, Step(s, a), op)
  {
    hide Values, HistoryMatches, NoLostWakeup, NotifySenders, NotifyRecv;
    hide PollSendStep, TrySendStep, DropSenderStep, PollRecvStep, TryRecvStep, DropReceiverStep;
    if a.PollSend? {
      PollSettles(s, a.id, a.cx, op);
    } else if a.TrySend? || a.PollRecv? || a.TryRecv? || a.DropReceiver? || a.DropSender? {
      CallSettles(s, a, op);
    } else if a.CancelSend? {
      assert FutureOwnsOp(s, a.id);
    }
  }

  /** `try_clone` hands out the least id that no live sender owns, and fails exactly when the
      limit is reached. */
  lemma CloneIds<T(!new)>(t: Sys<T>, capacity: nat, limit: nat)
    requires 0 < capacity && 0 < limit <= MASK_BITS && Reachable(t, capacity, limit)
    ensures t.chan.ids == t.senders.Keys && (forall id :: id in t.senders ==> id < limit)
    ensures
      var e := ChannelModel.TryClone(t.chan);
      && (e.result.None? <==> |t.senders.Keys| == limit)
      && (e.result.Some? ==>
           && e.result.value !in t.senders && e.result.value < limit
           && (forall i :: 0 <= i < e.result.value ==> i in t.senders)
           && e.chan.ids == t.senders.Keys + {e.result.value})
  {
    ReachableHolds(t, capacity, limit);
    BelowSize(limit);
    assert forall id :: id in t.senders ==> id in t.chan.ids;
    if t.senders.Keys != Below(limit) {
      SubsetSize(t.senders.Keys, Below(limit));
      assert !(Below(limit) <= t.senders.Keys);
    }
  }

  lemma {:induction false} BelowSize(limit: nat)
    ensures |Below(limit)| == limit
  {
    if limit != 0 {
      BelowSize(limit - 1);
    }
  }

  lemma SubsetSize<X>(a: set<X>, b: set<X>)
    requires a <= b && a != b
    ensures |a| < |b|
  {
    assert b == a + (b - a);
  }

  ghost predicate NoSplit<T>(run: seq<Action<T>>) {
    forall i :: 0 <= i < |run| ==> !run[i].Split?
  }

  /** Close is lossless and permanent: `recv` reports the end only when no sender is left and
      every accepted value has been delivered; and then it does so at every later poll, until
      the channel is split again. */
  lemma CloseIsFinal<T>(s: Sys<T>, cx: Waker, run: seq<Action<T>>, later: Waker)
    requires Inv(s) && Legal(s, PollRecv(cx)) && ChannelModel.PollRecv(s.chan, cx).result == Ready(None)
    requires LegalRun(s, run) && NoSplit(run)
    ensures s.senders.Keys == {} && Values(s.ops, s.accepted) == s.delivered
    ensures ChannelModel.PollRecv(Exec(s, run).chan, later).result == Ready(None)
    ensures Exec(s, run).senders.Keys == {} && Exec(s, run).delivered == s.delivered
  {
    assert s.delivered + [] == s.delivered;
    StaysClosed(s, run);
  }

  lemma {:induction false} StaysClosed<T>(s: Sys<T>, run: seq<Action<T>>)
    requires Inv(s) && LegalRun(s, run) && NoSplit(run) && s.chan.ids == {} && s.chan.queue == []
    ensures Exec(s, run).chan.ids == {} && Exec(s, run).chan.queue == []
    ensures Exec(s, run).delivered == s.delivered
    decreases |run|
  {
    if run != [] {
      ProtocolInvariant.StepKeeps(s, run[0]);
      assert s.senders.Keys == {};
      StaysClosed(Step(s, run[0]), run[1..]);
    }
  }

  /** Once the receiver is dropped the queue is frozen until the next split, every parked sender
      has been woken, and every poll of a send gives its own value back. */
  lemma ReceiverGone<T>(s: Sys<T>, run: seq<Action<T>>, cx: Waker)
    requires Inv(s) && s.receiver.None? && LegalRun(s, run) && NoSplit(run)
    ensures
      var t := Exec(s, run);
      && t.chan.queue == s.chan.queue && t.accepted == s.accepted && t.delivered == s.delivered
      && (forall id :: id in t.senders ==> !Stuck(t.senders[id].fut))
      && (forall id :: id in t.senders && !t.senders[id].fut.NoSend? ==> GivesBack(t, id, cx))
  {
    StaysGone(s, run);
    var t := Exec(s, run);
    forall id | id in t.senders
      ensures !Stuck(t.senders[id].fut) && (!t.senders[id].fut.NoSend? ==> GivesBack(t, id, cx))
    {
      assert id in t.chan.ids && SenderWaits(t, id) && FutureOwnsOp(t, id);
    }
  }

  ghost predicate GivesBack<T>(t: Sys<T>, id: nat, cx: Waker)
    requires id in t.senders && !t.senders[id].fut.NoSend?
  {
    var op := t.senders[id].fut.op;
    && id < |t.chan.txWakers| && op < |t.ops|
    && ChannelModel.PollSend(t.chan, id, t.ops[op].value, cx).result == Ready(Err(t.ops[op].value))
  }

  lemma {:induction false} StaysGone<T>(s: Sys<T>, run: seq<Action<T>>)
    requires Inv(s) && LegalRun(s, run) && NoSplit(run) && s.receiver.None?
    ensures
      var t := Exec(s, run);
      t.receiver.None? && t.chan.queue == s.chan.queue && t.accepted == s.accepted && t.delivered == s.delivered
    decreases |run|
  {
    hide Values, HistoryMatches, NoLostWakeup, NotifySenders;
    if run != [] {
      ProtocolInvariant.StepKeeps(s, run[0]);
      StaysGone(Step(s, run[0]), run[1..]);
    }
  }
}
