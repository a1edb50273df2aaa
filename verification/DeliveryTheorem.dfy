/** Total delivery: every schedule of the finite program ends, within a bound known at the
    start, and a schedule that cannot go on has delivered a merge of the senders' lists. */
module DeliveryTheorem {
  import opened Prelude
  import opened SenderIds
  import opened ChannelModel
  import opened Protocol
  import ProtocolInvariant
  import ProtocolRuns
  import opened Delivery

  function Total<T>(lists: seq<seq<T>>): nat {
    if lists == [] then 0 else |lists[0]| + Total(lists[1..])
  }

  ghost function RunnableSenders<T>(p: Prog<T>): set<nat> {
    set k | k in p.sys.senders && !ProtocolRuns.Stuck(p.sys.senders[k].fut)
  }

  /** Values still to be moved, counted twice before they are queued, and handles still to be
      dropped. */
  ghost function Work<T>(p: Prog<T>): nat {
    2 * Total(p.todo) + |p.sys.chan.queue| + |p.sys.senders.Keys| + if p.sys.receiver.Some? then 1 else 0
  }

  ghost function Active<T>(p: Prog<T>): nat {
    |RunnableSenders(p)| + if p.sys.receiver.Some? && !ProtocolRuns.StuckRecv(p.sys.receiver) then 1 else 0
  }

  ghost function Rank<T>(p: Prog<T>): nat {
    Work(p) * (|p.todo| + 2) + Active(p)
  }

  lemma {:induction false} TotalTail<T>(lists: seq<seq<T>>, k: nat)
    requires k < |lists| && lists[k] != []
    ensures Total(lists[k := lists[k][1..]]) == Total(lists) - 1
  {
    var less := lists[k := lists[k][1..]];
    if k == 0 {
      assert less[1..] == lists[1..];
    } else {
      TotalTail(lists[1..], k - 1);
      assert less[1..] == lists[1..][k - 1 := lists[k][1..]];
    }
  }

  lemma ActiveBound<T>(p: Prog<T>, lists: seq<seq<T>>)
    requires ProgInv(p, lists)
    ensures Active(p) <= |lists| + 1
  {
    ProtocolRuns.BelowSize(|lists|);
    SetSize(RunnableSenders(p), Below(|lists|));
  }

  lemma SetSize<X>(a: set<X>, b: set<X>)
    requires a <= b
    ensures |a| <= |b|
  {
    if a != b {
      ProtocolRuns.SubsetSize(a, b);
    }
  }

  ghost predicate Descends<T>(p: Prog<T>, q: Prog<T>) {
    Work(q) < Work(p) || (Work(q) == Work(p) && Active(q) < Active(p))
  }

  lemma RankLess(w: nat, a: nat, w': nat, a': nat, n: nat)
    requires a' < n && (w' < w || (w' == w && a' < a))
    ensures w' * n + a' < w * n + a
  {
    if w' < w {
      Product(w', w, n);
    }
  }

  lemma {:induction false} Product(w': nat, w: nat, n: nat)
    requires w' < w
    ensures w' * n + n <= w * n
  {
    if w' + 1 < w {
      Product(w', w - 1, n);
    }
  }

  lemma StartSendRank<T>(p: Prog<T>, k: nat)
    requires k < |p.todo| && k in p.sys.senders && p.todo[k] != []
    ensures Work(TaskStartSend(p, k)) == Work(p) && Active(TaskStartSend(p, k)) == Active(p)
  {
    var q := TaskStartSend(p, k);
    assert q.sys.senders.Keys == p.sys.senders.Keys;
    assert RunnableSenders(q) == RunnableSenders(p);
  }

  lemma StartRecvRank<T>(p: Prog<T>)
    ensures Work(TaskStartRecv(p)) == Work(p) && Active(TaskStartRecv(p)) == Active(p)
  {
    assert RunnableSenders(TaskStartRecv(p)) == RunnableSenders(p);
  }

  lemma DropRank<T>(p: Prog<T>, k: nat)
    requires k in p.sys.senders && k < |p.sys.chan.txWakers|
    ensures Work(p.(sys := DropSenderStep(p.sys, k))) < Work(p)
  {
    var q := p.(sys := DropSenderStep(p.sys, k));
    assert q.sys.senders.Keys == p.sys.senders.Keys - {k};
  }

  /** A poll that finds the queue full invokes no waker, not even its own. */
  lemma ParkedPoll<T>(s: Sys<T>, id: nat, cx: Waker)
    requires Inv(s) && Legal(s, PollSend(id, cx)) && s.chan.rxAlive && |s.chan.queue| == s.chan.capacity
    ensures id < |s.chan.txWakers|
    ensures
      var op := s.senders[id].fut.op;
      PollSendStep(s, id, cx)
      == SetFut(s.(chan := s.chan.(txWakers := s.chan.txWakers[id := Some(cx)]), turns := Begin(s.turns, op)), id,
                Parked(op, cx, false))
  {
    hide Values, HistoryMatches, SenderWaits;
    assert id in s.chan.ids && FutureOwnsOp(s, id);
    var op := s.senders[id].fut.op;
    ProtocolInvariant.NotifyNothing(
      SetFut(s.(chan := s.chan.(txWakers := s.chan.txWakers[id := Some(cx)]), turns := Begin(s.turns, op)), id,
             Parked(op, cx, false)));
  }

  lemma ParkRank<T>(p: Prog<T>, k: nat, lists: seq<seq<T>>)
    requires ProgInv(p, lists) && k < |lists| && Runnable(p, k)
    requires !p.sys.senders[k].fut.NoSend? && p.todo[k] != []
    requires |p.sys.chan.queue| == p.sys.chan.capacity
    ensures Work(TaskPollSend(p, k)) == Work(p) && Active(TaskPollSend(p, k)) < Active(p)
  {
    hide Total, TaskMatches, SentBy, Values, HistoryMatches, PollSendStep;
    assert p.sys.receiver.Some?;
    ParkedPoll(p.sys, k, p.wakers[k]);
    var q := TaskPollSend(p, k);
    assert q.sys.senders.Keys == p.sys.senders.Keys;
    assert k in RunnableSenders(p);
    assert RunnableSenders(q) == RunnableSenders(p) - {k};
  }

  lemma SendRank<T>(p: Prog<T>, k: nat, lists: seq<seq<T>>)
    requires ProgInv(p, lists) && k < |lists| && k in p.sys.senders
    requires !p.sys.senders[k].fut.NoSend? && p.todo[k] != []
    requires |p.sys.chan.queue| < p.sys.chan.capacity
    ensures Work(TaskPollSend(p, k)) < Work(p)
  {
    SendEffect(p, k, lists);
    TotalTail(p.todo, k);
    assert TaskPollSend(p, k).sys.senders.Keys == p.sys.senders.Keys;
  }

  lemma RecvRank<T>(p: Prog<T>)
    requires |p.wakers| == |p.todo| + 1 && p.sys.receiver.Some? && !ProtocolRuns.StuckRecv(p.sys.receiver)
    ensures Descends(p, TaskPollRecv(p))
  {
    var q := TaskPollRecv(p);
    assert q.sys.senders.Keys == p.sys.senders.Keys;
    if p.sys.chan.queue == [] && p.sys.chan.ids != {} {
      assert RunnableSenders(q) == RunnableSenders(p);
    }
  }

  lemma SenderDescends<T>(p: Prog<T>, k: nat, lists: seq<seq<T>>)
    requires ProgInv(p, lists) && k < |lists| && Runnable(p, k)
    ensures Descends(p, TaskStep(p, k, lists))
  {
    if p.todo[k] == [] {
      assert TaskMatches(p, k);
      DropKeeps(p, k, lists);
      DropRank(p, k);
    } else {
      StartKeeps(p, k, lists);
      StartSendRank(p, k);
      var r := TaskStartSend(p, k);
      if |r.sys.chan.queue| == r.sys.chan.capacity {
        ParkRank(r, k, lists);
      } else {
        SendRank(r, k, lists);
      }
    }
  }

  lemma TaskStepDescends<T>(p: Prog<T>, task: nat, lists: seq<seq<T>>)
    requires ProgInv(p, lists) && task <= |lists| && Runnable(p, task)
    ensures Rank(TaskStep(p, task, lists)) < Rank(p)
  {
    hide Work, Active, Inv, TaskMatches, SentBy, TaskPollSend, TaskPollRecv;
    var q := TaskStep(p, task, lists);
    TaskStepKeeps(p, task, lists);
    ActiveBound(q, lists);
    if task == |lists| {
      StartRecvRank(p);
      RecvRank(TaskStartRecv(p));
    } else {
      SenderDescends(p, task, lists);
    }
    RankLess(Work(p), Active(p), Work(q), Active(q), |lists| + 2);
  }

  // ----- schedules -----

  ghost predicate LegalSchedule<T>(p: Prog<T>, schedule: seq<nat>, lists: seq<seq<T>>)
    requires ProgInv(p, lists)
    decreases |schedule|
  {
    schedule == []
    || (schedule[0] <= |lists| && Runnable(p, schedule[0])
        && (TaskStepKeeps(p, schedule[0], lists);
            LegalSchedule(TaskStep(p, schedule[0], lists), schedule[1..], lists)))
  }

  ghost function Perform<T>(p: Prog<T>, schedule: seq<nat>, lists: seq<seq<T>>): (q: Prog<T>)
    requires ProgInv(p, lists) && LegalSchedule(p, schedule, lists)
    ensures ProgInv(q, lists)
    decreases |schedule|
  {
    if schedule == [] then p
    else
      TaskStepKeeps(p, schedule[0], lists);
      Perform(TaskStep(p, schedule[0], lists), schedule[1..], lists)
  }

  lemma {:induction false} ScheduleEnds<T>(p: Prog<T>, schedule: seq<nat>, lists: seq<seq<T>>)
    requires ProgInv(p, lists) && LegalSchedule(p, schedule, lists)
    ensures |schedule| + Rank(Perform(p, schedule, lists)) <= Rank(p)
    decreases |schedule|
  {
    if schedule != [] {
      TaskStepKeeps(p, schedule[0], lists);
      TaskStepDescends(p, schedule[0], lists);
      ScheduleEnds(TaskStep(p, schedule[0], lists), schedule[1..], lists);
    }
  }

  // ----- what the end looks like -----

  ghost predicate Finished<T>(p: Prog<T>) {
    p.sys.senders.Keys == {} && p.sys.receiver.None?
  }

  /** Deadlock freedom: an unfinished program has a runnable task. */
  lemma SomeTaskRuns<T>(p: Prog<T>, lists: seq<seq<T>>)
    requires ProgInv(p, lists) && !Finished(p)
    ensures exists task :: 0 <= task <= |lists| && Runnable(p, task)
  {
    if p.sys.receiver.Some? && !ProtocolRuns.StuckRecv(p.sys.receiver) {
      assert Runnable(p, |lists|);
    } else if p.sys.senders.Keys != {} {
      var k :| k in p.sys.senders.Keys;
      assert SenderWaits(p.sys, k);
      assert Runnable(p, k);
    }
  }

  /** The values of `out` that come from list `k` when position `i` comes from `tags[i]`. */
  function Pick<T>(out: seq<T>, tags: seq<nat>, k: nat): seq<T>
    requires |tags| == |out|
  {
    if out == [] then []
    else
      var n := |out| - 1;
      Pick(out[..n], tags[..n], k) + if tags[n] == k then [out[n]] else []
  }

  ghost predicate MergedBy<T>(out: seq<T>, lists: seq<seq<T>>, tags: seq<nat>) {
    && |tags| == |out|
    && (forall i :: 0 <= i < |tags| ==> tags[i] < |lists|)
    && (forall k :: 0 <= k < |lists| ==> Pick(out, tags, k) == lists[k])
  }

  ghost predicate IsMerge<T>(out: seq<T>, lists: seq<seq<T>>) {
    exists tags :: MergedBy(out, lists, tags)
  }

  ghost function Handles<T>(ops: seq<Op<T>>, order: seq<nat>): seq<nat>
    requires forall i :: 0 <= i < |order| ==> order[i] < |ops|
  {
    seq(|order|, i requires 0 <= i < |order| => ops[order[i]].handle)
  }

  lemma {:induction false} PickIsSentBy<T>(ops: seq<Op<T>>, order: seq<nat>, k: nat)
    requires forall i :: 0 <= i < |order| ==> order[i] < |ops|
    ensures Pick(Values(ops, order), Handles(ops, order), k) == SentBy(ops, order, k)
  {
    if order != [] {
      var n := |order| - 1;
      PickIsSentBy(ops, order[..n], k);
      assert Values(ops, order)[..n] == Values(ops, order[..n]);
      assert Handles(ops, order)[..n] == Handles(ops, order[..n]);
    }
  }

  lemma FinishedDeliversAll<T>(p: Prog<T>, lists: seq<seq<T>>)
    requires ProgInv(p, lists) && Finished(p)
    ensures IsMerge(p.sys.delivered, lists)
  {
    var s := p.sys;
    assert s.delivered == Values(s.ops, s.accepted);
    forall k | 0 <= k < |lists|
      ensures Pick(s.delivered, Handles(s.ops, s.accepted), k) == lists[k]
    {
      PickIsSentBy(s.ops, s.accepted, k);
      assert TaskMatches(p, k);
    }
    assert MergedBy(s.delivered, lists, Handles(s.ops, s.accepted));
  }

  // ----- setting up -----

  /** A new channel, split once, with `count` further senders cloned from the first. */
  ghost function Cloned<T>(capacity: nat, limit: nat, count: nat): (s: Sys<T>)
    requires 0 < capacity && 0 < limit <= MASK_BITS
  {
    if count == 0 then SplitStep(Init(capacity, limit)) else TryCloneStep(Cloned(capacity, limit, count - 1))
  }

  ghost function Idle(count: nat): map<nat, Handle> {
    map k | k in Below(count) :: Handle(k, NoSend)
  }

  /** `count` idle senders and an idle receiver on an empty channel. */
  ghost function IdleSys<T>(capacity: nat, limit: nat, count: nat): Sys<T> {
    Sys(Chan(capacity, limit, [], None, Cleared(limit), Below(count), true),
        Idle(count), Some(NoRecv), count, [], [], [], map[])
  }

  lemma FirstSender<T>(capacity: nat, limit: nat)
    ensures SplitStep(Init<T>(capacity, limit)) == IdleSys(capacity, limit, 1)
  {
    assert Below(1) == {0};
    assert Idle(1) == map[0 := Handle(0, NoSend)];
  }

  lemma NextSender<T>(capacity: nat, limit: nat, count: nat)
    requires 0 < count < limit
    ensures TryCloneStep(IdleSys<T>(capacity, limit, count)) == IdleSys(capacity, limit, count + 1)
  {
    NextClone(count, limit);
    ProtocolInvariant.NotifyNothing(IdleSys<T>(capacity, limit, count + 1));
  }

  lemma {:induction false} ClonedIs<T>(capacity: nat, limit: nat, count: nat)
    requires 0 < capacity && count < limit <= MASK_BITS
    ensures Cloned<T>(capacity, limit, count) == IdleSys(capacity, limit, count + 1)
  {
    hide SplitStep, TryCloneStep, IdleSys;
    if count == 0 {
      FirstSender<T>(capacity, limit);
    } else {
      ClonedIs<T>(capacity, limit, count - 1);
      NextSender<T>(capacity, limit, count);
    }
  }

  lemma {:induction false} ClonedHolds<T>(capacity: nat, limit: nat, count: nat)
    requires 0 < capacity && count < limit <= MASK_BITS
    ensures Inv(Cloned<T>(capacity, limit, count))
  {
    hide Inv, SplitStep, TryCloneStep;
    if count == 0 {
      ProtocolInvariant.InitHolds<T>(capacity, limit);
      ProtocolInvariant.SplitKeeps(Init<T>(capacity, limit));
    } else {
      ClonedHolds<T>(capacity, limit, count - 1);
      ClonedIs<T>(capacity, limit, count - 1);
      ProtocolInvariant.TryCloneKeeps(Cloned<T>(capacity, limit, count - 1), 0);
    }
  }

  lemma NextClone(count: nat, limit: nat)
    requires 0 < count < limit
    ensures LeastFree(Below(count), limit) == Some(count)
    ensures Idle(count)[count := Handle(count, NoSend)] == Idle(count + 1)
  {
    assert count !in Below(count);
    var least := LeastFree(Below(count), limit);
    assert least.value !in Below(count);
  }

  lemma StartHolds<T>(capacity: nat, limit: nat, lists: seq<seq<T>>, wakers: seq<Waker>)
    requires 0 < capacity && 1 <= |lists| <= limit <= MASK_BITS && |wakers| == |lists| + 1
    ensures ProgInv(Prog(Cloned(capacity, limit, |lists| - 1), lists, wakers), lists)
  {
    hide Inv, Cloned;
    ClonedHolds<T>(capacity, limit, |lists| - 1);
    ClonedIs<T>(capacity, limit, |lists| - 1);
    var p := Prog(Cloned(capacity, limit, |lists| - 1), lists, wakers);
    forall k | 0 <= k < |lists|
      ensures TaskMatches(p, k) && SentBy(p.sys.ops, p.sys.accepted, k) + p.todo[k] == lists[k]
    {
      assert k in Below(|lists|);
    }
  }

  ghost function Start<T>(capacity: nat, limit: nat, lists: seq<seq<T>>, wakers: seq<Waker>): (p: Prog<T>)
    requires 0 < capacity && 1 <= |lists| <= limit <= MASK_BITS && |wakers| == |lists| + 1
    ensures ProgInv(p, lists)
  {
    StartHolds(capacity, limit, lists, wakers);
    Prog(Cloned(capacity, limit, |lists| - 1), lists, wakers)
  }

  /** Twice each value, once each handle, for each task that may park in between. */
  function StepBound<T>(lists: seq<seq<T>>): nat {
    (2 * Total(lists) + |lists| + 1) * (|lists| + 2) + |lists| + 1
  }

  lemma IdleKeys(count: nat)
    ensures Idle(count).Keys == Below(count)
  {}

  lemma StartRank<T>(capacity: nat, limit: nat, lists: seq<seq<T>>, wakers: seq<Waker>)
    requires 0 < capacity && 1 <= |lists| <= limit <= MASK_BITS && |wakers| == |lists| + 1
    ensures Rank(Start(capacity, limit, lists, wakers)) == StepBound(lists)
  {
    hide Rank, StepBound, Inv, ProgInv;
    ClonedIs<T>(capacity, limit, |lists| - 1);
    IdleRank(Start(capacity, limit, lists, wakers));
  }

  lemma IdleRank<T>(p: Prog<T>)
    requires p.sys.senders == Idle(|p.todo|) && p.sys.chan.queue == [] && p.sys.receiver == Some(NoRecv)
    ensures Rank(p) == StepBound(p.todo)
  {
    hide Total;
    IdleKeys(|p.todo|);
    ProtocolRuns.BelowSize(|p.todo|);
    assert RunnableSenders(p) == p.sys.senders.Keys;
    RankOf(p, 2 * Total(p.todo) + |p.todo| + 1, |p.todo| + 1);
  }

  lemma RankOf<T>(p: Prog<T>, work: nat, active: nat)
    requires Work(p) == work && Active(p) == active
    ensures Rank(p) == work * (|p.todo| + 2) + active
  {}

  /** Up to `limit` senders each send a finite list and drop their handle while a receiver
      receives to the end. Whichever runnable task goes next: the schedule is finite, some task
      can go on until all are finished, and then the received sequence is a merge of the lists. */
  lemma TotalDelivery<T>(capacity: nat, limit: nat, lists: seq<seq<T>>, wakers: seq<Waker>, schedule: seq<nat>)
    requires 0 < capacity && 1 <= |lists| <= limit <= MASK_BITS && |wakers| == |lists| + 1
    requires LegalSchedule(Start(capacity, limit, lists, wakers), schedule, lists)
    ensures |schedule| <= StepBound(lists)
    ensures
      var q := Perform(Start(capacity, limit, lists, wakers), schedule, lists);
      if exists task :: 0 <= task <= |lists| && Runnable(q, task) then !Finished(q)
      else Finished(q) && IsMerge(q.sys.delivered, lists)
  {
    var p := Start(capacity, limit, lists, wakers);
    StartRank(capacity, limit, lists, wakers);
    ScheduleEnds(p, schedule, lists);
    var q := Perform(p, schedule, lists);
    if Finished(q) {
      FinishedDeliversAll(q, lists);
    } else {
      SomeTaskRuns(q, lists);
    }
  }
}
