/** The finite program makes only legal moves of the protocol, so what holds of every run holds
    at each of its states. */
module DeliveryRuns {
  import opened Prelude
  import opened SenderIds
  import opened ChannelModel
  import opened Protocol
  import ProtocolInvariant
  import ProtocolRuns
  import opened Delivery
  import opened DeliveryTheorem

  ghost predicate Leads<T>(s: Sys<T>, run: seq<Action<T>>, t: Sys<T>) {
    Inv(s) && ProtocolRuns.LegalRun(s, run) && ProtocolRuns.Exec(s, run) == t
  }

  lemma FirstAction<T>(s: Sys<T>, a: Action<T>, run: seq<Action<T>>, t: Sys<T>)
    requires Inv(s) && Legal(s, a) && Leads(Step(s, a), run, t)
    ensures Leads(s, [a] + run, t)
  {
    ProtocolInvariant.StepKeeps(s, a);
    assert ([a] + run)[1..] == run;
  }

  lemma LeadsTail<T>(s: Sys<T>, run: seq<Action<T>>, t: Sys<T>)
    requires Leads(s, run, t) && run != []
    ensures Legal(s, run[0]) && Leads(Step(s, run[0]), run[1..], t)
  {
    ProtocolInvariant.StepKeeps(s, run[0]);
  }

  lemma {:induction false} LeadsOn<T>(s: Sys<T>, first: seq<Action<T>>, t: Sys<T>, second: seq<Action<T>>, u: Sys<T>)
    requires Leads(s, first, t) && Leads(t, second, u)
    ensures Leads(s, first + second, u)
    decreases |first|
  {
    hide Step, Inv, Legal;
    if first == [] {
      assert first + second == second;
    } else {
      LeadsTail(s, first, t);
      LeadsOn(Step(s, first[0]), first[1..], t, second, u);
      FirstAction(s, first[0], first[1..] + second, u);
      assert [first[0]] + (first[1..] + second) == first + second;
    }
  }

  /** Some run leads there. */
  ghost predicate Reaches<T(!new)>(s: Sys<T>, t: Sys<T>) {
    exists run: seq<Action<T>> :: Leads(s, run, t)
  }

  lemma ReachesSelf<T(!new)>(s: Sys<T>)
    requires Inv(s)
    ensures Reaches(s, s)
  {
    var none: seq<Action<T>> := [];
    assert Leads(s, none, s);
  }

  lemma Acts<T(!new)>(s: Sys<T>, a: Action<T>, t: Sys<T>)
    requires Inv(s) && Legal(s, a) && Step(s, a) == t
    ensures Inv(t) && Reaches(s, t)
  {
    ProtocolInvariant.StepKeeps(s, a);
    FirstAction(s, a, [], t);
  }

  lemma Joins<T(!new)>(s: Sys<T>, t: Sys<T>, u: Sys<T>)
    requires Reaches(s, t) && Reaches(t, u)
    ensures Reaches(s, u)
  {
    var first :| Leads(s, first, t);
    var second :| Leads(t, second, u);
    LeadsOn(s, first, t, second, u);
  }

  // ----- one step of a task -----

  lemma StartIsRun<T(!new)>(p: Prog<T>, k: nat, lists: seq<seq<T>>)
    requires ProgInv(p, lists) && k < |lists| && k in p.sys.senders && p.todo[k] != []
    ensures Reaches(p.sys, TaskStartSend(p, k).sys)
  {
    if p.sys.senders[k].fut.NoSend? {
      Acts(p.sys, StartSend(k, p.todo[k][0]), TaskStartSend(p, k).sys);
    } else {
      ReachesSelf(p.sys);
    }
  }

  lemma StartRecvIsRun<T(!new)>(p: Prog<T>)
    requires Inv(p.sys) && p.sys.receiver.Some?
    ensures Reaches(p.sys, TaskStartRecv(p).sys)
  {
    if p.sys.receiver == Some(NoRecv) {
      Acts(p.sys, StartRecv, TaskStartRecv(p).sys);
    } else {
      ReachesSelf(p.sys);
    }
  }

  lemma PollRecvIsRun<T(!new)>(p: Prog<T>)
    requires Inv(p.sys) && |p.wakers| == |p.todo| + 1 && p.sys.receiver.Some? && !p.sys.receiver.value.NoRecv?
    ensures Reaches(p.sys, TaskPollRecv(p).sys)
  {
    var cx := p.wakers[|p.todo|];
    var polled := PollRecvStep(p.sys, cx);
    Acts(p.sys, PollRecv(cx), polled);
    if ChannelModel.PollRecv(p.sys.chan, cx).result == Ready(None) {
      Acts(polled, DropReceiver, DropReceiverStep(polled));
      Joins(p.sys, polled, DropReceiverStep(polled));
    }
  }

  lemma PollSendIsRun<T(!new)>(p: Prog<T>, k: nat)
    requires Inv(p.sys) && k < |p.todo| && k < |p.wakers|
    requires k in p.sys.senders && !p.sys.senders[k].fut.NoSend? && p.todo[k] != []
    ensures Reaches(p.sys, TaskPollSend(p, k).sys)
  {
    Acts(p.sys, PollSend(k, p.wakers[k]), TaskPollSend(p, k).sys);
  }

  lemma DropIsRun<T(!new)>(s: Sys<T>, k: nat)
    requires Inv(s) && k in s.senders && s.senders[k].fut.NoSend?
    ensures k < |s.chan.txWakers| && Reaches(s, DropSenderStep(s, k))
  {
    assert k in s.chan.ids;
    Acts(s, DropSender(k), DropSenderStep(s, k));
  }

  /** What a task does between two other tasks is one or two legal calls. */
  lemma TaskStepIsRun<T(!new)>(p: Prog<T>, task: nat, lists: seq<seq<T>>)
    requires ProgInv(p, lists) && task <= |lists| && Runnable(p, task)
    ensures Reaches(p.sys, TaskStep(p, task, lists).sys)
  {
    if task == |lists| {
      StartRecvIsRun(p);
      StartRecvKeeps(p, lists);
      var q := TaskStartRecv(p);
      PollRecvIsRun(q);
      Joins(p.sys, q.sys, TaskPollRecv(q).sys);
    } else if p.todo[task] == [] {
      assert TaskMatches(p, task);
      DropIsRun(p.sys, task);
    } else {
      StartIsRun(p, task, lists);
      StartKeeps(p, task, lists);
      var q := TaskStartSend(p, task);
      PollSendIsRun(q, task);
      Joins(p.sys, q.sys, TaskPollSend(q, task).sys);
    }
  }

  // ----- schedules -----

  lemma {:induction false} ScheduleIsRun<T(!new)>(p: Prog<T>, schedule: seq<nat>, lists: seq<seq<T>>)
    requires ProgInv(p, lists) && LegalSchedule(p, schedule, lists)
    ensures Reaches(p.sys, Perform(p, schedule, lists).sys)
    decreases |schedule|
  {
    if schedule == [] {
      ReachesSelf(p.sys);
    } else {
      TaskStepKeeps(p, schedule[0], lists);
      TaskStepIsRun(p, schedule[0], lists);
      var q := TaskStep(p, schedule[0], lists);
      ScheduleIsRun(q, schedule[1..], lists);
      Joins(p.sys, q.sys, Perform(q, schedule[1..], lists).sys);
    }
  }

  lemma ReachesHolds<T(!new)>(s: Sys<T>, t: Sys<T>)
    requires Reaches(s, t)
    ensures Inv(t)
  {
    var run :| Leads(s, run, t);
  }

  lemma ThenClone<T(!new)>(init: Sys<T>, s: Sys<T>, t: Sys<T>)
    requires Reaches(init, s) && 0 in s.senders && TryCloneStep(s) == t
    ensures Reaches(init, t)
  {
    ReachesHolds(init, s);
    Acts(s, Action.TryClone(0), t);
    Joins(init, s, t);
  }

  lemma FirstIsIdle<T>(capacity: nat, limit: nat, count: nat)
    requires 1 <= count
    ensures 0 in IdleSys<T>(capacity, limit, count).senders
    ensures IdleSys<T>(capacity, limit, count).senders[0] == Handle(0, NoSend)
  {
    assert 0 in Below(count);
  }

  lemma FirstIsRun<T(!new)>(capacity: nat, limit: nat)
    requires 0 < capacity && 1 <= limit <= MASK_BITS
    ensures Reaches(Init<T>(capacity, limit), IdleSys<T>(capacity, limit, 1))
  {
    ProtocolInvariant.InitHolds<T>(capacity, limit);
    FirstSender<T>(capacity, limit);
    Acts(Init<T>(capacity, limit), Action.Split, IdleSys<T>(capacity, limit, 1));
  }

  lemma {:induction false} ClonesReach<T(!new)>(init: Sys<T>, capacity: nat, limit: nat, count: nat)
    requires 1 <= count <= limit && Reaches(init, IdleSys<T>(capacity, limit, 1))
    ensures Reaches(init, IdleSys<T>(capacity, limit, count))
  {
    hide Reaches;
    if count != 1 {
      FirstIsIdle<T>(capacity, limit, count - 1);
      NextSender<T>(capacity, limit, count - 1);
      ClonesReach(init, capacity, limit, count - 1);
      ThenClone(init, IdleSys<T>(capacity, limit, count - 1), IdleSys<T>(capacity, limit, count));
    }
  }

  /** Splitting once and cloning leads to any number of idle senders within the limit. */
  lemma IdleIsRun<T(!new)>(capacity: nat, limit: nat, count: nat)
    requires 0 < capacity && 1 <= count <= limit <= MASK_BITS
    ensures Reaches(Init<T>(capacity, limit), IdleSys<T>(capacity, limit, count))
  {
    FirstIsRun<T>(capacity, limit);
    ClonesReach(Init<T>(capacity, limit), capacity, limit, count);
  }

  lemma StartIsIdle<T>(capacity: nat, limit: nat, lists: seq<seq<T>>, wakers: seq<Waker>)
    requires 0 < capacity && 1 <= |lists| <= limit <= MASK_BITS && |wakers| == |lists| + 1
    ensures Start(capacity, limit, lists, wakers).sys == IdleSys<T>(capacity, limit, |lists|)
  {
    hide Cloned, IdleSys, ProgInv;
    ClonedIs<T>(capacity, limit, |lists| - 1);
  }

  lemma PerformReaches<T(!new)>(capacity: nat, limit: nat, p: Prog<T>, schedule: seq<nat>, lists: seq<seq<T>>)
    requires 0 < capacity && 0 < limit <= MASK_BITS && Reaches(Init<T>(capacity, limit), p.sys)
    requires ProgInv(p, lists) && LegalSchedule(p, schedule, lists)
    ensures ProtocolRuns.Reachable(Perform(p, schedule, lists).sys, capacity, limit)
  {
    ScheduleIsRun(p, schedule, lists);
    ReachesReachable(capacity, limit, p.sys, Perform(p, schedule, lists).sys);
  }

  /** Every state of the finite program is reachable in the protocol. */
  lemma ScheduleReaches<T(!new)>(capacity: nat, limit: nat, lists: seq<seq<T>>, wakers: seq<Waker>,
                                 p: Prog<T>, schedule: seq<nat>)
    requires 0 < capacity && 1 <= |lists| <= limit <= MASK_BITS && |wakers| == |lists| + 1
    requires p == Start(capacity, limit, lists, wakers) && LegalSchedule(p, schedule, lists)
    ensures ProtocolRuns.Reachable(Perform(p, schedule, lists).sys, capacity, limit)
  {
    StartIsIdle(capacity, limit, lists, wakers);
    IdleIsRun<T>(capacity, limit, |lists|);
    PerformReaches(capacity, limit, p, schedule, lists);
  }

  lemma ReachesReachable<T(!new)>(capacity: nat, limit: nat, s: Sys<T>, t: Sys<T>)
    requires 0 < capacity && 0 < limit <= MASK_BITS
    requires Reaches(Init<T>(capacity, limit), s) && Reaches(s, t)
    ensures ProtocolRuns.Reachable(t, capacity, limit)
  {
    ProtocolInvariant.InitHolds<T>(capacity, limit);
    Joins(Init<T>(capacity, limit), s, t);
    var run :| Leads(Init<T>(capacity, limit), run, t);
    assert ProtocolRuns.LegalRun(Init(capacity, limit), run);
  }
}
