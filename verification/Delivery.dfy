/** Finite senders and one receiver on one channel: sender `k` sends its list and drops its
    handle, the receiver receives until the end and drops its own. Any runnable task may take
    the next step; whatever the schedule, it ends, and it ends with everything delivered. */
module Delivery {
  import opened Prelude
  import opened ChannelModel
  import opened Protocol
  import ProtocolInvariant
  import ProtocolRuns

  /** `todo[k]` is what sender task `k` has not yet handed over. Task `|todo|` is the receiver.
      Tasks may share wakers: a `join!` polls several futures with one. */
  datatype Prog<T> = Prog(sys: Sys<T>, todo: seq<seq<T>>, wakers: seq<Waker>)

  ghost predicate Runnable<T>(p: Prog<T>, task: nat) {
    if task < |p.todo| then task in p.sys.senders && !ProtocolRuns.Stuck(p.sys.senders[task].fut)
    else p.sys.receiver.Some? && !ProtocolRuns.StuckRecv(p.sys.receiver)
  }

  /** The values that handle `k` got accepted, in order. */
  function SentBy<T>(ops: seq<Op<T>>, order: seq<nat>, k: nat): seq<T>
    requires forall i :: 0 <= i < |order| ==> order[i] < |ops|
  {
    if order == [] then []
    else
      var last := ops[order[|order| - 1]];
      SentBy(ops, order[..|order| - 1], k) + if last.handle == k then [last.value] else []
  }

  /** A sender task has nothing in flight, or a future that holds its next value. */
  ghost predicate TaskMatches<T>(p: Prog<T>, k: nat)
    requires k < |p.todo|
  {
    if k in p.sys.senders then
      var h := p.sys.senders[k];
      && h.serial == k
      && (!h.fut.NoSend? ==>
           p.todo[k] != [] && h.fut.op < |p.sys.ops| && p.sys.ops[h.fut.op].value == p.todo[k][0])
    else p.todo[k] == []
  }

  ghost predicate ReceiverMatches<T>(s: Sys<T>) {
    s.receiver.None? ==> s.senders.Keys == {} && s.chan.queue == []
  }

  ghost predicate ProgInv<T>(p: Prog<T>, lists: seq<seq<T>>) {
    && Inv(p.sys)
    && |p.todo| == |lists| && |p.wakers| == |lists| + 1
    && (forall id :: id in p.sys.senders ==> id < |lists|)
    && (forall k :: 0 <= k < |lists| ==> TaskMatches(p, k))
    && ReceiverMatches(p.sys)
    && (forall i :: 0 <= i < |p.sys.accepted| ==> p.sys.ops[p.sys.accepted[i]].handle < |lists|)
    && (forall k :: 0 <= k < |lists| ==> SentBy(p.sys.ops, p.sys.accepted, k) + p.todo[k] == lists[k])
  }

  // ----- steps -----

  /** The task creates the future of its next send unless it has one pending. */
  ghost function TaskStartSend<T>(p: Prog<T>, k: nat): Prog<T>
    requires k < |p.todo| && k in p.sys.senders && p.todo[k] != []
  {
    if p.sys.senders[k].fut.NoSend? then p.(sys := StartSendStep(p.sys, k, p.todo[k][0])) else p
  }

  ghost function TaskPollSend<T>(p: Prog<T>, k: nat): Prog<T>
    requires Inv(p.sys) && k < |p.todo| && k < |p.wakers|
    requires k in p.sys.senders && !p.sys.senders[k].fut.NoSend? && p.todo[k] != []
  {
    var polled := PollSendStep(p.sys, k, p.wakers[k]);
    if |polled.accepted| > |p.sys.accepted| then p.(sys := polled, todo := p.todo[k := p.todo[k][1..]])
    else p.(sys := polled)
  }

  ghost function TaskStartRecv<T>(p: Prog<T>): Prog<T> {
    if p.sys.receiver == Some(NoRecv) then p.(sys := p.sys.(receiver := Some(FreshRecv))) else p
  }

  /** The receiver's loop ends, and its handle is dropped, at the first `None`. */
  ghost function TaskPollRecv<T>(p: Prog<T>): Prog<T>
    requires |p.wakers| == |p.todo| + 1
  {
    var cx := p.wakers[|p.todo|];
    var polled := PollRecvStep(p.sys, cx);
    if ChannelModel.PollRecv(p.sys.chan, cx).result == Ready(None) then p.(sys := DropReceiverStep(polled))
    else p.(sys := polled)
  }

  ghost function TaskStep<T>(p: Prog<T>, task: nat, lists: seq<seq<T>>): Prog<T>
    requires ProgInv(p, lists) && task <= |lists| && Runnable(p, task)
  {
    if task == |lists| then TaskPollRecv(TaskStartRecv(p))
    else if p.todo[task] == [] then
      assert TaskMatches(p, task);
      ProtocolInvariant.DropSenderKeeps(p.sys, task);
      p.(sys := DropSenderStep(p.sys, task))
    else
      StartKeeps(p, task, lists);
      TaskPollSend(TaskStartSend(p, task), task)
  }

  // ----- accepted values per sender -----

  lemma {:induction false} SentBySame<T>(ops: seq<Op<T>>, more: seq<Op<T>>, order: seq<nat>, k: nat)
    requires |ops| <= |more|
    requires forall i :: 0 <= i < |order| ==> order[i] < |ops|
    requires forall i :: 0 <= i < |ops| ==> more[i].value == ops[i].value && more[i].handle == ops[i].handle
    ensures SentBy(more, order, k) == SentBy(ops, order, k)
  {
    if order != [] {
      SentBySame(ops, more, order[..|order| - 1], k);
    }
  }

  lemma SentBySnoc<T>(ops: seq<Op<T>>, order: seq<nat>, op: nat, k: nat)
    requires op < |ops| && forall i :: 0 <= i < |order| ==> order[i] < |ops|
    ensures SentBy(ops, order + [op], k) == SentBy(ops, order, k) + if ops[op].handle == k then [ops[op].value] else []
  {
    assert (order + [op])[..|order + [op]| - 1] == order;
  }

  // ----- every step keeps the program's invariant -----

  lemma SentBySameAll<T>(p: Prog<T>, q: Prog<T>, lists: seq<seq<T>>)
    requires ProgInv(p, lists) && |p.sys.ops| <= |q.sys.ops| && q.todo == p.todo
    requires forall i :: 0 <= i < |p.sys.ops| ==>
               q.sys.ops[i].value == p.sys.ops[i].value && q.sys.ops[i].handle == p.sys.ops[i].handle
    ensures forall i :: 0 <= i < |p.sys.accepted| ==>
              p.sys.accepted[i] < |q.sys.ops| && q.sys.ops[p.sys.accepted[i]].handle < |lists|
    ensures forall k :: 0 <= k < |lists| ==> SentBy(q.sys.ops, p.sys.accepted, k) + q.todo[k] == lists[k]
  {
    forall k | 0 <= k < |lists|
      ensures SentBy(q.sys.ops, p.sys.accepted, k) + q.todo[k] == lists[k]
    {
      SentBySame(p.sys.ops, q.sys.ops, p.sys.accepted, k);
    }
  }

  lemma StartKeeps<T>(p: Prog<T>, k: nat, lists: seq<seq<T>>)
    requires ProgInv(p, lists) && k < |lists| && k in p.sys.senders && p.todo[k] != []
    ensures ProgInv(TaskStartSend(p, k), lists) && k in TaskStartSend(p, k).sys.senders
    ensures !TaskStartSend(p, k).sys.senders[k].fut.NoSend?
  {
    var q := TaskStartSend(p, k);
    if p.sys.senders[k].fut.NoSend? {
      ProtocolInvariant.StartSendKeeps(p.sys, k, p.todo[k][0]);
      SentBySameAll(p, q, lists);
      forall j | 0 <= j < |lists|
        ensures TaskMatches(q, j)
      {
        assert TaskMatches(p, j);
      }
    }
  }

  lemma DropKeeps<T>(p: Prog<T>, k: nat, lists: seq<seq<T>>)
    requires ProgInv(p, lists) && k < |lists| && k in p.sys.senders && p.todo[k] == []
    ensures Inv(p.sys) && k < |p.sys.chan.txWakers|
    ensures ProgInv(p.(sys := DropSenderStep(p.sys, k)), lists)
  {
    hide SentBy, Values, HistoryMatches, NoLostWakeup;
    assert TaskMatches(p, k);
    ProtocolInvariant.DropSenderKeeps(p.sys, k);
    var q := p.(sys := DropSenderStep(p.sys, k));
    forall j | 0 <= j < |lists|
      ensures TaskMatches(q, j)
    {
      assert TaskMatches(p, j);
    }
  }

  lemma ParkKeeps<T>(p: Prog<T>, k: nat, lists: seq<seq<T>>)
    requires ProgInv(p, lists) && k < |lists| && k in p.sys.senders
    requires !p.sys.senders[k].fut.NoSend? && p.todo[k] != []
    requires |p.sys.chan.queue| == p.sys.chan.capacity
    ensures ProgInv(TaskPollSend(p, k), lists)
  {
    hide SentBy, Values, HistoryMatches, NoLostWakeup;
    assert TaskMatches(p, k);
    ProtocolInvariant.PollSendKeeps(p.sys, k, p.wakers[k]);
    var q := TaskPollSend(p, k);
    assert p.sys.receiver.Some?;
    SentBySameAll(p, q, lists);
    forall j | 0 <= j < |lists|
      ensures TaskMatches(q, j)
    {
      assert TaskMatches(p, j);
    }
  }

  /** A poll that finds room: the value goes to the end of the queue and of the order. */
  lemma SendEffect<T>(p: Prog<T>, k: nat, lists: seq<seq<T>>)
    requires ProgInv(p, lists) && k < |lists| && k in p.sys.senders
    requires !p.sys.senders[k].fut.NoSend? && p.todo[k] != []
    requires |p.sys.chan.queue| < p.sys.chan.capacity
    ensures
      var op := p.sys.senders[k].fut.op;
      var q := TaskPollSend(p, k);
      && op < |p.sys.ops| && p.sys.ops[op].value == p.todo[k][0] && p.sys.ops[op].handle == k
      && p.sys.receiver.Some?
      && q.todo == p.todo[k := p.todo[k][1..]] && q.wakers == p.wakers
      && q.sys == Notify(
           Settle(p.sys, k, Accepted).(chan := Push(p.sys.chan, p.todo[k][0]).chan,
                                       accepted := p.sys.accepted + [op], turns := Begin(p.sys.turns, op)),
           Push(p.sys.chan, p.todo[k][0]).woken)
  {
    assert TaskMatches(p, k) && FutureOwnsOp(p.sys, k);
    assert p.sys.receiver.Some?;
  }

  lemma SendKeepsTasks<T>(p: Prog<T>, k: nat, lists: seq<seq<T>>, j: nat)
    requires ProgInv(p, lists) && k < |lists| && k in p.sys.senders && j < |lists|
    requires !p.sys.senders[k].fut.NoSend? && p.todo[k] != []
    requires |p.sys.chan.queue| < p.sys.chan.capacity
    ensures |TaskPollSend(p, k).todo| == |lists| && TaskMatches(TaskPollSend(p, k), j)
  {
    hide Inv, TaskPollSend, SentBy;
    SendEffect(p, k, lists);
    assert TaskMatches(p, j);
  }

  lemma SentByNext<T>(ops: seq<Op<T>>, more: seq<Op<T>>, accepted: seq<nat>, op: nat, j: nat, todo: seq<T>)
    requires forall i :: 0 <= i < |accepted| ==> accepted[i] < |ops|
    requires |more| == |ops| && op < |more| && todo != [] && more[op].value == todo[0]
    requires forall i :: 0 <= i < |more| ==> more[i].value == ops[i].value && more[i].handle == ops[i].handle
    ensures more[op].handle == j ==>
              SentBy(more, accepted + [op], j) + todo[1..] == SentBy(ops, accepted, j) + todo
    ensures more[op].handle != j ==> SentBy(more, accepted + [op], j) == SentBy(ops, accepted, j)
  {
    SentBySame(ops, more, accepted, j);
    SentBySnoc(more, accepted, op, j);
    MoveHead(SentBy(ops, accepted, j), todo);
  }

  lemma MoveHead<T>(sent: seq<T>, todo: seq<T>)
    requires todo != []
    ensures (sent + [todo[0]]) + todo[1..] == sent + todo
  {}

  lemma SendKeepsSent<T>(p: Prog<T>, k: nat, lists: seq<seq<T>>, j: nat)
    requires ProgInv(p, lists) && k < |lists| && k in p.sys.senders && j < |lists|
    requires !p.sys.senders[k].fut.NoSend? && p.todo[k] != []
    requires |p.sys.chan.queue| < p.sys.chan.capacity
    ensures
      var q := TaskPollSend(p, k);
      && |q.todo| == |lists|
      && (forall i :: 0 <= i < |q.sys.accepted| ==>
            q.sys.accepted[i] < |q.sys.ops| && q.sys.ops[q.sys.accepted[i]].handle < |lists|)
      && SentBy(q.sys.ops, q.sys.accepted, j) + q.todo[j] == lists[j]
  {
    hide TaskPollSend, SentBy, TaskMatches;
    SendEffect(p, k, lists);
    var q := TaskPollSend(p, k);
    SentByNext(p.sys.ops, q.sys.ops, p.sys.accepted, p.sys.senders[k].fut.op, j, p.todo[k]);
  }

  lemma SendKeeps<T>(p: Prog<T>, k: nat, lists: seq<seq<T>>)
    requires ProgInv(p, lists) && k < |lists| && k in p.sys.senders
    requires !p.sys.senders[k].fut.NoSend? && p.todo[k] != []
    requires |p.sys.chan.queue| < p.sys.chan.capacity
    ensures ProgInv(TaskPollSend(p, k), lists)
  {
    SendEffect(p, k, lists);
    ProtocolInvariant.PollSendKeeps(p.sys, k, p.wakers[k]);
    var q := TaskPollSend(p, k);
    SendKeepsSent(p, k, lists, k);
    forall j | 0 <= j < |lists|
      ensures TaskMatches(q, j) && SentBy(q.sys.ops, q.sys.accepted, j) + q.todo[j] == lists[j]
    {
      SendKeepsTasks(p, k, lists, j);
      SendKeepsSent(p, k, lists, j);
    }
  }

  lemma RecvKeeps<T>(p: Prog<T>, lists: seq<seq<T>>)
    requires ProgInv(p, lists) && p.sys.receiver.Some? && !p.sys.receiver.value.NoRecv?
    ensures ProgInv(TaskPollRecv(p), lists)
  {
    hide SentBy, Values, HistoryMatches, NoLostWakeup, OpsMatch;
    var cx := p.wakers[|p.todo|];
    ProtocolInvariant.PollRecvKeeps(p.sys, cx);
    var polled := PollRecvStep(p.sys, cx);
    if ChannelModel.PollRecv(p.sys.chan, cx).result == Ready(None) {
      ProtocolInvariant.DropReceiverKeeps(polled);
    }
    var q := TaskPollRecv(p);
    SentBySameAll(p, q, lists);
    forall j | 0 <= j < |lists|
      ensures TaskMatches(q, j)
    {
      assert TaskMatches(p, j);
    }
  }

  lemma StartRecvKeeps<T>(p: Prog<T>, lists: seq<seq<T>>)
    requires ProgInv(p, lists) && p.sys.receiver.Some?
    ensures ProgInv(TaskStartRecv(p), lists)
  {
    var q := TaskStartRecv(p);
    forall j | 0 <= j < |lists|
      ensures TaskMatches(q, j)
    {
      assert TaskMatches(p, j);
    }
  }

  lemma TaskStepKeeps<T>(p: Prog<T>, task: nat, lists: seq<seq<T>>)
    requires ProgInv(p, lists) && task <= |lists| && Runnable(p, task)
    ensures ProgInv(TaskStep(p, task, lists), lists)
  {
    if task == |lists| {
      StartRecvKeeps(p, lists);
      RecvKeeps(TaskStartRecv(p), lists);
    } else if p.todo[task] == [] {
      DropKeeps(p, task, lists);
    } else {
      StartKeeps(p, task, lists);
      var q := TaskStartSend(p, task);
      if |q.sys.chan.queue| == q.sys.chan.capacity {
        ParkKeeps(q, task, lists);
      } else {
        SendKeeps(q, task, lists);
      }
    }
  }
}
