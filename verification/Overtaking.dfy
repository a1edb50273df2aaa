/** A run in which a handle overtakes its own parked send. */
module Overtaking {
  import opened ChannelModel
  import opened Protocol
  import DeliveryTheorem
  import opened DeliveryRuns

  /** One sender, a receiver, one place in the queue, and what has been sent so far: `values` of
      that sender, in the order in which the sends were created. */
  ghost predicate Stage(s: Sys<nat>, queue: seq<nat>, values: seq<nat>, accepted: seq<nat>, delivered: seq<nat>,
                        turns: map<nat, nat>)
  {
    && Inv(s) && 0 in s.senders && s.receiver.Some? && s.chan.rxAlive && s.chan.capacity == 1
    && s.chan.queue == queue && s.accepted == accepted && s.delivered == delivered && s.turns == turns
    && |s.ops| == |values|
    && forall k :: 0 <= k < |values| ==> s.ops[k].value == values[k] && s.ops[k].handle == s.senders[0].serial
  }

  lemma TrySends(s: Sys<nat>, v: nat, values: seq<nat>, accepted: seq<nat>, delivered: seq<nat>, turns: map<nat, nat>)
      returns (t: Sys<nat>)
    requires Stage(s, [], values, accepted, delivered, turns) && |values| !in turns
    ensures Reaches(s, t)
    ensures Stage(t, [v], values + [v], accepted + [|values|], delivered, turns[|values| := |turns|])
    ensures t.senders[0].fut.NoSend? == s.senders[0].fut.NoSend?
    ensures t.senders[0].fut.Parked? ==> s.senders[0].fut.Parked? && t.senders[0].fut.op == s.senders[0].fut.op
    ensures s.senders[0].fut.Parked? ==> t.senders[0].fut.Parked?
  {
    t := TrySendStep(s, 0, v);
    Acts(s, Action.TrySend(0, v), t);
  }

  lemma Creates(s: Sys<nat>, v: nat, queue: seq<nat>, values: seq<nat>, accepted: seq<nat>, delivered: seq<nat>,
                turns: map<nat, nat>)
      returns (t: Sys<nat>)
    requires Stage(s, queue, values, accepted, delivered, turns) && s.senders[0].fut.NoSend?
    ensures Reaches(s, t) && Stage(t, queue, values + [v], accepted, delivered, turns)
    ensures t.senders[0].fut == Fresh(|values|)
  {
    t := StartSendStep(s, 0, v);
    Acts(s, StartSend(0, v), t);
  }

  /** Its first poll finds the queue full. */
  lemma Parks(s: Sys<nat>, cx: Waker, queue: seq<nat>, values: seq<nat>, accepted: seq<nat>, delivered: seq<nat>,
              turns: map<nat, nat>)
      returns (t: Sys<nat>)
    requires Stage(s, queue, values, accepted, delivered, turns) && |queue| == 1
    requires s.senders[0].fut.Fresh? && s.senders[0].fut.op !in turns
    ensures
      var op := s.senders[0].fut.op;
      && Reaches(s, t) && Stage(t, queue, values, accepted, delivered, turns[op := |turns|])
      && t.senders[0].fut.Parked? && t.senders[0].fut.op == op
  {
    assert 0 in s.chan.ids;
    t := PollSendStep(s, 0, cx);
    Acts(s, Action.PollSend(0, cx), t);
  }

  lemma Receives(s: Sys<nat>, v: nat, values: seq<nat>, accepted: seq<nat>, delivered: seq<nat>, turns: map<nat, nat>)
      returns (t: Sys<nat>)
    requires Stage(s, [v], values, accepted, delivered, turns)
    ensures Reaches(s, t)
    ensures Stage(t, [], values, accepted, delivered + [v], turns)
    ensures s.senders[0].fut.Parked? ==> t.senders[0].fut.Parked? && t.senders[0].fut.op == s.senders[0].fut.op
  {
    t := TryRecvStep(s);
    Acts(s, TryRecv, t);
  }

  /** The parked send is polled again, and finds room. */
  lemma SendCompletes(s: Sys<nat>, cx: Waker, values: seq<nat>, accepted: seq<nat>, delivered: seq<nat>,
                      turns: map<nat, nat>)
      returns (t: Sys<nat>)
    requires Stage(s, [], values, accepted, delivered, turns)
    requires s.senders[0].fut.Parked? && s.senders[0].fut.op < |values| && s.senders[0].fut.op in turns
    ensures Reaches(s, t)
    ensures
      var op := s.senders[0].fut.op;
      Stage(t, [values[op]], values, accepted + [op], delivered, turns)
  {
    assert 0 in s.chan.ids;
    t := PollSendStep(s, 0, cx);
    Acts(s, Action.PollSend(0, cx), t);
  }

  /** One place, taken by 10; the send of 20 is polled and parks. */
  lemma UntilParked() returns (t: Sys<nat>)
    ensures Reaches(Init<nat>(1, 1), t) && Stage(t, [10], [10, 20], [0], [], map[0 := 0, 1 := 1])
    ensures t.senders[0].fut.Parked? && t.senders[0].fut.op == 1
  {
    hide Stage, Reaches, Inv;
    var turns: map<nat, nat> := map[];
    var split := Splits();
    var filled := TrySends(split, 10, [], [], [], turns);
    turns := turns[0 := 0];
    assert [] + [10] == [10] && [] + [0] == [0];
    var created := Creates(filled, 20, [10], [10], [0], [], turns);
    assert [10] + [20] == [10, 20];
    t := Parks(created, Waker(0), [10], [10, 20], [0], [], turns);
    Chain(Init<nat>(1, 1), split, filled, created, t);
    assert turns[1 := 1] == map[0 := 0, 1 := 1];
  }

  /** The receiver takes 10, which wakes the parked send of 20; before that is polled again,
      `try_send` of 30 on the same handle finds the room. So the receiver gets 30 next, and 20
      only after it, although 20 had its turn first. */
  lemma SendOvertaken()
    ensures exists t ::
              && Reaches(Init<nat>(1, 1), t)
              && Stage(t, [20], [10, 20, 30], [0, 2, 1], [10, 30], map[0 := 0, 1 := 1, 2 := 2])
  {
    hide Stage, Reaches, Inv;
    var turns: map<nat, nat> := map[0 := 0, 1 := 1];
    var parked := UntilParked();
    var received := Receives(parked, 10, [10, 20], [0], [], turns);
    assert [] + [10] == [10];
    var overtaken := TrySends(received, 30, [10, 20], [0], [10], turns);
    turns := turns[2 := 2];
    assert [10, 20] + [30] == [10, 20, 30] && [0] + [2] == [0, 2];
    var again := Receives(overtaken, 30, [10, 20, 30], [0, 2], [10], turns);
    assert [10] + [30] == [10, 30];
    var done := SendCompletes(again, Waker(0), [10, 20, 30], [0, 2], [10, 30], turns);
    assert [0, 2] + [1] == [0, 2, 1];
    Chain(parked, received, overtaken, again, done);
    Joins(Init<nat>(1, 1), parked, done);
    assert turns == map[0 := 0, 1 := 1, 2 := 2];
  }

  lemma Splits() returns (t: Sys<nat>)
    ensures Reaches(Init<nat>(1, 1), t) && Stage(t, [], [], [], [], map[]) && t.senders[0].fut.NoSend?
  {
    t := DeliveryTheorem.IdleSys<nat>(1, 1, 1);
    IdleIsRun<nat>(1, 1, 1);
    ReachesHolds(Init<nat>(1, 1), t);
    FirstIsIdle<nat>(1, 1, 1);
  }

  lemma Chain<T(!new)>(a: Sys<T>, b: Sys<T>, c: Sys<T>, d: Sys<T>, e: Sys<T>)
    requires Reaches(a, b) && Reaches(b, c) && Reaches(c, d) && Reaches(d, e)
    ensures Reaches(a, e)
  {
    hide Reaches;
    Joins(a, b, c);
    Joins(a, c, d);
    Joins(a, d, e);
  }
}
