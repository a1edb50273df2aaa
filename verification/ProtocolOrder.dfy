/** In which order the values of one sender arrive. A send takes its turn at its first poll, or
    when `try_send` is called. A value arrives after a later one of its own handle exactly if its
    send was parked when a `try_send` of that handle found room, and was completed by a poll after
    that. */
module ProtocolOrder {
  import opened Prelude
  import opened SenderIds
  import opened ChannelModel
  import opened Protocol
  import ProtocolInvariant
  import opened ProtocolRuns

  /** While a send of this handle is parked, a `try_send` finds room. */
  ghost predicate Overtakes<T>(s: Sys<T>, a: Action<T>) {
    && a.TrySend? && a.id in s.senders && s.senders[a.id].fut.Parked?
    && s.chan.rxAlive && |s.chan.queue| != s.chan.capacity
  }

  /** A poll of a pending send finds room. */
  ghost predicate Completes<T>(s: Sys<T>, a: Action<T>) {
    && a.PollSend? && a.id in s.senders && !s.senders[a.id].fut.NoSend?
    && s.chan.rxAlive && |s.chan.queue| != s.chan.capacity
  }

  /** The sends that have been overtaken while parked. */
  ghost function Overtaken<T>(s: Sys<T>, a: Action<T>, over: set<nat>): set<nat> {
    if Overtakes(s, a) then over + {s.senders[a.id].fut.op} else over
  }

  /** The overtaken send that this step completes, if any. */
  ghost function LateSend<T>(s: Sys<T>, a: Action<T>, over: set<nat>): set<nat> {
    if Completes(s, a) && s.senders[a.id].fut.op in over then {s.senders[a.id].fut.op} else {}
  }

  /** The sends that are completed by a poll of this run after they have been overtaken. */
  ghost function LateSends<T>(s: Sys<T>, run: seq<Action<T>>, over: set<nat>): set<nat>
    requires Inv(s) && LegalRun(s, run)
    decreases |run|
  {
    if run == [] then {}
    else
      ProtocolInvariant.StepKeeps(s, run[0]);
      LateSend(s, run[0], over) + LateSends(Step(s, run[0]), run[1..], Overtaken(s, run[0], over))
  }

  /** Which sends have had their turn: all accepted and parked ones, no fresh one. */
  ghost predicate TurnsMatch<T>(s: Sys<T>) {
    && (forall op :: op in s.turns ==> op < |s.ops| && s.turns[op] < |s.turns|)
    && (forall i :: 0 <= i < |s.accepted| ==> s.accepted[i] in s.turns && s.accepted[i] < |s.ops|)
    && (forall id :: id in s.senders ==> FutureTurn(s, id))
  }

  ghost predicate FutureTurn<T>(s: Sys<T>, id: nat)
    requires id in s.senders
  {
    match s.senders[id].fut
    case NoSend => true
    case Fresh(op) => op !in s.turns
    case Parked(op, _, _) => op in s.turns
  }

  /** Among the first `n` accepted sends one of the same handle had its turn after `op`. */
  ghost predicate LaterFirst<T>(s: Sys<T>, n: nat, op: nat)
    requires TurnsMatch(s) && n <= |s.accepted| && op in s.turns
  {
    exists j :: 0 <= j < n && s.ops[s.accepted[j]].handle == s.ops[op].handle && s.turns[s.accepted[j]] >= s.turns[op]
  }

  /** The first `n` accepted values of every sender are in the order of their turns. */
  ghost predicate InOrder<T>(s: Sys<T>, n: nat)
    requires TurnsMatch(s) && n <= |s.accepted|
  {
    forall i, j :: 0 <= i < j < n && s.ops[s.accepted[i]].handle == s.ops[s.accepted[j]].handle ==>
      s.turns[s.accepted[i]] < s.turns[s.accepted[j]]
  }

  /** `over` are the parked sends that a later one is ahead of, ... */
  ghost predicate OverMatches<T>(s: Sys<T>, over: set<nat>) {
    && TurnsMatch(s) && over <= s.turns.Keys
    && forall id :: id in s.senders && s.senders[id].fut.Parked? ==> ParkedMatches(s, over, id)
  }

  ghost predicate ParkedMatches<T>(s: Sys<T>, over: set<nat>, id: nat)
    requires TurnsMatch(s) && id in s.senders && s.senders[id].fut.Parked?
  {
    var op := s.senders[id].fut.op;
    op in s.turns && (op in over <==> LaterFirst(s, |s.accepted|, op))
  }

  /** ... and `late` the accepted ones. */
  ghost predicate LateMatches<T>(s: Sys<T>, late: set<nat>) {
    && TurnsMatch(s)
    && (forall i :: 0 <= i < |s.accepted| ==> (s.accepted[i] in late <==> LaterFirst(s, i, s.accepted[i])))
    && (forall op :: op in late ==> op in s.accepted)
  }

  lemma StepSettlesAll<T>(s: Sys<T>, a: Action<T>)
    requires Inv(s) && Legal(s, a)
    ensures |s.ops| <= |Step(s, a).ops|
    ensures forall k :: 0 <= k < |s.ops| ==> Step(s, a).ops[k].handle == s.ops[k].handle
  {
    var t := Step(s, a);
    if s.ops != [] {
      StepSettles(s, a, |s.ops| - 1);
    }
    forall k | 0 <= k < |s.ops|
      ensures t.ops[k].handle == s.ops[k].handle
    {
      StepSettles(s, a, k);
    }
  }

  // ----- turns -----

  ghost predicate TurnsGrow(turns: map<nat, nat>, more: map<nat, nat>) {
    forall op :: op in turns ==> op in more && more[op] == turns[op]
  }

  /** What a step does to the future of handle `id`: it stays, or it ends, or it is a new one, or
      its first poll parks it. */
  ghost predicate FutureMoves<T>(s: Sys<T>, t: Sys<T>, id: nat)
    requires id in t.senders
  {
    var h := t.senders[id];
    match h.fut
    case NoSend => true
    case Fresh(op) =>
      || (op == |s.ops| && t.turns == s.turns)
      || (id in s.senders && s.senders[id].serial == h.serial && s.senders[id].fut == Fresh(op)
          && (op in t.turns ==> op in s.turns))
    case Parked(op, _, _) =>
      && id in s.senders && s.senders[id].serial == h.serial && !s.senders[id].fut.NoSend?
      && s.senders[id].fut.op == op
      && (s.senders[id].fut.Parked? || t.turns == Begin(s.turns, op))
  }

  lemma FutureSteps<T>(s: Sys<T>, a: Action<T>, id: nat)
    requires Inv(s) && Legal(s, a) && id in Step(s, a).senders
    ensures FutureMoves(s, Step(s, a), id)
  {
    hide Inv;
    match a
    case PollSend(i, cx) => PollSendMoves(s, i, cx, id);
    case TrySend(i, v) => TrySendMoves(s, i, v, id);
    case PollRecv(cx) => PollRecvMoves(s, cx, id);
    case _ =>
  }

  lemma PollSendMoves<T>(s: Sys<T>, i: nat, cx: Waker, id: nat)
    requires Inv(s) && Legal(s, PollSend(i, cx)) && id in PollSendStep(s, i, cx).senders
    ensures FutureMoves(s, PollSendStep(s, i, cx), id)
  {
    assert FutureOwnsOp(s, i) && FutureOwnsOp(s, id);
  }

  lemma TrySendMoves<T>(s: Sys<T>, i: nat, v: T, id: nat)
    requires Inv(s) && i in s.senders && id in TrySendStep(s, i, v).senders
    ensures FutureMoves(s, TrySendStep(s, i, v), id)
  {
    assert FutureOwnsOp(s, id);
  }

  lemma PollRecvMoves<T>(s: Sys<T>, cx: Waker, id: nat)
    requires id in PollRecvStep(s, cx).senders
    ensures FutureMoves(s, PollRecvStep(s, cx), id)
  {}

  /** The send that has its turn in this step, if any. */
  ghost function Acting<T>(s: Sys<T>, a: Action<T>): Option<nat>
    requires Inv(s) && Legal(s, a)
  {
    match a
    case PollSend(id, _) => Some(s.senders[id].fut.op)
    case TrySend(_, _) => Some(|s.ops|)
    case _ => None
  }

  /** The step has this send, if any, act; it may accept that one and no other. */
  ghost predicate TurnTaken<T>(s: Sys<T>, t: Sys<T>, op: Option<nat>) {
    && |s.ops| <= |t.ops|
    && t.turns == (if op.Some? then Begin(s.turns, op.value) else s.turns)
    && (op.Some? ==> op.value < |t.ops|)
    && (t.accepted == s.accepted || (op.Some? && t.accepted == s.accepted + [op.value]))
  }

  lemma PollSendActs<T>(s: Sys<T>, id: nat, cx: Waker)
    requires Inv(s) && Legal(s, PollSend(id, cx))
    ensures TurnTaken(s, PollSendStep(s, id, cx), Some(s.senders[id].fut.op))
  {
    hide Values, HistoryMatches, NoLostWakeup;
    assert FutureOwnsOp(s, id);
  }

  lemma TrySendActs<T>(s: Sys<T>, id: nat, v: T)
    requires id in s.senders
    ensures TurnTaken(s, TrySendStep(s, id, v), Some(|s.ops|))
  {}

  lemma PollRecvActs<T>(s: Sys<T>, cx: Waker)
    ensures TurnTaken(s, PollRecvStep(s, cx), None)
  {}

  lemma OthersAct<T>(s: Sys<T>, a: Action<T>)
    requires Inv(s) && Legal(s, a) && !a.PollSend? && !a.TrySend? && !a.PollRecv?
    ensures TurnTaken(s, Step(s, a), Acting(s, a))
  {
    hide Values, HistoryMatches, NoLostWakeup, NotifySenders, NotifyRecv, PollSendStep, TrySendStep, PollRecvStep;
    if a.CancelSend? {
      assert FutureOwnsOp(s, a.id);
    }
  }

  lemma StepActs<T>(s: Sys<T>, a: Action<T>)
    requires Inv(s) && Legal(s, a)
    ensures TurnTaken(s, Step(s, a), Acting(s, a))
  {
    hide Inv, TurnTaken, PollSendStep, TrySendStep, PollRecvStep;
    match a
    case PollSend(id, cx) => PollSendActs(s, id, cx);
    case TrySend(id, v) => TrySendActs(s, id, v);
    case PollRecv(cx) => PollRecvActs(s, cx);
    case _ => OthersAct(s, a);
  }

  lemma StepTurns<T>(s: Sys<T>, a: Action<T>)
    requires Inv(s) && Legal(s, a) && TurnsMatch(s)
    ensures TurnsMatch(Step(s, a)) && TurnsGrow(s.turns, Step(s, a).turns)
  {
    hide Inv, Step;
    var t := Step(s, a);
    StepActs(s, a);
    forall id | id in t.senders
      ensures FutureTurn(t, id)
    {
      FutureSteps(s, a, id);
      assert id in s.senders ==> FutureTurn(s, id);
    }
  }

  // ----- order -----

  /** What happened so far stays as it was. */
  ghost predicate Extends<T>(s: Sys<T>, t: Sys<T>) {
    && TurnsMatch(s) && TurnsMatch(t) && TurnsGrow(s.turns, t.turns)
    && |s.ops| <= |t.ops| && (forall k :: 0 <= k < |s.ops| ==> t.ops[k].handle == s.ops[k].handle)
    && s.accepted <= t.accepted
  }

  lemma LaterStays<T>(s: Sys<T>, t: Sys<T>, n: nat, op: nat)
    requires Extends(s, t) && n <= |s.accepted| && op in s.turns
    ensures LaterFirst(t, n, op) <==> LaterFirst(s, n, op)
  {
    assert s.accepted == t.accepted[..|s.accepted|];
  }

  /** A send that has its turn in this step comes after all others. */
  lemma NewestIsLast<T>(s: Sys<T>, t: Sys<T>, op: nat)
    requires Extends(s, t) && op !in s.turns && t.turns == Begin(s.turns, op)
    ensures !LaterFirst(t, |s.accepted|, op)
  {
    assert s.accepted == t.accepted[..|s.accepted|];
    forall j | 0 <= j < |s.accepted|
      ensures t.turns[t.accepted[j]] < t.turns[op]
    {
      assert t.accepted[j] == s.accepted[j];
    }
  }

  lemma LaterSnoc<T>(t: Sys<T>, n: nat, op: nat)
    requires TurnsMatch(t) && n < |t.accepted| && op in t.turns
    ensures
      var last := t.accepted[n];
      LaterFirst(t, n + 1, op)
      <==> LaterFirst(t, n, op) || (t.ops[last].handle == t.ops[op].handle && t.turns[last] >= t.turns[op])
  {}

  /** What is accepted, by whom, and what it does to the futures. */
  ghost predicate Accepts<T>(s: Sys<T>, a: Action<T>, t: Sys<T>, op: nat) {
    && (a.PollSend? || a.TrySend?) && a.id in s.senders
    && |s.ops| <= |t.ops| && op !in s.accepted && op < |t.ops| && op in t.turns && t.turns == Begin(s.turns, op)
    && t.ops[op].handle == s.senders[a.id].serial
    && (a.PollSend? ==> Completes(s, a) && s.senders[a.id].fut.op == op
                        && (op in s.turns <==> s.senders[a.id].fut.Parked?))
    && (a.TrySend? ==> op == |s.ops| && op !in s.turns && (Overtakes(s, a) <==> s.senders[a.id].fut.Parked?))
    && forall id :: id in t.senders && t.senders[id].fut.Parked? ==>
         && id in s.senders && s.senders[id].fut.Parked? && s.senders[id].fut.op == t.senders[id].fut.op
         && t.senders[id].fut.op < |s.ops| && t.senders[id].fut.op != op
         && (t.ops[t.senders[id].fut.op].handle == t.ops[op].handle <==> a.TrySend? && id == a.id)
         && (id != a.id && s.senders[a.id].fut.Parked? ==> t.senders[id].fut.op != s.senders[a.id].fut.op)
  }

  lemma PollAccepts<T>(s: Sys<T>, id: nat, cx: Waker)
    requires Inv(s) && TurnsMatch(s) && Legal(s, PollSend(id, cx))
    ensures
      var op := s.senders[id].fut.op;
      var t := PollSendStep(s, id, cx);
      if t.accepted == s.accepted then !Completes(s, PollSend(id, cx))
      else t.accepted == s.accepted + [op] && Accepts(s, PollSend(id, cx), t, op)
  {
    assert FutureOwnsOp(s, id) && FutureTurn(s, id);
    forall j | j in s.senders
      ensures FutureOwnsOp(s, j)
    {}
  }

  lemma TryAccepts<T>(s: Sys<T>, id: nat, v: T)
    requires Inv(s) && TurnsMatch(s) && id in s.senders
    ensures
      var a := Action.TrySend(id, v);
      var t := TrySendStep(s, id, v);
      if t.accepted == s.accepted then !Overtakes(s, a)
      else t.accepted == s.accepted + [|s.ops|] && Accepts(s, a, t, |s.ops|)
  {
    forall j | j in s.senders
      ensures FutureOwnsOp(s, j)
    {}
  }

  /** A step that accepts nothing marks nothing. */
  lemma QuietMarks<T>(s: Sys<T>, t: Sys<T>, over: set<nat>, late: set<nat>)
    requires Extends(s, t) && t.accepted == s.accepted
    requires forall id :: id in t.senders ==> FutureMoves(s, t, id)
    requires OverMatches(s, over) && LateMatches(s, late)
    ensures OverMatches(t, over) && LateMatches(t, late)
  {
    hide LaterFirst;
    forall id | id in t.senders && t.senders[id].fut.Parked?
      ensures ParkedMatches(t, over, id)
    {
      assert FutureMoves(s, t, id) && FutureTurn(s, id) && FutureTurn(t, id);
      var op := t.senders[id].fut.op;
      if s.senders[id].fut.Parked? {
        assert ParkedMatches(s, over, id);
        LaterStays(s, t, |s.accepted|, op);
      } else {
        NewestIsLast(s, t, op);
      }
    }
    LateStays(s, t, late);
  }

  lemma LateStays<T>(s: Sys<T>, t: Sys<T>, late: set<nat>)
    requires Extends(s, t) && LateMatches(s, late)
    ensures forall i :: 0 <= i < |s.accepted| ==> t.accepted[i] == s.accepted[i] && t.accepted[i] in t.turns
    ensures forall i :: 0 <= i < |s.accepted| ==> (t.accepted[i] in late <==> LaterFirst(t, i, t.accepted[i]))
  {
    hide LaterFirst;
    assert s.accepted == t.accepted[..|s.accepted|];
    forall i | 0 <= i < |s.accepted|
      ensures LaterFirst(t, i, t.accepted[i]) <==> LaterFirst(s, i, s.accepted[i])
    {
      LaterStays(s, t, i, s.accepted[i]);
    }
  }

  /** The accepted send is behind a later one exactly if it has been overtaken before. */
  lemma AcceptedIsLate<T>(s: Sys<T>, a: Action<T>, t: Sys<T>, op: nat, over: set<nat>)
    requires Extends(s, t) && Accepts(s, a, t, op) && OverMatches(s, over)
    ensures LaterFirst(t, |s.accepted|, op) <==> op in LateSend(s, a, over)
  {
    hide LaterFirst, Overtakes;
    if op in s.turns {
      assert ParkedMatches(s, over, a.id);
      LaterStays(s, t, |s.accepted|, op);
    } else {
      NewestIsLast(s, t, op);
    }
  }

  lemma AcceptedMarks<T>(s: Sys<T>, t: Sys<T>, op: nat, late: set<nat>, more: set<nat>)
    requires Extends(s, t) && t.accepted == s.accepted + [op] && op !in s.accepted && LateMatches(s, late)
    requires more <= {op} && op in t.turns && (LaterFirst(t, |s.accepted|, op) <==> op in more)
    ensures LateMatches(t, late + more)
  {
    LateStays(s, t, late);
    hide LaterFirst, Extends, FutureTurn;
    forall i | 0 <= i < |t.accepted|
      ensures t.accepted[i] in late + more <==> LaterFirst(t, i, t.accepted[i])
    {
      if i < |s.accepted| {
        assert t.accepted[i] == s.accepted[i];
        assert s.accepted[i] in s.accepted;
      }
    }
  }

  lemma ParkedMarks<T>(s: Sys<T>, a: Action<T>, t: Sys<T>, op: nat, over: set<nat>)
    requires Extends(s, t) && t.accepted == s.accepted + [op] && Accepts(s, a, t, op) && OverMatches(s, over)
    ensures OverMatches(t, Overtaken(s, a, over))
  {
    hide LaterFirst;
    forall id | id in t.senders && t.senders[id].fut.Parked?
      ensures ParkedMatches(t, Overtaken(s, a, over), id)
    {
      assert FutureTurn(s, id) && FutureTurn(t, id) && ParkedMatches(s, over, id);
      var parked := t.senders[id].fut.op;
      LaterStays(s, t, |s.accepted|, parked);
      LaterSnoc(t, |s.accepted|, parked);
    }
  }

  lemma AcceptMarks<T>(s: Sys<T>, a: Action<T>, t: Sys<T>, op: nat, over: set<nat>, late: set<nat>)
    requires Extends(s, t) && t.accepted == s.accepted + [op] && Accepts(s, a, t, op)
    requires OverMatches(s, over) && LateMatches(s, late)
    ensures OverMatches(t, Overtaken(s, a, over)) && LateMatches(t, late + LateSend(s, a, over))
  {
    hide Extends, OverMatches, LateMatches, LaterFirst, TurnsMatch, Overtakes;
    AcceptedIsLate(s, a, t, op, over);
    AcceptedMarks(s, t, op, late, LateSend(s, a, over));
    ParkedMarks(s, a, t, op, over);
  }

  /** Every step moves the marks as `Overtaken` and `LateSend` say. */
  lemma StepMarks<T>(s: Sys<T>, a: Action<T>, over: set<nat>, late: set<nat>)
    requires Inv(s) && Legal(s, a) && OverMatches(s, over) && LateMatches(s, late)
    ensures OverMatches(Step(s, a), Overtaken(s, a, over))
    ensures LateMatches(Step(s, a), late + LateSend(s, a, over))
  {
    assert TurnsMatch(s);
    hide Inv, Step, OverMatches, LateMatches, Accepts, Extends, TurnsMatch, Overtakes, Completes, FutureMoves;
    var t := Step(s, a);
    StepExtends(s, a);
    StepAccepts(s, a);
    if t.accepted == s.accepted {
      forall id | id in t.senders
        ensures FutureMoves(s, t, id)
      {
        FutureSteps(s, a, id);
      }
      QuietMarks(s, t, over, late);
      assert late + LateSend(s, a, over) == late;
    } else {
      AcceptMarks(s, a, t, Acting(s, a).value, over, late);
    }
  }

  lemma StepExtends<T>(s: Sys<T>, a: Action<T>)
    requires Inv(s) && Legal(s, a) && TurnsMatch(s)
    ensures Extends(s, Step(s, a))
  {
    hide Inv, Step, TurnsMatch;
    StepTurns(s, a);
    StepSettlesAll(s, a);
    StepActs(s, a);
  }

  lemma StepAccepts<T>(s: Sys<T>, a: Action<T>)
    requires Inv(s) && Legal(s, a) && TurnsMatch(s)
    ensures
      var t := Step(s, a);
      if t.accepted == s.accepted then !Overtakes(s, a) && !Completes(s, a)
      else
        && Acting(s, a).Some?
        && t.accepted == s.accepted + [Acting(s, a).value] && Accepts(s, a, t, Acting(s, a).value)
  {
    match a
    case PollSend(id, cx) => PollAccepts(s, id, cx);
    case TrySend(id, v) => TryAccepts(s, id, v);
    case _ => StepActs(s, a);
  }

  // ----- runs -----

  lemma {:induction false} RunMarks<T>(s: Sys<T>, run: seq<Action<T>>, over: set<nat>, late: set<nat>)
    requires Inv(s) && LegalRun(s, run) && OverMatches(s, over) && LateMatches(s, late)
    ensures LateMatches(Exec(s, run), late + LateSends(s, run, over))
    decreases |run|
  {
    hide Inv, Step, Legal, OverMatches, LateMatches, Overtaken, LateSend;
    if run == [] {
      assert late + {} == late;
    } else {
      ProtocolInvariant.StepKeeps(s, run[0]);
      StepMarks(s, run[0], over, late);
      var next, now := Step(s, run[0]), Overtaken(s, run[0], over);
      var done := LateSend(s, run[0], over);
      RunMarks(next, run[1..], now, late + done);
      assert late + (done + LateSends(next, run[1..], now)) == (late + done) + LateSends(next, run[1..], now);
    }
  }

  lemma NothingMarked<T>(s: Sys<T>)
    requires s.accepted == [] && s.turns == map[] && s.senders == map[]
    ensures OverMatches(s, {}) && LateMatches(s, {})
  {}

  /** Exactly which values are out of place: from a new channel, after any run, a value is behind
      a later one of its own sender if and only if its send was parked when a `try_send` of that
      handle found room, and was completed by a poll after that. */
  lemma OutOfPlaceExactly<T>(capacity: nat, limit: nat, run: seq<Action<T>>)
    requires 0 < capacity && 0 < limit <= MASK_BITS
    requires Inv(Init<T>(capacity, limit)) && LegalRun(Init(capacity, limit), run)
    ensures
      var init := Init<T>(capacity, limit);
      var t := Exec(init, run);
      && TurnsMatch(t)
      && (forall i :: 0 <= i < |t.accepted| ==>
            (LaterFirst(t, i, t.accepted[i]) <==> t.accepted[i] in LateSends(init, run, {})))
      && (forall op :: op in LateSends(init, run, {}) ==> op in t.accepted)
  {
    var init := Init<T>(capacity, limit);
    NothingMarked(init);
    RunMarks(init, run, {}, {});
    assert {} + LateSends(init, run, {}) == LateSends(init, run, {});
  }

  /** So the accepted values of every sender are in the order of its sends if and only if no send
      is completed after it was overtaken; and what the receiver has been given so far is in
      order if and only if it holds no value of such a send. */
  lemma OrderedExactly<T>(capacity: nat, limit: nat, run: seq<Action<T>>)
    requires 0 < capacity && 0 < limit <= MASK_BITS
    requires Inv(Init<T>(capacity, limit)) && LegalRun(Init(capacity, limit), run)
    ensures
      var init := Init<T>(capacity, limit);
      var t := Exec(init, run);
      var late := LateSends(init, run, {});
      && TurnsMatch(t) && |t.delivered| <= |t.accepted|
      && (InOrder(t, |t.accepted|) <==> late == {})
      && (InOrder(t, |t.delivered|) <==> forall i :: 0 <= i < |t.delivered| ==> t.accepted[i] !in late)
      && (forall i :: 0 <= i < |t.delivered| ==> t.delivered[i] == t.ops[t.accepted[i]].value)
  {
    OutOfPlaceExactly(capacity, limit, run);
    var init := Init<T>(capacity, limit);
    var t := Exec(init, run);
    var late := LateSends(init, run, {});
    InOrderPlaces(t, |t.accepted|);
    InOrderPlaces(t, |t.delivered|);
    assert late == {} <==> forall i :: 0 <= i < |t.accepted| ==> t.accepted[i] !in late;
    assert forall i :: 0 <= i < |t.delivered| ==> t.delivered[i] == Values(t.ops, t.accepted)[i];
  }

  lemma InOrderPlaces<T>(s: Sys<T>, n: nat)
    requires TurnsMatch(s) && n <= |s.accepted|
    ensures InOrder(s, n) <==> forall i :: 0 <= i < n ==> !LaterFirst(s, i, s.accepted[i])
  {
    if forall i :: 0 <= i < n ==> !LaterFirst(s, i, s.accepted[i]) {
      forall i, j | 0 <= i < j < n && s.ops[s.accepted[i]].handle == s.ops[s.accepted[j]].handle
        ensures s.turns[s.accepted[i]] < s.turns[s.accepted[j]]
      {
        assert !LaterFirst(s, j, s.accepted[j]);
      }
    }
  }

  ghost predicate NoOvertaking<T>(s: Sys<T>, run: seq<Action<T>>)
    requires Inv(s) && LegalRun(s, run)
    decreases |run|
  {
    run != [] ==>
      !Overtakes(s, run[0]) && (ProtocolInvariant.StepKeeps(s, run[0]); NoOvertaking(Step(s, run[0]), run[1..]))
  }

  /** In particular, without overtaking nothing is out of place. */
  lemma {:induction false} NoOvertakingNoLate<T>(s: Sys<T>, run: seq<Action<T>>)
    requires Inv(s) && LegalRun(s, run) && NoOvertaking(s, run)
    ensures LateSends(s, run, {}) == {}
    decreases |run|
  {
    hide Inv, Step, Legal, Overtakes, Completes;
    if run != [] {
      ProtocolInvariant.StepKeeps(s, run[0]);
      NoOvertakingNoLate(Step(s, run[0]), run[1..]);
    }
  }
}
