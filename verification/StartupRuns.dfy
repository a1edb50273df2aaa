/** `sync_orderbook` in one go is one of the runs of the world, so all that holds of runs holds
    of it. */
module StartupRuns {
  import opened DepthPools
  import opened Ingest
  import opened StreamModel
  import opened SnapshotModel
  import opened Ownership
  import OwnershipTheorems
  import opened SyncModel

  ghost predicate StepsLead(w: World, run: seq<Step>, t: World) {
    WorldInv(w) && OwnershipTheorems.LegalSteps(w, run) && OwnershipTheorems.TakeAll(w, run) == t
  }

  lemma FirstStep(w: World, step: Step, run: seq<Step>, t: World)
    requires WorldInv(w) && Enabled(w, step) && StepsLead(Take(w, step), run, t)
    ensures StepsLead(w, [step] + run, t)
  {
    StepConserves(w, step);
    assert ([step] + run)[1..] == run;
  }

  lemma StepsLeadTail(w: World, run: seq<Step>, t: World)
    requires StepsLead(w, run, t) && run != []
    ensures Enabled(w, run[0]) && StepsLead(Take(w, run[0]), run[1..], t)
  {
    StepConserves(w, run[0]);
  }

  lemma {:induction false} StepsLeadOn(w: World, first: seq<Step>, t: World, second: seq<Step>, u: World)
    requires StepsLead(w, first, t) && StepsLead(t, second, u)
    ensures StepsLead(w, first + second, u)
    decreases |first|
  {
    hide Take, WorldInv, Enabled;
    if first == [] {
      assert first + second == second;
    } else {
      StepsLeadTail(w, first, t);
      StepsLeadOn(Take(w, first[0]), first[1..], t, second, u);
      FirstStep(w, first[0], first[1..] + second, u);
      assert [first[0]] + (first[1..] + second) == first + second;
    }
  }

  // ----- one stream -----

  function PushSteps(i: nat, n: nat, arrivals: seq<seq<Item>>): seq<Step> {
    if n == 0 then []
    else [PushUnread(i)] + ([Arrivals(i, Head(arrivals))] + ([Poll(i)] + PushSteps(i, n - 1, Tail(arrivals))))
  }

  function LoadSteps(i: nat, pull: Pull, n: nat, arrivals: seq<seq<Item>>): seq<Step> {
    [Buffering(i, true)] + ([PullSnapshot(i, pull)] + PushSteps(i, n, arrivals))
  }

  function MoveSteps(i: nat, n: nat): seq<Step> {
    if n == 0 then [Buffering(i, false)] else [MoveBuffered(i)] + MoveSteps(i, n - 1)
  }

  /** Stream `i` and what it shares become `e`, and it has used up its snapshot. */
  function UsedUp(w: World, i: nat, e: Env): World
    requires i < |w.streams| && i < |w.unread|
  {
    WithEnv(w, i, e).(unread := w.unread[i := []])
  }

  // The worlds after one step, spelled out.

  function Pushed(w: World, i: nat): World
    requires i < |w.streams| && i < |w.unread| && w.unread[i] != []
  {
    WithEnv(w, i, PushUpdate(EnvOf(w, i), w.unread[i][0])).(unread := w.unread[i := w.unread[i][1..]])
  }

  function Arrived(w: World, i: nat, items: seq<Item>): World
    requires i < |w.streams|
  {
    WithEnv(w, i, Arrive(EnvOf(w, i), items))
  }

  function PolledOnce(w: World, i: nat): World
    requires i < |w.streams| && EnvOk(EnvOf(w, i))
  {
    WithEnv(w, i, PollNext(EnvOf(w, i)).env)
  }

  function Switched(w: World, i: nat, on: bool): World
    requires i < |w.streams|
  {
    WithEnv(w, i, EnvOf(w, i).(stream := w.streams[i].(bufferWebsocketDepths := on)))
  }

  function MovedOnce(w: World, i: nat): World
    requires i < |w.streams| && w.streams[i].websocketDepthBuffer != []
  {
    WithEnv(w, i, EnvOf(w, i).(stream := MoveNewest(w.streams[i])))
  }

  ghost predicate Goes(w: World, step: Step, t: World) {
    WorldInv(w) && WorldInv(t) && Enabled(w, step) && Take(w, step) == t
  }

  lemma PushGoes(w: World, i: nat)
    requires WorldInv(w) && Enabled(w, PushUnread(i))
    ensures Goes(w, PushUnread(i), Pushed(w, i))
  {
    StepConserves(w, PushUnread(i));
  }

  lemma ArriveGoes(w: World, i: nat, items: seq<Item>)
    requires WorldInv(w) && i < |w.streams|
    ensures Goes(w, Arrivals(i, items), Arrived(w, i, items))
  {
    StepConserves(w, Arrivals(i, items));
  }

  lemma PollGoes(w: World, i: nat)
    requires WorldInv(w) && i < |w.streams|
    ensures EnvOk(EnvOf(w, i)) && Goes(w, Poll(i), PolledOnce(w, i))
  {
    StepConserves(w, Poll(i));
    PollEnvKeeps(w, i);
    assert Take(w, Poll(i)) == PolledOnce(w, i);
  }

  lemma SwitchGoes(w: World, i: nat, on: bool)
    requires WorldInv(w) && i < |w.streams|
    ensures Goes(w, Buffering(i, on), Switched(w, i, on))
  {
    StepConserves(w, Buffering(i, on));
  }

  lemma MoveGoes(w: World, i: nat)
    requires WorldInv(w) && Enabled(w, MoveBuffered(i))
    ensures Goes(w, MoveBuffered(i), MovedOnce(w, i))
  {
    StepConserves(w, MoveBuffered(i));
  }

  lemma GoesOn(w: World, step: Step, t: World, run: seq<Step>, u: World)
    requires Goes(w, step, t) && StepsLead(t, run, u)
    ensures StepsLead(w, [step] + run, u)
  {
    FirstStep(w, step, run, u);
  }

  /** One turn of the snapshot loop, as its stream sees it. */
  lemma PushTurn(w: World, i: nat, arrivals: seq<seq<Item>>, e: Env)
    requires i < |w.streams| && i < |w.unread| && w.unread[i] != []
    requires |w.streams[i].depthUpdateBuffer| < DEPTH_BUFFER_SIZE && EnvOk(EnvOf(w, i))
    ensures
      var arrived := Arrived(Pushed(w, i), i, Head(arrivals));
      && EnvOk(EnvOf(arrived, i))
      && var polled := PolledOnce(arrived, i);
         && polled.unread == w.unread[i := w.unread[i][1..]] && |polled.streams| == |w.streams|
         && EnvOk(EnvOf(polled, i)) && UsedUp(polled, i, e) == UsedUp(w, i, e)
         && PushSnapshot(EnvOf(w, i), w.unread[i], arrivals)
            == PushSnapshot(EnvOf(polled, i), polled.unread[i], Tail(arrivals))
  {
    var arrived := Arrived(Pushed(w, i), i, Head(arrivals));
    assert EnvOf(arrived, i) == Arrive(PushUpdate(EnvOf(w, i), w.unread[i][0]), Head(arrivals));
    assert EnvOf(PolledOnce(arrived, i), i) == PollNext(EnvOf(arrived, i)).env;
  }

  lemma {:induction false} PushIsRun(w: World, i: nat, arrivals: seq<seq<Item>>)
    requires WorldInv(w) && i < |w.streams|
    ensures EnvOk(EnvOf(w, i))
    ensures
      var run := PushSnapshot(EnvOf(w, i), w.unread[i], arrivals);
      run.outcome == Done ==> StepsLead(w, PushSteps(i, |w.unread[i]|, arrivals), UsedUp(w, i, run.env))
    decreases |w.unread[i]|
  {
    hide PoolOk, AllLiveOnce, PollNext, Holdings;
    StreamBalanced(w, i);
    BalancedOk(EnvOf(w, i), Rest(w, i));
    var slots := w.unread[i];
    var run := PushSnapshot(EnvOf(w, i), slots, arrivals);
    if slots == [] {
      assert UsedUp(w, i, EnvOf(w, i)) == w;
    } else if |w.streams[i].depthUpdateBuffer| < DEPTH_BUFFER_SIZE {
      PushTurn(w, i, arrivals, run.env);
      var pushed := Pushed(w, i);
      var arrived := Arrived(pushed, i, Head(arrivals));
      var polled := PolledOnce(arrived, i);
      PushGoes(w, i);
      ArriveGoes(pushed, i, Head(arrivals));
      PollGoes(arrived, i);
      PushIsRun(polled, i, Tail(arrivals));
      if run.outcome == Done {
        var rest := PushSteps(i, |slots| - 1, Tail(arrivals));
        var end := UsedUp(w, i, run.env);
        GoesOn(arrived, Poll(i), polled, rest, end);
        GoesOn(pushed, Arrivals(i, Head(arrivals)), arrived, [Poll(i)] + rest, end);
        GoesOn(w, PushUnread(i), pushed, [Arrivals(i, Head(arrivals))] + ([Poll(i)] + rest), end);
      }
    }
  }

  function AfterPull(w: World, i: nat, pull: Pull): World
    requires PoolOk(w.pool) && i < |w.streams| && i < |w.unread|
  {
    var exchange := w.streams[i].exchange;
    w.(pool := PullDepths(w.pool, exchange, pull).pool, unread := w.unread[i := Pulls(w.pool, exchange, pull)])
  }

  lemma PullGoes(w: World, i: nat, pull: Pull)
    requires WorldInv(w) && i < |w.streams| && w.unread[i] == []
    ensures Goes(w, PullSnapshot(i, pull), AfterPull(w, i, pull))
  {
    StepConserves(w, PullSnapshot(i, pull));
  }

  lemma LoadTurn(w: World, i: nat, pull: Pull, arrivals: seq<seq<Item>>, e: Env)
    requires i < |w.streams| && i < |w.unread| && w.unread[i] == [] && EnvOk(EnvOf(w, i))
    requires RunSnapshot(EnvOf(w, i), pull, arrivals).outcome == Done
    ensures
      var slots := Pulls(w.pool, w.streams[i].exchange, pull);
      var pulled := AfterPull(Switched(w, i, true), i, pull);
      && pulled.unread[i] == slots && EnvOk(EnvOf(pulled, i))
      && UsedUp(pulled, i, e) == WithEnv(w, i, e)
      && RunSnapshot(EnvOf(w, i), pull, arrivals) == PushSnapshot(EnvOf(pulled, i), slots, arrivals)
  {
    PullKeeps(w.pool, w.streams[i].exchange, pull, w.streams[i].buffer);
    var pulled := AfterPull(Switched(w, i, true), i, pull);
    assert w.unread[i := []] == w.unread;
    assert EnvOf(pulled, i) == BufferingOn(EnvOf(w, i)).(pool := PullDepths(w.pool, w.streams[i].exchange, pull).pool);
  }

  /** A completed `run_snapshot` is a run of the steps of its stream. */
  lemma SnapshotIsRun(w: World, i: nat, pull: Pull, arrivals: seq<seq<Item>>)
    requires WorldInv(w) && i < |w.streams| && w.unread[i] == []
    ensures EnvOk(EnvOf(w, i))
    ensures
      var run := RunSnapshot(EnvOf(w, i), pull, arrivals);
      var n := |Pulls(w.pool, w.streams[i].exchange, pull)|;
      run.outcome == Done ==> StepsLead(w, LoadSteps(i, pull, n, arrivals), WithEnv(w, i, run.env))
  {
    StreamBalanced(w, i);
    BalancedOk(EnvOf(w, i), Rest(w, i));
    var run := RunSnapshot(EnvOf(w, i), pull, arrivals);
    if run.outcome == Done {
      var on := Switched(w, i, true);
      var pulled := AfterPull(on, i, pull);
      var end := WithEnv(w, i, run.env);
      LoadTurn(w, i, pull, arrivals, run.env);
      SwitchGoes(w, i, true);
      PullGoes(on, i, pull);
      PushIsRun(pulled, i, arrivals);
      var rest := PushSteps(i, |pulled.unread[i]|, arrivals);
      GoesOn(on, PullSnapshot(i, pull), pulled, rest, end);
      GoesOn(w, Buffering(i, true), on, [PullSnapshot(i, pull)] + rest, end);
    }
  }

  lemma MoveTurn(w: World, i: nat, e: Env)
    requires i < |w.streams| && w.streams[i].websocketDepthBuffer != []
    requires |w.streams[i].depthUpdateBuffer| < DEPTH_BUFFER_SIZE
    ensures PushBuffered(EnvOf(w, i)) == PushBuffered(EnvOf(MovedOnce(w, i), i))
    ensures WithEnv(MovedOnce(w, i), i, e) == WithEnv(w, i, e)
  {}

  lemma {:induction false} MoveIsRun(w: World, i: nat)
    requires WorldInv(w) && i < |w.streams|
    ensures
      var run := PushBuffered(EnvOf(w, i));
      run.outcome == Done ==>
        StepsLead(w, MoveSteps(i, |w.streams[i].websocketDepthBuffer|), WithEnv(w, i, run.env))
    decreases |w.streams[i].websocketDepthBuffer|
  {
    var n := |w.streams[i].websocketDepthBuffer|;
    var run := PushBuffered(EnvOf(w, i));
    if run.outcome == Done {
      var end := WithEnv(w, i, run.env);
      if n == 0 {
        SwitchGoes(w, i, false);
        assert StepsLead(end, [], end);
        GoesOn(w, Buffering(i, false), end, [], end);
        assert [Buffering(i, false)] + [] == MoveSteps(i, 0);
      } else {
        var next := MovedOnce(w, i);
        MoveTurn(w, i, run.env);
        MoveGoes(w, i);
        MoveIsRun(next, i);
        GoesOn(w, MoveBuffered(i), next, MoveSteps(i, n - 1), end);
      }
    }
  }

  // ----- all streams -----

  lemma {:induction false} SnapshotPassIsRun(w: World, i: nat, pulls: seq<Pull>, arrivals: seq<seq<seq<Item>>>)
    requires WorldInv(w) && NothingUnread(w) && i <= |w.streams| == |pulls| == |arrivals|
    ensures
      var s := SnapshotPass(w, i, pulls, arrivals);
      s.outcome == Done ==> exists run :: StepsLead(w, run, s.world)
    decreases |w.streams| - i
  {
    var s := SnapshotPass(w, i, pulls, arrivals);
    if i == |w.streams| {
      assert StepsLead(w, [], w);
    } else if s.outcome == Done {
      RunConserves(w, i, pulls[i], arrivals[i]);
      SnapshotIsRun(w, i, pulls[i], arrivals[i]);
      var next := WithEnv(w, i, RunSnapshot(EnvOf(w, i), pulls[i], arrivals[i]).env);
      SnapshotPassIsRun(next, i + 1, pulls, arrivals);
      var rest :| StepsLead(next, rest, s.world);
      var first := LoadSteps(i, pulls[i], |Pulls(w.pool, w.streams[i].exchange, pulls[i])|, arrivals[i]);
      StepsLeadOn(w, first, next, rest, s.world);
    }
  }

  lemma {:induction false} BufferPassIsRun(w: World, i: nat)
    requires WorldInv(w) && i <= |w.streams|
    ensures
      var s := BufferPass(w, i);
      s.outcome == Done ==> exists run :: StepsLead(w, run, s.world)
    decreases |w.streams| - i
  {
    var s := BufferPass(w, i);
    if i == |w.streams| {
      assert StepsLead(w, [], w);
    } else if s.outcome == Done {
      MoveIsRun(w, i);
      var next := WithEnv(w, i, PushBuffered(EnvOf(w, i)).env);
      BufferPassIsRun(next, i + 1);
      var rest :| StepsLead(next, rest, s.world);
      StepsLeadOn(w, MoveSteps(i, |w.streams[i].websocketDepthBuffer|), next, rest, s.world);
    }
  }

  /** A completed `sync_orderbook` is a legal run of the world. */
  lemma SyncIsRun(w: World, pulls: seq<Pull>, arrivals: seq<seq<seq<Item>>>)
    requires WorldInv(w) && NothingUnread(w) && |w.streams| == |pulls| == |arrivals|
    ensures
      var s := SyncOrderbook(w, pulls, arrivals);
      s.outcome == Done ==> exists run :: StepsLead(w, run, s.world)
  {
    var loaded := SnapshotPass(w, 0, pulls, arrivals);
    var s := SyncOrderbook(w, pulls, arrivals);
    if s.outcome == Done {
      SnapshotPassIsRun(w, 0, pulls, arrivals);
      BufferPassIsRun(loaded.world, 0);
      var first :| StepsLead(w, first, loaded.world);
      var second :| StepsLead(loaded.world, second, s.world);
      StepsLeadOn(w, first, loaded.world, second, s.world);
    }
  }
}
