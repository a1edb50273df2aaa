/** Exchange 2 in runs of the world: what `ExchangeTwo` asks of a stream holds in every reachable
    state, and a run from a newly built driver loads a websocket depth before a snapshot depth. */
module ExchangeTwoRuns {
  import opened Prelude
  import opened DepthPools
  import opened Ingest
  import opened StreamModel
  import opened PollFold
  import opened SnapshotModel
  import SnapshotTheorems
  import opened Ownership
  import opened OwnershipTheorems
  import InterleavedStartup
  import StartupRuns
  import opened ExchangeTwo

  lemma StepKeepsTwo(w: World, step: Step, i: nat)
    requires WorldInv(w) && Enabled(w, step) && i < |w.streams|
    requires w.streams[i].exchange == 2 && w.streams[i].buffer == []
    ensures |Take(w, step).streams| == |w.streams|
    ensures Take(w, step).streams[i].exchange == 2 && Take(w, step).streams[i].buffer == []
  {
    StepSameSize(w, step);
    if step == Poll(i) {
      StreamBalanced(w, i);
      BalancedOk(EnvOf(w, i), Rest(w, i));
      PollSees(EnvOf(w, i));
    }
  }

  lemma {:induction false} RunKeepsTwo(w: World, run: seq<Step>, i: nat)
    requires WorldInv(w) && LegalSteps(w, run) && i < |w.streams|
    requires w.streams[i].exchange == 2 && w.streams[i].buffer == []
    ensures |TakeAll(w, run).streams| == |w.streams| && TakeAll(w, run).streams[i].buffer == []
    decreases |run|
  {
    if run != [] {
      StepConserves(w, run[0]);
      StepKeepsTwo(w, run[0], i);
      RunKeepsTwo(Take(w, run[0]), run[1..], i);
    }
  }

  /** Whatever the streams, the reader and other producers have done: a stream of exchange 2 has
      an empty outgoing buffer, and the slots in its update buffer are live. */
  lemma ReachedTwo(init: World, run: seq<Step>, t: World, i: nat)
    requires Reached(init, run, t) && i < |t.streams| && t.streams[i].exchange == 2
    ensures Two(EnvOf(t, i)) && AllHeld(t.pool, t.streams[i].depthUpdateBuffer)
  {
    InitialHolds(init);
    RunStaysSized(init, run);
    RunKeepsTwo(init, run, i);
    StreamBalanced(t, i);
    BalancedOk(EnvOf(t, i), Rest(t, i));
    var u := t.streams[i].depthUpdateBuffer;
    forall k | 0 <= k < |u|
      ensures IsLive(t.pool, u[k])
    {
      InterleavedStartup.BacklogLive(t, i, u[k]);
    }
  }

  // ----- a websocket depth before a snapshot depth -----

  /** A driver with one stream, of exchange 2, and an archiver that stores everything. */
  ghost function SampleWorld(): World {
    World(Pool(0, _ => true, seq(14000, _ => None), seq(14000, i => i)), Sink(DEPTH_CHANNEL_SIZE, [], Open), [],
          NewStreams([2]), [[]])
  }

  lemma SampleBuilt()
    ensures DriverBuilt(SampleWorld(), [2])
  {
    var p := SampleWorld().pool;
    forall c | 0 <= c < |p.cells|
      ensures c in p.free
    {
      assert p.free[c] == c;
    }
  }

  function SampleLevels(): seq<Level> {
    [Level(0, 100, 7), Level(0, 101, 8), Level(1, 102, 9)]
  }

  function SampleSnapshot(): Book {
    Book(SampleLevels(), true)
  }

  function SampleUpdate(): Level {
    Level(1, 103, 5)
  }

  /** The first frame of the connection, then one text, then nothing. */
  function SampleArrivals(): seq<seq<Item>> {
    [[Frame(OtherMessage)], [Frame(Text(Book([SampleUpdate()], true)))], []]
  }

  /** What is loaded: two depths of the snapshot, the websocket depth, the last of the snapshot. */
  function SampleLoaded(): seq<Depth> {
    [Depth(Level(0, 100, 7), 2, true), Depth(Level(0, 101, 8), 2, true), Depth(Level(1, 103, 5), 1, false),
     Depth(Level(1, 102, 9), 2, true)]
  }

  lemma SampleTurns(archives: Depth -> bool, free: nat)
    requires free >= 3 && forall d :: archives(d)
    ensures
      var v := View(2, true, 0, [], 1000, free);
      && Turn(archives, v, SampleArrivals()[0]) == (View(2, true, 1, [], 999, free), [])
      && Turn(archives, View(2, true, 1, [], 999, free), SampleArrivals()[1])
         == (View(2, true, 1, [], 997, free - 1), [Depth(SampleUpdate(), 1, false)])
      && Turn(archives, View(2, true, 1, [], 997, free - 1), SampleArrivals()[2])
         == (View(2, true, 1, [], 996, free - 1), [])
  {
    var ws := Depth(SampleUpdate(), 1, false);
    assert Depths([SampleUpdate()], 1, false) == [ws];
    var items := SampleArrivals()[1];
    assert [] + items == items && items[1..] == [];
    var v, first := View(2, true, 0, [], 1000, free), SampleArrivals()[0];
    assert [] + first == first && first[1..] == [];
    assert Fold(archives, v.(room := 999, inbox := first)) == Folded(View(2, true, 1, [], 999, free), [], Success);
    var none: seq<Item> := [];
    assert none + SampleArrivals()[2] == none;
    var full := View(2, true, 1, items, 998, free);
    assert See(archives, items[0].message, Fitting(full.room, full.free)) == Accept([ws]);
    var rest := full.(inbox := items[1..]);
    assert Less(rest, 1) == View(2, true, 1, [], 997, free - 1);
    assert Fold(archives, Less(rest, 1)) == Folded(Less(rest, 1), [], WaitingForDepth);
    assert Fold(archives, full) == Folded(Less(rest, 1), [ws] + [], WaitingForDepth);
    assert View(2, true, 1, none, 999, free).(room := 998, inbox := none + items) == full;
    assert [ws] + [] == [ws];
  }

  lemma SampleWoven(archives: Depth -> bool, free: nat)
    requires free >= 3 && forall d :: archives(d)
    ensures
      var v := View(2, true, 0, [], 1000, free);
      var depths := Depths(SampleSnapshot().levels, 2, true);
      && Load(archives, v, 3, SampleArrivals()).Some?
      && Woven(archives, v, depths, SampleArrivals()) == SampleLoaded()
  {
    hide Fold, Turn;
    SampleTurns(archives, free);
    var arrivals := SampleArrivals();
    var depths := Depths(SampleSnapshot().levels, 2, true);
    var v1 := View(2, true, 1, [], 999, free);
    var v2, v3 := View(2, true, 1, [], 997, free - 1), View(2, true, 1, [], 996, free - 1);
    var first, second, third := depths[0], depths[1], depths[2];
    assert depths == [first, second, third] && depths[1..] == [second, third] && depths[1..][1..] == [third];
    assert Tail(arrivals) == arrivals[1..] && Tail(Tail(arrivals)) == [arrivals[2]];
    assert Load(archives, v2, 1, Tail(Tail(arrivals))) == Load(archives, v3, 0, []);
    assert Woven(archives, v3, [], []) == [];
    assert Woven(archives, v2, [third], Tail(Tail(arrivals))) == [third];
    assert Woven(archives, v1, [second, third], Tail(arrivals)) == [second, Depth(SampleUpdate(), 1, false), third];
  }

  ghost predicate LoadedSample(t: World) {
    && |t.streams| == |t.unread| == 1 && t.unread[0] == []
    && SnapshotTheorems.ReadBack(t.pool, t.streams[0].depthUpdateBuffer) == SnapshotTheorems.Somes(SampleLoaded())
  }

  /** The world once its one stream has connected. */
  function Connect(w: World): World
    requires |w.streams| == 1
  {
    w.(streams := [w.streams[0].(connected := true)])
  }

  lemma SampleRuns(e: Env)
    requires Two(e) && e.stream == Stream(2, true, 0, false, [], [], [], [])
    requires |e.pool.free| >= 1000 && forall d :: e.pool.archives(d)
    ensures
      var run := RunSnapshot(e, Body(SampleSnapshot()), SampleArrivals());
      && run.outcome == Done
      && SnapshotTheorems.ReadBack(run.env.pool, run.env.stream.depthUpdateBuffer)
         == SnapshotTheorems.Somes(SampleLoaded())
  {
    hide PoolOk, AllLiveOnce, RunSnapshot, Load, Woven, Between;
    SnapshotFirstExactly(e, SampleSnapshot(), SampleArrivals());
    SampleWoven(e.pool.archives, |e.pool.free| - 3);
    assert PulledView(e, 3) == View(2, true, 0, [], 1000, |e.pool.free| - 3);
    assert SnapshotTheorems.ReadBack(e.pool, []) == [];
  }

  lemma StartsUp(w: World) returns (load: seq<Step>)
    requires WorldInv(w) && w.streams == [Stream(2, true, 0, false, [], [], [], [])] && w.unread == [[]]
    requires |w.pool.free| >= 1000 && forall d :: w.pool.archives(d)
    ensures EnvOk(EnvOf(w, 0))
    ensures
      var run := RunSnapshot(EnvOf(w, 0), Body(SampleSnapshot()), SampleArrivals());
      var t := WithEnv(w, 0, run.env);
      run.outcome == Done && StartupRuns.StepsLead(w, load, t) && LoadedSample(t)
  {
    hide WorldInv, PoolOk, AllLiveOnce, RunSnapshot, SnapshotTheorems.ReadBack, SnapshotTheorems.Somes;
    StreamBalanced(w, 0);
    BalancedOk(EnvOf(w, 0), Rest(w, 0));
    SampleRuns(EnvOf(w, 0));
    StartupRuns.SnapshotIsRun(w, 0, Body(SampleSnapshot()), SampleArrivals());
    var n := |Pulls(w.pool, 2, Body(SampleSnapshot()))|;
    load := StartupRuns.LoadSteps(0, Body(SampleSnapshot()), n, SampleArrivals());
  }

  /** So for exchange 2 a websocket depth can come before a snapshot depth: a driver is built for
      it and connects, and what its `run_snapshot` then leaves is a reachable state. */
  lemma SnapshotNotFirst(w: World)
    requires DriverBuilt(w, [2]) && forall d :: w.pool.archives(d)
    ensures |w.streams| == 1 && EnvOk(EnvOf(Connect(w), 0))
    ensures
      var run := RunSnapshot(EnvOf(Connect(w), 0), Body(SampleSnapshot()), SampleArrivals());
      var t := WithEnv(Connect(w), 0, run.env);
      run.outcome == Done && LoadedSample(t) && exists steps :: Reached(w, steps, t)
  {
    InitialHolds(w);
    LiveCount(w.pool);
    var step := Connection(0, true);
    StepConserves(w, step);
    assert Take(w, step) == Connect(w);
    assert Connect(w).streams == [Stream(2, true, 0, false, [], [], [], [])] && w.unread == [[]];
    var load := StartsUp(Connect(w));
    var t := WithEnv(Connect(w), 0, RunSnapshot(EnvOf(Connect(w), 0), Body(SampleSnapshot()), SampleArrivals()).env);
    StartupRuns.FirstStep(w, step, load, t);
    assert Reached(w, [step] + load, t);
  }
}
