/** `sync_orderbook` over all exchanges of a driver: every snapshot is loaded before any
    websocket buffer is moved. */
module SyncModel {
  import opened DepthPools
  import opened Ingest
  import opened StreamModel
  import opened SnapshotModel
  import SnapshotTheorems
  import opened Ownership

  datatype Synced = Synced(world: World, outcome: Outcome)

  ghost predicate NothingUnread(w: World) {
    |w.unread| == |w.streams| && forall i :: 0 <= i < |w.unread| ==> w.unread[i] == []
  }

  // ----- each run of one stream is balanced -----

  lemma {:induction false} PushSnapshotBalanced(e: Env, slots: seq<DepthSlot>, arrivals: seq<seq<Item>>,
                                                     rest: multiset<DepthSlot>)
    requires EnvOk(e) && Balanced(e, rest + multiset(slots))
    ensures PushSnapshot(e, slots, arrivals).outcome == Done ==> Balanced(PushSnapshot(e, slots, arrivals).env, rest)
    ensures PushSnapshot(e, slots, arrivals).env.pool.id == e.pool.id
    decreases |slots|
  {
    if slots == [] {
      assert rest + multiset(slots) == rest;
    } else if |e.stream.depthUpdateBuffer| < DEPTH_BUFFER_SIZE {
      assert slots == [slots[0]] + slots[1..];
      PushHold(e, slots[0]);
      var next := Arrive(PushUpdate(e, slots[0]), Head(arrivals));
      assert Balanced(next, rest + multiset(slots[1..])) by {
        assert multiset(slots) == multiset{slots[0]} + multiset(slots[1..]);
        assert EnvHold(next) == EnvHold(e) + multiset{slots[0]};
      }
      PollBalanced(next, rest + multiset(slots[1..]));
      SnapshotTheorems.PollKeepsFrame(next, slots[0]);
      PushSnapshotBalanced(PollNext(next).env, slots[1..], Tail(arrivals), rest);
    }
  }

  lemma RunSnapshotBalanced(e: Env, pull: Pull, arrivals: seq<seq<Item>>, rest: multiset<DepthSlot>)
    requires EnvOk(e) && Balanced(e, rest)
    ensures
      var run := RunSnapshot(e, pull, arrivals);
      run.env.pool.id == e.pool.id && (run.outcome != Panicked ==> Balanced(run.env, rest))
  {
    PulledLive(e.pool, e.stream.exchange, pull);
    PullKeeps(e.pool, e.stream.exchange, pull, e.stream.buffer);
    var slots := Pulls(e.pool, e.stream.exchange, pull);
    var start := BufferingOn(e).(pool := PullDepths(e.pool, e.stream.exchange, pull).pool);
    LastGains(EnvHold(e), rest, multiset(slots));
    assert Balanced(start, rest + multiset(slots));
    if PullDepths(e.pool, e.stream.exchange, pull).result.Ok? {
      SnapshotTheorems.NeverFails(start, slots, arrivals);
      PushSnapshotBalanced(start, slots, arrivals, rest);
    } else {
      assert rest + multiset(slots) == rest;
    }
  }

  lemma RunConserves(w: World, i: nat, pull: Pull, arrivals: seq<seq<Item>>)
    requires WorldInv(w) && i < |w.streams|
    ensures
      StreamOk(w.streams[i]) && EnvOk(EnvOf(w, i))
    ensures
      var run := RunSnapshot(EnvOf(w, i), pull, arrivals);
      run.outcome != Panicked ==> WorldInv(WithEnv(w, i, run.env))
  {
    StreamBalanced(w, i);
    BalancedOk(EnvOf(w, i), Rest(w, i));
    RunSnapshotBalanced(EnvOf(w, i), pull, arrivals, Rest(w, i));
    var run := RunSnapshot(EnvOf(w, i), pull, arrivals);
    if run.outcome != Panicked {
      EnvKeeps(w, i, run.env);
    }
  }

  // ----- the two passes -----

  ghost function SnapshotPass(w: World, i: nat, pulls: seq<Pull>, arrivals: seq<seq<seq<Item>>>): (s: Synced)
    requires WorldInv(w) && i <= |w.streams| == |pulls| == |arrivals|
    ensures |s.world.streams| == |w.streams|
    ensures s.outcome != Panicked ==> WorldInv(s.world)
    decreases |w.streams| - i
  {
    if i == |w.streams| then Synced(w, Done)
    else
      RunConserves(w, i, pulls[i], arrivals[i]);
      var run := RunSnapshot(EnvOf(w, i), pulls[i], arrivals[i]);
      var next := WithEnv(w, i, run.env);
      if run.outcome == Done then SnapshotPass(next, i + 1, pulls, arrivals) else Synced(next, run.outcome)
  }

  function BufferPass(w: World, i: nat): (s: Synced)
    requires i <= |w.streams|
    ensures |s.world.streams| == |w.streams|
    decreases |w.streams| - i
  {
    if i == |w.streams| then Synced(w, Done)
    else
      var run := PushBuffered(EnvOf(w, i));
      var next := WithEnv(w, i, run.env);
      if run.outcome == Done then BufferPass(next, i + 1) else Synced(next, run.outcome)
  }

  ghost function SyncOrderbook(w: World, pulls: seq<Pull>, arrivals: seq<seq<seq<Item>>>): Synced
    requires WorldInv(w) && |w.streams| == |pulls| == |arrivals|
  {
    var loaded := SnapshotPass(w, 0, pulls, arrivals);
    if loaded.outcome == Done then BufferPass(loaded.world, 0) else loaded
  }
}
