/** What a completed start-up of the whole driver leaves behind, stream by stream, although all
    streams share one pool and one channel. */
module SyncTheorems {
  import opened Prelude
  import opened DepthPools
  import opened Ingest
  import opened StreamModel
  import opened SnapshotModel
  import opened SnapshotTheorems
  import opened Ownership
  import opened SyncModel

  // ----- the passes, turn by turn -----

  lemma PassEnds(w: World, pulls: seq<Pull>, arrivals: seq<seq<seq<Item>>>)
    requires WorldInv(w) && |w.streams| == |pulls| == |arrivals|
    ensures SnapshotPass(w, |w.streams|, pulls, arrivals) == Synced(w, Done)
  {}

  lemma BufferPassEnds(w: World)
    ensures BufferPass(w, |w.streams|) == Synced(w, Done)
  {}

  lemma SnapshotStep(w: World, i: nat, pulls: seq<Pull>, arrivals: seq<seq<seq<Item>>>)
    requires WorldInv(w) && i < |w.streams| == |pulls| == |arrivals|
    ensures
      && EnvOk(EnvOf(w, i))
      && var run := RunSnapshot(EnvOf(w, i), pulls[i], arrivals[i]);
         var next := WithEnv(w, i, run.env);
         if run.outcome == Done then
           WorldInv(next) && SnapshotPass(w, i, pulls, arrivals) == SnapshotPass(next, i + 1, pulls, arrivals)
         else SnapshotPass(w, i, pulls, arrivals) == Synced(next, run.outcome)
  {
    RunConserves(w, i, pulls[i], arrivals[i]);
  }

  // ----- no slot is in two streams -----

  lemma {:induction false} StreamsHave(streams: seq<Stream>, k: nat, slot: DepthSlot)
    requires k < |streams| && slot in StreamHold(streams[k])
    ensures slot in StreamsHold(streams)
  {
    if k != 0 {
      StreamsHave(streams[1..], k - 1, slot);
    }
  }

  lemma ElsewhereHas(w: World, i: nat, k: nat, slot: DepthSlot)
    requires i < |w.streams| && k < |w.streams| && i != k && slot in StreamHold(w.streams[k])
    ensures slot in Rest(w, i)
  {
    hide Own, UnreadHold, StreamHold;
    if k < i {
      StreamsHave(w.streams[..i], k, slot);
    } else {
      StreamsHave(w.streams[i + 1..], k - i - 1, slot);
    }
  }

  lemma Apart(w: World, i: nat, k: nat, slot: DepthSlot)
    requires WorldInv(w) && i < |w.streams| && k < |w.streams| && i != k
    requires slot in w.streams[k].depthUpdateBuffer
    ensures slot !in w.streams[i].buffer
  {
    hide PoolOk, Live, Own, UnreadHold, StreamsHold;
    StreamBalanced(w, i);
    ElsewhereHas(w, i, k, slot);
    HeldOnce(w.pool, EnvHold(EnvOf(w, i)), Rest(w, i), slot);
    assert slot !in StreamHold(w.streams[i]);
  }

  lemma HeldOnce(p: Pool, here: multiset<DepthSlot>, there: multiset<DepthSlot>, slot: DepthSlot)
    requires multiset(Live(p)) == here + there && slot in there
    ensures slot !in here
  {
    assert multiset(Live(p))[slot] == here[slot] + there[slot];
  }

  // ----- the snapshot pass -----

  /** Start-up of another stream does not touch what stream `k` has loaded. */
  lemma OthersKeepLoaded(w: World, i: nat, pull: Pull, arrivals: seq<seq<Item>>, k: nat, depths: seq<Depth>)
    requires WorldInv(w) && i < |w.streams| && k < |w.streams| && i != k
    requires Loaded(w.streams[k], w.pool, depths)
    ensures EnvOk(EnvOf(w, i)) && Loaded(w.streams[k], RunSnapshot(EnvOf(w, i), pull, arrivals).env.pool, depths)
  {
    RunConserves(w, i, pull, arrivals);
    var u := w.streams[k].depthUpdateBuffer;
    forall j | 0 <= j < |u|
      ensures Kept(EnvOf(w, i), RunSnapshot(EnvOf(w, i), pull, arrivals).env, u[j]) && u[j] !in w.streams[i].buffer
    {
      RunKept(EnvOf(w, i), pull, arrivals, u[j]);
      Apart(w, i, k, u[j]);
    }
  }

  lemma {:induction false} PassKeepsLoaded(w: World, i: nat, pulls: seq<Pull>, arrivals: seq<seq<seq<Item>>>,
                                                k: nat, depths: seq<Depth>)
    requires WorldInv(w) && k < i <= |w.streams| == |pulls| == |arrivals|
    requires Loaded(w.streams[k], w.pool, depths)
    ensures
      var s := SnapshotPass(w, i, pulls, arrivals);
      s.outcome == Done ==> s.world.streams[k] == w.streams[k] && Loaded(w.streams[k], s.world.pool, depths)
    decreases |w.streams| - i
  {
    hide WorldInv, SnapshotPass, RunSnapshot, Loaded;
    if i == |w.streams| {
      PassEnds(w, pulls, arrivals);
    } else {
      SnapshotStep(w, i, pulls, arrivals);
      OthersKeepLoaded(w, i, pulls[i], arrivals[i], k, depths);
      var run := RunSnapshot(EnvOf(w, i), pulls[i], arrivals[i]);
      if run.outcome == Done {
        var next := WithEnv(w, i, run.env);
        assert next.streams[k] == w.streams[k] && next.pool == run.env.pool;
        PassKeepsLoaded(next, i + 1, pulls, arrivals, k, depths);
      }
    }
  }

  /** A completed snapshot pass has loaded the snapshot of each stream of exchange 1 that began
      with an empty update buffer. */
  lemma {:induction false} PassLoads(w: World, i: nat, pulls: seq<Pull>, arrivals: seq<seq<seq<Item>>>, k: nat)
    requires WorldInv(w) && i <= k < |w.streams| == |pulls| == |arrivals|
    requires w.streams[k].exchange == 1 && w.streams[k].depthUpdateBuffer == []
    ensures
      var s := SnapshotPass(w, i, pulls, arrivals);
      s.outcome == Done ==>
        && pulls[k].Body? && Loaded(s.world.streams[k], s.world.pool, Depths(pulls[k].book.levels, 1, true))
        && s.world.streams[k].websocketDepthBuffer == w.streams[k].websocketDepthBuffer
    decreases |w.streams| - i
  {
    RunConserves(w, i, pulls[i], arrivals[i]);
    var run := RunSnapshot(EnvOf(w, i), pulls[i], arrivals[i]);
    if run.outcome == Done {
      var next := WithEnv(w, i, run.env);
      if i < k {
        PassLoads(next, i + 1, pulls, arrivals, k);
      } else {
        SnapshotLoaded(EnvOf(w, i), pulls[i].book, arrivals[i]);
        PassKeepsLoaded(next, i + 1, pulls, arrivals, k, Depths(pulls[k].book.levels, 1, true));
      }
    }
  }

  // ----- the buffer pass -----

  lemma {:induction false} ReverseHold<X>(xs: seq<X>)
    ensures multiset(Reverse(xs)) == multiset(xs)
  {
    if xs != [] {
      ReverseHold(xs[1..]);
      assert xs == [xs[0]] + xs[1..];
    }
  }

  lemma MovedHold(s: Stream)
    ensures StreamHold(Moved(s)) == StreamHold(s)
  {
    ReverseHold(s.websocketDepthBuffer);
  }

  /** A completed buffer pass keeps the ownership of every slot. */
  lemma {:induction false} BufferPassKeeps(w: World, i: nat)
    requires WorldInv(w) && i <= |w.streams|
    ensures
      var s := BufferPass(w, i);
      && s.outcome != SnapshotError
      && (s.outcome == Done ==> WorldInv(s.world) && s.world.pool == w.pool && s.world.sink == w.sink)
    decreases |w.streams| - i
  {
    if i != |w.streams| {
      BufferedReversed(EnvOf(w, i));
      var run := PushBuffered(EnvOf(w, i));
      if run.outcome == Done {
        MoveKeeps(w, i);
        BufferPassKeeps(WithEnv(w, i, run.env), i + 1);
      }
    }
  }

  /** ... and has moved every stream's websocket buffer behind its update buffer. */
  lemma {:induction false} BufferPassMoves(w: World, i: nat, k: nat)
    requires i <= |w.streams| && k < |w.streams|
    requires forall j :: 0 <= j < |w.streams| ==> StreamOk(w.streams[j])
    ensures
      var s := BufferPass(w, i);
      s.outcome == Done ==> s.world.streams[k] == if k < i then w.streams[k] else Moved(w.streams[k])
    decreases |w.streams| - i
  {
    if i != |w.streams| {
      BufferedReversed(EnvOf(w, i));
      var run := PushBuffered(EnvOf(w, i));
      if run.outcome == Done {
        ReverseLength(w.streams[i].websocketDepthBuffer);
        BufferPassMoves(WithEnv(w, i, run.env), i + 1, k);
      }
    }
  }

  lemma MoveKeeps(w: World, i: nat)
    requires WorldInv(w) && i < |w.streams|
    requires |w.streams[i].depthUpdateBuffer| + |w.streams[i].websocketDepthBuffer| <= DEPTH_BUFFER_SIZE
    ensures WorldInv(WithEnv(w, i, EnvOf(w, i).(stream := Moved(w.streams[i]))))
  {
    StreamBalanced(w, i);
    MovedHold(w.streams[i]);
    ReverseLength(w.streams[i].websocketDepthBuffer);
    EnvKeeps(w, i, EnvOf(w, i).(stream := Moved(w.streams[i])));
  }

  lemma BufferStep(w: World, i: nat)
    requires WorldInv(w) && i < |w.streams|
    ensures
      && EnvOk(EnvOf(w, i))
      && var run := PushBuffered(EnvOf(w, i));
         var next := WithEnv(w, i, run.env);
         if run.outcome == Done then WorldInv(next) && BufferPass(w, i) == BufferPass(next, i + 1)
         else BufferPass(w, i) == Synced(next, run.outcome)
  {
    StreamBalanced(w, i);
    BalancedOk(EnvOf(w, i), Rest(w, i));
    BufferedReversed(EnvOf(w, i));
    if PushBuffered(EnvOf(w, i)).outcome == Done {
      MoveKeeps(w, i);
    }
  }

  // ----- both -----

  /** Snapshot first for the whole driver: once `sync_orderbook` is done, each stream of
      exchange 1 that began with an empty update buffer has there the depths of its snapshot, in
      order, and then the slots it had set aside, newest first; and no slot has been lost or is
      held twice, over all streams. */
  lemma SyncOrders(w: World, pulls: seq<Pull>, arrivals: seq<seq<seq<Item>>>)
    requires WorldInv(w) && |w.streams| == |pulls| == |arrivals|
    ensures
      var s := SyncOrderbook(w, pulls, arrivals);
      s.outcome == Done ==>
        && WorldInv(s.world) && |s.world.streams| == |w.streams|
        && forall k :: 0 <= k < |w.streams| && w.streams[k].exchange == 1 && w.streams[k].depthUpdateBuffer == [] ==>
             && pulls[k].Body?
             && SnapshotThenBuffered(w.streams[k], EnvOf(s.world, k), pulls[k].book.levels)
  {
    var loaded := SnapshotPass(w, 0, pulls, arrivals);
    if loaded.outcome == Done {
      BufferPassKeeps(loaded.world, 0);
      var s := BufferPass(loaded.world, 0);
      if s.outcome == Done {
        forall k | 0 <= k < |w.streams| && w.streams[k].exchange == 1 && w.streams[k].depthUpdateBuffer == []
          ensures pulls[k].Body?
          ensures SnapshotThenBuffered(w.streams[k], EnvOf(s.world, k), pulls[k].book.levels)
        {
          PassLoads(w, 0, pulls, arrivals, k);
          BufferPassMoves(loaded.world, 0, k);
          Arranged(loaded.world.streams[k], Run(EnvOf(s.world, k), Done), pulls[k].book.levels);
        }
      }
    }
  }

  lemma {:induction false} PassSetsAside(w: World, i: nat, pulls: seq<Pull>, arrivals: seq<seq<seq<Item>>>, k: nat)
    requires WorldInv(w) && i <= |w.streams| == |pulls| == |arrivals| && k < |w.streams|
    ensures
      SnapshotPass(w, i, pulls, arrivals).world.streams[k].websocketDepthBuffer == w.streams[k].websocketDepthBuffer
    decreases |w.streams| - i
  {
    if i != |w.streams| {
      RunConserves(w, i, pulls[i], arrivals[i]);
      RunFrame(EnvOf(w, i), pulls[i], arrivals[i]);
      var run := RunSnapshot(EnvOf(w, i), pulls[i], arrivals[i]);
      if run.outcome == Done {
        PassSetsAside(WithEnv(w, i, run.env), i + 1, pulls, arrivals, k);
      }
    }
  }

  /** All or none: if any stream's snapshot fails, `sync_orderbook` ends before a websocket
      buffer of any stream, also of those whose snapshot was loaded, has been moved. */
  lemma FailureMovesNothing(w: World, pulls: seq<Pull>, arrivals: seq<seq<seq<Item>>>)
    requires WorldInv(w) && |w.streams| == |pulls| == |arrivals|
    ensures
      var s := SyncOrderbook(w, pulls, arrivals);
      && |s.world.streams| == |w.streams|
      && (s.outcome == SnapshotError ==>
            && WorldInv(s.world)
            && forall k :: 0 <= k < |w.streams| ==>
                 s.world.streams[k].websocketDepthBuffer == w.streams[k].websocketDepthBuffer)
  {
    var loaded := SnapshotPass(w, 0, pulls, arrivals);
    if loaded.outcome == Done {
      BufferPassKeeps(loaded.world, 0);
    }
    forall k | 0 <= k < |w.streams|
      ensures loaded.world.streams[k].websocketDepthBuffer == w.streams[k].websocketDepthBuffer
    {
      PassSetsAside(w, 0, pulls, arrivals, k);
    }
  }
}
