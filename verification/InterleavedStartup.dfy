/** Start-up when everyone else keeps going: between any two steps of one stream, other streams,
    the reader and other producers may take theirs. */
module InterleavedStartup {
  import opened Prelude
  import opened DepthPools
  import opened Ingest
  import opened StreamModel
  import opened SnapshotModel
  import opened SnapshotTheorems
  import opened Ownership
  import opened OwnershipTheorems
  import SyncTheorems

  /** What stream `i` has loaded, then what it has still to load. */
  function Backlog(w: World, i: nat): seq<DepthSlot>
    requires i < |w.streams| && i < |w.unread|
  {
    w.streams[i].depthUpdateBuffer + w.unread[i]
  }

  // ----- slots held for loading are in nobody else's hands -----

  lemma {:induction false} UnreadHas(unread: seq<seq<DepthSlot>>, k: nat, slot: DepthSlot)
    requires k < |unread| && slot in unread[k]
    ensures slot in UnreadHold(unread)
  {
    if k != 0 {
      UnreadHas(unread[1..], k - 1, slot);
    }
  }

  lemma BacklogLive(w: World, i: nat, slot: DepthSlot)
    requires WorldInv(w) && i < |w.streams| && slot in Backlog(w, i)
    ensures IsLive(w.pool, slot) && slot !in Own(w.reader, w.pool.id)
  {
    var loading := StreamsHold(w.streams) + UnreadHold(w.unread);
    if slot in w.unread[i] {
      UnreadHas(w.unread, i, slot);
    } else {
      assert slot in StreamHold(w.streams[i]);
      SyncTheorems.StreamsHave(w.streams, i, slot);
    }
    assert slot in loading;
    LiveIs(w.pool);
    assert slot in Holdings(w);
    assert Holdings(w) == (Own(w.sink.queue, w.pool.id) + Own(w.reader, w.pool.id)) + loading;
    SyncTheorems.HeldOnce(w.pool, Own(w.sink.queue, w.pool.id) + Own(w.reader, w.pool.id), loading, slot);
  }

  lemma BacklogApart(w: World, i: nat, j: nat, slot: DepthSlot)
    requires WorldInv(w) && i < |w.streams| && j < |w.streams| && slot in Backlog(w, i)
    ensures slot !in w.streams[j].buffer
  {
    StreamBalanced(w, j);
    if slot in w.unread[i] {
      UnreadHas(w.unread, i, slot);
      SyncTheorems.HeldOnce(w.pool, EnvHold(EnvOf(w, j)), Rest(w, j), slot);
      assert slot !in StreamHold(w.streams[j]);
    } else if i == j {
      OwnApart(w, i, slot);
    } else {
      SyncTheorems.Apart(w, j, i, slot);
    }
  }

  lemma OwnApart(w: World, i: nat, slot: DepthSlot)
    requires WorldInv(w) && i < |w.streams| && slot in w.streams[i].depthUpdateBuffer
    ensures slot !in w.streams[i].buffer
  {
    StreamBalanced(w, i);
    var s := w.streams[i];
    SyncTheorems.HeldOnce(w.pool, multiset(s.buffer), Others(EnvOf(w, i), Rest(w, i)), slot);
  }

  // ----- one step -----

  /** The step leaves the cell of every slot held for loading as it is. */
  lemma StepKeepsCell(w: World, step: Step, i: nat, slot: DepthSlot)
    requires WorldInv(w) && Enabled(w, step) && i < |w.streams| && slot in Backlog(w, i)
    ensures
      && IsLive(w.pool, slot) && IsLive(Take(w, step).pool, slot)
      && Take(w, step).pool.cells[slot.index] == w.pool.cells[slot.index]
  {
    BacklogLive(w, i, slot);
    match step
    case Poll(j) =>
      StreamBalanced(w, j);
      BalancedOk(EnvOf(w, j), Rest(w, j));
      BacklogApart(w, i, j, slot);
      PollKeepsFrame(EnvOf(w, j), slot);
    case PullSnapshot(j, pull) =>
      if pull.Body? {
        IngestFrame(w.pool, [], pull.book, w.streams[j].exchange, true, slot);
      }
    case ReaderReleases(k) =>
      if w.reader[k].pool == w.pool.id {
        OwnHas(w.reader, w.pool.id, k);
        ReaderHoldsLive(w, k);
        assert slot == DepthSlot(w.pool.id, slot.index);
      }
    case _ =>
  }

  lemma StepKeepsRead(w: World, step: Step, i: nat, slots: seq<DepthSlot>)
    requires WorldInv(w) && Enabled(w, step) && i < |w.streams|
    requires forall j :: 0 <= j < |slots| ==> slots[j] in Backlog(w, i)
    ensures ReadBack(Take(w, step).pool, slots) == ReadBack(w.pool, slots)
  {
    forall j | 0 <= j < |slots|
      ensures ReadBack(Take(w, step).pool, slots)[j] == ReadBack(w.pool, slots)[j]
    {
      StepKeepsCell(w, step, i, slots[j]);
    }
  }

  /** What a step adds to the backlog of stream `i`: the depths of a snapshot that it pulls. */
  ghost function Pulled(w: World, step: Step, i: nat): seq<Depth>
    requires WorldInv(w)
  {
    if step.PullSnapshot? && step.stream == i < |w.streams|
       && PullDepths(w.pool, w.streams[i].exchange, step.pull).result.Ok?
    then Depths(step.pull.book.levels, w.streams[i].exchange, true)
    else []
  }

  lemma PulledReads(p: Pool, exchange: nat, pull: Pull)
    requires PoolOk(p) && PullDepths(p, exchange, pull).result.Ok?
    ensures
      var pulled := PullDepths(p, exchange, pull);
      ReadBack(pulled.pool, pulled.result.value) == Somes(Depths(pull.book.levels, exchange, true))
  {
    hide PoolOk, IngestInto, Storable;
    IngestOutcome(p, [], pull.book, exchange, true);
    IngestContents(p, [], pull.book, exchange, true);
    var pulled := PullDepths(p, exchange, pull);
    assert pulled.result.value[0..] == pulled.result.value;
  }

  lemma StepLoads(w: World, step: Step, i: nat)
    requires WorldInv(w) && Enabled(w, step) && i < |w.streams|
    requires w.streams[i].exchange != 2 && step != MoveBuffered(i)
    ensures
      var t := Take(w, step);
      && |t.streams| == |t.unread| == |w.streams| && t.streams[i].exchange == w.streams[i].exchange
      && ReadBack(t.pool, Backlog(t, i)) == ReadBack(w.pool, Backlog(w, i)) + Somes(Pulled(w, step, i))
      && t.streams[i].websocketDepthBuffer == w.streams[i].websocketDepthBuffer
  {
    var t := Take(w, step);
    StepKeepsRead(w, step, i, Backlog(w, i));
    match step
    case PullSnapshot(j, pull) =>
      if j == i {
        PullAppends(w, i, pull);
      }
    case PushUnread(j) =>
      if j == i {
        var s := w.streams[i];
        Associate(s.depthUpdateBuffer, [w.unread[i][0]], w.unread[i][1..]);
        assert w.unread[i] == [w.unread[i][0]] + w.unread[i][1..];
        assert Backlog(t, i) == Backlog(w, i);
      }
    case Poll(j) =>
      StreamBalanced(w, j);
      BalancedOk(EnvOf(w, j), Rest(w, j));
      PollKeepsFrame(EnvOf(w, j), DepthSlot(0, 0));
    case _ =>
      assert Backlog(t, i) == Backlog(w, i);
  }

  lemma PullAppends(w: World, i: nat, pull: Pull)
    requires WorldInv(w) && Enabled(w, PullSnapshot(i, pull))
    requires ReadBack(Take(w, PullSnapshot(i, pull)).pool, Backlog(w, i)) == ReadBack(w.pool, Backlog(w, i))
    ensures
      var t := Take(w, PullSnapshot(i, pull));
      ReadBack(t.pool, Backlog(t, i)) == ReadBack(w.pool, Backlog(w, i)) + Somes(Pulled(w, PullSnapshot(i, pull), i))
  {
    var t := Take(w, PullSnapshot(i, pull));
    var pulled := PullDepths(w.pool, w.streams[i].exchange, pull);
    assert Backlog(w, i) == w.streams[i].depthUpdateBuffer;
    if pulled.result.Ok? {
      PulledReads(w.pool, w.streams[i].exchange, pull);
      ReadBackConcat(t.pool, Backlog(w, i), pulled.result.value);
    } else {
      assert Backlog(t, i) == Backlog(w, i);
      assert Somes([]) == [];
    }
  }

  // ----- runs -----

  ghost function AllPulled(w: World, run: seq<Step>, i: nat): seq<Depth>
    requires WorldInv(w) && LegalSteps(w, run)
    decreases |run|
  {
    if run == [] then []
    else
      StepConserves(w, run[0]);
      Pulled(w, run[0], i) + AllPulled(Take(w, run[0]), run[1..], i)
  }

  /** Whatever the others do: what a stream of exchange 1 has loaded and has still to load reads
      back as what it began with, followed by the snapshots it has pulled, in order. */
  lemma {:induction false} LoadsInOrder(w: World, run: seq<Step>, i: nat)
    requires WorldInv(w) && LegalSteps(w, run) && i < |w.streams|
    requires w.streams[i].exchange != 2 && MoveBuffered(i) !in run
    ensures
      var t := TakeAll(w, run);
      && |t.streams| == |t.unread| == |w.streams|
      && ReadBack(t.pool, Backlog(t, i)) == ReadBack(w.pool, Backlog(w, i)) + Somes(AllPulled(w, run, i))
      && t.streams[i].websocketDepthBuffer == w.streams[i].websocketDepthBuffer
    decreases |run|
  {
    if run == [] {
      assert ReadBack(w.pool, Backlog(w, i)) + [] == ReadBack(w.pool, Backlog(w, i));
    } else {
      StepConserves(w, run[0]);
      StepLoads(w, run[0], i);
      var next := Take(w, run[0]);
      LoadsInOrder(next, run[1..], i);
      SomesConcat(Pulled(w, run[0], i), AllPulled(next, run[1..], i));
      Associate(ReadBack(w.pool, Backlog(w, i)), Somes(Pulled(w, run[0], i)), Somes(AllPulled(next, run[1..], i)));
    }
  }

  /** The steps of stream `i` after it has loaded its snapshot. */
  ghost predicate OnlyMoves(run: seq<Step>, i: nat) {
    forall k :: 0 <= k < |run| ==> run[k] != PushUnread(i) && !(run[k].PullSnapshot? && run[k].stream == i)
  }

  lemma StepMoves(w: World, step: Step, i: nat)
    requires WorldInv(w) && Enabled(w, step) && i < |w.streams|
    requires w.streams[i].exchange != 2 && OnlyMoves([step], i)
    ensures
      var t := Take(w, step);
      && |t.streams| == |t.unread| == |w.streams| && t.streams[i].exchange == w.streams[i].exchange
      && t.streams[i].depthUpdateBuffer + Reverse(t.streams[i].websocketDepthBuffer)
         == w.streams[i].depthUpdateBuffer + Reverse(w.streams[i].websocketDepthBuffer)
  {
    assert [step][0] == step;
    match step
    case MoveBuffered(j) =>
      if j == i {
        MovesNewest(w.streams[i]);
      }
    case Poll(j) =>
      StreamBalanced(w, j);
      BalancedOk(EnvOf(w, j), Rest(w, j));
      PollKeepsFrame(EnvOf(w, j), DepthSlot(0, 0));
    case _ =>
  }

  lemma MovesNewest(s: Stream)
    requires s.websocketDepthBuffer != []
    ensures
      MoveNewest(s).depthUpdateBuffer + Reverse(MoveNewest(s).websocketDepthBuffer)
      == s.depthUpdateBuffer + Reverse(s.websocketDepthBuffer)
  {
    var n := |s.websocketDepthBuffer| - 1;
    assert s.websocketDepthBuffer == s.websocketDepthBuffer[..n] + [s.websocketDepthBuffer[n]];
    ReverseSnoc(s.websocketDepthBuffer[..n], s.websocketDepthBuffer[n]);
    Associate(s.depthUpdateBuffer, [s.websocketDepthBuffer[n]], Reverse(s.websocketDepthBuffer[..n]));
  }

  /** ... and then the buffered websocket slots follow, newest first; what was loaded before
      stays in front and keeps reading back the same. */
  lemma {:induction false} MovesInOrder(w: World, run: seq<Step>, i: nat, loaded: seq<DepthSlot>)
    requires WorldInv(w) && LegalSteps(w, run) && i < |w.streams|
    requires w.streams[i].exchange != 2 && OnlyMoves(run, i)
    requires loaded <= w.streams[i].depthUpdateBuffer
    ensures
      var t := TakeAll(w, run);
      && |t.streams| == |w.streams| && loaded <= t.streams[i].depthUpdateBuffer
      && t.streams[i].depthUpdateBuffer + Reverse(t.streams[i].websocketDepthBuffer)
         == w.streams[i].depthUpdateBuffer + Reverse(w.streams[i].websocketDepthBuffer)
      && ReadBack(t.pool, loaded) == ReadBack(w.pool, loaded)
    decreases |run|
  {
    if run != [] {
      StepConserves(w, run[0]);
      StepMoves(w, run[0], i);
      StepGrows(w, run[0], i);
      StepKeepsRead(w, run[0], i, loaded);
      MovesInOrder(Take(w, run[0]), run[1..], i, loaded);
    }
  }

  /** Snapshot first under every interleaving: a stream of exchange 1 that begins with nothing
      loaded, pulls and loads its snapshots during `load`, and moves its websocket buffer during
      `move`, ends with the depths of the snapshots in order and then the slots it had set aside,
      newest first; both runs may contain any steps of other streams, the reader and others, and
      any polls and arrivals of its own. */
  lemma SnapshotFirstInterleaved(w: World, load: seq<Step>, move: seq<Step>, i: nat)
    requires WorldInv(w) && LegalSteps(w, load) && LegalSteps(TakeAll(w, load), move) && i < |w.streams|
    requires w.streams[i].exchange == 1 && w.streams[i].depthUpdateBuffer == [] && w.unread[i] == []
    requires MoveBuffered(i) !in load && OnlyMoves(move, i)
    ensures
      var mid := TakeAll(w, load);
      var end := TakeAll(mid, move);
      && |mid.streams| == |mid.unread| == |end.streams| == |w.streams|
      && (mid.unread[i] == [] && end.streams[i].websocketDepthBuffer == [] ==>
            var depths := AllPulled(w, load, i);
            var u := end.streams[i].depthUpdateBuffer;
            && |u| >= |depths|
            && ReadBack(end.pool, u[..|depths|]) == Somes(depths)
            && u[|depths|..] == Reverse(w.streams[i].websocketDepthBuffer))
  {
    var mid := TakeAll(w, load);
    LoadsInOrder(w, load, i);
    RunStaysSized(w, load);
    var loaded := mid.streams[i].depthUpdateBuffer;
    MovesInOrder(mid, move, i, loaded);
    var end := TakeAll(mid, move);
    if mid.unread[i] == [] && end.streams[i].websocketDepthBuffer == [] {
      assert Backlog(w, i) == [] && Backlog(mid, i) == loaded;
      assert ReadBack(mid.pool, loaded) == Somes(AllPulled(w, load, i));
      var u := end.streams[i].depthUpdateBuffer;
      assert u == u + Reverse([]) == loaded + Reverse(w.streams[i].websocketDepthBuffer);
    }
  }
}
