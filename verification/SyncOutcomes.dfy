/** How `sync_orderbook` ends, for any mix of exchanges on one pool that is large enough for them,
    in terms of the snapshots, the items that arrive and the buffers alone. */
module SyncOutcomes {
  import opened Prelude
  import opened DepthPools
  import opened Ingest
  import opened StreamModel
  import opened PollFold
  import opened SnapshotModel
  import SnapshotTheorems
  import opened ExchangeTwo
  import opened Ownership
  import OwnershipTheorems
  import opened SyncModel
  import SyncTheorems

  /** The snapshot arrived for a known exchange, parses, can be archived and is no longer than a
      buffer. Free cells do not come into it. */
  ghost predicate Loadable(archives: Depth -> bool, exchange: nat, pull: Pull) {
    && (exchange == 1 || exchange == 2) && pull.Body? && pull.book.wellFormed
    && Storable(archives, Depths(pull.book.levels, exchange, true))
    && |pull.book.levels| <= DEPTH_BUFFER_SIZE
  }

  /** The room in the update buffer after pushing `n` slots, or `None` when a push finds it full.
      Exchange 2 shares that buffer with what its polls accept. */
  ghost function RoomAfter(archives: Depth -> bool, s: Stream, n: nat, arrivals: seq<seq<Item>>): Option<nat>
    requires StreamOk(s)
  {
    var room := DEPTH_BUFFER_SIZE - |s.depthUpdateBuffer|;
    if s.exchange != 2 then if n <= room then Some(room - n) else None
    else
      match Load(archives, View(s.exchange, s.connected, s.streamCount, s.inbox, room, room), n, arrivals)
      case None => None
      case Some(v) => Some(v.room)
  }

  ghost function Verdict(archives: Depth -> bool, s: Stream, pull: Pull, arrivals: seq<seq<Item>>): Outcome
    requires StreamOk(s)
  {
    if !Loadable(archives, s.exchange, pull) then SnapshotError
    else if RoomAfter(archives, s, |pull.book.levels|, arrivals).None? then Panicked
    else Done
  }

  /** The first stream from `i` on that does not load decides. */
  ghost function PassVerdict(archives: Depth -> bool, streams: seq<Stream>, i: nat,
                             pulls: seq<Pull>, arrivals: seq<seq<seq<Item>>>): Outcome
    requires i <= |streams| == |pulls| == |arrivals| && forall k :: 0 <= k < |streams| ==> StreamOk(streams[k])
    decreases |streams| - i
  {
    if i == |streams| then Done
    else
      var verdict := Verdict(archives, streams[i], pulls[i], arrivals[i]);
      if verdict != Done then verdict else PassVerdict(archives, streams, i + 1, pulls, arrivals)
  }

  /** The pool is large enough and nobody holds a slot but the streams and the channel. The
      condition on exchange 2 holds in every reachable state. */
  ghost predicate Ready(w: World) {
    && WorldInv(w) && OwnershipTheorems.Sized(w) && NothingUnread(w) && Own(w.reader, w.pool.id) == multiset{}
    && forall k :: 0 <= k < |w.streams| && w.streams[k].exchange == 2 ==> w.streams[k].buffer == []
  }

  // ----- one stream -----

  /** After the pull there is still a free cell for all the room in the update buffer. */
  lemma PulledRoom(w: World, i: nat, pull: Pull)
    requires Ready(w) && i < |w.streams|
    ensures
      DEPTH_BUFFER_SIZE - |w.streams[i].depthUpdateBuffer|
      <= |PullDepths(w.pool, w.streams[i].exchange, pull).pool.free|
  {
    StepConserves(w, PullSnapshot(i, pull));
    OwnershipTheorems.StepSameSize(w, PullSnapshot(i, pull));
    var t := Take(w, PullSnapshot(i, pull));
    PullKeeps(w.pool, w.streams[i].exchange, pull, []);
    PulledLive(w.pool, w.streams[i].exchange, pull);
    OwnershipTheorems.RoomForTarget(t, i, t.streams[i].depthUpdateBuffer);
  }

  lemma PullVerdict(w: World, i: nat, pull: Pull)
    requires Ready(w) && i < |w.streams|
    ensures
      var pulled := PullDepths(w.pool, w.streams[i].exchange, pull);
      && (pulled.result.Ok? <==> Loadable(w.pool.archives, w.streams[i].exchange, pull))
      && (pulled.result.Ok? ==> |pulled.result.value| == |pull.book.levels|)
  {
    var exchange := w.streams[i].exchange;
    if pull.Body? && (exchange == 1 || exchange == 2) {
      OwnershipTheorems.RoomForTarget(w, i, []);
      SnapshotTheorems.PullStores(w.pool, exchange, pull.book);
    }
  }

  /** What the run of one stream leaves: its room, and its websocket buffer. */
  ghost predicate Leaves(s: Stream, q: Stream, room: nat) {
    && q.exchange == s.exchange && q.websocketDepthBuffer == s.websocketDepthBuffer
    && |q.depthUpdateBuffer| == DEPTH_BUFFER_SIZE - room
    && (q.exchange == 2 ==> q.buffer == [])
  }

  lemma RunVerdict(w: World, i: nat, pull: Pull, arrivals: seq<seq<Item>>)
    requires Ready(w) && i < |w.streams|
    ensures StreamOk(w.streams[i]) && EnvOk(EnvOf(w, i))
    ensures
      var run := RunSnapshot(EnvOf(w, i), pull, arrivals);
      && run.outcome == Verdict(w.pool.archives, w.streams[i], pull, arrivals)
      && (run.outcome == Done ==>
            && pull.Body?
            && var room := RoomAfter(w.pool.archives, w.streams[i], |pull.book.levels|, arrivals);
               room.Some? && Leaves(w.streams[i], run.env.stream, room.value))
  {
    RunConserves(w, i, pull, arrivals);
    PullVerdict(w, i, pull);
    SnapshotTheorems.RunFrame(EnvOf(w, i), pull, arrivals);
    if PullDepths(w.pool, w.streams[i].exchange, pull).result.Ok? {
      if w.streams[i].exchange == 1 {
        LoadOne(EnvOf(w, i), pull.book, arrivals);
      } else {
        PulledRoom(w, i, pull);
        HeldInWorld(w, i);
        LoadTwo(EnvOf(w, i), pull.book, arrivals);
      }
    }
  }

  lemma HeldInWorld(w: World, i: nat)
    requires WorldInv(w) && i < |w.streams|
    ensures AllHeld(w.pool, w.streams[i].depthUpdateBuffer)
  {
    StreamBalanced(w, i);
    var u := w.streams[i].depthUpdateBuffer;
    LiveIs(w.pool);
    forall k | 0 <= k < |u|
      ensures IsLive(w.pool, u[k])
    {
      assert u[k] in StreamHold(w.streams[i]);
      assert u[k] in multiset(Live(w.pool));
    }
  }

  lemma LoadOne(e: Env, book: Book, arrivals: seq<seq<Item>>)
    requires EnvOk(e) && e.stream.exchange == 1 && PullDepths(e.pool, 1, Body(book)).result.Ok?
    requires |PullDepths(e.pool, 1, Body(book)).result.value| == |book.levels|
    ensures
      var run := RunSnapshot(e, Body(book), arrivals);
      var n := |e.stream.depthUpdateBuffer| + |book.levels|;
      && run.outcome == (if n <= DEPTH_BUFFER_SIZE then Done else Panicked)
      && (run.outcome == Done ==> |run.env.stream.depthUpdateBuffer| == n)
  {
    PullKeeps(e.pool, 1, Body(book), e.stream.buffer);
    var pulled := PullDepths(e.pool, 1, Body(book));
    var start := BufferingOn(e).(pool := pulled.pool);
    SnapshotTheorems.SnapshotLoads(start, pulled.result.value, arrivals);
    SnapshotTheorems.NeverFails(start, pulled.result.value, arrivals);
  }

  lemma LoadTwo(e: Env, book: Book, arrivals: seq<seq<Item>>)
    requires Two(e) && AllHeld(e.pool, e.stream.depthUpdateBuffer)
    requires PullDepths(e.pool, 2, Body(book)).result.Ok?
    requires DEPTH_BUFFER_SIZE - |e.stream.depthUpdateBuffer| <= |PullDepths(e.pool, 2, Body(book)).pool.free|
    ensures
      var run := RunSnapshot(e, Body(book), arrivals);
      var room := RoomAfter(e.pool.archives, e.stream, |book.levels|, arrivals);
      && run.outcome == (if room.Some? then Done else Panicked)
      && (run.outcome == Done ==>
            |run.env.stream.depthUpdateBuffer| == DEPTH_BUFFER_SIZE - room.value && run.env.stream.buffer == [])
  {
    var depths := Depths(book.levels, 2, true);
    PullLoads(e, book);
    var pulled := PullDepths(e.pool, 2, Body(book));
    var start := BufferingOn(e).(pool := pulled.pool);
    LoadsWoven(start, pulled.result.value, depths, arrivals);
    assert |pulled.result.value| == |SnapshotTheorems.ReadBack(start.pool, pulled.result.value)| == |book.levels|;
    var v := ViewOf(start);
    LoadRoom(e.pool.archives, v, v.(free := v.room), |book.levels|, arrivals);
  }

  // ----- all streams -----

  lemma ReadyNext(w: World, i: nat, pull: Pull, arrivals: seq<seq<Item>>)
    requires Ready(w) && i < |w.streams| && EnvOk(EnvOf(w, i))
    requires RunSnapshot(EnvOf(w, i), pull, arrivals).outcome == Done
    ensures
      var next := WithEnv(w, i, RunSnapshot(EnvOf(w, i), pull, arrivals).env);
      && Ready(next) && next.pool.archives == w.pool.archives && |next.streams| == |w.streams|
      && forall k :: 0 <= k < |w.streams| && k != i ==> next.streams[k] == w.streams[k]
  {
    RunConserves(w, i, pull, arrivals);
    SnapshotTheorems.RunFrame(EnvOf(w, i), pull, arrivals);
    RunVerdict(w, i, pull, arrivals);
  }

  lemma {:induction false} VerdictNext(archives: Depth -> bool, streams: seq<Stream>, others: seq<Stream>, i: nat,
                    pulls: seq<Pull>, arrivals: seq<seq<seq<Item>>>)
    requires i <= |streams| == |others| == |pulls| == |arrivals|
    requires forall k :: 0 <= k < |streams| ==> StreamOk(streams[k]) && StreamOk(others[k])
    requires forall k :: i <= k < |streams| ==> others[k] == streams[k]
    ensures PassVerdict(archives, others, i, pulls, arrivals) == PassVerdict(archives, streams, i, pulls, arrivals)
    decreases |streams| - i
  {
    if i != |streams| {
      VerdictNext(archives, streams, others, i + 1, pulls, arrivals);
    }
  }

  lemma {:induction false} PassEndsAs(w: World, i: nat, pulls: seq<Pull>, arrivals: seq<seq<seq<Item>>>)
    requires Ready(w) && i <= |w.streams| == |pulls| == |arrivals|
    ensures SnapshotPass(w, i, pulls, arrivals).outcome == PassVerdict(w.pool.archives, w.streams, i, pulls, arrivals)
    decreases |w.streams| - i
  {
    if i == |w.streams| {
      SyncTheorems.PassEnds(w, pulls, arrivals);
    } else {
      SyncTheorems.SnapshotStep(w, i, pulls, arrivals);
      RunVerdict(w, i, pulls[i], arrivals[i]);
      hide RunSnapshot, Verdict, WorldInv;
      if RunSnapshot(EnvOf(w, i), pulls[i], arrivals[i]).outcome == Done {
        ReadyNext(w, i, pulls[i], arrivals[i]);
        var next := WithEnv(w, i, RunSnapshot(EnvOf(w, i), pulls[i], arrivals[i]).env);
        PassEndsAs(next, i + 1, pulls, arrivals);
        StreamsOk(w);
        StreamsOk(next);
        VerdictNext(w.pool.archives, w.streams, next.streams, i + 1, pulls, arrivals);
      }
    }
  }

  lemma StreamsOk(w: World)
    requires WorldInv(w)
    ensures forall k :: 0 <= k < |w.streams| ==> StreamOk(w.streams[k])
  {}

  /** The room that stream `k` is left with does not depend on the other streams. */
  lemma {:induction false} PassLeaves(w: World, i: nat, pulls: seq<Pull>, arrivals: seq<seq<seq<Item>>>, k: nat)
    requires Ready(w) && i <= |w.streams| == |pulls| == |arrivals| && k < |w.streams|
    requires SnapshotPass(w, i, pulls, arrivals).outcome == Done
    ensures StreamOk(w.streams[k])
    ensures
      var q := SnapshotPass(w, i, pulls, arrivals).world.streams[k];
      if k < i then q == w.streams[k]
      else
        && pulls[k].Body?
        && var room := RoomAfter(w.pool.archives, w.streams[k], |pulls[k].book.levels|, arrivals[k]);
           room.Some? && Leaves(w.streams[k], q, room.value)
    decreases |w.streams| - i
  {
    hide SnapshotPass, RunSnapshot, RoomAfter, Leaves, Verdict, WorldInv, Own, NothingUnread, OwnershipTheorems.Sized;
    StreamsOk(w);
    if i == |w.streams| {
      SyncTheorems.PassEnds(w, pulls, arrivals);
    } else {
      SyncTheorems.SnapshotStep(w, i, pulls, arrivals);
      RunVerdict(w, i, pulls[i], arrivals[i]);
      ReadyNext(w, i, pulls[i], arrivals[i]);
      PassLeaves(WithEnv(w, i, RunSnapshot(EnvOf(w, i), pulls[i], arrivals[i]).env), i + 1, pulls, arrivals, k);
    }
  }

  /** A stream that does not load ends the pass: the streams behind it are not touched. */
  lemma {:induction false} PassStops(w: World, i: nat, pulls: seq<Pull>, arrivals: seq<seq<seq<Item>>>, j: nat, k: nat)
    requires Ready(w) && i <= j < k < |w.streams| == |pulls| == |arrivals|
    requires StreamOk(w.streams[j]) && Verdict(w.pool.archives, w.streams[j], pulls[j], arrivals[j]) != Done
    ensures
      var s := SnapshotPass(w, i, pulls, arrivals);
      s.outcome != Done && s.world.streams[k] == w.streams[k]
    decreases |w.streams| - i
  {
    hide SnapshotPass, RunSnapshot, Verdict, WorldInv, Own, NothingUnread, OwnershipTheorems.Sized;
    SyncTheorems.SnapshotStep(w, i, pulls, arrivals);
    RunVerdict(w, i, pulls[i], arrivals[i]);
    if RunSnapshot(EnvOf(w, i), pulls[i], arrivals[i]).outcome == Done {
      ReadyNext(w, i, pulls[i], arrivals[i]);
      PassStops(WithEnv(w, i, RunSnapshot(EnvOf(w, i), pulls[i], arrivals[i]).env), i + 1, pulls, arrivals, j, k);
    }
  }

  /** So start-up leaves every stream behind one that does not load exactly as it was. */
  lemma SyncStops(w: World, pulls: seq<Pull>, arrivals: seq<seq<seq<Item>>>, j: nat, k: nat)
    requires Ready(w) && j < k < |w.streams| == |pulls| == |arrivals|
    requires StreamOk(w.streams[j]) && Verdict(w.pool.archives, w.streams[j], pulls[j], arrivals[j]) != Done
    ensures
      var s := SyncOrderbook(w, pulls, arrivals);
      s.outcome != Done && |s.world.streams| == |w.streams| && s.world.streams[k] == w.streams[k]
  {
    PassStops(w, 0, pulls, arrivals, j, k);
  }

  ghost predicate Fits(s: Stream) {
    |s.depthUpdateBuffer| + |s.websocketDepthBuffer| <= DEPTH_BUFFER_SIZE
  }

  ghost predicate AllFit(streams: seq<Stream>, i: nat) {
    forall k :: i <= k < |streams| ==> Fits(streams[k])
  }

  lemma {:induction false} BufferPassFits(w: World, i: nat)
    requires i <= |w.streams| && forall k :: 0 <= k < |w.streams| ==> StreamOk(w.streams[k])
    ensures BufferPass(w, i).outcome == Done <==> AllFit(w.streams, i)
    decreases |w.streams| - i
  {
    if i != |w.streams| {
      SnapshotTheorems.BufferedReversed(EnvOf(w, i));
      assert PushBuffered(EnvOf(w, i)).outcome == Done <==> Fits(w.streams[i]);
      if Fits(w.streams[i]) {
        SnapshotTheorems.ReverseLength(w.streams[i].websocketDepthBuffer);
        var next := WithEnv(w, i, PushBuffered(EnvOf(w, i)).env);
        BufferPassFits(next, i + 1);
        assert AllFit(w.streams, i) <==> AllFit(next.streams, i + 1) by {
          forall k | i < k < |w.streams|
            ensures next.streams[k] == w.streams[k]
          {}
        }
      }
    }
  }

  /** What stream `k` has set aside fits behind what it has loaded. */
  ghost predicate SetAsideFits(w: World, pulls: seq<Pull>, arrivals: seq<seq<seq<Item>>>, k: nat)
    requires k < |w.streams| == |pulls| == |arrivals| && StreamOk(w.streams[k])
  {
    && pulls[k].Body?
    && var room := RoomAfter(w.pool.archives, w.streams[k], |pulls[k].book.levels|, arrivals[k]);
       room.Some? && |w.streams[k].websocketDepthBuffer| <= room.value
  }

  /** Start-up of any mix of exchanges ends with the first snapshot that cannot be loaded or does
      not fit; if all load, it succeeds exactly when what each stream has set aside fits too. It
      never fails for want of pool cells, however many exchanges share the pool and whatever
      their polls take in meanwhile. */
  lemma SyncEnds(w: World, pulls: seq<Pull>, arrivals: seq<seq<seq<Item>>>)
    requires Ready(w) && |w.streams| == |pulls| == |arrivals|
    ensures forall k :: 0 <= k < |w.streams| ==> StreamOk(w.streams[k])
    ensures
      var pass := PassVerdict(w.pool.archives, w.streams, 0, pulls, arrivals);
      SyncOrderbook(w, pulls, arrivals).outcome
      == if pass != Done then pass
         else if forall k :: 0 <= k < |pulls| ==> SetAsideFits(w, pulls, arrivals, k) then Done
         else Panicked
  {
    StreamsOk(w);
    PassEndsAs(w, 0, pulls, arrivals);
    var loaded := SnapshotPass(w, 0, pulls, arrivals);
    if loaded.outcome == Done {
      SyncTheorems.BufferPassKeeps(loaded.world, 0);
      BufferPassFits(loaded.world, 0);
      forall k | 0 <= k < |pulls|
        ensures Fits(loaded.world.streams[k]) <==> SetAsideFits(w, pulls, arrivals, k)
      {
        PassLeaves(w, 0, pulls, arrivals, k);
      }
    }
  }
}
