/** The order that start-up leaves in `depth_update_buffer`: for exchange 1 the snapshot, then
    the websocket buffer in reverse, whatever the polls in between saw; for exchange 2 only if
    those polls accepted nothing. */
module SnapshotTheorems {
  import opened Prelude
  import opened DepthPools
  import opened Ingest
  import opened StreamModel
  import opened SnapshotModel

  /** What no step of a stream changes. */
  ghost predicate SameSetup(e: Env, q: Env) {
    && q.stream.exchange == e.stream.exchange
    && q.pool.id == e.pool.id && q.pool.archives == e.pool.archives && |q.pool.cells| == |e.pool.cells|
    && q.sink.capacity == e.sink.capacity
  }

  /** What no poll changes: the setup, the websocket buffer, and the update buffer so far, which
      for exchange 1 does not even grow. */
  ghost predicate PollFrame(e: Env, q: Env) {
    && SameSetup(e, q)
    && q.stream.connected == e.stream.connected
    && q.stream.bufferWebsocketDepths == e.stream.bufferWebsocketDepths
    && q.stream.websocketDepthBuffer == e.stream.websocketDepthBuffer
    && e.stream.depthUpdateBuffer <= q.stream.depthUpdateBuffer
    && (e.stream.exchange != 2 ==> q.stream.depthUpdateBuffer == e.stream.depthUpdateBuffer)
  }

  /** A live slot that is not in the outgoing buffer keeps its depth. */
  ghost predicate Kept(e: Env, q: Env, slot: DepthSlot) {
    IsLive(e.pool, slot) && slot !in e.stream.buffer ==>
      IsLive(q.pool, slot) && slot !in q.stream.buffer && q.pool.cells[slot.index] == e.pool.cells[slot.index]
  }

  lemma SendOneFrame(e: Env, slot: DepthSlot)
    requires EnvOk(e)
    ensures PollFrame(e, SendOne(e).0) && Kept(e, SendOne(e).0, slot)
  {}

  lemma ReceiveFrame(e: Env, item: Item, slot: DepthSlot)
    requires EnvOk(e)
    ensures PollFrame(e, Receive(e, item).0) && Kept(e, Receive(e, item).0, slot)
  {
    if item.Frame? && item.message.Text? {
      if e.stream.exchange == 1 {
        IngestFrame(e.pool, e.stream.buffer, item.message.book, 1, false, slot);
      } else {
        IngestFrame(e.pool, e.stream.depthUpdateBuffer, item.message.book, 1, false, slot);
      }
    }
  }

  lemma IngestFrame(p: Pool, target: seq<DepthSlot>, book: Book, location: nat, snapshot: bool, slot: DepthSlot)
    requires PoolOk(p) && |target| <= DEPTH_BUFFER_SIZE
    ensures
      var g := IngestInto(p, target, book, location, snapshot);
      && target <= g.target
      && g.pool.id == p.id && g.pool.archives == p.archives && |g.pool.cells| == |p.cells|
      && (IsLive(p, slot) ==>
           && IsLive(g.pool, slot) && g.pool.cells[slot.index] == p.cells[slot.index]
           && (slot !in target ==> slot !in g.target))
  {
    IngestContents(p, target, book, location, snapshot);
    var g := IngestInto(p, target, book, location, snapshot);
    if g.result.Ok? {
      var more := g.target[|target|..];
      assert g.target == target + more;
      if IsLive(p, slot) {
        assert slot == DepthSlot(p.id, slot.index) && slot !in more;
      }
    }
  }

  lemma {:induction false} DrainFrame(e: Env, slot: DepthSlot)
    requires EnvOk(e)
    ensures PollFrame(e, Drain(e).env) && Kept(e, Drain(e).env, slot)
    decreases |e.stream.inbox|
  {
    if e.stream.inbox != [] {
      ReceiveKeeps(TakeItem(e), e.stream.inbox[0]);
      ReceiveFrame(TakeItem(e), e.stream.inbox[0], slot);
      var (after, end) := Receive(TakeItem(e), e.stream.inbox[0]);
      if end.None? {
        DrainFrame(after, slot);
      }
    }
  }

  lemma PollKeepsFrame(e: Env, slot: DepthSlot)
    requires EnvOk(e)
    ensures PollFrame(e, PollNext(e).env) && Kept(e, PollNext(e).env, slot)
  {
    SendOneKeeps(e);
    SendOneFrame(e, slot);
    var (sent, end) := SendOne(e);
    if end.None? && sent.stream.connected {
      DrainFrame(sent, slot);
    }
  }

  // ----- what slots read back as -----

  function ReadBack(p: Pool, slots: seq<DepthSlot>): seq<Option<Depth>> {
    seq(|slots|, j requires 0 <= j < |slots| => if slots[j].index < |p.cells| then p.cells[slots[j].index] else None)
  }

  function Somes(depths: seq<Depth>): seq<Option<Depth>> {
    seq(|depths|, j requires 0 <= j < |depths| => Some(depths[j]))
  }

  lemma ReadBackConcat(p: Pool, a: seq<DepthSlot>, b: seq<DepthSlot>)
    ensures ReadBack(p, a + b) == ReadBack(p, a) + ReadBack(p, b)
  {}

  lemma SomesConcat(a: seq<Depth>, b: seq<Depth>)
    ensures Somes(a + b) == Somes(a) + Somes(b)
  {}

  // ----- exchange 1 -----

  ghost predicate Held(e: Env, slots: seq<DepthSlot>) {
    forall i :: 0 <= i < |slots| ==> IsLive(e.pool, slots[i]) && slots[i] !in e.stream.buffer
  }

  ghost predicate SameDepths(p: Pool, q: Pool, slots: seq<DepthSlot>) {
    && |q.cells| == |p.cells| && q.id == p.id
    && forall i :: 0 <= i < |slots| && slots[i].index < |p.cells| ==> q.cells[slots[i].index] == p.cells[slots[i].index]
  }

  lemma PollHolds(e: Env, slots: seq<DepthSlot>)
    requires EnvOk(e) && Held(e, slots)
    ensures PollFrame(e, PollNext(e).env)
    ensures Held(PollNext(e).env, slots) && SameDepths(e.pool, PollNext(e).env.pool, slots)
  {
    PollKeepsFrame(e, DepthSlot(0, 0));
    forall i | 0 <= i < |slots|
      ensures Kept(e, PollNext(e).env, slots[i])
    {
      PollKeepsFrame(e, slots[i]);
    }
  }

  /** The snapshot loop of exchange 1: the slots go in, in order, and nothing else does; it
      panics exactly when they do not fit. */
  lemma {:induction false} SnapshotLoads(e: Env, slots: seq<DepthSlot>, arrivals: seq<seq<Item>>)
    requires EnvOk(e) && e.stream.exchange == 1
    ensures
      var run := PushSnapshot(e, slots, arrivals);
      && (run.outcome == Done <==> |e.stream.depthUpdateBuffer| + |slots| <= DEPTH_BUFFER_SIZE)
      && (run.outcome == Done ==> run.env.stream.depthUpdateBuffer == e.stream.depthUpdateBuffer + slots)
      && (run.outcome != Done ==>
            var room := DEPTH_BUFFER_SIZE - |e.stream.depthUpdateBuffer|;
            && run.outcome == Panicked && room < |slots|
            && run.env.stream.depthUpdateBuffer == e.stream.depthUpdateBuffer + slots[..room])
      && run.env.stream.websocketDepthBuffer == e.stream.websocketDepthBuffer
    decreases |slots|
  {
    hide PoolOk, AllLiveOnce, PollNext;
    if slots != [] && |e.stream.depthUpdateBuffer| < DEPTH_BUFFER_SIZE {
      var next := Arrive(PushUpdate(e, slots[0]), Head(arrivals));
      PollKeepsFrame(next, slots[0]);
      SnapshotLoads(PollNext(next).env, slots[1..], Tail(arrivals));
      var room := DEPTH_BUFFER_SIZE - |e.stream.depthUpdateBuffer|;
      if room < |slots| {
        assert slots[..room] == [slots[0]] + slots[1..][..room - 1];
        Associate(e.stream.depthUpdateBuffer, [slots[0]], slots[1..][..room - 1]);
      }
      assert (e.stream.depthUpdateBuffer + [slots[0]]) + slots[1..] == e.stream.depthUpdateBuffer + slots;
    }
  }

  /** Slots held meanwhile keep their depths. */
  lemma {:induction false} SnapshotHolds(e: Env, slots: seq<DepthSlot>, arrivals: seq<seq<Item>>, held: seq<DepthSlot>)
    requires EnvOk(e) && Held(e, held)
    ensures
      var run := PushSnapshot(e, slots, arrivals);
      Held(run.env, held) && SameDepths(e.pool, run.env.pool, held)
    decreases |slots|
  {
    if slots != [] && |e.stream.depthUpdateBuffer| < DEPTH_BUFFER_SIZE {
      var next := Arrive(PushUpdate(e, slots[0]), Head(arrivals));
      PollHolds(next, held);
      SnapshotHolds(PollNext(next).env, slots[1..], Tail(arrivals), held);
    }
  }

  function Moved(s: Stream): Stream {
    s.(websocketDepthBuffer := [], bufferWebsocketDepths := false,
       depthUpdateBuffer := s.depthUpdateBuffer + Reverse(s.websocketDepthBuffer))
  }

  /** `push_buffered_ws_depths` reverses: the newest buffered slot comes first. */
  lemma {:induction false} BufferedReversed(e: Env)
    ensures
      var run := PushBuffered(e);
      var s := e.stream;
      && (|s.depthUpdateBuffer| <= DEPTH_BUFFER_SIZE ==>
           (run.outcome == Done <==> |s.depthUpdateBuffer| + |s.websocketDepthBuffer| <= DEPTH_BUFFER_SIZE))
      && run.outcome != SnapshotError
      && (run.outcome == Done ==> run.env == e.(stream := Moved(s)))
    decreases |e.stream.websocketDepthBuffer|
  {
    var s := e.stream;
    if s.websocketDepthBuffer != [] {
      var n := |s.websocketDepthBuffer| - 1;
      var last := s.websocketDepthBuffer[n];
      assert s.websocketDepthBuffer == s.websocketDepthBuffer[..n] + [last];
      ReverseSnoc(s.websocketDepthBuffer[..n], last);
      if |s.depthUpdateBuffer| < DEPTH_BUFFER_SIZE {
        BufferedReversed(PushUpdate(e.(stream := s.(websocketDepthBuffer := s.websocketDepthBuffer[..n])), last));
        Associate(s.depthUpdateBuffer, [last], Reverse(s.websocketDepthBuffer[..n]));
      }
    }
  }

  /** Where it panics: the update buffer has been filled with the newest slots, and one more has
      been taken out. */
  lemma {:induction false} BufferedPanics(e: Env)
    requires |e.stream.depthUpdateBuffer| <= DEPTH_BUFFER_SIZE && PushBuffered(e).outcome == Panicked
    ensures
      var u, ws := e.stream.depthUpdateBuffer, e.stream.websocketDepthBuffer;
      var room := DEPTH_BUFFER_SIZE - |u|;
      && room < |ws| == |Reverse(ws)|
      && PushBuffered(e).env
         == e.(stream := e.stream.(websocketDepthBuffer := ws[..|ws| - room - 1],
                                   depthUpdateBuffer := u + Reverse(ws)[..room]))
    decreases |e.stream.websocketDepthBuffer|
  {
    var s := e.stream;
    var n := |s.websocketDepthBuffer| - 1;
    var rest, last := s.websocketDepthBuffer[..n], s.websocketDepthBuffer[n];
    assert s.websocketDepthBuffer == rest + [last];
    ReverseSnoc(rest, last);
    ReverseLength(s.websocketDepthBuffer);
    if |s.depthUpdateBuffer| < DEPTH_BUFFER_SIZE {
      BufferedPanics(PushUpdate(e.(stream := s.(websocketDepthBuffer := rest)), last));
      var room := DEPTH_BUFFER_SIZE - |s.depthUpdateBuffer|;
      hide PushBuffered, Reverse;
      assert rest[..n - room] == s.websocketDepthBuffer[..n - room];
      assert Reverse(s.websocketDepthBuffer)[..room] == [last] + Reverse(rest)[..room - 1];
      Associate(s.depthUpdateBuffer, [last], Reverse(rest)[..room - 1]);
    }
  }

  lemma {:induction false} PushFrame(e: Env, slots: seq<DepthSlot>, arrivals: seq<seq<Item>>)
    requires EnvOk(e)
    ensures
      var q := PushSnapshot(e, slots, arrivals).env;
      SameSetup(e, q) && q.stream.websocketDepthBuffer == e.stream.websocketDepthBuffer
    decreases |slots|
  {
    if slots != [] && |e.stream.depthUpdateBuffer| < DEPTH_BUFFER_SIZE {
      var next := Arrive(PushUpdate(e, slots[0]), Head(arrivals));
      PollKeepsFrame(next, slots[0]);
      PushFrame(PollNext(next).env, slots[1..], Tail(arrivals));
    }
  }

  /** Loading a snapshot leaves the setup and the websocket buffer as they were. */
  lemma RunFrame(e: Env, pull: Pull, arrivals: seq<seq<Item>>)
    requires EnvOk(e)
    ensures
      var q := RunSnapshot(e, pull, arrivals).env;
      SameSetup(e, q) && q.stream.websocketDepthBuffer == e.stream.websocketDepthBuffer
  {
    PullKeeps(e.pool, e.stream.exchange, pull, e.stream.buffer);
    var pulled := PullDepths(e.pool, e.stream.exchange, pull);
    if pull.Body? {
      IngestFrame(e.pool, [], pull.book, e.stream.exchange, true, DepthSlot(0, 0));
    }
    if pulled.result.Ok? {
      PushFrame(BufferingOn(e).(pool := pulled.pool), pulled.result.value, arrivals);
    }
  }

  lemma {:induction false} SnapshotKept(e: Env, slots: seq<DepthSlot>, arrivals: seq<seq<Item>>, slot: DepthSlot)
    requires EnvOk(e)
    ensures Kept(e, PushSnapshot(e, slots, arrivals).env, slot)
    decreases |slots|
  {
    if slots != [] && |e.stream.depthUpdateBuffer| < DEPTH_BUFFER_SIZE {
      var next := Arrive(PushUpdate(e, slots[0]), Head(arrivals));
      PollKeepsFrame(next, slot);
      SnapshotKept(PollNext(next).env, slots[1..], Tail(arrivals), slot);
    }
  }

  /** Start-up of one stream keeps the depths of slots that are held elsewhere. */
  lemma RunKept(e: Env, pull: Pull, arrivals: seq<seq<Item>>, slot: DepthSlot)
    requires EnvOk(e)
    ensures Kept(e, RunSnapshot(e, pull, arrivals).env, slot)
  {
    PullKeeps(e.pool, e.stream.exchange, pull, e.stream.buffer);
    var pulled := PullDepths(e.pool, e.stream.exchange, pull);
    if pull.Body? {
      IngestFrame(e.pool, [], pull.book, e.stream.exchange, true, slot);
    }
    if pulled.result.Ok? {
      SnapshotKept(BufferingOn(e).(pool := pulled.pool), pulled.result.value, arrivals, slot);
    }
  }

  /** A pull that fails leaves every buffer and every cell as it was. */
  lemma FailedPull(e: Env, pull: Pull, arrivals: seq<seq<Item>>)
    requires EnvOk(e) && RunSnapshot(e, pull, arrivals).outcome == SnapshotError
    ensures
      var q := RunSnapshot(e, pull, arrivals).env;
      q.stream == e.stream.(bufferWebsocketDepths := true) && q.sink == e.sink && q.pool.cells == e.pool.cells
  {
    var pulled := PullDepths(e.pool, e.stream.exchange, pull);
    PullKeeps(e.pool, e.stream.exchange, pull, e.stream.buffer);
    if pulled.result.Ok? {
      NeverFails(BufferingOn(e).(pool := pulled.pool), pulled.result.value, arrivals);
    } else if pull.Body? {
      IngestContents(e.pool, [], pull.book, e.stream.exchange, true);
    }
  }

  lemma {:induction false} NeverFails(e: Env, slots: seq<DepthSlot>, arrivals: seq<seq<Item>>)
    requires EnvOk(e)
    ensures PushSnapshot(e, slots, arrivals).outcome != SnapshotError
    decreases |slots|
  {
    if slots != [] && |e.stream.depthUpdateBuffer| < DEPTH_BUFFER_SIZE {
      NeverFails(PollNext(Arrive(PushUpdate(e, slots[0]), Head(arrivals))).env, slots[1..], Tail(arrivals));
    }
  }

  /** The update buffer is one live slot for each depth, in order and reading back as it. */
  ghost predicate Loaded(s: Stream, p: Pool, depths: seq<Depth>) {
    var u := s.depthUpdateBuffer;
    |u| == |depths| && forall i :: 0 <= i < |u| ==> IsLive(p, u[i]) && p.cells[u[i].index] == Some(depths[i])
  }

  /** `run_snapshot` of exchange 1 from an empty update buffer completes exactly when the whole
      snapshot is accepted, and then loads it and nothing else, whatever its polls saw. */
  lemma SnapshotLoaded(e: Env, book: Book, arrivals: seq<seq<Item>>)
    requires EnvOk(e) && e.stream.exchange == 1 && e.stream.depthUpdateBuffer == []
    ensures
      var depths := Depths(book.levels, 1, true);
      var run := RunSnapshot(e, Body(book), arrivals);
      && (run.outcome == Done
          <==> book.wellFormed && Storable(e.pool.archives, depths) && |depths| <= Space(e.pool, []))
      && (run.outcome == Done ==>
            Loaded(run.env.stream, run.env.pool, depths)
            && run.env.stream.websocketDepthBuffer == e.stream.websocketDepthBuffer)
  {
    PullStores(e.pool, 1, book);
    PullKeeps(e.pool, 1, Body(book), e.stream.buffer);
    var pulled := PullDepths(e.pool, 1, Body(book));
    if pulled.result.Ok? {
      LoadsStored(e, BufferingOn(e).(pool := pulled.pool), pulled.result.value, Depths(book.levels, 1, true), arrivals);
    }
  }

  lemma PullStores(p: Pool, exchange: nat, book: Book)
    requires PoolOk(p) && (exchange == 1 || exchange == 2)
    ensures
      var depths := Depths(book.levels, exchange, true);
      var pulled := PullDepths(p, exchange, Body(book));
      && (pulled.result.Ok? <==> book.wellFormed && Storable(p.archives, depths) && |depths| <= Space(p, []))
      && (pulled.result.Ok? ==> Stored(p, pulled.pool, pulled.result.value, depths) && |depths| <= DEPTH_BUFFER_SIZE)
  {
    IngestOutcome(p, [], book, exchange, true);
    IngestContents(p, [], book, exchange, true);
    var pulled := PullDepths(p, exchange, Body(book));
    if pulled.result.Ok? {
      assert pulled.result.value[0..] == pulled.result.value;
    }
  }

  /** A pulled snapshot is one fresh slot for each level, in order, which reads back as that level
      with the exchange as its location and marked as a snapshot; it is there exactly when the
      request succeeds, for a known exchange, with a text that parses, can be archived and fits. */
  lemma PulledLevels(p: Pool, exchange: nat, pull: Pull)
    requires PoolOk(p)
    ensures
      var pulled := PullDepths(p, exchange, pull);
      && (pulled.result.Ok?
          <==> && (exchange == 1 || exchange == 2) && pull.Body? && pull.book.wellFormed
               && |pull.book.levels| <= DEPTH_BUFFER_SIZE && |pull.book.levels| <= |p.free|
               && forall i :: 0 <= i < |pull.book.levels| ==> p.archives(Depth(pull.book.levels[i], exchange, true)))
      && (pulled.result.Ok? ==>
            var slots, levels := pulled.result.value, pull.book.levels;
            && |slots| == |levels| && AllLiveOnce(pulled.pool, slots)
            && forall i :: 0 <= i < |levels| ==>
                 && !IsLive(p, slots[i])
                 && pulled.pool.cells[slots[i].index] == Some(Depth(levels[i], exchange, true)))
      && (pulled.result.Err? ==> pulled.pool.cells == p.cells)
  {
    hide PoolOk, IngestInto, AllLiveOnce;
    if pull.Body? {
      AllOrNothing(p, [], pull.book, exchange, true);
      var g := IngestInto(p, [], pull.book, exchange, true);
      assert g.target[0..] == g.target;
    }
  }

  lemma LoadsStored(e: Env, start: Env, slots: seq<DepthSlot>, depths: seq<Depth>, arrivals: seq<seq<Item>>)
    requires EnvOk(e) && EnvOk(start) && start.stream.exchange == 1 && start.stream.depthUpdateBuffer == []
    requires start.stream.buffer == e.stream.buffer && Stored(e.pool, start.pool, slots, depths)
    requires |depths| <= DEPTH_BUFFER_SIZE
    ensures
      var run := PushSnapshot(start, slots, arrivals);
      && run.outcome == Done && Loaded(run.env.stream, run.env.pool, depths)
      && run.env.stream.websocketDepthBuffer == start.stream.websocketDepthBuffer
  {
    assert Held(start, slots);
    SnapshotLoads(start, slots, arrivals);
    SnapshotHolds(start, slots, arrivals, slots);
    assert [] + slots == slots;
  }

  /** Snapshot first, for exchange 1: start-up from an empty update buffer leaves one slot for
      each snapshot depth, in order and reading back as it, and then the slots of the websocket
      buffer, newest first, whatever the interleaved polls saw. It completes exactly when the
      snapshot is accepted and both groups fit. */
  lemma SnapshotFirst(e: Env, book: Book, arrivals: seq<seq<Item>>)
    requires EnvOk(e) && e.stream.exchange == 1 && e.stream.depthUpdateBuffer == []
    ensures
      var levels := book.levels;
      var run := RunSnapshot(e, Body(book), arrivals);
      var done := PushBuffered(run.env);
      && (run.outcome == Done
          <==> && book.wellFormed && |levels| <= Space(e.pool, [])
               && forall i :: 0 <= i < |levels| ==> e.pool.archives(Depth(levels[i], 1, true)))
      && (run.outcome == Done ==>
           && (done.outcome == Done <==> |levels| + |e.stream.websocketDepthBuffer| <= DEPTH_BUFFER_SIZE)
           && (done.outcome == Done ==> SnapshotThenBuffered(e.stream, done.env, levels)))
  {
    SnapshotLoaded(e, book, arrivals);
    DepthsAre(book.levels, 1, true);
    var run := RunSnapshot(e, Body(book), arrivals);
    BufferedReversed(run.env);
    if run.outcome == Done && PushBuffered(run.env).outcome == Done {
      Arranged(run.env.stream, PushBuffered(run.env), book.levels);
    }
  }

  lemma Arranged(s: Stream, done: Run, levels: seq<Level>)
    requires Loaded(s, done.env.pool, Depths(levels, 1, true)) && done.env.stream == Moved(s)
    ensures SnapshotThenBuffered(s, done.env, levels)
  {
    ReverseLength(s.websocketDepthBuffer);
    DepthsAre(levels, 1, true);
    assert Moved(s).depthUpdateBuffer[|levels|..] == Reverse(s.websocketDepthBuffer);
  }

  lemma DepthsAre(levels: seq<Level>, location: nat, snapshot: bool)
    ensures
      var depths := Depths(levels, location, snapshot);
      |depths| == |levels| && forall i :: 0 <= i < |levels| ==> depths[i] == Depth(levels[i], location, snapshot)
  {}

  lemma {:induction false} ReverseLength<X>(xs: seq<X>)
    ensures |Reverse(xs)| == |xs|
  {
    if xs != [] {
      ReverseLength(xs[1..]);
    }
  }

  /** First the levels of the snapshot of exchange 1, in order, then what the stream had set
      aside, newest first. */
  ghost predicate SnapshotThenBuffered(was: Stream, q: Env, levels: seq<Level>) {
    var u := q.stream.depthUpdateBuffer;
    && |u| == |levels| + |was.websocketDepthBuffer|
    && (forall i :: 0 <= i < |levels| ==>
          IsLive(q.pool, u[i]) && q.pool.cells[u[i].index] == Some(Depth(levels[i], 1, true)))
    && u[|levels|..] == Reverse(was.websocketDepthBuffer)
    && q.stream.websocketDepthBuffer == [] && !q.stream.bufferWebsocketDepths
  }
}
