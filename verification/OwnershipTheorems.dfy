/** Runs of the world: conservation, pool sizing, and what never leaves the update buffer. */
module OwnershipTheorems {
  import opened Prelude
  import opened DepthPools
  import opened Ingest
  import opened StreamModel
  import opened PollFold
  import PollTheorems
  import SnapshotTheorems
  import opened Ownership

  /** Three depth buffers and a snapshot being ingested. */
  const MAX_BUFFERED_DEPTHS: nat := 4 * DEPTH_BUFFER_SIZE

  const DEPTH_CHANNEL_SIZE: nat := 10000

  const U32_MAX: nat := 0xFFFF_FFFF
  const USIZE_MAX: nat := 0xFFFF_FFFF_FFFF_FFFF

  // ----- runs -----

  ghost predicate LegalSteps(w: World, run: seq<Step>)
    requires WorldInv(w)
    decreases |run|
  {
    run == []
    || (Enabled(w, run[0]) && (StepConserves(w, run[0]); LegalSteps(Take(w, run[0]), run[1..])))
  }

  ghost function TakeAll(w: World, run: seq<Step>): (t: World)
    requires WorldInv(w) && LegalSteps(w, run)
    ensures WorldInv(t)
    decreases |run|
  {
    if run == [] then w
    else
      StepConserves(w, run[0]);
      TakeAll(Take(w, run[0]), run[1..])
  }

  /** Fresh streams on a fresh pool and an empty channel. */
  ghost predicate Initial(w: World) {
    && PoolOk(w.pool) && Live(w.pool) == {}
    && w.sink.queue == [] && w.reader == []
    && |w.unread| == |w.streams|
    && (forall i :: 0 <= i < |w.streams| ==>
          && w.unread[i] == [] && w.streams[i].buffer == []
          && w.streams[i].websocketDepthBuffer == [] && w.streams[i].depthUpdateBuffer == [])
  }

  lemma InitialHolds(w: World)
    requires Initial(w)
    ensures WorldInv(w)
  {
    NothingHeld(w.streams, w.unread);
  }

  /** The world after a run from such a beginning. */
  ghost predicate Reached(init: World, run: seq<Step>, t: World) {
    Initial(init) && (InitialHolds(init); LegalSteps(init, run) && TakeAll(init, run) == t)
  }

  lemma {:induction false} NothingHeld(streams: seq<Stream>, unread: seq<seq<DepthSlot>>)
    requires |unread| == |streams|
    requires forall i :: 0 <= i < |streams| ==> unread[i] == [] && StreamHold(streams[i]) == multiset{}
    ensures StreamsHold(streams) == multiset{} && UnreadHold(unread) == multiset{}
  {
    if streams != [] {
      NothingHeld(streams[1..], unread[1..]);
    }
  }

  /** Conservation over whole runs: every live slot is held exactly once, in one of the streams'
      buffers, in an unread snapshot, in the channel or by the reader, and nothing else is held. */
  lemma Conservation(w: World, run: seq<Step>)
    requires WorldInv(w) && LegalSteps(w, run)
    ensures
      var t := TakeAll(w, run);
      && (forall s :: Holdings(t)[s] == if IsLive(t.pool, s) then 1 else 0)
      && |Holdings(t)| + |t.pool.free| == |t.pool.cells|
  {
    var t := TakeAll(w, run);
    LiveIs(t.pool);
    LiveCount(t.pool);
    assert |multiset(Live(t.pool))| == |Live(t.pool)|;
  }

  // ----- pool sizing -----

  lemma {:induction false} OwnSize(slots: seq<DepthSlot>, id: nat)
    ensures |Own(slots, id)| <= |slots|
  {
    if slots != [] {
      OwnSize(slots[1..], id);
    }
  }

  lemma {:induction false} StreamsSize(streams: seq<Stream>)
    requires forall i :: 0 <= i < |streams| ==> StreamOk(streams[i])
    ensures |StreamsHold(streams)| <= 3 * (DEPTH_BUFFER_SIZE * |streams|)
  {
    if streams != [] {
      StreamsSize(streams[1..]);
      StreamSize(streams[0]);
      SumSize(StreamHold(streams[0]), StreamsHold(streams[1..]));
    }
  }

  lemma StreamSize(s: Stream)
    ensures |StreamHold(s)| == |s.buffer| + |s.websocketDepthBuffer| + |s.depthUpdateBuffer|
  {}

  lemma SumSize<X>(a: multiset<X>, b: multiset<X>)
    ensures |a + b| == |a| + |b|
  {}

  lemma {:induction false} UnreadSize(unread: seq<seq<DepthSlot>>)
    requires forall i :: 0 <= i < |unread| ==> |unread[i]| <= DEPTH_BUFFER_SIZE
    ensures |UnreadHold(unread)| <= DEPTH_BUFFER_SIZE * |unread|
  {
    if unread != [] {
      UnreadSize(unread[1..]);
      SumSize(multiset(unread[0]), UnreadHold(unread[1..]));
    }
  }

  /** The buffer that an ingest of stream `i` fills: an outgoing or update buffer, or a new
      snapshot. */
  ghost predicate IsTarget(w: World, i: nat, target: seq<DepthSlot>) {
    && i < |w.streams| && i < |w.unread|
    && (target == w.streams[i].buffer || target == w.streams[i].depthUpdateBuffer
        || (target == [] && w.unread[i] == []))
  }

  ghost predicate Sized(w: World) {
    w.sink.capacity + |w.streams| * MAX_BUFFERED_DEPTHS <= |w.pool.cells|
  }

  lemma StreamSizes(w: World, i: nat)
    requires WorldInv(w) && i < |w.streams|
    ensures |StreamsHold(w.streams)| <= 3 * (DEPTH_BUFFER_SIZE * (|w.streams| - 1)) + |StreamHold(w.streams[i])|
  {
    StreamsAt(w.streams, i, w.streams[i]);
    assert w.streams[i := w.streams[i]] == w.streams;
    StreamsSize(w.streams[..i]);
    StreamsSize(w.streams[i + 1..]);
    SumSize(StreamsHold(w.streams[..i]), StreamsHold(w.streams[i + 1..]));
    SumSize(StreamHold(w.streams[i]), StreamsHold(w.streams[..i]) + StreamsHold(w.streams[i + 1..]));
  }

  lemma UnreadSizes(w: World, i: nat)
    requires WorldInv(w) && i < |w.streams|
    ensures |UnreadHold(w.unread)| <= DEPTH_BUFFER_SIZE * (|w.streams| - 1) + |w.unread[i]|
  {
    UnreadAt(w.unread, i, w.unread[i]);
    assert w.unread[i := w.unread[i]] == w.unread;
    UnreadSize(w.unread[..i]);
    UnreadSize(w.unread[i + 1..]);
    SumSize(UnreadHold(w.unread[..i]), UnreadHold(w.unread[i + 1..]));
    SumSize(multiset(w.unread[i]), UnreadHold(w.unread[..i]) + UnreadHold(w.unread[i + 1..]));
  }

  lemma Quarters(n: nat)
    requires n > 0
    ensures n * MAX_BUFFERED_DEPTHS == 4 * (DEPTH_BUFFER_SIZE * (n - 1)) + 4 * DEPTH_BUFFER_SIZE
  {}

  lemma HoldingsSize(w: World)
    requires WorldInv(w) && Own(w.reader, w.pool.id) == multiset{}
    ensures |w.pool.cells| - |w.pool.free| <= w.sink.capacity + |StreamsHold(w.streams)| + |UnreadHold(w.unread)|
  {
    OwnSize(w.sink.queue, w.pool.id);
    LiveCount(w.pool);
    assert |multiset(Live(w.pool))| == |Live(w.pool)|;
    assert Holdings(w) == Own(w.sink.queue, w.pool.id) + StreamsHold(w.streams) + UnreadHold(w.unread);
    SumSize(Own(w.sink.queue, w.pool.id), StreamsHold(w.streams));
    SumSize(Own(w.sink.queue, w.pool.id) + StreamsHold(w.streams), UnreadHold(w.unread));
  }

  /** With a reader that holds nothing, a sized pool has a free cell for every place left in the
      target, whatever the other streams and producers hold. */
  lemma RoomForTarget(w: World, i: nat, target: seq<DepthSlot>)
    requires WorldInv(w) && Sized(w) && IsTarget(w, i, target) && Own(w.reader, w.pool.id) == multiset{}
    ensures DEPTH_BUFFER_SIZE - |target| <= |w.pool.free|
  {
    HoldingsSize(w);
    StreamSizes(w, i);
    UnreadSizes(w, i);
    StreamSize(w.streams[i]);
    Quarters(|w.streams|);
  }

  /** An insert finds no free cell while its target has room. */
  ghost predicate RunsDry(p: Pool, target: seq<DepthSlot>, depths: seq<Depth>)
    requires PoolOk(p) && |target| <= DEPTH_BUFFER_SIZE
  {
    var f := FeedDepths(p, DEPTH_BUFFER_SIZE - |target|, depths);
    f.stop.NoRoom? && |target| + |f.taken| < DEPTH_BUFFER_SIZE
  }

  /** The pool runs dry only if the reader stops releasing: an insert that finds no free cell
      while its target has room means that the reader holds a slot of this pool. */
  lemma ExhaustionNeedsReader(w: World, i: nat, target: seq<DepthSlot>, depths: seq<Depth>)
    requires WorldInv(w) && Sized(w) && IsTarget(w, i, target) && |target| <= DEPTH_BUFFER_SIZE
    ensures RunsDry(w.pool, target, depths) ==> Own(w.reader, w.pool.id) != multiset{}
  {
    FeedStops(w.pool, DEPTH_BUFFER_SIZE - |target|, depths);
    if Own(w.reader, w.pool.id) == multiset{} {
      RoomForTarget(w, i, target);
    }
  }

  lemma StepSameSize(w: World, step: Step)
    requires WorldInv(w) && Enabled(w, step)
    ensures
      var t := Take(w, step);
      && |t.streams| == |w.streams| && |t.pool.cells| == |w.pool.cells|
      && t.sink.capacity == w.sink.capacity
      && forall i :: 0 <= i < |w.streams| ==> t.streams[i].exchange == w.streams[i].exchange
  {
    match step
    case Poll(i) =>
      StreamBalanced(w, i);
      BalancedOk(EnvOf(w, i), Rest(w, i));
      SnapshotTheorems.PollKeepsFrame(EnvOf(w, i), DepthSlot(0, 0));
    case PullSnapshot(i, pull) =>
      if pull.Body? {
        SnapshotTheorems.IngestFrame(w.pool, [], pull.book, w.streams[i].exchange, true, DepthSlot(0, 0));
      }
    case ReaderReleases(k) =>
      if w.reader[k].pool == w.pool.id {
        ReaderHoldsLive(w, k);
      }
    case _ =>
  }

  lemma {:induction false} RunStaysSized(w: World, run: seq<Step>)
    requires WorldInv(w) && LegalSteps(w, run)
    ensures Sized(w) ==> Sized(TakeAll(w, run))
    ensures |TakeAll(w, run).pool.cells| == |w.pool.cells| && |TakeAll(w, run).streams| == |w.streams|
    ensures forall i :: 0 <= i < |w.streams| ==> TakeAll(w, run).streams[i].exchange == w.streams[i].exchange
    decreases |run|
  {
    if run != [] {
      StepConserves(w, run[0]);
      StepSameSize(w, run[0]);
      RunStaysSized(Take(w, run[0]), run[1..]);
    }
  }

  /** ... after any run of all streams, the reader and the other producers. */
  lemma RunsDryOnlyByReader(w: World, run: seq<Step>, i: nat, target: seq<DepthSlot>, depths: seq<Depth>)
    requires WorldInv(w) && Sized(w) && LegalSteps(w, run)
    requires IsTarget(TakeAll(w, run), i, target)
    ensures |target| <= DEPTH_BUFFER_SIZE
    ensures
      var t := TakeAll(w, run);
      RunsDry(t.pool, target, depths) ==> Own(t.reader, t.pool.id) != multiset{}
  {
    RunStaysSized(w, run);
    ExhaustionNeedsReader(TakeAll(w, run), i, target, depths);
  }

  /** With such a reader, a message is dropped for lack of room only when its buffer is too
      small for it. */
  lemma FullMeansBuffer(w: World, i: nat, target: seq<DepthSlot>, book: Book, location: nat, snapshot: bool)
    requires WorldInv(w) && Sized(w) && IsTarget(w, i, target) && |target| <= DEPTH_BUFFER_SIZE
    requires Own(w.reader, w.pool.id) == multiset{}
    ensures IngestInto(w.pool, target, book, location, snapshot).result == Err(Full) ==>
              |target| + |book.levels| > DEPTH_BUFFER_SIZE
  {
    RoomForTarget(w, i, target);
    IngestOutcome(w.pool, target, book, location, snapshot);
  }

  /** The item after which only `after.inbox` is left is a text too long for what is left of the
      buffer. */
  ghost predicate TooLong(inbox: seq<Item>, after: Stream) {
    exists k ::
      && 0 <= k < |inbox| && after.inbox == inbox[k + 1..]
      && inbox[k].Frame? && inbox[k].message.Text?
      && |Target(after)| + |inbox[k].message.book.levels| > DEPTH_BUFFER_SIZE
  }

  lemma FullPoll(w: World, i: nat)
    requires WorldInv(w) && Sized(w) && i < |w.streams| && Own(w.reader, w.pool.id) == multiset{}
    ensures EnvOk(EnvOf(w, i))
    ensures
      var polled := PollNext(EnvOf(w, i));
      polled.state == BufferFull ==> TooLong(w.streams[i].inbox, polled.env.stream)
  {
    hide PoolOk, AllLiveOnce, PollNext, Fold, Grew, WorldInv, Own;
    PollEnvKeeps(w, i);
    var e := EnvOf(w, i);
    var polled := PollNext(e);
    PollTheorems.PollRefinesFold(e);
    if polled.state == BufferFull {
      StepSameSize(w, Poll(i));
      RoomForTarget(WithEnv(w, i, polled.env), i, Target(polled.env.stream));
      FullFold(e.pool.archives, ViewOf(PollTheorems.NewestSent(e)));
    }
  }

  /** The driver's pool for `n` exchanges; `None` where the sum overflows `usize`. */
  function SharedCapacity(n: nat): Option<nat> {
    var capacity := DEPTH_CHANNEL_SIZE + n * MAX_BUFFERED_DEPTHS;
    if capacity <= USIZE_MAX then Some(capacity) else None
  }

  /** An exchange's own pool, from the capacity of its channel: the sum must neither overflow
      `usize` nor exceed `u32::MAX`. An unbounded channel reports `usize::MAX`. */
  function PrivateCapacity(channel: nat): Result<nat, ()>
    requires channel <= USIZE_MAX
  {
    var checkedAdd := if channel + MAX_BUFFERED_DEPTHS <= USIZE_MAX then Some(channel + MAX_BUFFERED_DEPTHS) else None;
    if checkedAdd.Some? && checkedAdd.value <= U32_MAX then Ok(checkedAdd.value) else Err(())
  }

  function NewStreams(exchangeNames: seq<nat>): seq<Stream> {
    seq(|exchangeNames|, i requires 0 <= i < |exchangeNames| =>
      Stream(exchangeNames[i], false, 0, false, [], [], [], []))
  }

  /** What the driver builds for these exchanges. */
  ghost predicate DriverBuilt(w: World, exchangeNames: seq<nat>) {
    && Initial(w) && w.streams == NewStreams(exchangeNames)
    && w.sink == Sink(DEPTH_CHANNEL_SIZE, [], Open)
    && SharedCapacity(|exchangeNames|) == Some(|w.pool.cells|)
  }

  /** One new stream for each configured exchange, in the order of the configuration; an empty
      pool of 10000 cells and 4000 for each exchange; an empty channel of 10000 places. */
  lemma BuiltAs(w: World, exchangeNames: seq<nat>)
    requires DriverBuilt(w, exchangeNames)
    ensures |w.streams| == |w.unread| == |exchangeNames|
    ensures
      forall i :: 0 <= i < |exchangeNames| ==>
        var s := w.streams[i];
        && s.exchange == exchangeNames[i] && !s.connected && s.streamCount == 0 && !s.bufferWebsocketDepths
        && s.buffer == [] && s.websocketDepthBuffer == [] && s.depthUpdateBuffer == [] && s.inbox == []
    ensures |w.pool.cells| == 10000 + 4000 * |exchangeNames| && |w.pool.free| == |w.pool.cells|
    ensures w.sink.capacity == 10000 && w.sink.queue == [] && w.sink.status == Open && w.reader == []
  {
    LiveCount(w.pool);
  }

  /** One pool for all exchanges of a driver is large enough: whatever happened since it was
      built, it runs dry only while the reader holds a slot. */
  lemma SharedPoolSuffices(init: World, exchangeNames: seq<nat>, run: seq<Step>, t: World,
                           i: nat, target: seq<DepthSlot>, depths: seq<Depth>)
    requires DriverBuilt(init, exchangeNames) && Reached(init, run, t) && IsTarget(t, i, target)
    ensures PoolOk(t.pool) && |target| <= DEPTH_BUFFER_SIZE
    ensures RunsDry(t.pool, target, depths) ==> Own(t.reader, t.pool.id) != multiset{}
  {
    InitialHolds(init);
    RunsDryOnlyByReader(init, run, i, target, depths);
  }

  /** So is an exchange's own pool, for a channel of any capacity, also when other exchanges send
      on that channel. */
  lemma PrivatePoolSuffices(init: World, run: seq<Step>, t: World, i: nat, target: seq<DepthSlot>, depths: seq<Depth>)
    requires Reached(init, run, t) && |init.streams| == 1 && init.sink.capacity <= USIZE_MAX
    requires PrivateCapacity(init.sink.capacity) == Ok(|init.pool.cells|) && IsTarget(t, i, target)
    ensures PoolOk(t.pool) && |target| <= DEPTH_BUFFER_SIZE
    ensures |t.pool.cells| == init.sink.capacity + 4000 <= U32_MAX
    ensures RunsDry(t.pool, target, depths) ==> Own(t.reader, t.pool.id) != multiset{}
  {
    InitialHolds(init);
    RunStaysSized(init, run);
    RunsDryOnlyByReader(init, run, i, target, depths);
  }

  /** It has a cell for each place of the channel, 1000 for each of three buffers and 1000 for a
      snapshot; it is refused exactly when it would have more than `u32::MAX` cells. */
  lemma PrivateRefused(channel: nat)
    requires channel <= USIZE_MAX
    ensures PrivateCapacity(channel) == if channel + 4 * 1000 > 0xFFFF_FFFF then Err(()) else Ok(channel + 4 * 1000)
  {}

  /** So while the reader holds nothing, a poll drops a text as full only when what is left of its
      buffer is too small for it, however much the others hold. */
  lemma FullPollMeansBuffer(init: World, exchangeNames: seq<nat>, run: seq<Step>, t: World, i: nat)
    requires DriverBuilt(init, exchangeNames) && Reached(init, run, t) && i < |t.streams|
    requires Own(t.reader, t.pool.id) == multiset{}
    ensures EnvOk(EnvOf(t, i))
    ensures
      var polled := PollNext(EnvOf(t, i));
      polled.state == BufferFull ==> TooLong(t.streams[i].inbox, polled.env.stream)
  {
    InitialHolds(init);
    RunStaysSized(init, run);
    FullPoll(t, i);
  }

  // ----- what the update buffer and the websocket buffer do -----

  lemma StepGrows(w: World, step: Step, i: nat)
    requires WorldInv(w) && Enabled(w, step) && i < |w.streams|
    ensures
      var t := Take(w, step);
      && |t.streams| == |w.streams|
      && w.streams[i].depthUpdateBuffer <= t.streams[i].depthUpdateBuffer
      && (w.streams[i].websocketDepthBuffer == [] ==> t.streams[i].websocketDepthBuffer == [])
  {
    hide PoolOk, AllLiveOnce, PollNext, Holdings;
    if step.Poll? {
      StreamBalanced(w, step.stream);
      BalancedOk(EnvOf(w, step.stream), Rest(w, step.stream));
      SnapshotTheorems.PollKeepsFrame(EnvOf(w, step.stream), DepthSlot(0, 0));
    }
  }

  /** No step takes a slot out of `depth_update_buffer`, so a snapshot that has been loaded is
      never sent; and no step ever fills `websocket_depth_buffer`, so the websocket depths that
      arrive meanwhile are not set aside. */
  lemma {:induction false} UpdateBufferOnlyGrows(w: World, run: seq<Step>, i: nat)
    requires WorldInv(w) && LegalSteps(w, run) && i < |w.streams|
    ensures
      var t := TakeAll(w, run);
      && |t.streams| == |w.streams|
      && w.streams[i].depthUpdateBuffer <= t.streams[i].depthUpdateBuffer
      && (w.streams[i].websocketDepthBuffer == [] ==> t.streams[i].websocketDepthBuffer == [])
    decreases |run|
  {
    if run != [] {
      StepConserves(w, run[0]);
      StepGrows(w, run[0], i);
      UpdateBufferOnlyGrows(Take(w, run[0]), run[1..], i);
    }
  }
}
