/** The driver as it is built: it makes the shared pool and the channel, and one stream object
    for each exchange. */
module DepthDriverImpl {
  import opened Prelude
  import opened DepthPools
  import opened Ingest
  import opened StreamModel
  import opened SnapshotModel
  import opened ExchangeStreamImpl
  import opened Ownership
  import opened OwnershipTheorems
  import opened SyncModel
  import SyncTheorems

  ghost function Buffers(e: ExchangeStream): set<DepthBuffer> {
    {e.buffer, e.websocketDepthBuffer, e.depthUpdateBuffer}
  }

  ghost function States(exchanges: seq<ExchangeStream>, buffers: set<DepthBuffer>): seq<Stream>
    requires forall i :: 0 <= i < |exchanges| ==> Buffers(exchanges[i]) <= buffers
    reads exchanges, buffers
  {
    seq(|exchanges|, i requires 0 <= i < |exchanges| && Buffers(exchanges[i]) <= buffers reads exchanges, buffers =>
      exchanges[i].State())
  }

  lemma NewStreamsNext(exchangeNames: seq<nat>, k: nat)
    requires k < |exchangeNames|
    ensures NewStreams(exchangeNames[..k + 1]) == NewStreams(exchangeNames[..k]) + NewStreams([exchangeNames[k]])
  {}

  class DepthDriver {
    const pool: DepthPool
    const depths: DepthChannel
    var exchanges: seq<ExchangeStream>
    ghost var buffers: set<DepthBuffer>

    /** Objects are not shared between streams, except the pool and the channel. */
    ghost predicate Valid()
      reads this, exchanges
    {
      && (forall i :: 0 <= i < |exchanges| ==>
            && Buffers(exchanges[i]) <= buffers
            && exchanges[i].depthPool == pool && exchanges[i].depthsProducer == depths
            && exchanges[i].buffer != exchanges[i].websocketDepthBuffer
            && exchanges[i].buffer != exchanges[i].depthUpdateBuffer
            && exchanges[i].websocketDepthBuffer != exchanges[i].depthUpdateBuffer)
      && (forall i, j :: 0 <= i < j < |exchanges| ==>
            exchanges[i] != exchanges[j] && Buffers(exchanges[i]) !! Buffers(exchanges[j]))
    }

    /** The world of this driver, with what the reader holds. */
    ghost function State(reader: seq<DepthSlot>): World
      requires Valid()
      reads this, exchanges, buffers, pool, pool.cells, depths
    {
      World(pool.State(), depths.State(), reader, States(exchanges, buffers), seq(|exchanges|, _ => []))
    }

    /** The pool and the channel, before any exchange is made. */
    constructor Shared(capacity: nat, archives: Depth -> bool)
      ensures Valid() && exchanges == [] && buffers == {}
      ensures fresh(pool) && fresh(pool.cells) && fresh(depths)
      ensures PoolOk(pool.State()) && Live(pool.State()) == {} && |pool.State().cells| == capacity
      ensures pool.State().archives == archives && depths.State() == Sink(DEPTH_CHANNEL_SIZE, [], Open)
    {
      depths := new DepthChannel(DEPTH_CHANNEL_SIZE);
      pool := new DepthPool.WithCapacity(0, capacity, archives);
      exchanges, buffers := [], {};
    }

    method AddExchange(exchangeName: nat)
      requires Valid() && pool.Valid()
      modifies this`exchanges, this`buffers
      ensures Valid() && fresh(buffers - old(buffers))
      ensures |exchanges| == |old(exchanges)| + 1 && exchanges[..|old(exchanges)|] == old(exchanges)
      ensures fresh(exchanges[|old(exchanges)|])
      ensures States(exchanges, buffers) == old(States(exchanges, buffers)) + NewStreams([exchangeName])
    {
      var exchange := new ExchangeStream(exchangeName, pool, depths);
      exchanges, buffers := exchanges + [exchange], buffers + Buffers(exchange);
    }

    /** `builds[k]` is whether exchange `k` can be made: the first that cannot ends it. */
    static method New(exchangeNames: seq<nat>, builds: seq<bool>, archives: Depth -> bool)
      returns (driver: Option<DepthDriver>)
      requires SharedCapacity(|exchangeNames|).Some? && |builds| == |exchangeNames|
      ensures driver.Some? <==> forall k :: 0 <= k < |builds| ==> builds[k]
      ensures
        driver.Some? ==>
          var d := driver.value;
          && d.Valid() && fresh(d) && fresh(d.pool) && fresh(d.pool.cells) && fresh(d.depths)
          && fresh(d.exchanges) && fresh(d.buffers)
          && DriverBuilt(d.State([]), exchangeNames) && d.State([]).pool.archives == archives
          && |d.exchanges| == |exchangeNames|
          && (forall i :: 0 <= i < |exchangeNames| ==>
                var s := d.exchanges[i].State();
                && s.exchange == exchangeNames[i] && !s.connected && s.streamCount == 0 && !s.bufferWebsocketDepths
                && s.buffer == [] && s.websocketDepthBuffer == [] && s.depthUpdateBuffer == [])
          && d.pool.cells.Length == 10000 + 4000 * |exchangeNames| && d.depths.capacity == 10000
    {
      var d := new DepthDriver.Shared(SharedCapacity(|exchangeNames|).value, archives);
      hide PoolOk, Live;
      for k := 0 to |exchangeNames|
        invariant forall i :: 0 <= i < k ==> builds[i]
        invariant d.Valid() && |d.exchanges| == k
        invariant fresh(d.exchanges) && fresh(d.buffers)
        invariant States(d.exchanges, d.buffers) == NewStreams(exchangeNames[..k])
        modifies d
      {
        if !builds[k] {
          return None;
        }
        d.AddExchange(exchangeNames[k]);
        NewStreamsNext(exchangeNames, k);
      }
      assert exchangeNames[..|exchangeNames|] == exchangeNames;
      BuiltAs(d.State([]), exchangeNames);
      assert forall i :: 0 <= i < |d.exchanges| ==> States(d.exchanges, d.buffers)[i] == d.exchanges[i].State();
      driver := Some(d);
    }

    /** The driver has these streams and buffers and is in the state `w`. */
    ghost predicate At(streams: seq<ExchangeStream>, buffers: set<DepthBuffer>, w: World)
      reads this, exchanges, this.buffers, pool, pool.cells, depths
    {
      exchanges == streams && this.buffers == buffers && Valid() && State(w.reader) == w
    }

    method RunSnapshot(i: nat, pull: Pull, arrivals: seq<seq<Item>>, ghost reader: seq<DepthSlot>)
      returns (outcome: Outcome)
      requires Valid() && i < |exchanges| && exchanges[i].Valid()
      modifies exchanges[i], Buffers(exchanges[i]), pool, pool.cells, depths
      ensures
        && Valid()
        && var run := SnapshotModel.RunSnapshot(old(exchanges[i].EnvState()), pull, arrivals);
           State(reader) == WithEnv(old(State(reader)), i, run.env) && outcome == run.outcome
    {
      outcome := exchanges[i].RunSnapshot(pull, arrivals);
    }

    method PushBufferedWsDepths(i: nat, ghost reader: seq<DepthSlot>) returns (outcome: Outcome)
      requires Valid() && i < |exchanges| && exchanges[i].Valid()
      modifies exchanges[i], Buffers(exchanges[i])
      ensures
        && Valid()
        && var run := PushBuffered(old(exchanges[i].EnvState()));
           State(reader) == WithEnv(old(State(reader)), i, run.env) && outcome == run.outcome
    {
      outcome := exchanges[i].PushBufferedWsDepths();
    }

    /** One turn of the first loop of `sync_orderbook`. */
    method SnapshotTurn(i: nat, pulls: seq<Pull>, arrivals: seq<seq<seq<Item>>>,
                        ghost streams: seq<ExchangeStream>, ghost buffers: set<DepthBuffer>, ghost w: World)
      returns (outcome: Outcome, ghost next: World)
      requires At(streams, buffers, w) && WorldInv(w) && i < |streams| == |w.streams| == |pulls| == |arrivals|
      modifies streams, buffers, pool, pool.cells, depths
      ensures At(streams, buffers, next) && |next.streams| == |w.streams| && next.reader == w.reader
      ensures
        if outcome == Done then
          WorldInv(next) && SnapshotPass(w, i, pulls, arrivals) == SnapshotPass(next, i + 1, pulls, arrivals)
        else SnapshotPass(w, i, pulls, arrivals) == Synced(next, outcome)
    {
      SyncTheorems.SnapshotStep(w, i, pulls, arrivals);
      outcome := RunSnapshot(i, pulls[i], arrivals[i], w.reader);
      next := State(w.reader);
    }

    /** One turn of the second loop. */
    method BufferTurn(i: nat, ghost streams: seq<ExchangeStream>, ghost buffers: set<DepthBuffer>, ghost w: World)
      returns (outcome: Outcome, ghost next: World)
      requires At(streams, buffers, w) && WorldInv(w) && i < |streams| == |w.streams|
      modifies streams, buffers
      ensures At(streams, buffers, next) && |next.streams| == |w.streams| && next.reader == w.reader
      ensures
        if outcome == Done then WorldInv(next) && BufferPass(w, i) == BufferPass(next, i + 1)
        else BufferPass(w, i) == Synced(next, outcome)
    {
      SyncTheorems.BufferStep(w, i);
      outcome := PushBufferedWsDepths(i, w.reader);
      next := State(w.reader);
    }

    /** The first loop of `sync_orderbook`. */
    method RunSnapshots(pulls: seq<Pull>, arrivals: seq<seq<seq<Item>>>,
                        ghost streams: seq<ExchangeStream>, ghost buffers: set<DepthBuffer>, ghost w: World)
      returns (outcome: Outcome, ghost now: World)
      requires At(streams, buffers, w) && WorldInv(w)
      requires |exchanges| == |streams| == |w.streams| == |pulls| == |arrivals|
      modifies streams, buffers, pool, pool.cells, depths
      ensures At(streams, buffers, now) && now.reader == w.reader
      ensures Synced(now, outcome) == SnapshotPass(w, 0, pulls, arrivals)
    {
      hide *;
      now := w;
      for i := 0 to |exchanges|
        invariant At(streams, buffers, now) && WorldInv(now)
        invariant |now.streams| == |pulls| && now.reader == w.reader
        invariant SnapshotPass(now, i, pulls, arrivals) == SnapshotPass(w, 0, pulls, arrivals)
      {
        outcome, now := SnapshotTurn(i, pulls, arrivals, streams, buffers, now);
        if outcome != Done {
          return;
        }
      }
      SyncTheorems.PassEnds(now, pulls, arrivals);
      outcome := Done;
    }

    /** The second loop of `sync_orderbook`. */
    method PushAllBufferedWsDepths(ghost streams: seq<ExchangeStream>, ghost buffers: set<DepthBuffer>, ghost w: World)
      returns (outcome: Outcome, ghost now: World)
      requires At(streams, buffers, w) && WorldInv(w) && |exchanges| == |streams| == |w.streams|
      modifies streams, buffers
      ensures At(streams, buffers, now) && now.reader == w.reader
      ensures Synced(now, outcome) == BufferPass(w, 0)
    {
      hide *;
      now := w;
      for i := 0 to |exchanges|
        invariant At(streams, buffers, now) && WorldInv(now)
        invariant |now.streams| == |streams| && now.reader == w.reader
        invariant BufferPass(now, i) == BufferPass(w, 0)
      {
        outcome, now := BufferTurn(i, streams, buffers, now);
        if outcome != Done {
          return;
        }
      }
      SyncTheorems.BufferPassEnds(now);
      outcome := Done;
    }

    /** Every snapshot is loaded before any websocket buffer is moved. */
    method SyncOrderbook(pulls: seq<Pull>, arrivals: seq<seq<seq<Item>>>, ghost reader: seq<DepthSlot>)
      returns (outcome: Outcome)
      requires Valid() && WorldInv(State(reader)) && |exchanges| == |pulls| == |arrivals|
      modifies exchanges, buffers, pool, pool.cells, depths
      ensures Valid() && exchanges == old(exchanges)
      ensures Synced(State(reader), outcome) == SyncModel.SyncOrderbook(old(State(reader)), pulls, arrivals)
    {
      hide WorldInv;
      ghost var now;
      outcome, now := RunSnapshots(pulls, arrivals, exchanges, buffers, State(reader));
      if outcome == Done {
        outcome, now := PushAllBufferedWsDepths(exchanges, buffers, now);
      }
    }
  }
}
