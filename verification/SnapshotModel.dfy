/** The start-up protocol of a stream on values: pull a snapshot, move it slot by slot into
    `depth_update_buffer` while polling, then move the websocket buffer after it. A push into a
    full buffer panics, which ends the run. */
module SnapshotModel {
  import opened Prelude
  import opened DepthPools
  import opened Ingest
  import opened StreamModel

  /** What the HTTP request comes back with. */
  datatype Pull = PullFailed | Body(book: Book)

  datatype Outcome = Done | SnapshotError | Panicked

  datatype Run = Run(env: Env, outcome: Outcome)

  datatype Pulled = Pulled(pool: Pool, result: Result<seq<DepthSlot>, ()>)

  /** Items that become ready between two polls. */
  function Arrive(e: Env, items: seq<Item>): Env {
    e.(stream := e.stream.(inbox := e.stream.inbox + items))
  }

  function Head(arrivals: seq<seq<Item>>): seq<Item> {
    if arrivals == [] then [] else arrivals[0]
  }

  function Tail(arrivals: seq<seq<Item>>): seq<seq<Item>> {
    if arrivals == [] then [] else arrivals[1..]
  }

  function PullDepths(p: Pool, exchange: nat, pull: Pull): Pulled
    requires PoolOk(p)
  {
    if (exchange != 1 && exchange != 2) || pull.PullFailed? then Pulled(p, Err(()))
    else
      var g := IngestInto(p, [], pull.book, exchange, true);
      Pulled(g.pool, if g.result.Ok? then Ok(g.target) else Err(()))
  }

  lemma PullKeeps(p: Pool, exchange: nat, pull: Pull, others: seq<DepthSlot>)
    requires PoolOk(p) && AllLiveOnce(p, others)
    ensures
      var q := PullDepths(p, exchange, pull);
      && PoolOk(q.pool) && AllLiveOnce(q.pool, others)
      && (q.result.Ok? ==> |q.result.value| <= DEPTH_BUFFER_SIZE)
  {
    if pull.Body? {
      IngestLive(p, [], pull.book, exchange, true, others);
    }
  }

  function PushUpdate(e: Env, slot: DepthSlot): Env {
    e.(stream := e.stream.(depthUpdateBuffer := e.stream.depthUpdateBuffer + [slot]))
  }

  /** The loop over the snapshot: push one slot, then poll the stream once. A poll is always
      ready, so it is all that `next().await` does. */
  function PushSnapshot(e: Env, slots: seq<DepthSlot>, arrivals: seq<seq<Item>>): (run: Run)
    requires EnvOk(e)
    ensures EnvOk(run.env)
    decreases |slots|
  {
    if slots == [] then Run(e, Done)
    else if |e.stream.depthUpdateBuffer| == DEPTH_BUFFER_SIZE then Run(e, Panicked)
    else PushSnapshot(PollNext(Arrive(PushUpdate(e, slots[0]), Head(arrivals))).env, slots[1..], Tail(arrivals))
  }

  function BufferingOn(e: Env): Env {
    e.(stream := e.stream.(bufferWebsocketDepths := true))
  }

  function RunSnapshot(e: Env, pull: Pull, arrivals: seq<seq<Item>>): (run: Run)
    requires EnvOk(e)
    ensures EnvOk(run.env)
  {
    PullKeeps(e.pool, e.stream.exchange, pull, e.stream.buffer);
    var pulled := PullDepths(e.pool, e.stream.exchange, pull);
    var started := BufferingOn(e).(pool := pulled.pool);
    match pulled.result
    case Err(_) => Run(started, SnapshotError)
    case Ok(slots) => PushSnapshot(started, slots, arrivals)
  }

  /** The last buffered websocket slot moves first. */
  function PushBuffered(e: Env): Run
    decreases |e.stream.websocketDepthBuffer|
  {
    var s := e.stream;
    if s.websocketDepthBuffer == [] then Run(e.(stream := s.(bufferWebsocketDepths := false)), Done)
    else
      var n := |s.websocketDepthBuffer| - 1;
      var popped := e.(stream := s.(websocketDepthBuffer := s.websocketDepthBuffer[..n]));
      if |s.depthUpdateBuffer| >= DEPTH_BUFFER_SIZE then Run(popped, Panicked)
      else PushBuffered(PushUpdate(popped, s.websocketDepthBuffer[n]))
  }
}
