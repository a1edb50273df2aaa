/** One exchange stream as values: its depth buffers, the websocket items that are ready, the
    pool and the outgoing channel; and `poll_next` as a function on them. */
module StreamModel {
  import opened Prelude
  import opened DepthPools
  import opened Ingest

  datatype Message = Text(book: Book) | Ping | Pong | OtherMessage

  /** What polling the websocket reader yields while it is ready. */
  datatype Item = Frame(message: Message) | Failure | Ended

  datatype SinkStatus = Open | Closed | ReceiveClosed

  /** The bounded channel to the reader of depths. */
  datatype Sink = Sink(capacity: nat, queue: seq<DepthSlot>, status: SinkStatus)

  datatype SendOutcome = Sent | SinkFull | SinkClosed | SinkReceiveClosed

  /** `inbox` holds the items the websocket reader has ready, in order. */
  datatype Stream = Stream(
    exchange: nat,
    connected: bool,
    streamCount: nat,
    bufferWebsocketDepths: bool,
    buffer: seq<DepthSlot>,
    websocketDepthBuffer: seq<DepthSlot>,
    depthUpdateBuffer: seq<DepthSlot>,
    inbox: seq<Item>)

  datatype StreamState = WSError | SenderError | FailedStream | BufferFull | Success | WaitingForDepth

  /** A stream with the pool and channel it shares with others. */
  datatype Env = Env(stream: Stream, pool: Pool, sink: Sink)

  datatype Polled = Polled(env: Env, state: StreamState)

  function TrySend(sink: Sink, slot: DepthSlot): (Sink, SendOutcome) {
    match sink.status
    case Closed => (sink, SinkClosed)
    case ReceiveClosed => (sink, SinkReceiveClosed)
    case Open =>
      if |sink.queue| >= sink.capacity then (sink, SinkFull)
      else (sink.(queue := sink.queue + [slot]), Sent)
  }

  ghost predicate StreamOk(s: Stream) {
    && |s.buffer| <= DEPTH_BUFFER_SIZE
    && |s.websocketDepthBuffer| <= DEPTH_BUFFER_SIZE
    && |s.depthUpdateBuffer| <= DEPTH_BUFFER_SIZE
  }

  /** The buffered slots are live and distinct: the stream may release each of them. */
  ghost predicate EnvOk(e: Env) {
    StreamOk(e.stream) && PoolOk(e.pool) && AllLiveOnce(e.pool, e.stream.buffer)
  }

  /** At most one buffered slot goes out before the websocket is looked at; `Some` when the
      poll ends there. */
  function SendOne(e: Env): (Env, Option<StreamState>)
    requires EnvOk(e)
  {
    var s := e.stream;
    if s.buffer == [] then (e, None)
    else
      var slot := s.buffer[|s.buffer| - 1];
      var popped := s.(buffer := s.buffer[..|s.buffer| - 1]);
      var (sink, outcome) := TrySend(e.sink, slot);
      match outcome
      case Sent => (e.(stream := popped, sink := sink), None)
      case SinkFull => (e, Some(SenderError))
      case SinkClosed => (e.(stream := popped, pool := ReleaseSlot(e.pool, slot)), Some(SenderError))
      case SinkReceiveClosed => (e.(stream := popped, pool := ReleaseSlot(e.pool, slot)), Some(SenderError))
  }

  /** Exchange 1 ingests into `buffer`, exchange 2 into `depth_update_buffer`; both stamp
      location 1. */
  function IngestText(e: Env, book: Book): (Env, Result<(), IngestError>)
    requires EnvOk(e)
  {
    if e.stream.exchange == 1 then
      var g := IngestInto(e.pool, e.stream.buffer, book, 1, false);
      (e.(stream := e.stream.(buffer := g.target), pool := g.pool), g.result)
    else
      var g := IngestInto(e.pool, e.stream.depthUpdateBuffer, book, 1, false);
      (e.(stream := e.stream.(depthUpdateBuffer := g.target), pool := g.pool), g.result)
  }

  /** What one ready item does: `None` to look at the next one. */
  function Receive(e: Env, item: Item): (Env, Option<StreamState>)
    requires EnvOk(e)
  {
    match item
    case Failure => (e, Some(WSError))
    case Ended => (e, Some(WaitingForDepth))
    case Frame(message) =>
      if e.stream.exchange != 1 && e.stream.exchange != 2 then (e, Some(WaitingForDepth))
      else if e.stream.streamCount != 1 then (e.(stream := e.stream.(streamCount := 1)), Some(Success))
      else
        match message
        case Text(book) =>
          var (after, result) := IngestText(e, book);
          (after, if result == Err(Full) then Some(BufferFull) else None)
        case _ => (e, None)
  }

  function TakeItem(e: Env): Env
    requires e.stream.inbox != []
  {
    e.(stream := e.stream.(inbox := e.stream.inbox[1..]))
  }

  /** An ingest keeps what was live, and a target of live slots stays one. */
  lemma IngestLive(p: Pool, target: seq<DepthSlot>, book: Book, location: nat, snapshot: bool, others: seq<DepthSlot>)
    requires PoolOk(p) && |target| <= DEPTH_BUFFER_SIZE && AllLiveOnce(p, others)
    ensures
      var g := IngestInto(p, target, book, location, snapshot);
      && PoolOk(g.pool) && |g.target| <= DEPTH_BUFFER_SIZE && AllLiveOnce(g.pool, others)
      && (target == others ==> AllLiveOnce(g.pool, g.target))
  {
    IngestContents(p, target, book, location, snapshot);
    var g := IngestInto(p, target, book, location, snapshot);
    if g.result.Ok? {
      var more := g.target[|target|..];
      var depths := Depths(book.levels, location, snapshot);
      StaysLive(p, g.pool, more, depths, others);
      assert g.target == target + more;
    }
  }

  lemma StaysLive(p: Pool, q: Pool, more: seq<DepthSlot>, depths: seq<Depth>, others: seq<DepthSlot>)
    requires Stored(p, q, more, depths) && AllLiveOnce(p, others)
    ensures AllLiveOnce(q, others) && AllLiveOnce(q, others + more)
  {
    forall i | 0 <= i < |others|
      ensures IsLive(q, others[i]) && others[i] !in more
    {
      assert IsLive(p, others[i]) && others[i] == DepthSlot(p.id, others[i].index);
    }
  }

  lemma IngestTextKeeps(e: Env, book: Book)
    requires EnvOk(e)
    ensures
      var after := IngestText(e, book).0;
      EnvOk(after) && after.stream.inbox == e.stream.inbox && after.sink == e.sink
  {
    if e.stream.exchange == 1 {
      IngestLive(e.pool, e.stream.buffer, book, 1, false, e.stream.buffer);
    } else {
      IngestLive(e.pool, e.stream.depthUpdateBuffer, book, 1, false, e.stream.buffer);
    }
  }

  lemma ReceiveKeeps(e: Env, item: Item)
    requires EnvOk(e)
    ensures
      var after := Receive(e, item).0;
      EnvOk(after) && after.stream.inbox == e.stream.inbox && after.sink == e.sink
  {
    if item.Frame? && item.message.Text? {
      IngestTextKeeps(e, item.message.book);
    }
  }

  function Drain(e: Env): (polled: Polled)
    requires EnvOk(e)
    ensures EnvOk(polled.env)
    decreases |e.stream.inbox|
  {
    if e.stream.inbox == [] then Polled(e, WaitingForDepth)
    else
      ReceiveKeeps(TakeItem(e), e.stream.inbox[0]);
      var (after, end) := Receive(TakeItem(e), e.stream.inbox[0]);
      if end.Some? then Polled(after, end.value) else Drain(after)
  }

  lemma SendOneKeeps(e: Env)
    requires EnvOk(e)
    ensures
      var after := SendOne(e).0;
      EnvOk(after) && after.stream.inbox == e.stream.inbox
  {
    if e.stream.buffer != [] {
      ReleaseKeeps(e.pool, e.stream.buffer[|e.stream.buffer| - 1]);
    }
  }

  function PollNext(e: Env): (polled: Polled)
    requires EnvOk(e)
    ensures EnvOk(polled.env)
  {
    SendOneKeeps(e);
    var (sent, end) := SendOne(e);
    if end.Some? then Polled(sent, end.value)
    else if !sent.stream.connected then Polled(sent, FailedStream)
    else Drain(sent)
  }
}
