/** The exchange stream as it is built: buffers, pool and outgoing channel are objects that the
    methods update in place. Each method has exactly the effect its model function gives it. */
module ExchangeStreamImpl {
  import opened Prelude
  import opened DepthPools
  import opened Ingest
  import opened StreamModel
  import opened SnapshotModel

  /** The bounded channel that carries slots to the reader. */
  class DepthChannel {
    const capacity: nat
    var queue: seq<DepthSlot>
    var status: SinkStatus

    ghost function State(): Sink
      reads this
    {
      Sink(capacity, queue, status)
    }

    constructor (capacity: nat)
      ensures State() == Sink(capacity, [], Open)
    {
      this.capacity, queue, status := capacity, [], Open;
    }

    method TrySend(slot: DepthSlot) returns (outcome: SendOutcome)
      modifies this
      ensures (State(), outcome) == StreamModel.TrySend(old(State()), slot)
    {
      match status
      case Closed => outcome := SinkClosed;
      case ReceiveClosed => outcome := SinkReceiveClosed;
      case Open =>
        if |queue| >= capacity {
          outcome := SinkFull;
        } else {
          queue := queue + [slot];
          outcome := Sent;
        }
    }
  }

  class ExchangeStream {
    const exchangeName: nat
    var connected: bool
    var streamCount: nat
    var bufferWebsocketDepths: bool
    const buffer: DepthBuffer
    const websocketDepthBuffer: DepthBuffer
    const depthUpdateBuffer: DepthBuffer
    var inbox: seq<Item>
    const depthPool: DepthPool
    const depthsProducer: DepthChannel

    ghost function State(): Stream
      reads this, buffer, websocketDepthBuffer, depthUpdateBuffer
    {
      Stream(exchangeName, connected, streamCount, bufferWebsocketDepths,
             buffer.items, websocketDepthBuffer.items, depthUpdateBuffer.items, inbox)
    }

    ghost function EnvState(): Env
      reads this, buffer, websocketDepthBuffer, depthUpdateBuffer, depthPool, depthPool.cells, depthsProducer
    {
      Env(State(), depthPool.State(), depthsProducer.State())
    }

    ghost predicate Valid()
      reads this, buffer, websocketDepthBuffer, depthUpdateBuffer, depthPool, depthPool.cells, depthsProducer
    {
      && buffer != websocketDepthBuffer && buffer != depthUpdateBuffer && websocketDepthBuffer != depthUpdateBuffer
      && EnvOk(EnvState())
    }

    constructor (exchangeName: nat, depthPool: DepthPool, depthsProducer: DepthChannel)
      requires depthPool.Valid()
      ensures Valid() && fresh(buffer) && fresh(websocketDepthBuffer) && fresh(depthUpdateBuffer)
      ensures this.depthPool == depthPool && this.depthsProducer == depthsProducer
      ensures State() == Stream(exchangeName, false, 0, false, [], [], [], [])
    {
      this.exchangeName := exchangeName;
      connected, streamCount, bufferWebsocketDepths := false, 0, false;
      buffer := new DepthBuffer();
      websocketDepthBuffer := new DepthBuffer();
      depthUpdateBuffer := new DepthBuffer();
      inbox := [];
      this.depthPool, this.depthsProducer := depthPool, depthsProducer;
    }

    /** The part of `poll_next` before the websocket is looked at. */
    method SendOne() returns (end: Option<StreamState>)
      requires Valid()
      modifies buffer, depthPool, depthPool.cells, depthsProducer
      ensures Valid() && (EnvState(), end) == StreamModel.SendOne(old(EnvState()))
    {
      SendOneKeeps(EnvState());
      ghost var was := buffer.items;
      var popped := buffer.Pop();
      if popped.None? {
        return None;
      }
      var slot := popped.value;
      var outcome := depthsProducer.TrySend(slot);
      match outcome
      case Sent => end := None;
      case SinkFull =>
        buffer.Push(slot);
        end := Some(SenderError);
      case SinkClosed =>
        depthPool.Release(slot);
        end := Some(SenderError);
      case SinkReceiveClosed =>
        depthPool.Release(slot);
        end := Some(SenderError);
    }

    /** The loop over the ready items. */
    method PollNext() returns (state: StreamState)
      requires Valid()
      modifies this`streamCount, this`inbox, buffer, depthUpdateBuffer, depthPool, depthPool.cells, depthsProducer
      ensures Valid() && Polled(EnvState(), state) == StreamModel.PollNext(old(EnvState()))
    {
      hide PoolOk, AllLiveOnce, StreamModel.SendOne, IngestInto;
      SendOneKeeps(EnvState());
      var end := SendOne();
      if end.Some? {
        return end.value;
      }
      if !connected {
        return FailedStream;
      }
      while |inbox| > 0
        invariant Valid()
        invariant StreamModel.Drain(EnvState()) == StreamModel.PollNext(old(EnvState()))
        decreases |inbox|
      {
        var item := inbox[0];
        inbox := inbox[1..];
        ReceiveKeeps(EnvState(), item);
        match item
        case Failure => return WSError;
        case Ended => return WaitingForDepth;
        case Frame(message) =>
          if exchangeName != 1 && exchangeName != 2 {
            return WaitingForDepth;
          }
          // the first frame of a connection is swallowed
          if streamCount != 1 {
            streamCount := 1;
            return Success;
          }
          if message.Text? {
            var ingested;
            if exchangeName == 1 {
              ingested := IngestBook(message.book, 1, false, depthPool, buffer);
            } else {
              ingested := IngestBook(message.book, 1, false, depthPool, depthUpdateBuffer);
            }
            if ingested == Err(Full) {
              return BufferFull;
            }
          }
      }
      return WaitingForDepth;
    }

    method PullDepths(pull: Pull) returns (r: Result<seq<DepthSlot>, ()>)
      requires Valid()
      modifies depthPool, depthPool.cells
      ensures Valid()
      ensures Pulled(depthPool.State(), r) == SnapshotModel.PullDepths(old(depthPool.State()), exchangeName, pull)
      ensures State() == old(State())
    {
      PullKeeps(depthPool.State(), exchangeName, pull, buffer.items);
      if exchangeName != 1 && exchangeName != 2 {
        return Err(());
      }
      match pull
      case PullFailed => return Err(());
      case Body(book) =>
        var depths := new DepthBuffer();
        var ingested := IngestBook(book, exchangeName, true, depthPool, depths);
        return if ingested.Ok? then Ok(depths.items) else Err(());
    }

    /** `arrivals[k]` are the items that become ready before the k-th poll. Each turn of the
        outer loop either succeeds or returns. */
    method RunSnapshot(pull: Pull, arrivals: seq<seq<Item>>) returns (outcome: Outcome)
      requires Valid()
      modifies this`streamCount, this`inbox, this`bufferWebsocketDepths
      modifies buffer, depthUpdateBuffer, depthPool, depthPool.cells, depthsProducer
      ensures Valid() && Run(EnvState(), outcome) == SnapshotModel.RunSnapshot(old(EnvState()), pull, arrivals)
    {
      bufferWebsocketDepths := true;
      var success := false;
      while !success
        invariant Valid()
        invariant !success ==> EnvState() == BufferingOn(old(EnvState()))
        invariant success ==> Run(EnvState(), Done) == SnapshotModel.RunSnapshot(old(EnvState()), pull, arrivals)
        decreases !success
      {
        var pulled := PullDepths(pull);
        if pulled.Err? {
          return SnapshotError;
        }
        outcome := PushSnapshotDepths(pulled.value, arrivals);
        if outcome != Done {
          return;
        }
        success := true;
      }
      return Done;
    }

    method PushSnapshotDepths(slots: seq<DepthSlot>, arrivals: seq<seq<Item>>) returns (outcome: Outcome)
      requires Valid()
      modifies this`streamCount, this`inbox
      modifies buffer, depthUpdateBuffer, depthPool, depthPool.cells, depthsProducer
      ensures Valid() && Run(EnvState(), outcome) == PushSnapshot(old(EnvState()), slots, arrivals)
      ensures outcome != SnapshotError
    {
      var depths, ready := slots, arrivals;
      while |depths| > 0
        invariant Valid()
        invariant PushSnapshot(old(EnvState()), slots, arrivals) == PushSnapshot(EnvState(), depths, ready)
        decreases |depths|
      {
        if |depthUpdateBuffer.items| == DEPTH_BUFFER_SIZE {
          return Panicked;
        }
        depthUpdateBuffer.Push(depths[0]);
        inbox := inbox + Head(ready);
        var _ := PollNext();
        depths, ready := depths[1..], Tail(ready);
      }
      return Done;
    }

    method PushBufferedWsDepths() returns (outcome: Outcome)
      requires Valid()
      modifies this`bufferWebsocketDepths, websocketDepthBuffer, depthUpdateBuffer
      ensures Valid() && Run(EnvState(), outcome) == PushBuffered(old(EnvState()))
    {
      while true
        invariant Valid()
        invariant PushBuffered(old(EnvState())) == PushBuffered(EnvState())
        decreases |websocketDepthBuffer.items|
      {
        ghost var was := websocketDepthBuffer.items;
        var popped := websocketDepthBuffer.Pop();
        if popped.None? {
          break;
        }
        assert was[..|was| - 1] == websocketDepthBuffer.items;
        if |depthUpdateBuffer.items| == DEPTH_BUFFER_SIZE {
          return Panicked;
        }
        depthUpdateBuffer.Push(popped.value);
      }
      bufferWebsocketDepths := false;
      return Done;
    }
  }
}
