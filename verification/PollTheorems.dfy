/** What one poll of an exchange stream amounts to, and what a run of polls does when the
    channel pushes back. */
module PollTheorems {
  import opened Prelude
  import opened DepthPools
  import opened StreamModel
  import opened PollFold

  /** The newest buffered slot has moved to the end of the channel. */
  ghost function NewestSent(e: Env): Env {
    if e.stream.buffer == [] then e
    else
      var n := |e.stream.buffer| - 1;
      e.(stream := e.stream.(buffer := e.stream.buffer[..n]),
         sink := e.sink.(queue := e.sink.queue + [e.stream.buffer[n]]))
  }

  ghost predicate CanSend(sink: Sink) {
    sink.status == Open && |sink.queue| < sink.capacity
  }

  /** The four answers of the channel to the reader: the slot goes to its end exactly when it is
      open and has a place left. */
  lemma SinkAnswers(sink: Sink, slot: DepthSlot)
    ensures
      var (after, outcome) := StreamModel.TrySend(sink, slot);
      match sink.status
      case Open =>
        if |sink.queue| < sink.capacity then
          && outcome == Sent && after.queue == sink.queue + [slot]
          && after.capacity == sink.capacity && after.status == Open
        else outcome == SinkFull && after == sink
      case Closed => outcome == SinkClosed && after == sink
      case ReceiveClosed => outcome == SinkReceiveClosed && after == sink
  {}

  /** One poll: a full channel changes nothing, a closed one costs the newest slot, which goes
      back to the pool; otherwise at most one slot is sent and then the ready items are folded,
      which decides the state, the new depths of the target and what is left to read. */
  lemma PollRefinesFold(e: Env)
    requires EnvOk(e)
    ensures
      var s := e.stream;
      var polled := PollNext(e);
      if s.buffer != [] && e.sink.status == Open && !CanSend(e.sink) then
        polled == Polled(e, SenderError)
      else if s.buffer != [] && !CanSend(e.sink) then
        && polled.state == SenderError && polled.env.sink == e.sink
        && polled.env.stream == s.(buffer := s.buffer[..|s.buffer| - 1])
        && Live(polled.env.pool) == Live(e.pool) - {s.buffer[|s.buffer| - 1]}
      else
        && EnvOk(NewestSent(e))
        && var folded := Fold(e.pool.archives, ViewOf(NewestSent(e)));
           && polled.state == folded.state
           && Sees(NewestSent(e), polled.env, folded.view, folded.accepted)
  {
    var s := e.stream;
    if s.buffer != [] && !CanSend(e.sink) {
      if e.sink.status != Open {
        ReleaseKeeps(e.pool, s.buffer[|s.buffer| - 1]);
      }
    } else {
      SendsThenDrains(e);
      if s.connected {
        DrainSees(NewestSent(e));
      } else {
        SeesNothing(NewestSent(e), NewestSent(e));
      }
    }
  }

  lemma SendsThenDrains(e: Env)
    requires EnvOk(e) && (e.stream.buffer == [] || CanSend(e.sink))
    ensures EnvOk(NewestSent(e))
    ensures PollNext(e) == if e.stream.connected then Drain(NewestSent(e)) else Polled(NewestSent(e), FailedStream)
  {
    SendOneKeeps(e);
    assert SendOne(e) == (NewestSent(e), None);
  }

  // ----- backpressure -----

  datatype Drained = Drained(stream: Stream, delivered: seq<DepthSlot>)

  /** Polls of one stream while no message arrives. Before each poll the channel may have been
      read, or filled by others: it is an arbitrary open channel. */
  ghost function DrainPolls(e: Env, sinks: seq<Sink>): Drained
    requires EnvOk(e) && e.stream.inbox == []
    requires forall i :: 0 <= i < |sinks| ==> sinks[i].status == Open
    decreases |sinks|
  {
    if sinks == [] then Drained(e.stream, [])
    else
      var polled := PollNext(e.(sink := sinks[0])).env;
      QuietPoll(e.(sink := sinks[0]));
      var rest := DrainPolls(polled, sinks[1..]);
      Drained(rest.stream, polled.sink.queue[|sinks[0].queue|..] + rest.delivered)
  }

  lemma QuietPoll(e: Env)
    requires EnvOk(e) && e.stream.inbox == [] && e.sink.status == Open
    ensures
      var polled := PollNext(e).env;
      && EnvOk(polled)
      && polled == if CanSend(e.sink) then NewestSent(e) else e
  {
    SendOneKeeps(e);
  }

  /** Last in, first out, nothing lost, nothing repeated: what has been delivered, followed by
      what is still buffered newest first, is the initial buffer newest first. */
  lemma {:induction false} BackpressureDrain(e: Env, sinks: seq<Sink>)
    requires EnvOk(e) && e.stream.inbox == []
    requires forall i :: 0 <= i < |sinks| ==> sinks[i].status == Open
    ensures
      var d := DrainPolls(e, sinks);
      && d.delivered + Reverse(d.stream.buffer) == Reverse(e.stream.buffer)
    decreases |sinks|
  {
    if sinks != [] {
      var now := e.(sink := sinks[0]);
      QuietPoll(now);
      var polled := PollNext(now).env;
      DrainStep(now);
      BackpressureDrain(polled, sinks[1..]);
      var d := DrainPolls(polled, sinks[1..]);
      Associate(polled.sink.queue[|sinks[0].queue|..], d.delivered, Reverse(d.stream.buffer));
    }
  }

  /** A channel that stays full leaves the stream as it was. */
  lemma {:induction false} FullChannelKeeps(e: Env, sinks: seq<Sink>)
    requires EnvOk(e) && e.stream.inbox == []
    requires forall i :: 0 <= i < |sinks| ==> sinks[i].status == Open && !CanSend(sinks[i])
    ensures DrainPolls(e, sinks) == Drained(e.stream, [])
    decreases |sinks|
  {
    if sinks != [] {
      QuietPoll(e.(sink := sinks[0]));
      FullChannelKeeps(e.(sink := sinks[0]), sinks[1..]);
    }
  }

  /** A channel with room empties the buffer in as many polls as it holds slots. */
  lemma {:induction false} RoomEmptiesBuffer(e: Env, sinks: seq<Sink>)
    requires EnvOk(e) && e.stream.inbox == [] && |e.stream.buffer| <= |sinks|
    requires forall i :: 0 <= i < |sinks| ==> sinks[i].status == Open && CanSend(sinks[i])
    ensures DrainPolls(e, sinks).stream.buffer == []
    ensures DrainPolls(e, sinks).delivered == Reverse(e.stream.buffer)
    decreases |sinks|
  {
    BackpressureDrain(e, sinks);
    if sinks != [] {
      var now := e.(sink := sinks[0]);
      QuietPoll(now);
      DrainStep(now);
      RoomEmptiesBuffer(PollNext(now).env, sinks[1..]);
    }
    assert DrainPolls(e, sinks).delivered + Reverse([]) == DrainPolls(e, sinks).delivered;
  }

  lemma DrainStep(e: Env)
    requires EnvOk(e) && e.stream.inbox == [] && e.sink.status == Open
    ensures
      var polled := PollNext(e).env;
      && |polled.sink.queue| >= |e.sink.queue|
      && polled.sink.queue[|e.sink.queue|..] + Reverse(polled.stream.buffer) == Reverse(e.stream.buffer)
      && (CanSend(e.sink) && e.stream.buffer != [] ==> |polled.stream.buffer| == |e.stream.buffer| - 1)
      && (!CanSend(e.sink) || e.stream.buffer == [] ==> polled.stream == e.stream)
  {
    QuietPoll(e);
    if CanSend(e.sink) && e.stream.buffer != [] {
      var n := |e.stream.buffer| - 1;
      assert e.stream.buffer == e.stream.buffer[..n] + [e.stream.buffer[n]];
      ReverseSnoc(e.stream.buffer[..n], e.stream.buffer[n]);
    }
  }
}
