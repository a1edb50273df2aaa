/** Who holds the slots. Any number of streams share a pool and a channel with each other, with
    the reader, and with producers of other pools; a step of anyone keeps the live slots of the
    pool equal, as a multiset, to the slots held somewhere, so each is held exactly once. */
module Ownership {
  import opened Prelude
  import opened DepthPools
  import opened Ingest
  import opened StreamModel
  import opened SnapshotModel
  import opened PollTheorems
  import SnapshotTheorems

  /** `unread[i]` is what stream `i` has not yet taken from its snapshot; `reader` the handles
      the reader has received and not released. */
  datatype World = World(
    pool: Pool,
    sink: Sink,
    reader: seq<DepthSlot>,
    streams: seq<Stream>,
    unread: seq<seq<DepthSlot>>)

  /** The handles of pool `id` in a sequence. */
  function Own(slots: seq<DepthSlot>, id: nat): multiset<DepthSlot> {
    if slots == [] then multiset{}
    else (if slots[0].pool == id then multiset{slots[0]} else multiset{}) + Own(slots[1..], id)
  }

  function StreamHold(s: Stream): multiset<DepthSlot> {
    multiset(s.buffer) + multiset(s.websocketDepthBuffer) + multiset(s.depthUpdateBuffer)
  }

  function StreamsHold(streams: seq<Stream>): multiset<DepthSlot> {
    if streams == [] then multiset{} else StreamHold(streams[0]) + StreamsHold(streams[1..])
  }

  function UnreadHold(unread: seq<seq<DepthSlot>>): multiset<DepthSlot> {
    if unread == [] then multiset{} else multiset(unread[0]) + UnreadHold(unread[1..])
  }

  function Holdings(w: World): multiset<DepthSlot> {
    Own(w.sink.queue, w.pool.id) + Own(w.reader, w.pool.id) + StreamsHold(w.streams) + UnreadHold(w.unread)
  }

  ghost predicate WorldInv(w: World) {
    && PoolOk(w.pool)
    && |w.unread| == |w.streams|
    && |w.sink.queue| <= w.sink.capacity
    && (forall i :: 0 <= i < |w.streams| ==> StreamOk(w.streams[i]) && |w.unread[i]| <= DEPTH_BUFFER_SIZE)
    && multiset(Live(w.pool)) == Holdings(w)
  }

  // ----- sums -----

  lemma {:induction false} OwnConcat(a: seq<DepthSlot>, b: seq<DepthSlot>, id: nat)
    ensures Own(a + b, id) == Own(a, id) + Own(b, id)
  {
    if a == [] {
      assert a + b == b;
    } else {
      assert (a + b)[1..] == a[1..] + b;
      OwnConcat(a[1..], b, id);
    }
  }

  lemma OwnSnoc(a: seq<DepthSlot>, slot: DepthSlot, id: nat)
    ensures Own(a + [slot], id) == Own(a, id) + if slot.pool == id then multiset{slot} else multiset{}
  {
    OwnConcat(a, [slot], id);
  }

  lemma {:induction false} StreamsConcat(a: seq<Stream>, b: seq<Stream>)
    ensures StreamsHold(a + b) == StreamsHold(a) + StreamsHold(b)
  {
    if a == [] {
      assert a + b == b;
    } else {
      assert (a + b)[1..] == a[1..] + b;
      StreamsConcat(a[1..], b);
    }
  }

  lemma StreamsAt(streams: seq<Stream>, i: nat, s: Stream)
    requires i < |streams|
    ensures StreamsHold(streams[i := s]) == StreamHold(s) + (StreamsHold(streams[..i]) + StreamsHold(streams[i + 1..]))
  {
    StreamsConcat(streams[..i], [s] + streams[i + 1..]);
    assert streams[i := s] == streams[..i] + ([s] + streams[i + 1..]);
    StreamsCons(s, streams[i + 1..]);
    SwapFirst(StreamsHold(streams[..i]), StreamHold(s), StreamsHold(streams[i + 1..]));
  }

  lemma SwapFirst<X>(a: multiset<X>, b: multiset<X>, c: multiset<X>)
    ensures a + (b + c) == b + (a + c)
  {}

  lemma StreamsCons(s: Stream, streams: seq<Stream>)
    ensures StreamsHold([s] + streams) == StreamHold(s) + StreamsHold(streams)
  {
    assert ([s] + streams)[1..] == streams;
  }

  lemma {:induction false} UnreadConcat(a: seq<seq<DepthSlot>>, b: seq<seq<DepthSlot>>)
    ensures UnreadHold(a + b) == UnreadHold(a) + UnreadHold(b)
  {
    if a == [] {
      assert a + b == b;
    } else {
      assert (a + b)[1..] == a[1..] + b;
      UnreadConcat(a[1..], b);
    }
  }

  lemma UnreadAt(unread: seq<seq<DepthSlot>>, i: nat, slots: seq<DepthSlot>)
    requires i < |unread|
    ensures UnreadHold(unread[i := slots]) == multiset(slots) + (UnreadHold(unread[..i]) + UnreadHold(unread[i + 1..]))
  {
    UnreadConcat(unread[..i], [slots] + unread[i + 1..]);
    assert unread[i := slots] == unread[..i] + ([slots] + unread[i + 1..]);
    assert ([slots] + unread[i + 1..])[1..] == unread[i + 1..];
  }

  // ----- one stream against everyone else -----

  function EnvHold(e: Env): multiset<DepthSlot> {
    StreamHold(e.stream) + Own(e.sink.queue, e.pool.id)
  }

  /** `rest` is what is held outside the stream and the channel. */
  ghost predicate Balanced(e: Env, rest: multiset<DepthSlot>) {
    && StreamOk(e.stream) && PoolOk(e.pool) && |e.sink.queue| <= e.sink.capacity
    && multiset(Live(e.pool)) == EnvHold(e) + rest
  }

  lemma LiveOnce(p: Pool, slots: seq<DepthSlot>)
    requires multiset(slots) <= multiset(Live(p))
    ensures AllLiveOnce(p, slots)
  {
    LiveIs(p);
    forall i | 0 <= i < |slots|
      ensures IsLive(p, slots[i])
    {
      assert slots[i] in multiset(slots);
    }
    forall i, j | 0 <= i < j < |slots|
      ensures slots[i] != slots[j]
    {
      assert slots == slots[..i] + [slots[i]] + slots[i + 1..j] + [slots[j]] + slots[j + 1..];
      assert multiset(slots)[slots[i]] <= 1;
    }
  }

  lemma BalancedOk(e: Env, rest: multiset<DepthSlot>)
    requires Balanced(e, rest)
    ensures EnvOk(e)
  {
    LiveOnce(e.pool, e.stream.buffer);
  }

  lemma StoredLive(p: Pool, q: Pool, slots: seq<DepthSlot>, depths: seq<Depth>)
    requires Stored(p, q, slots, depths)
    ensures multiset(Live(q)) == multiset(Live(p)) + multiset(slots)
  {
    LiveIs(p);
    LiveIs(q);
    forall s: DepthSlot
      ensures multiset(Live(q))[s] == multiset(Live(p))[s] + multiset(slots)[s]
    {
      CountOf(slots, s);
      if IsLive(p, s) {
        assert s == DepthSlot(p.id, s.index);
        assert s !in slots;
      } else if IsLive(q, s) {
        assert s == DepthSlot(p.id, s.index);
      }
    }
  }

  /** Bag algebra: one part of what is held changes together with the whole. */
  lemma PartChanges<X>(whole: multiset<X>, whole': multiset<X>, part: multiset<X>, part': multiset<X>,
                       others: multiset<X>)
    requires whole == part + others && whole' + part == whole + part'
    ensures whole' == part' + others
  {
    forall x
      ensures whole'[x] == (part' + others)[x]
    {
      assert (whole' + part)[x] == (whole + part')[x];
      assert whole[x] == part[x] + others[x];
    }
  }

  ghost function Others(e: Env, rest: multiset<DepthSlot>): multiset<DepthSlot> {
    multiset(e.stream.websocketDepthBuffer) + multiset(e.stream.depthUpdateBuffer) + Own(e.sink.queue, e.pool.id) + rest
  }

  lemma SendOneBalanced(e: Env, rest: multiset<DepthSlot>)
    requires Balanced(e, rest) && EnvOk(e)
    ensures Balanced(SendOne(e).0, rest)
  {
    if e.stream.buffer != [] {
      SendOneKeeps(e);
      if CanSend(e.sink) {
        SentHold(e);
      } else if e.sink.status != Open {
        ClosedBalanced(e, rest);
      }
    }
  }

  lemma SentHold(e: Env)
    requires EnvOk(e) && e.stream.buffer != []
    ensures EnvHold(NewestSent(e)) == EnvHold(e)
  {
    var n := |e.stream.buffer| - 1;
    assert e.stream.buffer == e.stream.buffer[..n] + [e.stream.buffer[n]];
    assert IsLive(e.pool, e.stream.buffer[n]);
    OwnSnoc(e.sink.queue, e.stream.buffer[n], e.pool.id);
  }

  lemma BufferApart(e: Env, rest: multiset<DepthSlot>, buffer: seq<DepthSlot>)
    ensures
      EnvHold(e.(stream := e.stream.(buffer := buffer))) + rest == multiset(buffer) + Others(e, rest)
  {
    hide Own;
  }

  lemma ClosedBalanced(e: Env, rest: multiset<DepthSlot>)
    requires Balanced(e, rest) && EnvOk(e) && e.stream.buffer != [] && e.sink.status != Open
    ensures Balanced(SendOne(e).0, rest)
  {
    hide PoolOk, Live, EnvHold, Others;
    var n := |e.stream.buffer| - 1;
    var slot := e.stream.buffer[n];
    var fewer := e.stream.buffer[..n];
    assert e.stream.buffer == fewer + [slot];
    var pool := ReleaseSlot(e.pool, slot);
    ReleasedLive(e.pool, slot);
    BufferApart(e, rest, e.stream.buffer);
    BufferApart(e, rest, fewer);
    PartChanges(multiset(Live(e.pool)), multiset(Live(pool)), multiset(e.stream.buffer), multiset(fewer),
                Others(e, rest));
    SamePool(e, pool, fewer);
  }

  lemma SamePool(e: Env, pool: Pool, buffer: seq<DepthSlot>)
    requires pool.id == e.pool.id
    ensures EnvHold(e.(stream := e.stream.(buffer := buffer), pool := pool))
            == EnvHold(e.(stream := e.stream.(buffer := buffer)))
  {}

  lemma ReleasedLive(p: Pool, slot: DepthSlot)
    requires PoolOk(p) && IsLive(p, slot)
    ensures PoolOk(ReleaseSlot(p, slot))
    ensures multiset(Live(p)) == multiset(Live(ReleaseSlot(p, slot))) + multiset{slot}
  {
    ReleaseKeeps(p, slot);
    LiveIs(p);
    assert Live(p) == Live(ReleaseSlot(p, slot)) + {slot};
  }

  lemma IngestBalance(p: Pool, target: seq<DepthSlot>, book: Book, location: nat, snapshot: bool)
    requires PoolOk(p) && |target| <= DEPTH_BUFFER_SIZE
    ensures
      var g := IngestInto(p, target, book, location, snapshot);
      && PoolOk(g.pool) && |g.target| <= DEPTH_BUFFER_SIZE && g.pool.id == p.id
      && multiset(Live(g.pool)) + multiset(target) == multiset(Live(p)) + multiset(g.target)
  {
    IngestContents(p, target, book, location, snapshot);
    var g := IngestInto(p, target, book, location, snapshot);
    if g.result.Ok? {
      StoredLive(p, g.pool, g.target[|target|..], Depths(book.levels, location, snapshot));
      assert g.target == target + g.target[|target|..];
    } else {
      assert Live(g.pool) == Live(p);
    }
  }

  lemma IngestTextBalanced(e: Env, book: Book, rest: multiset<DepthSlot>)
    requires Balanced(e, rest) && EnvOk(e)
    ensures Balanced(IngestText(e, book).0, rest)
  {
    var s := e.stream;
    var q := IngestText(e, book).0;
    if s.exchange == 1 {
      IngestBalance(e.pool, s.buffer, book, 1, false);
      PartChanges(multiset(Live(e.pool)), multiset(Live(q.pool)), multiset(s.buffer), multiset(q.stream.buffer),
                  Others(e, rest));
    } else {
      IngestBalance(e.pool, s.depthUpdateBuffer, book, 1, false);
      PartChanges(multiset(Live(e.pool)), multiset(Live(q.pool)),
                  multiset(s.depthUpdateBuffer), multiset(q.stream.depthUpdateBuffer),
                  multiset(s.buffer) + multiset(s.websocketDepthBuffer) + Own(e.sink.queue, e.pool.id) + rest);
    }
  }

  lemma ReceiveBalanced(e: Env, item: Item, rest: multiset<DepthSlot>)
    requires Balanced(e, rest) && EnvOk(e)
    ensures Balanced(Receive(e, item).0, rest)
  {
    if item.Frame? && item.message.Text? {
      IngestTextBalanced(e, item.message.book, rest);
    }
  }

  lemma {:induction false} DrainBalanced(e: Env, rest: multiset<DepthSlot>)
    requires Balanced(e, rest) && EnvOk(e)
    ensures Balanced(Drain(e).env, rest)
    decreases |e.stream.inbox|
  {
    if e.stream.inbox != [] {
      ReceiveKeeps(TakeItem(e), e.stream.inbox[0]);
      ReceiveBalanced(TakeItem(e), e.stream.inbox[0], rest);
      var (after, end) := Receive(TakeItem(e), e.stream.inbox[0]);
      if end.None? {
        DrainBalanced(after, rest);
      }
    }
  }

  lemma PollBalanced(e: Env, rest: multiset<DepthSlot>)
    requires Balanced(e, rest)
    ensures EnvOk(e) && Balanced(PollNext(e).env, rest)
  {
    BalancedOk(e, rest);
    SendOneKeeps(e);
    SendOneBalanced(e, rest);
    var (sent, end) := SendOne(e);
    if end.None? && sent.stream.connected {
      DrainBalanced(sent, rest);
    }
  }

  // ----- steps of the world -----

  datatype Step =
    | Arrivals(stream: nat, items: seq<Item>)
    | Connection(stream: nat, up: bool)
    | Buffering(stream: nat, on: bool)
    | Poll(stream: nat)
    | PullSnapshot(stream: nat, pull: Pull)
    | PushUnread(stream: nat)
    | MoveBuffered(stream: nat)
    | ReaderReceives
    | ReaderReleases(position: nat)
    | OthersSend(slot: DepthSlot)
    | SinkChanges(status: SinkStatus)

  function EnvOf(w: World, i: nat): Env
    requires i < |w.streams|
  {
    Env(w.streams[i], w.pool, w.sink)
  }

  function WithEnv(w: World, i: nat, e: Env): World
    requires i < |w.streams|
  {
    w.(streams := w.streams[i := e.stream], pool := e.pool, sink := e.sink)
  }

  /** A push into a full buffer panics, which ends the run; a snapshot is pulled once the one
      before is used up. */
  ghost predicate Enabled(w: World, step: Step) {
    match step
    case Arrivals(i, _) => i < |w.streams|
    case Connection(i, _) => i < |w.streams|
    case Buffering(i, _) => i < |w.streams|
    case Poll(i) => i < |w.streams|
    case PullSnapshot(i, _) => i < |w.streams| && i < |w.unread| && w.unread[i] == []
    case PushUnread(i) =>
      && i < |w.streams| && i < |w.unread|
      && w.unread[i] != [] && |w.streams[i].depthUpdateBuffer| < DEPTH_BUFFER_SIZE
    case MoveBuffered(i) =>
      i < |w.streams| && w.streams[i].websocketDepthBuffer != []
      && |w.streams[i].depthUpdateBuffer| < DEPTH_BUFFER_SIZE
    case ReaderReceives => w.sink.queue != []
    case ReaderReleases(k) => k < |w.reader|
    case OthersSend(slot) => slot.pool != w.pool.id && CanSend(w.sink)
    case SinkChanges(_) => true
  }

  function MoveNewest(s: Stream): Stream
    requires s.websocketDepthBuffer != []
  {
    var n := |s.websocketDepthBuffer| - 1;
    s.(websocketDepthBuffer := s.websocketDepthBuffer[..n],
       depthUpdateBuffer := s.depthUpdateBuffer + [s.websocketDepthBuffer[n]])
  }

  ghost function Take(w: World, step: Step): World
    requires WorldInv(w) && Enabled(w, step)
  {
    match step
    case Arrivals(i, items) => WithEnv(w, i, Arrive(EnvOf(w, i), items))
    case Connection(i, up) => w.(streams := w.streams[i := w.streams[i].(connected := up)])
    case Buffering(i, on) => w.(streams := w.streams[i := w.streams[i].(bufferWebsocketDepths := on)])
    case Poll(i) =>
      StreamBalanced(w, i);
      BalancedOk(EnvOf(w, i), Rest(w, i));
      WithEnv(w, i, PollNext(EnvOf(w, i)).env)
    case PullSnapshot(i, pull) =>
      var pulled := PullDepths(w.pool, w.streams[i].exchange, pull);
      w.(pool := pulled.pool, unread := w.unread[i := if pulled.result.Ok? then pulled.result.value else []])
    case PushUnread(i) =>
      WithEnv(w, i, PushUpdate(EnvOf(w, i), w.unread[i][0])).(unread := w.unread[i := w.unread[i][1..]])
    case MoveBuffered(i) => w.(streams := w.streams[i := MoveNewest(w.streams[i])])
    case ReaderReceives =>
      w.(sink := w.sink.(queue := w.sink.queue[1..]), reader := w.reader + [w.sink.queue[0]])
    case ReaderReleases(k) =>
      var left := w.(reader := w.reader[..k] + w.reader[k + 1..]);
      if w.reader[k].pool == w.pool.id then
        ReaderHoldsLive(w, k);
        left.(pool := ReleaseSlot(w.pool, w.reader[k]))
      else left
    case OthersSend(slot) => w.(sink := w.sink.(queue := w.sink.queue + [slot]))
    case SinkChanges(status) => w.(sink := w.sink.(status := status))
  }

  /** What stream `i` and the channel do not hold. */
  function Rest(w: World, i: nat): multiset<DepthSlot>
    requires i < |w.streams|
  {
    (StreamsHold(w.streams[..i]) + StreamsHold(w.streams[i + 1..])) + Own(w.reader, w.pool.id) + UnreadHold(w.unread)
  }

  lemma StreamBalanced(w: World, i: nat)
    requires WorldInv(w) && i < |w.streams|
    ensures Balanced(EnvOf(w, i), Rest(w, i))
  {
    hide PoolOk, Live, Own, UnreadHold, StreamHold;
    StreamsAt(w.streams, i, w.streams[i]);
    assert w.streams[i := w.streams[i]] == w.streams;
  }

  lemma {:induction false} OwnHas(slots: seq<DepthSlot>, id: nat, k: nat)
    requires k < |slots| && slots[k].pool == id
    ensures slots[k] in Own(slots, id)
  {
    if k != 0 {
      OwnHas(slots[1..], id, k - 1);
    }
  }

  lemma ReaderHoldsLive(w: World, k: nat)
    requires WorldInv(w) && k < |w.reader| && w.reader[k].pool == w.pool.id
    ensures IsLive(w.pool, w.reader[k])
  {
    OwnHas(w.reader, w.pool.id, k);
    assert w.reader[k] in Holdings(w);
    LiveIs(w.pool);
  }

  /** A stream, the pool and the channel change together in a balanced way. */
  lemma EnvKeeps(w: World, i: nat, e: Env)
    requires WorldInv(w) && i < |w.streams| && Balanced(e, Rest(w, i)) && e.pool.id == w.pool.id
    ensures WorldInv(WithEnv(w, i, e))
  {
    StreamsAt(w.streams, i, e.stream);
  }

  lemma PollSamePool(e: Env)
    requires EnvOk(e)
    ensures PollNext(e).env.pool.id == e.pool.id
  {
    SnapshotTheorems.PollKeepsFrame(e, DepthSlot(0, 0));
  }

  lemma PollEnvKeeps(w: World, i: nat)
    requires WorldInv(w) && i < |w.streams|
    ensures EnvOk(EnvOf(w, i)) && WorldInv(WithEnv(w, i, PollNext(EnvOf(w, i)).env))
  {
    StreamBalanced(w, i);
    PollBalanced(EnvOf(w, i), Rest(w, i));
    PollSamePool(EnvOf(w, i));
    EnvKeeps(w, i, PollNext(EnvOf(w, i)).env);
  }

  /** A stream changes without taking or giving away a slot. */
  lemma StreamKeeps(w: World, i: nat, s: Stream)
    requires WorldInv(w) && i < |w.streams| && StreamOk(s) && StreamHold(s) == StreamHold(w.streams[i])
    ensures WorldInv(w.(streams := w.streams[i := s]))
  {
    StreamBalanced(w, i);
    EnvKeeps(w, i, EnvOf(w, i).(stream := s));
  }

  lemma MoveNewestHold(s: Stream)
    requires s.websocketDepthBuffer != []
    ensures StreamHold(MoveNewest(s)) == StreamHold(s)
  {
    var n := |s.websocketDepthBuffer| - 1;
    assert s.websocketDepthBuffer == s.websocketDepthBuffer[..n] + [s.websocketDepthBuffer[n]];
  }

  function Pulls(p: Pool, exchange: nat, pull: Pull): seq<DepthSlot>
    requires PoolOk(p)
  {
    var pulled := PullDepths(p, exchange, pull);
    if pulled.result.Ok? then pulled.result.value else []
  }

  lemma PulledLive(p: Pool, exchange: nat, pull: Pull)
    requires PoolOk(p)
    ensures
      var q := PullDepths(p, exchange, pull).pool;
      && PoolOk(q) && q.id == p.id && |Pulls(p, exchange, pull)| <= DEPTH_BUFFER_SIZE
      && multiset(Live(q)) == multiset(Live(p)) + multiset(Pulls(p, exchange, pull))
  {
    if pull.Body? && (exchange == 1 || exchange == 2) {
      IngestBalance(p, [], pull.book, exchange, true);
      IngestContents(p, [], pull.book, exchange, true);
    }
  }

  lemma StreamsGain(streams: seq<Stream>, i: nat, s: Stream, gain: multiset<DepthSlot>)
    requires i < |streams| && StreamHold(s) == StreamHold(streams[i]) + gain
    ensures StreamsHold(streams[i := s]) == StreamsHold(streams) + gain
  {
    assert streams[i := streams[i]] == streams;
    StreamsAt(streams, i, streams[i]);
    StreamsAt(streams, i, s);
  }

  lemma UnreadGains(unread: seq<seq<DepthSlot>>, i: nat, slots: seq<DepthSlot>, gain: multiset<DepthSlot>)
    requires i < |unread| && multiset(slots) == multiset(unread[i]) + gain
    ensures UnreadHold(unread[i := slots]) == UnreadHold(unread) + gain
  {
    assert unread[i := unread[i]] == unread;
    UnreadAt(unread, i, unread[i]);
    UnreadAt(unread, i, slots);
  }

  lemma PullKeepsWorld(w: World, i: nat, pull: Pull)
    requires WorldInv(w) && Enabled(w, PullSnapshot(i, pull))
    ensures WorldInv(Take(w, PullSnapshot(i, pull)))
  {
    var slots := Pulls(w.pool, w.streams[i].exchange, pull);
    PulledLive(w.pool, w.streams[i].exchange, pull);
    UnreadGains(w.unread, i, slots, multiset(slots));
    LastGains(Own(w.sink.queue, w.pool.id) + Own(w.reader, w.pool.id) + StreamsHold(w.streams),
              UnreadHold(w.unread), multiset(slots));
  }

  lemma LastGains<X>(a: multiset<X>, b: multiset<X>, gain: multiset<X>)
    ensures a + (b + gain) == (a + b) + gain
  {}

  lemma PartMoves<X>(a: multiset<X>, b: multiset<X>, c: multiset<X>, b': multiset<X>, c': multiset<X>,
                     moved: multiset<X>)
    requires b' == b + moved && c == c' + moved
    ensures a + b' + c' == a + b + c
  {}

  lemma PushHold(e: Env, slot: DepthSlot)
    ensures StreamHold(PushUpdate(e, slot).stream) == StreamHold(e.stream) + multiset{slot}
  {}

  lemma UnreadTail(unread: seq<seq<DepthSlot>>, i: nat)
    requires i < |unread| && unread[i] != []
    ensures UnreadHold(unread) == UnreadHold(unread[i := unread[i][1..]]) + multiset{unread[i][0]}
  {
    var fewer := unread[i := unread[i][1..]];
    assert unread[i] == [unread[i][0]] + unread[i][1..];
    assert fewer[i := unread[i]] == unread;
    UnreadGains(fewer, i, unread[i], multiset{unread[i][0]});
  }

  lemma PushUnreadHoldings(w: World, i: nat, s: Stream)
    requires i < |w.streams| && i < |w.unread| && w.unread[i] != []
    requires StreamHold(s) == StreamHold(w.streams[i]) + multiset{w.unread[i][0]}
    ensures Holdings(w.(streams := w.streams[i := s], unread := w.unread[i := w.unread[i][1..]])) == Holdings(w)
  {
    StreamsGain(w.streams, i, s, multiset{w.unread[i][0]});
    UnreadTail(w.unread, i);
    PartMoves(Own(w.sink.queue, w.pool.id) + Own(w.reader, w.pool.id), StreamsHold(w.streams), UnreadHold(w.unread),
              StreamsHold(w.streams[i := s]), UnreadHold(w.unread[i := w.unread[i][1..]]), multiset{w.unread[i][0]});
  }

  lemma PushUnreadKeeps(w: World, i: nat)
    requires WorldInv(w) && Enabled(w, PushUnread(i))
    ensures WorldInv(Take(w, PushUnread(i)))
  {
    PushHold(EnvOf(w, i), w.unread[i][0]);
    PushUnreadHoldings(w, i, PushUpdate(EnvOf(w, i), w.unread[i][0]).stream);
  }

  lemma ReaderReceivesKeeps(w: World)
    requires WorldInv(w) && w.sink.queue != []
    ensures WorldInv(Take(w, ReaderReceives))
  {
    OwnSnoc(w.reader, w.sink.queue[0], w.pool.id);
  }

  lemma OwnWithout(slots: seq<DepthSlot>, id: nat, k: nat)
    requires k < |slots|
    ensures Own(slots, id)
            == Own(slots[..k] + slots[k + 1..], id) + if slots[k].pool == id then multiset{slots[k]} else multiset{}
  {
    assert slots == (slots[..k] + [slots[k]]) + slots[k + 1..];
    OwnConcat(slots[..k] + [slots[k]], slots[k + 1..], id);
    OwnSnoc(slots[..k], slots[k], id);
    OwnConcat(slots[..k], slots[k + 1..], id);
  }

  lemma ReaderReleasesKeeps(w: World, k: nat)
    requires WorldInv(w) && k < |w.reader|
    ensures WorldInv(Take(w, ReaderReleases(k)))
  {
    var slot := w.reader[k];
    var t := Take(w, ReaderReleases(k));
    OwnWithout(w.reader, w.pool.id, k);
    if slot.pool == w.pool.id {
      ReaderHoldsLive(w, k);
      ReleasedLive(w.pool, slot);
      MiddleLoses(Own(w.sink.queue, w.pool.id), Own(w.reader, w.pool.id), Own(t.reader, w.pool.id),
                  StreamsHold(w.streams), UnreadHold(w.unread), multiset{slot});
      Cancel(multiset(Live(t.pool)), Holdings(t), multiset{slot});
    }
  }

  lemma Cancel<X>(a: multiset<X>, b: multiset<X>, common: multiset<X>)
    requires a + common == b + common
    ensures a == b
  {
    forall x
      ensures a[x] == b[x]
    {
      assert (a + common)[x] == (b + common)[x];
    }
  }

  lemma MiddleLoses<X>(a: multiset<X>, b: multiset<X>, b': multiset<X>, c: multiset<X>, d: multiset<X>,
                       lost: multiset<X>)
    requires b == b' + lost
    ensures a + b + c + d == (a + b' + c + d) + lost
  {}

  lemma OthersSendKeeps(w: World, slot: DepthSlot)
    requires WorldInv(w) && Enabled(w, OthersSend(slot))
    ensures WorldInv(Take(w, OthersSend(slot)))
  {
    OwnSnoc(w.sink.queue, slot, w.pool.id);
  }

  /** Every step keeps the holdings equal to the live slots. */
  lemma StepConserves(w: World, step: Step)
    requires WorldInv(w) && Enabled(w, step)
    ensures WorldInv(Take(w, step))
  {
    match step
    case Arrivals(i, items) => StreamKeeps(w, i, w.streams[i].(inbox := w.streams[i].inbox + items));
    case Connection(i, up) => StreamKeeps(w, i, w.streams[i].(connected := up));
    case Buffering(i, on) => StreamKeeps(w, i, w.streams[i].(bufferWebsocketDepths := on));
    case Poll(i) => PollEnvKeeps(w, i);
    case PullSnapshot(i, pull) => PullKeepsWorld(w, i, pull);
    case PushUnread(i) => PushUnreadKeeps(w, i);
    case MoveBuffered(i) =>
      MoveNewestHold(w.streams[i]);
      StreamKeeps(w, i, MoveNewest(w.streams[i]));
    case ReaderReceives => ReaderReceivesKeeps(w);
    case ReaderReleases(k) => ReaderReleasesKeeps(w, k);
    case OthersSend(slot) => OthersSendKeeps(w, slot);
    case SinkChanges(_) =>
  }
}
