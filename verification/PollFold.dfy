/** What the ready items of a stream amount to: a fold over them that depends only on the room in
    the target buffer and the number of free cells, not on which slots they are. */
module PollFold {
  import opened Prelude
  import opened DepthPools
  import opened Ingest
  import opened StreamModel

  function Target(s: Stream): seq<DepthSlot> {
    if s.exchange == 1 then s.buffer else s.depthUpdateBuffer
  }

  function WithTarget(s: Stream, target: seq<DepthSlot>): Stream {
    if s.exchange == 1 then s.(buffer := target) else s.(depthUpdateBuffer := target)
  }

  // ----- the fold -----

  /** What a poll depends on once it has sent: `room` is that of the buffer it ingests into. */
  datatype View = View(exchange: nat, connected: bool, count: nat, inbox: seq<Item>, room: nat, free: nat)

  datatype Seen = Accept(depths: seq<Depth>) | NoSpace | Skip

  /** The view afterwards, the depths accepted, in order, and how the poll ended. */
  datatype Folded = Folded(view: View, accepted: seq<Depth>, state: StreamState)

  /** A text is accepted whole; or there is no space for it, when the part that fits is storable
      and more follows; or it is malformed or cannot be stored, and is skipped. */
  ghost function See(archives: Depth -> bool, message: Message, space: nat): Seen {
    if !message.Text? then Skip
    else
      var depths := Depths(message.book.levels, 1, false);
      if message.book.wellFormed && Storable(archives, depths) && |depths| <= space then Accept(depths)
      else if space < |depths| && Storable(archives, depths[..space]) then NoSpace
      else Skip
  }

  function Less(v: View, n: nat): View
    requires n <= Fitting(v.room, v.free)
  {
    v.(room := v.room - n, free := v.free - n)
  }

  /** The first frame of a connection is swallowed and ends the fold, and so does every frame of
      an unknown exchange, an error, the end, and the first text without space. */
  ghost function Fold(archives: Depth -> bool, v: View): Folded
    decreases |v.inbox|
  {
    if !v.connected then Folded(v, [], FailedStream)
    else if v.inbox == [] then Folded(v, [], WaitingForDepth)
    else
      var rest := v.(inbox := v.inbox[1..]);
      match v.inbox[0]
      case Failure => Folded(rest, [], WSError)
      case Ended => Folded(rest, [], WaitingForDepth)
      case Frame(message) =>
        if v.exchange != 1 && v.exchange != 2 then Folded(rest, [], WaitingForDepth)
        else if v.count != 1 then Folded(rest.(count := 1), [], Success)
        else
          match See(archives, message, Fitting(v.room, v.free))
          case NoSpace => Folded(rest, [], BufferFull)
          case Skip => Fold(archives, rest)
          case Accept(depths) =>
            var after := Fold(archives, Less(rest, |depths|));
            after.(accepted := depths + after.accepted)
  }

  ghost function ViewOf(e: Env): View
    requires StreamOk(e.stream)
  {
    View(e.stream.exchange, e.stream.connected, e.stream.streamCount, e.stream.inbox,
         DEPTH_BUFFER_SIZE - |Target(e.stream)|, |e.pool.free|)
  }

  /** `BufferFull` means a text that is longer than the space it found. */
  lemma {:induction false} FullFold(archives: Depth -> bool, v: View)
    requires Fold(archives, v).state == BufferFull
    ensures
      var after := Fold(archives, v).view;
      exists k ::
        && 0 <= k < |v.inbox| && after.inbox == v.inbox[k + 1..]
        && v.inbox[k].Frame? && v.inbox[k].message.Text?
        && Fitting(after.room, after.free) < |v.inbox[k].message.book.levels|
    decreases |v.inbox|
  {
    var rest := v.(inbox := v.inbox[1..]);
    var seen := See(archives, v.inbox[0].message, Fitting(v.room, v.free));
    if seen.NoSpace? {
      assert rest.inbox == v.inbox[0 + 1..];
    } else {
      var next := if seen.Skip? then rest else Less(rest, |seen.depths|);
      FullFold(archives, next);
      var after := Fold(archives, v).view;
      var k :| && 0 <= k < |next.inbox| && after.inbox == next.inbox[k + 1..]
               && next.inbox[k].Frame? && next.inbox[k].message.Text?
               && Fitting(after.room, after.free) < |next.inbox[k].message.book.levels|;
      assert v.inbox[k + 1] == next.inbox[k] && v.inbox[k + 1 + 1..] == next.inbox[k + 1..];
    }
  }

  /** While there are free cells for all the room, how many there are makes no difference. */
  ghost predicate SameRoom(v: View, w: View) {
    w.(free := v.free) == v && v.free >= v.room && w.free >= w.room
  }

  lemma {:induction false} RoomFold(archives: Depth -> bool, v: View, w: View)
    requires SameRoom(v, w)
    ensures
      var one, other := Fold(archives, v), Fold(archives, w);
      SameRoom(one.view, other.view) && other.accepted == one.accepted && other.state == one.state
    decreases |v.inbox|
  {
    if v.connected && v.inbox != [] && v.inbox[0].Frame? && v.count == 1 && (v.exchange == 1 || v.exchange == 2) {
      var rest, other := v.(inbox := v.inbox[1..]), w.(inbox := w.inbox[1..]);
      match See(archives, v.inbox[0].message, Fitting(v.room, v.free))
      case NoSpace =>
      case Skip => RoomFold(archives, rest, other);
      case Accept(depths) => RoomFold(archives, Less(rest, |depths|), Less(other, |depths|));
    }
  }

  // ----- buffers that grow -----

  /** The buffer grew by fresh slots that read back as the depths. */
  ghost predicate Grew(p: Pool, q: Pool, was: seq<DepthSlot>, now: seq<DepthSlot>, depths: seq<Depth>) {
    |was| <= |now| && now[..|was|] == was && Stored(p, q, now[|was|..], depths)
  }

  lemma GrewThen(p: Pool, q: Pool, r: Pool, a: seq<DepthSlot>, b: seq<DepthSlot>, c: seq<DepthSlot>,
                 first: seq<Depth>, second: seq<Depth>)
    requires Grew(p, q, a, b, first) && Grew(q, r, b, c, second)
    ensures Grew(p, r, a, c, first + second)
  {
    StoredThen(p, q, r, b[|a|..], first, c[|b|..], second);
    assert c[|a|..] == b[|a|..] + c[|b|..];
    assert c[..|a|] == c[..|b|][..|a|];
  }

  lemma GrewNot(p: Pool, q: Pool, a: seq<DepthSlot>)
    requires q.id == p.id && q.archives == p.archives && q.cells == p.cells
    ensures Grew(p, q, a, a, [])
  {
    assert a[|a|..] == [];
  }

  lemma FreeCount(p: Pool, q: Pool)
    requires PoolOk(p) && PoolOk(q) && p.cells == q.cells && p.id == q.id
    ensures |p.free| == |q.free|
  {
    LiveCount(p);
    LiveCount(q);
    assert Live(p) == Live(q);
  }

  lemma StoredFree(p: Pool, q: Pool, slots: seq<DepthSlot>, depths: seq<Depth>)
    requires PoolOk(p) && PoolOk(q) && Stored(p, q, slots, depths)
    ensures |q.free| == |p.free| - |slots|
  {
    var taken := set i | 0 <= i < |slots| :: slots[i];
    LiveCount(p);
    LiveCount(q);
    LiveIs(p);
    LiveIs(q);
    DistinctCount(slots);
    forall s | IsLive(p, s)
      ensures IsLive(q, s) && s !in slots
    {
      assert s == DepthSlot(p.id, s.index);
    }
    forall s | IsLive(q, s)
      ensures IsLive(p, s) || s in slots
    {
      assert s == DepthSlot(p.id, s.index);
    }
    assert Live(q) == Live(p) + taken;
  }

  lemma {:induction false} DistinctCount<X>(xs: seq<X>)
    requires forall i, j :: 0 <= i < j < |xs| ==> xs[i] != xs[j]
    ensures |set i | 0 <= i < |xs| :: xs[i]| == |xs|
  {
    if xs != [] {
      var n := |xs| - 1;
      DistinctCount(xs[..n]);
      var fewer := set i | 0 <= i < n :: xs[..n][i];
      assert (set i | 0 <= i < |xs| :: xs[i]) == fewer + {xs[n]};
    }
  }

  // ----- the stream computes the fold -----

  /** What the items add to the target, and do to the rest of the stream. */
  ghost predicate Sees(e: Env, q: Env, v: View, accepted: seq<Depth>) {
    && EnvOk(q) && ViewOf(q) == v
    && q.pool.id == e.pool.id && q.pool.archives == e.pool.archives && q.sink == e.sink
    && q.stream == WithTarget(e.stream, Target(q.stream)).(inbox := v.inbox, streamCount := v.count)
    && Grew(e.pool, q.pool, Target(e.stream), Target(q.stream), accepted)
  }

  lemma SeesNothing(e: Env, q: Env)
    requires EnvOk(q) && q.pool.id == e.pool.id && q.pool.archives == e.pool.archives && q.pool.cells == e.pool.cells
    requires q.stream == e.stream.(inbox := q.stream.inbox, streamCount := q.stream.streamCount) && q.sink == e.sink
    ensures Sees(e, q, ViewOf(q), [])
  {
    GrewNot(e.pool, q.pool, Target(e.stream));
  }

  lemma SeesThen(e: Env, m: Env, q: Env, v: View, first: seq<Depth>, w: View, second: seq<Depth>)
    requires Sees(e, m, v, first) && Sees(m, q, w, second)
    ensures Sees(e, q, w, first + second)
  {
    GrewThen(e.pool, m.pool, q.pool, Target(e.stream), Target(m.stream), Target(q.stream), first, second);
  }

  /** Ingesting one text of a known exchange does what `See` says. */
  lemma TextSees(e: Env, book: Book)
    requires EnvOk(e) && (e.stream.exchange == 1 || e.stream.exchange == 2)
    ensures
      var (after, result) := IngestText(e, book);
      match See(e.pool.archives, Text(book), Space(e.pool, Target(e.stream)))
      case Accept(depths) => result.Ok? && Sees(e, after, Less(ViewOf(e), |depths|), depths)
      case NoSpace => result == Err(Full) && Sees(e, after, ViewOf(e), [])
      case Skip => result == Err(Parse) && Sees(e, after, ViewOf(e), [])
  {
    hide PoolOk, AllLiveOnce, IngestInto, Storable;
    var was := Target(e.stream);
    var depths := Depths(book.levels, 1, false);
    var (after, result) := IngestText(e, book);
    IngestTextKeeps(e, book);
    IngestOutcome(e.pool, was, book, 1, false);
    IngestContents(e.pool, was, book, 1, false);
    assert result.Ok? || result.error.Full? || result.error.Parse?;
    if result.Ok? {
      StoredFree(e.pool, after.pool, Target(after.stream)[|was|..], depths);
    } else {
      FreeCount(e.pool, after.pool);
      SeesNothing(e, after);
    }
  }

  ghost predicate Draining(e: Env) {
    EnvOk(e) && e.stream.connected
  }

  lemma {:induction false} DrainSees(e: Env)
    requires Draining(e)
    ensures
      var folded := Fold(e.pool.archives, ViewOf(e));
      Drain(e).state == folded.state && Sees(e, Drain(e).env, folded.view, folded.accepted)
    decreases |e.stream.inbox|
  {
    hide PoolOk, AllLiveOnce, IngestInto, Stored, Grew, IngestText;
    if e.stream.inbox == [] {
      SeesNothing(e, e);
    } else {
      var rest := TakeItem(e);
      var item := e.stream.inbox[0];
      var known := e.stream.exchange == 1 || e.stream.exchange == 2;
      SeesNothing(e, rest);
      ReceiveKeeps(rest, item);
      if !item.Frame? || !known || e.stream.streamCount != 1 {
        SeesNothing(e, Receive(rest, item).0);
      } else if !item.message.Text? {
        DrainSees(rest);
        var folded := Fold(e.pool.archives, ViewOf(rest));
        SeesThen(e, rest, Drain(rest).env, ViewOf(rest), [], folded.view, folded.accepted);
      } else {
        DrainText(e, item.message.book);
      }
    }
  }

  lemma DrainNext(e: Env, book: Book)
    requires Draining(e) && e.stream.streamCount == 1 && (e.stream.exchange == 1 || e.stream.exchange == 2)
    requires e.stream.inbox != [] && e.stream.inbox[0] == Frame(Text(book))
    ensures
      var (after, result) := IngestText(TakeItem(e), book);
      EnvOk(after) && Drain(e) == if result == Err(Full) then Polled(after, BufferFull) else Drain(after)
  {
    hide PoolOk, AllLiveOnce, IngestInto;
    ReceiveKeeps(TakeItem(e), e.stream.inbox[0]);
  }

  lemma {:induction false} DrainText(e: Env, book: Book)
    requires Draining(e) && e.stream.streamCount == 1 && (e.stream.exchange == 1 || e.stream.exchange == 2)
    requires e.stream.inbox != [] && e.stream.inbox[0] == Frame(Text(book))
    ensures
      var folded := Fold(e.pool.archives, ViewOf(e));
      Drain(e).state == folded.state && Sees(e, Drain(e).env, folded.view, folded.accepted)
    decreases |e.stream.inbox|, 0
  {
    hide PoolOk, AllLiveOnce, IngestInto, Stored, Grew, Drain, IngestText, See;
    var rest := TakeItem(e);
    var (after, result) := IngestText(rest, book);
    SeesNothing(e, rest);
    TextSees(rest, book);
    DrainNext(e, book);
    var seen := See(e.pool.archives, Text(book), Space(e.pool, Target(e.stream)));
    var depths := if seen.Accept? then seen.depths else [];
    SeesThen(e, rest, after, ViewOf(rest), [], ViewOf(after), depths);
    assert [] + depths == depths;
    if !seen.NoSpace? {
      DrainSees(after);
      var folded := Fold(e.pool.archives, ViewOf(after));
      SeesThen(e, after, Drain(after).env, ViewOf(after), depths, folded.view, folded.accepted);
      assert [] + folded.accepted == folded.accepted;
    }
  }
}
