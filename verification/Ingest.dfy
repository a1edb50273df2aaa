/** `ingest_book`: one order book payload becomes slots at the end of a depth buffer, or leaves
    no trace. */
module Ingest {
  import opened Prelude
  import opened DepthPools

  const DEPTH_BUFFER_SIZE: nat := 1000

  /** What the parser reads from a payload: the levels it reaches, in order, and whether the
      text after them is well formed. */
  datatype Book = Book(levels: seq<Level>, wellFormed: bool)

  datatype IngestError = Full | Parse

  /** The depths taken from the front of a payload, and why the parser's callback stopped. */
  datatype Feed = Feed(pool: Pool, taken: seq<DepthSlot>, stop: FeedStop)

  datatype FeedStop = AllFed | NoRoom | NotArchived

  datatype Ingested = Ingested(pool: Pool, target: seq<DepthSlot>, result: Result<(), IngestError>)

  function Depths(levels: seq<Level>, location: nat, snapshot: bool): seq<Depth> {
    seq(|levels|, i requires 0 <= i < |levels| => Depth(levels[i], location, snapshot))
  }

  function FeedDepths(p: Pool, room: nat, depths: seq<Depth>): Feed
    requires PoolOk(p)
    decreases |depths|
  {
    if depths == [] then Feed(p, [], AllFed)
    else if room == 0 then Feed(p, [], NoRoom)
    else
      InsertKeeps(p, depths[0]);
      var i := InsertDepth(p, depths[0]);
      match i.result
      case Ok(slot) =>
        var rest := FeedDepths(i.pool, room - 1, depths[1..]);
        Feed(rest.pool, [slot] + rest.taken, rest.stop)
      case Err(Exhausted) => Feed(p, [], NoRoom)
      case Err(Archive) => Feed(p, [], NotArchived)
  }

  ghost predicate AllLiveOnce(p: Pool, slots: seq<DepthSlot>) {
    && (forall i :: 0 <= i < |slots| ==> IsLive(p, slots[i]))
    && (forall i, j :: 0 <= i < j < |slots| ==> slots[i] != slots[j])
  }

  function ReleaseAll(p: Pool, slots: seq<DepthSlot>): Pool
    requires PoolOk(p) && AllLiveOnce(p, slots)
    decreases |slots|
  {
    if slots == [] then p
    else
      ReleaseKeeps(p, slots[0]);
      ReleaseSlotsRest(p, slots);
      ReleaseAll(ReleaseSlot(p, slots[0]), slots[1..])
  }

  lemma ReleaseSlotsRest(p: Pool, slots: seq<DepthSlot>)
    requires PoolOk(p) && AllLiveOnce(p, slots) && slots != []
    ensures AllLiveOnce(ReleaseSlot(p, slots[0]), slots[1..])
  {}

  /** What a feed changes: the taken slots are fresh, read back as the depths, and are the only
      cells that differ. */
  ghost predicate Stored(p: Pool, q: Pool, slots: seq<DepthSlot>, depths: seq<Depth>) {
    && q.id == p.id && q.archives == p.archives && |q.cells| == |p.cells|
    && |slots| == |depths|
    && AllLiveOnce(q, slots)
    && (forall i :: 0 <= i < |slots| ==> !IsLive(p, slots[i]) && q.cells[slots[i].index] == Some(depths[i]))
    && (forall c :: 0 <= c < |p.cells| && DepthSlot(p.id, c) !in slots ==> q.cells[c] == p.cells[c])
  }

  lemma StoredNothing(p: Pool)
    ensures Stored(p, p, [], [])
  {}

  lemma InsertStores(p: Pool, depth: Depth)
    requires PoolOk(p) && InsertDepth(p, depth).result.Ok?
    ensures Stored(p, InsertDepth(p, depth).pool, [InsertDepth(p, depth).result.value], [depth])
  {
    InsertKeeps(p, depth);
  }

  lemma StoredThen(p: Pool, q: Pool, r: Pool, a: seq<DepthSlot>, da: seq<Depth>, b: seq<DepthSlot>, db: seq<Depth>)
    requires Stored(p, q, a, da) && Stored(q, r, b, db)
    ensures Stored(p, r, a + b, da + db)
  {
    forall i | 0 <= i < |a|
      ensures a[i] !in b && IsLive(r, a[i]) && r.cells[a[i].index] == Some(da[i])
    {
      assert IsLive(q, a[i]) && a[i] == DepthSlot(q.id, a[i].index);
    }
    forall c | 0 <= c < |p.cells| && DepthSlot(p.id, c) !in a + b
      ensures r.cells[c] == p.cells[c]
    {
      assert DepthSlot(p.id, c) !in a && DepthSlot(p.id, c) !in b;
    }
    forall s | IsLive(p, s)
      ensures IsLive(q, s)
    {
      assert s == DepthSlot(p.id, s.index);
    }
  }

  ghost predicate FedWell(p: Pool, room: nat, depths: seq<Depth>, f: Feed) {
    && PoolOk(f.pool) && |f.taken| <= |depths| && |f.taken| <= room
    && Stored(p, f.pool, f.taken, depths[..|f.taken|])
    && |f.pool.free| == |p.free| - |f.taken|
  }

  lemma {:induction false} FeedStores(p: Pool, room: nat, depths: seq<Depth>)
    requires PoolOk(p)
    ensures FedWell(p, room, depths, FeedDepths(p, room, depths))
    decreases |depths|
  {
    if depths != [] && room != 0 && InsertDepth(p, depths[0]).result.Ok? {
      InsertKeeps(p, depths[0]);
      var i := InsertDepth(p, depths[0]);
      FeedStores(i.pool, room - 1, depths[1..]);
      FedCons(p, room, depths, FeedDepths(i.pool, room - 1, depths[1..]));
    } else {
      StoredNothing(p);
    }
  }

  lemma FedCons(p: Pool, room: nat, depths: seq<Depth>, rest: Feed)
    requires PoolOk(p) && depths != [] && room != 0 && InsertDepth(p, depths[0]).result.Ok?
    requires FedWell(InsertDepth(p, depths[0]).pool, room - 1, depths[1..], rest)
    ensures FedWell(p, room, depths, rest.(taken := [InsertDepth(p, depths[0]).result.value] + rest.taken))
  {
    hide Stored, PoolOk, InsertDepth;
    InsertKeeps(p, depths[0]);
    InsertStores(p, depths[0]);
    var i := InsertDepth(p, depths[0]);
    StoredThen(p, i.pool, rest.pool, [i.result.value], [depths[0]], rest.taken, depths[1..][..|rest.taken|]);
    assert depths[..|rest.taken| + 1] == [depths[0]] + depths[1..][..|rest.taken|];
  }

  /** Where the feed stops, in terms of the payload and the room alone. */
  lemma {:induction false} FeedStops(p: Pool, room: nat, depths: seq<Depth>)
    requires PoolOk(p)
    ensures
      var f := FeedDepths(p, room, depths);
      var space := if room < |p.free| then room else |p.free|;
      && |f.taken| <= |depths| && |f.taken| <= space
      && (forall i :: 0 <= i < |f.taken| ==> p.archives(depths[i]))
      && (f.stop == AllFed <==> |f.taken| == |depths|)
      && (f.stop == NoRoom <==> |f.taken| == space < |depths|)
      && (f.stop == NotArchived ==> |f.taken| < |depths| && !p.archives(depths[|f.taken|]))
    decreases |depths|
  {
    if depths != [] && room != 0 && InsertDepth(p, depths[0]).result.Ok? {
      InsertKeeps(p, depths[0]);
      FeedStops(InsertDepth(p, depths[0]).pool, room - 1, depths[1..]);
    }
  }

  /** Releasing the taken slots restores every cell; only the order of the free list moves. */
  lemma {:induction false} ReleaseAllCells(p: Pool, slots: seq<DepthSlot>)
    requires PoolOk(p) && AllLiveOnce(p, slots)
    ensures
      var r := ReleaseAll(p, slots);
      && PoolOk(r) && r.id == p.id && r.archives == p.archives && |r.cells| == |p.cells|
      && (forall c :: 0 <= c < |p.cells| ==>
            r.cells[c] == if DepthSlot(p.id, c) in slots then None else p.cells[c])
    decreases |slots|
  {
    if slots != [] {
      ReleaseKeeps(p, slots[0]);
      ReleaseSlotsRest(p, slots);
      var q := ReleaseSlot(p, slots[0]);
      ReleaseAllCells(q, slots[1..]);
      assert forall c :: DepthSlot(p.id, c) in slots
                         <==> DepthSlot(p.id, c) == slots[0] || DepthSlot(p.id, c) in slots[1..];
    }
  }

  function IngestInto(p: Pool, target: seq<DepthSlot>, book: Book, location: nat, snapshot: bool): Ingested
    requires PoolOk(p) && |target| <= DEPTH_BUFFER_SIZE
  {
    var depths := Depths(book.levels, location, snapshot);
    var f := FeedDepths(p, DEPTH_BUFFER_SIZE - |target|, depths);
    FeedStores(p, DEPTH_BUFFER_SIZE - |target|, depths);
    if f.stop.AllFed? && book.wellFormed then Ingested(f.pool, target + f.taken, Ok(()))
    else Ingested(ReleaseAll(f.pool, f.taken), target, Err(if f.stop.NoRoom? then Full else Parse))
  }

  function Fitting(room: nat, free: nat): nat {
    if room < free then room else free
  }

  /** How many depths fit: buffer room and free cells both limit it. */
  function Space(p: Pool, target: seq<DepthSlot>): nat
    requires |target| <= DEPTH_BUFFER_SIZE
  {
    Fitting(DEPTH_BUFFER_SIZE - |target|, |p.free|)
  }

  ghost predicate Storable(archives: Depth -> bool, depths: seq<Depth>) {
    forall i :: 0 <= i < |depths| ==> archives(depths[i])
  }

  lemma Undone(p: Pool, q: Pool, slots: seq<DepthSlot>, depths: seq<Depth>)
    requires PoolOk(q) && Stored(p, q, slots, depths)
    ensures
      var r := ReleaseAll(q, slots);
      PoolOk(r) && r.cells == p.cells && r.id == p.id && r.archives == p.archives
  {
    ReleaseAllCells(q, slots);
    var r := ReleaseAll(q, slots);
    forall c | 0 <= c < |p.cells|
      ensures r.cells[c] == p.cells[c]
    {
      var slot := DepthSlot(p.id, c);
      if slot in slots {
        assert !IsLive(p, slot);
      }
    }
  }

  lemma IngestOutcome(p: Pool, target: seq<DepthSlot>, book: Book, location: nat, snapshot: bool)
    requires PoolOk(p) && |target| <= DEPTH_BUFFER_SIZE
    ensures
      var depths := Depths(book.levels, location, snapshot);
      var space := Space(p, target);
      var r := IngestInto(p, target, book, location, snapshot).result;
      && (r.Ok? <==> book.wellFormed && Storable(p.archives, depths) && |depths| <= space)
      && (r == Err(Full) <==> space < |depths| && Storable(p.archives, depths[..space]))
  {
    var depths := Depths(book.levels, location, snapshot);
    var space := Space(p, target);
    var f := FeedDepths(p, DEPTH_BUFFER_SIZE - |target|, depths);
    FeedStops(p, DEPTH_BUFFER_SIZE - |target|, depths);
    if f.stop.NotArchived? {
      assert |f.taken| < space;
      assert |depths| <= space || depths[..space][|f.taken|] == depths[|f.taken|];
    }
  }

  /** What the parser leaves behind decides the outcome. */
  lemma AfterParse(p: Pool, target: seq<DepthSlot>, book: Book, location: nat, snapshot: bool)
    requires PoolOk(p) && |target| <= DEPTH_BUFFER_SIZE
    ensures
      var f := FeedDepths(p, DEPTH_BUFFER_SIZE - |target|, Depths(book.levels, location, snapshot));
      && PoolOk(f.pool) && AllLiveOnce(f.pool, f.taken)
      && IngestInto(p, target, book, location, snapshot)
         == if f.stop.AllFed? && book.wellFormed then Ingested(f.pool, target + f.taken, Ok(()))
            else Ingested(ReleaseAll(f.pool, f.taken), target, Err(if f.stop.NoRoom? then Full else Parse))
  {
    FeedStores(p, DEPTH_BUFFER_SIZE - |target|, Depths(book.levels, location, snapshot));
  }

  lemma IngestContents(p: Pool, target: seq<DepthSlot>, book: Book, location: nat, snapshot: bool)
    requires PoolOk(p) && |target| <= DEPTH_BUFFER_SIZE
    ensures
      var depths := Depths(book.levels, location, snapshot);
      var g := IngestInto(p, target, book, location, snapshot);
      && PoolOk(g.pool)
      && (g.result.Ok? ==>
           && |g.target| == |target| + |depths| <= DEPTH_BUFFER_SIZE && g.target[..|target|] == target
           && Stored(p, g.pool, g.target[|target|..], depths))
      && (g.result.Err? ==>
           g.target == target && g.pool.cells == p.cells && g.pool.id == p.id && g.pool.archives == p.archives)
  {
    hide Stored, PoolOk, FeedDepths, AllLiveOnce;
    var depths := Depths(book.levels, location, snapshot);
    var room := DEPTH_BUFFER_SIZE - |target|;
    var f := FeedDepths(p, room, depths);
    AfterParse(p, target, book, location, snapshot);
    FeedStores(p, room, depths);
    if f.stop.AllFed? && book.wellFormed {
      FeedStops(p, room, depths);
      assert depths[..|depths|] == depths;
      DropPrefix(target, f.taken);
    } else {
      Undone(p, f.pool, f.taken, depths[..|f.taken|]);
    }
  }

  /** All or nothing: it succeeds exactly when the text is well formed, every level can be
      archived and all of them fit; then the target grows by one fresh slot for each level, in
      order, which reads back as that level with the location and the flag. On any failure the
      target and every cell are as before. The failure is `Full` exactly when the levels that fit
      are storable and more of them follow. */
  lemma AllOrNothing(p: Pool, target: seq<DepthSlot>, book: Book, location: nat, snapshot: bool)
    requires PoolOk(p) && |target| <= DEPTH_BUFFER_SIZE
    ensures
      var levels := book.levels;
      var space := Space(p, target);
      var g := IngestInto(p, target, book, location, snapshot);
      && PoolOk(g.pool) && g.pool.id == p.id && g.pool.archives == p.archives && |g.pool.cells| == |p.cells|
      && (g.result.Ok?
          <==> && book.wellFormed && |levels| <= space
               && forall i :: 0 <= i < |levels| ==> p.archives(Depth(levels[i], location, snapshot)))
      && (g.result == Err(Full)
          <==> space < |levels| && forall i :: 0 <= i < space ==> p.archives(Depth(levels[i], location, snapshot)))
      && (g.result.Ok? ==>
            && |g.target| == |target| + |levels| <= DEPTH_BUFFER_SIZE && target <= g.target
            && var more := g.target[|target|..];
               && AllLiveOnce(g.pool, more)
               && (forall i :: 0 <= i < |levels| ==>
                     && !IsLive(p, more[i])
                     && g.pool.cells[more[i].index] == Some(Depth(levels[i], location, snapshot)))
               && (forall c :: 0 <= c < |p.cells| && DepthSlot(p.id, c) !in more ==> g.pool.cells[c] == p.cells[c]))
      && (g.result.Err? ==> g.target == target && g.pool.cells == p.cells)
  {
    var depths := Depths(book.levels, location, snapshot);
    var space := Space(p, target);
    IngestOutcome(p, target, book, location, snapshot);
    IngestContents(p, target, book, location, snapshot);
    hide IngestInto, PoolOk;
    assert |depths| == |book.levels|;
    assert forall i :: 0 <= i < |depths| ==> depths[i] == Depth(book.levels[i], location, snapshot);
    if space < |depths| {
      assert forall i :: 0 <= i < space ==> depths[..space][i] == depths[i];
    }
  }

  /** A fixed-capacity vector of slots. */
  class DepthBuffer {
    var items: seq<DepthSlot>

    predicate Valid()
      reads this
    {
      |items| <= DEPTH_BUFFER_SIZE
    }

    constructor ()
      ensures Valid() && items == []
    {
      items := [];
    }

    method IsFull() returns (full: bool)
      ensures full <==> |items| == DEPTH_BUFFER_SIZE
    {
      full := |items| == DEPTH_BUFFER_SIZE;
    }

    /** Pushing to a full buffer panics. */
    method Push(slot: DepthSlot)
      requires Valid() && |items| < DEPTH_BUFFER_SIZE
      modifies this
      ensures Valid() && items == old(items) + [slot]
    {
      items := items + [slot];
    }

    method Pop() returns (slot: Option<DepthSlot>)
      requires Valid()
      modifies this
      ensures Valid()
      ensures if old(items) == [] then slot == None && items == []
              else slot.Some? && old(items) == items + [slot.value]
    {
      if |items| == 0 {
        return None;
      }
      slot := Some(items[|items| - 1]);
      items := items[..|items| - 1];
    }

    method Drain(start: nat) returns (drained: seq<DepthSlot>)
      requires Valid() && start <= |items|
      modifies this
      ensures Valid() && items == old(items)[..start] && drained == old(items)[start..]
    {
      drained := items[start..];
      items := items[..start];
    }
  }

  /** The parser's callback: one depth goes into the pool and its slot into the target. It
      answers whether to go on, and if not, whether room ran out. */
  method TakeDepth(depth: Depth, pool: DepthPool, target: DepthBuffer) returns (more: bool, full: bool)
    requires pool.Valid() && target.Valid()
    modifies pool, pool.cells, target
    ensures pool.Valid() && target.Valid() && (more ==> !full)
    ensures
      var i := InsertDepth(old(pool.State()), depth);
      if |old(target.items)| < DEPTH_BUFFER_SIZE && i.result.Ok? then
        more && pool.State() == i.pool && target.items == old(target.items) + [i.result.value]
      else
        && !more && pool.State() == old(pool.State()) && target.items == old(target.items)
        && (full <==> |old(target.items)| == DEPTH_BUFFER_SIZE || i.result == Err(Exhausted))
  {
    var isFull := target.IsFull();
    if isFull {
      return false, true;
    }
    var inserted := pool.Insert(depth);
    match inserted
    case Ok(slot) =>
      target.Push(slot);
      return true, false;
    case Err(Exhausted) => return false, true;
    case Err(Archive) => return false, false;
  }

  /** The parser: each level it reads goes to the callback, which may stop it; otherwise it
      succeeds if the text is well formed to the end. */
  method ParseBook(book: Book, location: nat, snapshot: bool, pool: DepthPool, target: DepthBuffer)
    returns (parsed: bool, full: bool)
    requires pool.Valid() && target.Valid()
    modifies pool, pool.cells, target
    ensures pool.Valid() && target.Valid()
    ensures
      var f := FeedDepths(old(pool.State()), DEPTH_BUFFER_SIZE - |old(target.items)|,
                          Depths(book.levels, location, snapshot));
      && pool.State() == f.pool && target.items == old(target.items) + f.taken
      && (parsed <==> f.stop.AllFed? && book.wellFormed) && (full <==> f.stop.NoRoom?)
  {
    hide PoolOk, FeedDepths, InsertDepth;
    ghost var depths := Depths(book.levels, location, snapshot);
    ghost var f := FeedDepths(pool.State(), DEPTH_BUFFER_SIZE - |target.items|, depths);
    ghost var taken: seq<DepthSlot> := [];
    for i := 0 to |book.levels|
      invariant pool.Valid() && target.Valid() && target.items == old(target.items) + taken
      invariant Prepended(f, taken, FeedDepths(pool.State(), DEPTH_BUFFER_SIZE - |target.items|, depths[i..]))
    {
      var depth := Depth(book.levels[i], location, snapshot);
      assert depths[i..][0] == depth && depths[i..][1..] == depths[i + 1..];
      FeedNext(f, taken, pool.State(), DEPTH_BUFFER_SIZE - |target.items|, depths[i..]);
      var more, noRoom := TakeDepth(depth, pool, target);
      if !more {
        return false, noRoom;
      }
      taken := taken + [target.items[|target.items| - 1]];
    }
    FeedEnds(pool.State(), DEPTH_BUFFER_SIZE - |target.items|);
    return book.wellFormed, false;
  }

  lemma FeedNext(f: Feed, taken: seq<DepthSlot>, p: Pool, room: nat, depths: seq<Depth>)
    requires PoolOk(p) && depths != [] && Prepended(f, taken, FeedDepths(p, room, depths))
    ensures
      var i := InsertDepth(p, depths[0]);
      if room > 0 && i.result.Ok? then
        PoolOk(i.pool) && Prepended(f, taken + [i.result.value], FeedDepths(i.pool, room - 1, depths[1..]))
      else
        f == Feed(p, taken, if room == 0 || i.result == Err(Exhausted) then NoRoom else NotArchived)
  {
    InsertKeeps(p, depths[0]);
  }

  lemma FeedEnds(p: Pool, room: nat)
    requires PoolOk(p)
    ensures FeedDepths(p, room, []) == Feed(p, [], AllFed)
  {}

  ghost predicate Prepended(f: Feed, taken: seq<DepthSlot>, rest: Feed) {
    f == rest.(taken := taken + rest.taken)
  }

  method ReleaseEach(slots: seq<DepthSlot>, pool: DepthPool)
    requires pool.Valid() && AllLiveOnce(pool.State(), slots)
    modifies pool, pool.cells
    ensures pool.Valid() && pool.State() == ReleaseAll(old(pool.State()), slots)
  {
    for k := 0 to |slots|
      invariant pool.Valid() && AllLiveOnce(pool.State(), slots[k..])
      invariant ReleaseAll(old(pool.State()), slots) == ReleaseAll(pool.State(), slots[k..])
    {
      assert slots[k..][0] == slots[k] && slots[k..][1..] == slots[k + 1..];
      ReleaseSlotsRest(pool.State(), slots[k..]);
      pool.Release(slots[k]);
    }
  }

  lemma DropPrefix<X>(a: seq<X>, b: seq<X>)
    ensures (a + b)[..|a|] == a && (a + b)[|a|..] == b
  {}

  method IngestBook(book: Book, location: nat, snapshot: bool, pool: DepthPool, target: DepthBuffer)
    returns (r: Result<(), IngestError>)
    requires pool.Valid() && target.Valid()
    modifies pool, pool.cells, target
    ensures pool.Valid() && target.Valid()
    ensures Ingested(pool.State(), target.items, r)
            == IngestInto(old(pool.State()), old(target.items), book, location, snapshot)
  {
    AfterParse(pool.State(), target.items, book, location, snapshot);
    var start := |target.items|;
    ghost var was := target.items;
    var parsed, full := ParseBook(book, location, snapshot, pool, target);
    if !parsed {
      DropPrefix(was, target.items[start..]);
      var slots := target.Drain(start);
      ReleaseEach(slots, pool);
      return Err(if full then Full else Parse);
    }
    return Ok(());
  }
}
