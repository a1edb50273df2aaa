/** `depth_update_buffer` is also the buffer that `run_snapshot` is filling. For exchange 2, what
    ends up there is the snapshot interleaved with what the polls accept, so "snapshot first" holds
    exactly when the polls before the last push accept no depth. */
module ExchangeTwo {
  import opened Prelude
  import opened DepthPools
  import opened Ingest
  import opened StreamModel
  import opened SnapshotModel
  import PollTheorems
  import opened SnapshotTheorems
  import opened PollFold

  /** A stream of exchange 2 has nothing in its outgoing buffer: nothing ever fills it. */
  ghost predicate Two(e: Env) {
    EnvOk(e) && e.stream.exchange == 2 && e.stream.buffer == []
  }

  /** So a poll only folds the ready items into the update buffer. */
  lemma PollSees(e: Env)
    requires Two(e)
    ensures
      var folded := Fold(e.pool.archives, ViewOf(e));
      var polled := PollNext(e);
      && polled.state == folded.state && Two(polled.env)
      && Sees(e, polled.env, folded.view, folded.accepted)
  {
    hide PoolOk, AllLiveOnce, Fold, PollNext, Grew;
    PollTheorems.PollRefinesFold(e);
  }

  // ----- the snapshot loop -----

  /** A push, the items that arrive, and a poll. */
  ghost function Turn(archives: Depth -> bool, v: View, items: seq<Item>): (View, seq<Depth>)
    requires v.room > 0
  {
    var folded := Fold(archives, v.(room := v.room - 1, inbox := v.inbox + items));
    (folded.view, folded.accepted)
  }

  /** The view after pushing `n` slots; `None` when a push finds the buffer full. */
  ghost function Load(archives: Depth -> bool, v: View, n: nat, arrivals: seq<seq<Item>>): Option<View>
    decreases n
  {
    if n == 0 then Some(v)
    else if v.room == 0 then None
    else Load(archives, Turn(archives, v, Head(arrivals)).0, n - 1, Tail(arrivals))
  }

  /** What the polls before the last push accept. */
  ghost function Between(archives: Depth -> bool, v: View, n: nat, arrivals: seq<seq<Item>>): seq<Depth>
    decreases n
  {
    if n <= 1 || v.room == 0 then []
    else
      var (after, accepted) := Turn(archives, v, Head(arrivals));
      accepted + Between(archives, after, n - 1, Tail(arrivals))
  }

  /** Each depth of the snapshot, and after it what its poll accepts. */
  ghost function Woven(archives: Depth -> bool, v: View, snapshot: seq<Depth>, arrivals: seq<seq<Item>>): seq<Depth>
    decreases |snapshot|
  {
    if snapshot == [] || v.room == 0 then []
    else
      var (after, accepted) := Turn(archives, v, Head(arrivals));
      [snapshot[0]] + accepted + Woven(archives, after, snapshot[1..], Tail(arrivals))
  }

  ghost predicate AllHeld(p: Pool, slots: seq<DepthSlot>) {
    forall i :: 0 <= i < |slots| ==> IsLive(p, slots[i])
  }

  lemma GrownReads(p: Pool, q: Pool, was: seq<DepthSlot>, now: seq<DepthSlot>, depths: seq<Depth>)
    requires Grew(p, q, was, now, depths) && AllHeld(q, was)
    requires ReadBack(q, was) == ReadBack(p, was)
    ensures AllHeld(q, now) && ReadBack(q, now) == ReadBack(p, was) + Somes(depths)
  {
    var more := now[|was|..];
    assert now == was + more;
    ReadBackConcat(q, was, more);
    assert ReadBack(q, more) == Somes(depths);
  }

  /** One turn, in terms of what the buffer reads back as; slots held meanwhile keep reading back
      the same. */
  lemma TurnReads(e: Env, slot: DepthSlot, items: seq<Item>, held: seq<DepthSlot>)
    requires Two(e) && AllHeld(e.pool, held) && AllHeld(e.pool, e.stream.depthUpdateBuffer) && IsLive(e.pool, slot)
    requires |e.stream.depthUpdateBuffer| < DEPTH_BUFFER_SIZE
    ensures
      var next := Arrive(PushUpdate(e, slot), items);
      var (v, accepted) := Turn(e.pool.archives, ViewOf(e), items);
      && EnvOk(next)
      && var q := PollNext(next).env;
         && Two(q) && ViewOf(q) == v && q.pool.archives == e.pool.archives
         && AllHeld(q.pool, held) && ReadBack(q.pool, held) == ReadBack(e.pool, held)
         && AllHeld(q.pool, q.stream.depthUpdateBuffer)
         && ReadBack(q.pool, q.stream.depthUpdateBuffer)
            == ReadBack(e.pool, e.stream.depthUpdateBuffer + [slot]) + Somes(accepted)
  {
    hide PoolOk, AllLiveOnce, Fold, PollNext, Grew, ReadBack;
    var next := Arrive(PushUpdate(e, slot), items);
    var pushed := e.stream.depthUpdateBuffer + [slot];
    var q := PollNext(next).env;
    PollSees(next);
    PollReads(next, held);
    PollReads(next, pushed);
    GrownReads(e.pool, q.pool, pushed, q.stream.depthUpdateBuffer, Turn(e.pool.archives, ViewOf(e), items).1);
  }

  lemma PollReads(e: Env, held: seq<DepthSlot>)
    requires Two(e) && AllHeld(e.pool, held)
    ensures AllHeld(PollNext(e).env.pool, held) && ReadBack(PollNext(e).env.pool, held) == ReadBack(e.pool, held)
  {
    PollHolds(e, held);
  }

  /** The loop leaves in the buffer what was there, then the weave. */
  lemma {:induction false} LoadsWoven(e: Env, slots: seq<DepthSlot>, snapshot: seq<Depth>, arrivals: seq<seq<Item>>)
    requires Two(e) && AllHeld(e.pool, slots) && AllHeld(e.pool, e.stream.depthUpdateBuffer)
    requires ReadBack(e.pool, slots) == Somes(snapshot)
    ensures
      var run := PushSnapshot(e, slots, arrivals);
      var loaded := Load(e.pool.archives, ViewOf(e), |slots|, arrivals);
      && run.outcome == (if loaded.Some? then Done else Panicked)
      && (run.outcome == Done ==>
            && Two(run.env) && ViewOf(run.env) == loaded.value
            && ReadBack(run.env.pool, run.env.stream.depthUpdateBuffer)
               == ReadBack(e.pool, e.stream.depthUpdateBuffer)
                  + Somes(Woven(e.pool.archives, ViewOf(e), snapshot, arrivals)))
    decreases |slots|
  {
    assert |slots| == |ReadBack(e.pool, slots)| == |snapshot|;
    if slots == [] {
      assert ReadBack(e.pool, e.stream.depthUpdateBuffer) + Somes([]) == ReadBack(e.pool, e.stream.depthUpdateBuffer);
    } else if |e.stream.depthUpdateBuffer| < DEPTH_BUFFER_SIZE {
      var rest := slots[1..];
      assert AllHeld(e.pool, rest);
      assert ReadBack(e.pool, rest) == ReadBack(e.pool, slots)[1..] == Somes(snapshot)[1..] == Somes(snapshot[1..]);
      TurnReads(e, slots[0], Head(arrivals), rest);
      var q := PollNext(Arrive(PushUpdate(e, slots[0]), Head(arrivals))).env;
      LoadsWoven(q, rest, snapshot[1..], Tail(arrivals));
      assert Somes(snapshot)[0] == ReadBack(e.pool, slots)[0];
      WovenReads(e, slots[0], snapshot, arrivals);
    }
  }

  lemma WovenReads(e: Env, slot: DepthSlot, snapshot: seq<Depth>, arrivals: seq<seq<Item>>)
    requires StreamOk(e.stream) && ViewOf(e).room > 0 && snapshot != []
    requires slot.index < |e.pool.cells| && e.pool.cells[slot.index] == Some(snapshot[0])
    ensures
      var was := e.stream.depthUpdateBuffer;
      var (after, accepted) := Turn(e.pool.archives, ViewOf(e), Head(arrivals));
      var rest := Woven(e.pool.archives, after, snapshot[1..], Tail(arrivals));
      (ReadBack(e.pool, was + [slot]) + Somes(accepted)) + Somes(rest)
      == ReadBack(e.pool, was) + Somes(Woven(e.pool.archives, ViewOf(e), snapshot, arrivals))
  {
    var was := e.stream.depthUpdateBuffer;
    var (after, accepted) := Turn(e.pool.archives, ViewOf(e), Head(arrivals));
    var rest := Woven(e.pool.archives, after, snapshot[1..], Tail(arrivals));
    assert ReadBack(e.pool, [slot]) == Somes([snapshot[0]]);
    hide ReadBack, Somes, Fold;
    ReadBackConcat(e.pool, was, [slot]);
    SomesConcat([snapshot[0]], accepted);
    SomesConcat([snapshot[0]] + accepted, rest);
    FourParts(ReadBack(e.pool, was), Somes([snapshot[0]]), Somes(accepted), Somes(rest));
  }

  lemma FourParts<X>(a: seq<X>, b: seq<X>, c: seq<X>, d: seq<X>)
    ensures ((a + b) + c) + d == a + ((b + c) + d)
  {}

  lemma {:induction false} LoadRoom(archives: Depth -> bool, v: View, w: View, n: nat, arrivals: seq<seq<Item>>)
    requires SameRoom(v, w)
    ensures
      var loaded, same := Load(archives, v, n, arrivals), Load(archives, w, n, arrivals);
      && (same.Some? <==> loaded.Some?)
      && (loaded.Some? ==> SameRoom(loaded.value, same.value))
    decreases n
  {
    if n != 0 && v.room != 0 {
      var items := Head(arrivals);
      RoomFold(archives, v.(room := v.room - 1, inbox := v.inbox + items),
               w.(room := w.room - 1, inbox := w.inbox + items));
      LoadRoom(archives, Turn(archives, v, items).0, Turn(archives, w, items).0, n - 1, Tail(arrivals));
    }
  }

  // ----- snapshot first -----

  ghost predicate FromSnapshot(depths: seq<Depth>, snapshot: bool) {
    forall i :: 0 <= i < |depths| ==> depths[i].snapshot == snapshot
  }

  lemma {:induction false} AcceptedFromWebsocket(archives: Depth -> bool, v: View)
    ensures FromSnapshot(Fold(archives, v).accepted, false)
    decreases |v.inbox|
  {
    if v.connected && v.inbox != [] && v.inbox[0].Frame? && v.count == 1 && (v.exchange == 1 || v.exchange == 2) {
      var rest := v.(inbox := v.inbox[1..]);
      match See(archives, v.inbox[0].message, Fitting(v.room, v.free))
      case NoSpace =>
      case Skip => AcceptedFromWebsocket(archives, rest);
      case Accept(depths) => AcceptedFromWebsocket(archives, Less(rest, |depths|));
    }
  }

  /** The weave begins with the whole snapshot exactly when nothing is accepted in between. */
  lemma {:induction false} WovenFirst(archives: Depth -> bool, v: View, snapshot: seq<Depth>, arrivals: seq<seq<Item>>)
    requires FromSnapshot(snapshot, true) && Load(archives, v, |snapshot|, arrivals).Some?
    ensures snapshot <= Woven(archives, v, snapshot, arrivals) <==> Between(archives, v, |snapshot|, arrivals) == []
    decreases |snapshot|
  {
    hide Fold;
    if |snapshot| > 1 {
      var (after, accepted) := Turn(archives, v, Head(arrivals));
      var woven := Woven(archives, v, snapshot, arrivals);
      var rest := Woven(archives, after, snapshot[1..], Tail(arrivals));
      AcceptedFromWebsocket(archives, v.(room := v.room - 1, inbox := v.inbox + Head(arrivals)));
      WovenFirst(archives, after, snapshot[1..], Tail(arrivals));
      if accepted == [] {
        assert woven == [snapshot[0]] + rest;
        assert snapshot == [snapshot[0]] + snapshot[1..];
        assert snapshot[1..] <= rest <==> snapshot <= woven by {
          assert woven[1..] == rest;
        }
      } else {
        assert woven[1] == accepted[0] && !woven[1].snapshot && snapshot[1].snapshot;
      }
    }
  }

  /** The view once a snapshot of `n` depths has been pulled. */
  ghost function PulledView(e: Env, n: nat): View
    requires StreamOk(e.stream) && n <= |e.pool.free|
  {
    ViewOf(e).(free := |e.pool.free| - n)
  }

  lemma PullLoads(e: Env, book: Book)
    requires Two(e) && AllHeld(e.pool, e.stream.depthUpdateBuffer)
    requires PullDepths(e.pool, 2, Body(book)).result.Ok?
    ensures
      var depths := Depths(book.levels, 2, true);
      var pulled := PullDepths(e.pool, 2, Body(book));
      var start := BufferingOn(e).(pool := pulled.pool);
      && |depths| <= |e.pool.free| && Two(start) && ViewOf(start) == PulledView(e, |depths|)
      && pulled.pool.archives == e.pool.archives
      && AllHeld(start.pool, pulled.result.value) && AllHeld(start.pool, e.stream.depthUpdateBuffer)
      && ReadBack(start.pool, pulled.result.value) == Somes(depths)
      && ReadBack(start.pool, e.stream.depthUpdateBuffer) == ReadBack(e.pool, e.stream.depthUpdateBuffer)
  {
    var depths := Depths(book.levels, 2, true);
    var pulled := PullDepths(e.pool, 2, Body(book));
    PullStores(e.pool, 2, book);
    PullKeeps(e.pool, 2, Body(book), []);
    StoredFree(e.pool, pulled.pool, pulled.result.value, depths);
    assert ReadBack(pulled.pool, pulled.result.value) == Somes(depths);
    forall i | 0 <= i < |e.stream.depthUpdateBuffer|
      ensures IsLive(pulled.pool, e.stream.depthUpdateBuffer[i])
      ensures
        var c := e.stream.depthUpdateBuffer[i].index;
        pulled.pool.cells[c] == e.pool.cells[c]
    {
      IngestFrame(e.pool, [], book, 2, true, e.stream.depthUpdateBuffer[i]);
    }
  }

  /** `run_snapshot` of exchange 2, for every state of the connection, every pending and arriving
      item and any room: it fails exactly when the snapshot is not accepted, and panics exactly
      when a push finds no room; otherwise the buffer reads back as before, then the weave. The
      snapshot is in front of every websocket depth of this start-up if and only if the polls
      before the last push accept none. */
  lemma SnapshotFirstExactly(e: Env, book: Book, arrivals: seq<seq<Item>>)
    requires Two(e) && AllHeld(e.pool, e.stream.depthUpdateBuffer)
    ensures
      var depths := Depths(book.levels, 2, true);
      var run := RunSnapshot(e, Body(book), arrivals);
      var accepted := book.wellFormed && Storable(e.pool.archives, depths) && |depths| <= Space(e.pool, []);
      && (run.outcome == SnapshotError <==> !accepted)
      && (accepted ==>
            var v := PulledView(e, |depths|);
            && run.outcome == (if Load(e.pool.archives, v, |depths|, arrivals).Some? then Done else Panicked)
            && (run.outcome == Done ==>
                  var was, now := e.stream.depthUpdateBuffer, run.env.stream.depthUpdateBuffer;
                  var loaded := ReadBack(run.env.pool, now);
                  && loaded == ReadBack(e.pool, was) + Somes(Woven(e.pool.archives, v, depths, arrivals))
                  && (Somes(depths) <= loaded[|was|..]
                      <==> Between(e.pool.archives, v, |depths|, arrivals) == [])))
  {
    var depths := Depths(book.levels, 2, true);
    PullStores(e.pool, 2, book);
    PullKeeps(e.pool, 2, Body(book), []);
    var pulled := PullDepths(e.pool, 2, Body(book));
    if pulled.result.Ok? {
      PullLoads(e, book);
      var start := BufferingOn(e).(pool := pulled.pool);
      LoadsWoven(start, pulled.result.value, depths, arrivals);
      if Load(e.pool.archives, PulledView(e, |depths|), |depths|, arrivals).Some? {
        var woven := Woven(e.pool.archives, PulledView(e, |depths|), depths, arrivals);
        WovenFirst(e.pool.archives, PulledView(e, |depths|), depths, arrivals);
        SomesPrefix(depths, woven);
        AfterPrefix(ReadBack(e.pool, e.stream.depthUpdateBuffer), Somes(woven));
      }
    }
  }

  lemma AfterPrefix<X>(a: seq<X>, b: seq<X>)
    ensures (a + b)[|a|..] == b
  {}

  lemma SomesPrefix(a: seq<Depth>, b: seq<Depth>)
    ensures Somes(a) <= Somes(b) <==> a <= b
  {
    if Somes(a) <= Somes(b) {
      forall i | 0 <= i < |a|
        ensures a[i] == b[i]
      {
        assert Somes(a)[i] == Some(a[i]) && Somes(b)[i] == Some(b[i]);
      }
    }
  }
}
