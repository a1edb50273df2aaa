/** The fixed-capacity pool that stored depths live in. A handle is a pool id and a cell index;
    handles are copied freely, so releasing each one once is a discipline of their users. */
module DepthPools {
  import opened Prelude

  /** Price and quantity are decimals scaled to integers. */
  datatype Level = Level(side: nat, price: int, quantity: int)

  datatype Depth = Depth(level: Level, location: nat, snapshot: bool)

  datatype DepthSlot = DepthSlot(pool: nat, index: nat)

  datatype PoolError = Exhausted | Archive

  /** `archives` says which depths the archiver can store. The free list is a stack. */
  datatype Pool = Pool(id: nat, archives: Depth -> bool, cells: seq<Option<Depth>>, free: seq<nat>)

  datatype Inserted = Inserted(pool: Pool, result: Result<DepthSlot, PoolError>)

  /** A cell is free or occupied, and the free list names each free cell once. */
  ghost predicate PoolOk(p: Pool) {
    && (forall i :: 0 <= i < |p.free| ==> p.free[i] < |p.cells|)
    && (forall i, j :: 0 <= i < j < |p.free| ==> p.free[i] != p.free[j])
    && (forall c :: 0 <= c < |p.cells| ==> (p.cells[c].None? <==> c in p.free))
  }

  ghost function Live(p: Pool): set<DepthSlot> {
    set c | 0 <= c < |p.cells| && p.cells[c].Some? :: DepthSlot(p.id, c)
  }

  ghost predicate IsLive(p: Pool, slot: DepthSlot) {
    slot.pool == p.id && slot.index < |p.cells| && p.cells[slot.index].Some?
  }

  function InsertDepth(p: Pool, depth: Depth): Inserted
    requires PoolOk(p)
  {
    if p.free == [] then Inserted(p, Err(Exhausted))
    else if !p.archives(depth) then Inserted(p, Err(Archive))
    else
      var c := p.free[|p.free| - 1];
      Inserted(p.(cells := p.cells[c := Some(depth)], free := p.free[..|p.free| - 1]), Ok(DepthSlot(p.id, c)))
  }

  function ReleaseSlot(p: Pool, slot: DepthSlot): Pool
    requires slot.index < |p.cells|
  {
    p.(cells := p.cells[slot.index := None], free := p.free + [slot.index])
  }

  lemma InsertKeeps(p: Pool, depth: Depth)
    requires PoolOk(p)
    ensures PoolOk(InsertDepth(p, depth).pool)
    ensures
      var i := InsertDepth(p, depth);
      if i.result.Ok? then
        && !IsLive(p, i.result.value) && IsLive(i.pool, i.result.value)
        && Live(i.pool) == Live(p) + {i.result.value}
        && |i.pool.free| == |p.free| - 1
      else i.pool == p
  {
    var i := InsertDepth(p, depth);
    if i.result.Ok? {
      var slot := i.result.value;
      assert slot.index in p.free;
      forall s: DepthSlot
        ensures IsLive(i.pool, s) <==> IsLive(p, s) || s == slot
      {}
      LiveIs(p);
      LiveIs(i.pool);
      forall c | 0 <= c < |i.pool.cells|
        ensures i.pool.cells[c].None? <==> c in i.pool.free
      {
        assert c in p.free && c != slot.index ==> c in i.pool.free;
      }
    }
  }

  lemma ReleaseKeeps(p: Pool, slot: DepthSlot)
    requires PoolOk(p) && IsLive(p, slot)
    ensures PoolOk(ReleaseSlot(p, slot)) && !IsLive(ReleaseSlot(p, slot), slot)
    ensures Live(ReleaseSlot(p, slot)) == Live(p) - {slot}
    ensures |ReleaseSlot(p, slot).free| == |p.free| + 1
  {
    var q := ReleaseSlot(p, slot);
    LiveIs(p);
    LiveIs(q);
    forall s: DepthSlot
      ensures IsLive(q, s) <==> IsLive(p, s) && s != slot
    {}
  }

  lemma LiveIs(p: Pool)
    ensures forall s :: s in Live(p) <==> IsLive(p, s)
  {
    forall s | IsLive(p, s)
      ensures s in Live(p)
    {
      assert s == DepthSlot(p.id, s.index);
    }
  }

  /** Occupied and free cells together are the capacity. */
  lemma {:induction false} LiveCount(p: Pool)
    requires PoolOk(p)
    ensures |Live(p)| + |p.free| == |p.cells|
    decreases |p.free|
  {
    if p.free == [] {
      AllLive(p.id, |p.cells|);
      assert Live(p) == Slots(p.id, |p.cells|);
    } else {
      var depth := Depth(Level(0, 0, 0), 0, false);
      var q := p.(archives := _ => true);
      assert Live(q) == Live(p);
      InsertKeeps(q, depth);
      LiveIs(q);
      LiveCount(InsertDepth(q, depth).pool);
    }
  }

  ghost function Slots(id: nat, n: nat): set<DepthSlot> {
    set c | 0 <= c < n :: DepthSlot(id, c)
  }

  lemma {:induction false} AllLive(id: nat, n: nat)
    ensures |Slots(id, n)| == n
  {
    if n != 0 {
      AllLive(id, n - 1);
      assert Slots(id, n) == Slots(id, n - 1) + {DepthSlot(id, n - 1)};
    }
  }

  class DepthPool {
    const id: nat
    const archives: Depth -> bool
    const cells: array<Option<Depth>>
    var free: seq<nat>

    ghost function State(): Pool
      reads this, cells
    {
      Pool(id, archives, cells[..], free)
    }

    ghost predicate Valid()
      reads this, cells
    {
      PoolOk(State())
    }

    constructor WithCapacity(id: nat, capacity: nat, archives: Depth -> bool)
      ensures Valid() && fresh(cells)
      ensures this.id == id && State().archives == archives && |State().cells| == capacity && Live(State()) == {}
    {
      this.id, this.archives := id, archives;
      cells := new Option<Depth>[capacity](_ => None);
      free := seq(capacity, i => i);
      new;
      assert forall c :: 0 <= c < capacity ==> cells[..][c] == None && free[c] == c;
    }

    method Insert(depth: Depth) returns (r: Result<DepthSlot, PoolError>)
      requires Valid()
      modifies this, cells
      ensures Valid() && Inserted(State(), r) == InsertDepth(old(State()), depth)
    {
      InsertKeeps(State(), depth);
      if |free| == 0 {
        return Err(Exhausted);
      }
      if !archives(depth) {
        return Err(Archive);
      }
      var c := free[|free| - 1];
      cells[c] := Some(depth);
      free := free[..|free| - 1];
      assert cells[..] == old(cells[..])[c := Some(depth)];
      return Ok(DepthSlot(id, c));
    }

    method Release(slot: DepthSlot)
      requires Valid() && IsLive(State(), slot)
      modifies this, cells
      ensures Valid() && State() == ReleaseSlot(old(State()), slot)
    {
      ReleaseKeeps(State(), slot);
      cells[slot.index] := None;
      free := free + [slot.index];
      assert cells[..] == old(cells[..])[slot.index := None];
    }
  }
}
