/** The `tx_ids` word of the channel: one bit of a 64-bit mask for each live sender. The
    functions are the machine operations of the source; the lemmas read the mask as the set
    of its bit positions. A position is a `nat`, and a `bv8` where it is a shift amount. */
module SenderIds {
  import opened Prelude

  const MASK_BITS: nat := 64

  function Position(i: nat): (b: bv8)
    requires i <= MASK_BITS
  {
    if i == 0 then 0 else Position(i - 1) + 1
  }

  lemma {:induction false} PositionValue(i: nat)
    requires i <= MASK_BITS
    ensures Position(i) as int == i
  {
    if i != 0 {
      PositionValue(i - 1);
    }
  }

  lemma PositionOrder(i: nat, j: nat)
    requires i <= MASK_BITS && j <= MASK_BITS
    ensures i == j <==> Position(i) == Position(j)
    ensures i < j <==> Position(i) < Position(j)
  {
    PositionValue(i);
    PositionValue(j);
    ShiftOrder(Position(i), Position(j));
  }

  lemma ShiftOrder(a: bv8, b: bv8)
    ensures a == b <==> a as int == b as int
    ensures a < b <==> a as int < b as int
  {}

  lemma SamePosition(i: nat, j: nat)
    requires i <= MASK_BITS && j <= MASK_BITS
    ensures i == j <==> Position(i) == Position(j)
  {
    PositionOrder(i, j);
  }

  lemma PositionBound(i: nat)
    requires i < MASK_BITS
    ensures Position(i) < 64
  {
    PositionValue(i);
    ShiftOrder(Position(i), 64);
  }

  predicate TestBit(mask: bv64, b: bv8)
    requires b < 64
  {
    (mask >> b) & 1 == 1
  }

  predicate HasId(mask: bv64, i: nat)
    requires i < MASK_BITS
  {
    PositionBound(i);
    TestBit(mask, Position(i))
  }

  /** The set bits of a mask. */
  function IdSet(mask: bv64): set<nat> {
    set i: nat | i < MASK_BITS && HasId(mask, i)
  }

  function BitAt(b: bv8): bv64
    requires b < 64
  {
    (1 as bv64) << b
  }

  function Bit(i: nat): bv64
    requires i < MASK_BITS
  {
    PositionBound(i);
    BitAt(Position(i))
  }

  /** `1u64 << S` overflows for S = 64, so the source treats that limit apart. */
  function AllIds(limit: nat): bv64
    requires 0 < limit <= MASK_BITS
  {
    if limit == 64 then 0xFFFF_FFFF_FFFF_FFFF
    else
      PositionBound(limit);
      BitAt(Position(limit)) - 1
  }

  function Below(limit: nat): (s: set<nat>)
    ensures forall i :: i in s <==> 0 <= i < limit
  {
    if limit == 0 then {} else Below(limit - 1) + {limit - 1}
  }

  /** The intrinsic of the source: the position of the lowest set bit. */
  function TrailingZeros(mask: bv64): (i: nat)
    requires mask != 0
    ensures i in IdSet(mask)
    ensures forall j :: j in IdSet(mask) ==> i <= j
  {
    LowestBit(mask, 0)
  }

  function Above(mask: bv64, b: bv8): bv64
    requires b < 64
  {
    mask >> b
  }

  lemma LastPosition(i: nat)
    requires i < MASK_BITS && Position(i) < 63
    ensures i + 1 < MASK_BITS && Position(i + 1) == Position(i) + 1
  {
    PositionValue(i);
    ShiftOrder(Position(i), 63);
  }

  function LowestBit(mask: bv64, from: nat): (i: nat)
    requires from < MASK_BITS && Position(from) < 64 && Above(mask, Position(from)) != 0
    ensures from <= i < MASK_BITS && HasId(mask, i)
    ensures forall j :: from <= j < i ==> !HasId(mask, j)
    decreases MASK_BITS - from
  {
    if HasId(mask, from) then from
    else
      ShiftPast(mask, Position(from));
      LastPosition(from);
      LowestBit(mask, from + 1)
  }

  lemma ShiftPast(mask: bv64, b: bv8)
    requires b < 64 && Above(mask, b) != 0 && !TestBit(mask, b)
    ensures b < 63 && Above(mask, b + 1) != 0
  {}

  lemma SetBit(mask: bv64, id: nat)
    requires id < MASK_BITS
    ensures IdSet(mask | Bit(id)) == IdSet(mask) + {id}
  {
    hide Position, TestBit, BitAt, IdSet;
    PositionBound(id);
    SetsBit(mask, Position(id));
    AddsId(mask, mask | Bit(id), id);
  }

  lemma SetsBit(mask: bv64, b: bv8)
    requires b < 64
    ensures forall c: bv8 :: c < 64 ==> TestBit(mask | BitAt(b), c) == (TestBit(mask, c) || c == b)
  {
    hide TestBit, BitAt;
    forall c: bv8 | c < 64
      ensures TestBit(mask | BitAt(b), c) == (TestBit(mask, c) || c == b)
    {
      SetsBitAt(mask, b, c);
    }
  }

  lemma SetsBitAt(mask: bv64, b: bv8, c: bv8)
    requires b < 64 && c < 64
    ensures TestBit(mask | BitAt(b), c) == (TestBit(mask, c) || c == b)
  {}

  /** The set of ids from the bits; no machine operation is left in here. */
  lemma AddsId(mask: bv64, more: bv64, id: nat)
    requires id < MASK_BITS
    requires forall c: bv8 :: c < 64 ==> TestBit(more, c) == (TestBit(mask, c) || c == Position(id))
    ensures IdSet(more) == IdSet(mask) + {id}
  {
    hide Position, TestBit;
    forall j: nat | j < MASK_BITS
      ensures HasId(more, j) == (HasId(mask, j) || j == id)
    {
      PositionBound(j);
      SamePosition(id, j);
    }
  }

  lemma ClearBit(mask: bv64, id: nat)
    requires id < MASK_BITS
    ensures IdSet(mask & !Bit(id)) == IdSet(mask) - {id}
  {
    hide Position, TestBit, BitAt, IdSet;
    PositionBound(id);
    ClearsBit(mask, Position(id));
    RemovesId(mask, mask & !Bit(id), id);
  }

  lemma ClearsBit(mask: bv64, b: bv8)
    requires b < 64
    ensures forall c: bv8 :: c < 64 ==> TestBit(mask & !BitAt(b), c) == (TestBit(mask, c) && c != b)
  {
    hide TestBit, BitAt;
    forall c: bv8 | c < 64
      ensures TestBit(mask & !BitAt(b), c) == (TestBit(mask, c) && c != b)
    {
      ClearsBitAt(mask, b, c);
    }
  }

  lemma ClearsBitAt(mask: bv64, b: bv8, c: bv8)
    requires b < 64 && c < 64
    ensures TestBit(mask & !BitAt(b), c) == (TestBit(mask, c) && c != b)
  {}

  lemma RemovesId(mask: bv64, less: bv64, id: nat)
    requires id < MASK_BITS
    requires forall c: bv8 :: c < 64 ==> TestBit(less, c) == (TestBit(mask, c) && c != Position(id))
    ensures IdSet(less) == IdSet(mask) - {id}
  {
    hide Position, TestBit;
    forall j: nat | j < MASK_BITS
      ensures HasId(less, j) == (HasId(mask, j) && j != id)
    {
      PositionBound(j);
      SamePosition(id, j);
    }
  }

  /** `free` in `alloc_tx` is the set of ids below the limit that no live sender owns. */
  lemma FreeIds(mask: bv64, limit: nat)
    requires 0 < limit <= MASK_BITS
    ensures IdSet(!mask & AllIds(limit)) == Below(limit) - IdSet(mask)
  {
    FreeIdsOf(mask, AllIds(limit));
    AllIdsBelow(limit);
  }

  lemma FreeIdsOf(mask: bv64, all: bv64)
    ensures IdSet(!mask & all) == IdSet(all) - IdSet(mask)
  {
    forall j: nat | j < MASK_BITS
      ensures HasId(!mask & all, j) == (HasId(all, j) && !HasId(mask, j))
    {
      AndNotHas(mask, all, j);
    }
  }

  lemma AllIdsBelow(limit: nat)
    requires 0 < limit <= MASK_BITS
    ensures IdSet(AllIds(limit)) == Below(limit)
  {
    var all := AllIds(limit);
    forall j: nat | j < MASK_BITS
      ensures HasId(all, j) == (j < limit)
    {
      AllIdsAt(limit, j);
    }
  }

  lemma AndNotHas(mask: bv64, all: bv64, j: nat)
    requires j < MASK_BITS
    ensures HasId(!mask & all, j) == (HasId(all, j) && !HasId(mask, j))
  {
    PositionBound(j);
    AndNotAt(mask, all, Position(j));
  }

  lemma AllIdsAt(limit: nat, j: nat)
    requires 0 < limit <= MASK_BITS && j < MASK_BITS
    ensures HasId(AllIds(limit), j) == (j < limit)
  {
    hide Position, TestBit, BitAt;
    PositionBound(j);
    if limit == 64 {
      FullMaskAt(Position(j));
    } else {
      PositionBound(limit);
      PositionOrder(j, limit);
      PositionOrder(0, limit);
      if j < limit {
        InsideLowMask(Position(limit), Position(j));
      } else {
        OutsideLowMask(Position(limit), Position(j));
      }
    }
  }

  lemma FullMaskAt(j: bv8)
    requires j < 64
    ensures TestBit(0xFFFF_FFFF_FFFF_FFFF, j)
  {}

  lemma InsideLowMask(limit: bv8, j: bv8)
    requires j < limit < 64
    ensures TestBit(BitAt(limit) - 1, j)
  {}

  lemma OutsideLowMask(limit: bv8, j: bv8)
    requires 0 < limit < 64 && j < 64 && !(j < limit)
    ensures !TestBit(BitAt(limit) - 1, j)
  {}

  lemma AndNotAt(mask: bv64, all: bv64, j: bv8)
    requires j < 64
    ensures TestBit(!mask & all, j) == (TestBit(all, j) && !TestBit(mask, j))
  {}

  lemma NoIds(mask: bv64)
    ensures IdSet(mask) == {} <==> mask == 0
  {
    if mask != 0 {
      assert TrailingZeros(mask) in IdSet(mask);
    } else {
      forall j: nat | j < MASK_BITS
        ensures !HasId(mask, j)
      {
        PositionBound(j);
        ZeroAt(Position(j));
      }
    }
  }

  lemma ZeroAt(b: bv8)
    requires b < 64
    ensures !TestBit(0, b)
  {}

  /** The least id at or above `from` that is not taken. */
  function LeastFree(ids: set<nat>, limit: nat, from: nat := 0): (id: Option<nat>)
    ensures id.None? <==> forall i :: from <= i < limit ==> i in ids
    ensures id.Some? ==> from <= id.value < limit && id.value !in ids
    ensures id.Some? ==> forall i :: from <= i < id.value ==> i in ids
    decreases limit - from
  {
    if from >= limit then None
    else if from !in ids then Some(from)
    else LeastFree(ids, limit, from + 1)
  }

  /** The body of `alloc_tx` on the mask. */
  method AllocMask(mask: bv64, limit: nat) returns (mask': bv64, id: Option<nat>)
    requires 0 < limit <= MASK_BITS
    ensures id == LeastFree(IdSet(mask), limit)
    ensures IdSet(mask') == IdSet(mask) + if id.Some? then {id.value} else {}
  {
    var free := !mask & AllIds(limit);
    FreeIds(mask, limit);
    LowestFreeBit(mask, limit, free);
    if free == 0 {
      return mask, None;
    }
    var least := TrailingZeros(free);
    SetBit(mask, least);
    return mask | Bit(least), Some(least);
  }

  lemma LowestFreeBit(mask: bv64, limit: nat, free: bv64)
    requires IdSet(free) == Below(limit) - IdSet(mask)
    ensures free == 0 ==> LeastFree(IdSet(mask), limit) == None
    ensures free != 0 ==> LeastFree(IdSet(mask), limit) == Some(TrailingZeros(free))
  {
    NoIds(free);
    var least := LeastFree(IdSet(mask), limit);
    if free == 0 {
      assert forall i :: 0 <= i < limit ==> i !in IdSet(free);
    } else {
      assert TrailingZeros(free) in IdSet(free);
      assert least.Some?;
      assert least.value in IdSet(free);
    }
  }

  method FreeMask(mask: bv64, id: nat) returns (mask': bv64)
    requires id < MASK_BITS
    ensures IdSet(mask') == IdSet(mask) - {id}
  {
    ClearBit(mask, id);
    mask' := mask & !Bit(id);
  }

  method AnyId(mask: bv64) returns (any: bool)
    ensures any <==> IdSet(mask) != {}
  {
    NoIds(mask);
    any := mask != 0;
  }
}
