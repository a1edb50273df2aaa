/** The channel as it is built: a ring of optional cells, one waker cell for each sender id,
    one for the receiver, and a 64-bit mask of live ids. Every method is proved to have
    exactly the effect that `ChannelModel` gives it. */
module ChannelImpl {
  import opened Prelude
  import opened SenderIds
  import opened ChannelModel

  /** Keeps the stored waker when it already wakes the polling task. */
  method Register(slot: Option<Waker>, cx: Waker) returns (slot': Option<Waker>)
    ensures slot' == Some(cx)
  {
    match slot
    case Some(w) => if w == cx { slot' := Some(w); } else { slot' := Some(cx); }
    case None => slot' := Some(cx);
  }

  /** Takes the waker out of its cell and invokes it. */
  method Wake(slot: Option<Waker>) returns (slot': Option<Waker>, woken: set<Waker>)
    ensures slot' == None && woken == Woken(slot)
  {
    slot', woken := None, {};
    if slot.Some? {
      woken := {slot.value};
    }
  }

  lemma Wrap(x: nat, n: nat)
    requires 0 < n && x < 2 * n
    ensures x % n == if x < n then x else x - n
  {
    if x >= n {
      assert x == n + (x - n);
      assert (x - n) / n == 0;
    }
  }

  /** The cell `i` positions after `head` in a ring of `n` cells. */
  ghost function Cell(head: nat, i: nat, n: nat): int {
    if head + i < n then head + i else head + i - n
  }

  class Channel<T> {
    const N: nat
    const S: nat
    const slots: array<Option<T>>
    var head: nat
    var len: nat
    var rxWaker: Option<Waker>
    const txWakers: array<Option<Waker>>
    var txIds: bv64
    var rxAlive: bool

    /** The values in the ring, oldest first. */
    ghost var contents: seq<T>

    /** The occupied cells are exactly the `len` positions from `head`, modulo N. */
    ghost predicate Valid()
      reads this, slots, txWakers
    {
      && 0 < N && slots.Length == N
      && 0 < S <= MASK_BITS && txWakers.Length == S
      && slots as object != txWakers as object
      && head < N && len <= N
      && |contents| == len
      && IdSet(txIds) <= Below(S)
      && (forall i :: 0 <= i < N ==> slots[Cell(head, i, N)] == if i < len then Some(contents[i]) else None)
    }

    /** So taking the cell at `head` never finds it empty while `len > 0`. */
    lemma OccupiedCells(j: nat)
      requires Valid() && j < N
      ensures slots[j].Some? <==> (j + N - head) % N < len
      ensures slots[j].Some? ==> slots[j].value == contents[(j + N - head) % N]
    {
      Wrap(j + N - head, N);
      var i := if j < head then j + N - head else j - head;
      assert slots[Cell(head, i, N)] == if i < len then Some(contents[i]) else None;
    }

    ghost function State(): Chan<T>
      reads this, txWakers
    {
      Chan(N, S, contents, rxWaker, txWakers[..], IdSet(txIds), rxAlive)
    }

    constructor (n: nat, s: nat)
      requires n > 0 && 0 < s <= 64
      ensures Valid() && fresh(slots) && fresh(txWakers)
      ensures State() == New(n, s)
    {
      N, S := n, s;
      slots := new Option<T>[n](_ => None);
      head, len := 0, 0;
      rxWaker := None;
      txWakers := new Option<Waker>[s](_ => None);
      txIds := 0;
      rxAlive := false;
      contents := [];
      new;
      NoIds(0);
    }

    method AllocTx() returns (id: Option<nat>)
      requires Valid()
      modifies this`txIds
      ensures Valid()
      ensures Effect(State(), id, {}) == TryClone(old(State()))
    {
      txIds, id := AllocMask(txIds, S);
    }

    method Split() returns (tx: Sender<T>, rx: Receiver<T>)
      requires Valid()
      modifies this`txIds, this`rxAlive
      ensures Valid() && State() == ChannelModel.Split(old(State()))
      ensures fresh(tx) && tx.ch == this && tx.id == 0
      ensures fresh(rx) && rx.ch == this
    {
      rxAlive := true;
      txIds := 0;
      NoIds(0);
      var id := AllocTx();
      assert id == Some(0);
      tx := new Sender(this, 0);
      rx := new Receiver(this);
    }

    method TxAlive() returns (alive: bool)
      requires Valid()
      ensures alive <==> State().ids != {}
    {
      alive := AnyId(txIds);
    }

    method WakeTx() returns (woken: set<Waker>)
      requires Valid()
      modifies txWakers
      ensures Valid()
      ensures State() == ChannelModel.WakeTx(old(State())).chan
      ensures woken == ChannelModel.WakeTx(old(State())).woken
    {
      woken := {};
      for i := 0 to S
        invariant Valid()
        invariant forall k :: 0 <= k < i ==> txWakers[k] == None
        invariant forall k :: i <= k < S ==> txWakers[k] == old(txWakers[k])
        invariant woken == AllWoken(old(txWakers[..i]))
      {
        var slot, w := Wake(txWakers[i]);
        assert old(txWakers[..i + 1]) == old(txWakers[..i]) + [old(txWakers[i])];
        AllWokenSnoc(old(txWakers[..i]), old(txWakers[i]));
        txWakers[i] := slot;
        woken := woken + w;
      }
      assert old(txWakers[..S]) == old(txWakers[..]);
      assert txWakers[..] == Cleared(S);
    }

    method Push(v: T) returns (r: Result<(), T>, woken: set<Waker>)
      requires Valid()
      modifies this`len, this`rxWaker, this`contents, slots
      ensures Valid()
      ensures Effect(State(), r, woken) == ChannelModel.Push(old(State()), v)
    {
      if len == N {
        return Err(v), {};
      }
      Wrap(head + len, N);
      slots[(head + len) % N] := Some(v);
      len := len + 1;
      contents := contents + [v];
      rxWaker, woken := Wake(rxWaker);
      r := Ok(());
    }

    method Pop() returns (v: Option<T>, woken: set<Waker>)
      requires Valid()
      modifies this`head, this`len, this`contents, slots, txWakers
      ensures Valid()
      ensures Effect(State(), v, woken) == ChannelModel.Pop(old(State()))
    {
      hide IdSet, Below, AllWoken;
      if len == 0 {
        return None, {};
      }
      assert slots[Cell(head, 0, N)] == Some(contents[0]);
      v := slots[head];
      slots[head] := None;
      Wrap(head + 1, N);
      ghost var was := contents;
      assert forall i :: 1 <= i < N ==> slots[Cell(head, i, N)] == if i < len then Some(was[i]) else None;
      head := (head + 1) % N;
      len := len - 1;
      contents := contents[1..];
      assert forall i :: 0 <= i < N - 1 ==> Cell(head, i, N) == Cell(old(head), i + 1, N);
      woken := WakeTx();
    }
  }

  lemma AllWokenSnoc(slots: seq<Option<Waker>>, slot: Option<Waker>)
    ensures AllWoken(slots + [slot]) == AllWoken(slots) + Woken(slot)
  {
    var more := slots + [slot];
    forall w | w in AllWoken(slots) + Woken(slot)
      ensures w in AllWoken(more)
    {
      if w in Woken(slot) {
        assert more[|slots|] == Some(w);
      } else {
        var i :| 0 <= i < |slots| && slots[i] == Some(w);
        assert more[i] == Some(w);
      }
    }
  }

  class Sender<T> {
    const ch: Channel<T>
    const id: nat

    ghost predicate Live()
      reads ch, ch.slots, ch.txWakers
    {
      ch.Valid() && id in ch.State().ids
    }

    constructor (ch: Channel<T>, id: nat)
      ensures this.ch == ch && this.id == id
    {
      this.ch, this.id := ch, id;
    }

    method Send(v: T) returns (f: SendFuture<T>)
      ensures fresh(f) && f.tx == this && f.held == Some(v)
    {
      f := new SendFuture(this, v);
    }

    method TrySend(v: T) returns (r: Result<(), T>, woken: set<Waker>)
      requires Live()
      modifies ch`len, ch`rxWaker, ch`contents, ch.slots
      ensures Live() && Effect(ch.State(), r, woken) == ChannelModel.TrySend(old(ch.State()), v)
    {
      if !ch.rxAlive {
        return Err(v), {};
      }
      r, woken := ch.Push(v);
    }

    method TryClone() returns (tx: Option<Sender<T>>)
      requires Live()
      modifies ch`txIds
      ensures Live() && ch.State() == ChannelModel.TryClone(old(ch.State())).chan
      ensures tx.Some? ==> fresh(tx.value) && tx.value.ch == ch
      ensures ChannelModel.TryClone(old(ch.State())).result == if tx.Some? then Some(tx.value.id) else None
    {
      var id := ch.AllocTx();
      if id.None? {
        return None;
      }
      var clone := new Sender(ch, id.value);
      tx := Some(clone);
    }

    method Drop() returns (woken: set<Waker>)
      requires Live()
      modifies ch`txIds, ch`rxWaker, ch.txWakers
      ensures ch.Valid()
      ensures Effect(ch.State(), (), woken) == DropSender(old(ch.State()), id)
    {
      ch.txWakers[id] := None;
      assert ch.txWakers[..] == old(ch.txWakers[..])[id := None];
      ch.txIds := FreeMask(ch.txIds, id);
      var alive := ch.TxAlive();
      woken := {};
      if !alive {
        ch.rxWaker, woken := Wake(ch.rxWaker);
      }
    }
  }

  /** The state a `send` future captures: the value, taken out at each poll and put back when
      the poll has to wait. A future that has completed is not polled again. */
  class SendFuture<T> {
    const tx: Sender<T>
    var held: Option<T>

    constructor (tx: Sender<T>, v: T)
      ensures this.tx == tx && held == Some(v)
    {
      this.tx, held := tx, Some(v);
    }

    method Poll(cx: Waker) returns (r: Poll<Result<(), T>>, woken: set<Waker>)
      requires tx.Live() && held.Some?
      modifies this`held, tx.ch`len, tx.ch`rxWaker, tx.ch`contents, tx.ch.slots, tx.ch.txWakers
      ensures tx.Live()
      ensures Effect(tx.ch.State(), r, woken) == PollSend(old(tx.ch.State()), tx.id, old(held.value), cx)
      ensures held == if r.Pending? then old(held) else None
    {
      var val := held.value;
      held := None;
      if !tx.ch.rxAlive {
        return Ready(Err(val)), {};
      }
      var pushed, w := tx.ch.Push(val);
      match pushed
      case Ok(_) => return Ready(Ok(())), w;
      case Err(back) =>
        held := Some(back);
        var slot := Register(tx.ch.txWakers[tx.id], cx);
        tx.ch.txWakers[tx.id] := slot;
        assert tx.ch.txWakers[..] == old(tx.ch.txWakers[..])[tx.id := Some(cx)];
        return Pending, {};
    }
  }

  class Receiver<T> {
    const ch: Channel<T>

    constructor (ch: Channel<T>)
      ensures this.ch == ch
    {
      this.ch := ch;
    }

    method PollRecv(cx: Waker) returns (r: Poll<Option<T>>, woken: set<Waker>)
      requires ch.Valid()
      modifies ch`head, ch`len, ch`contents, ch`rxWaker, ch.slots, ch.txWakers
      ensures ch.Valid()
      ensures Effect(ch.State(), r, woken) == ChannelModel.PollRecv(old(ch.State()), cx)
    {
      var v, w := ch.Pop();
      if v.Some? {
        return Ready(v), w;
      }
      var alive := ch.TxAlive();
      if !alive {
        return Ready(None), {};
      }
      ch.rxWaker := Register(ch.rxWaker, cx);
      return Pending, {};
    }

    method TryRecv() returns (v: Option<T>, woken: set<Waker>)
      requires ch.Valid()
      modifies ch`head, ch`len, ch`contents, ch.slots, ch.txWakers
      ensures ch.Valid()
      ensures Effect(ch.State(), v, woken) == ChannelModel.Pop(old(ch.State()))
    {
      v, woken := ch.Pop();
    }

    method Drop() returns (woken: set<Waker>)
      requires ch.Valid()
      modifies ch`rxAlive, ch.txWakers
      ensures ch.Valid()
      ensures Effect(ch.State(), (), woken) == DropReceiver(old(ch.State()))
    {
      ch.rxAlive := false;
      woken := ch.WakeTx();
    }
  }
}
