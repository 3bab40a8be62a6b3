/** A circular buffer seen as the sequence it stores. The stereo pairer (two rings of 16
    slots) and the send ring of the stream client keep the same four things: the slots,
    the next-write index `head`, the next-read index `tail` and a count. */
module Circular {

  /** The slot `i` places after `tail` in a ring of `n` slots. */
  function Slot(n: nat, tail: nat, i: nat): nat
    requires tail < n && i <= n
  {
    if tail + i < n then tail + i else tail + i - n
  }

  /** The index arithmetic of the source, `(index + 1) % size`, is one slot further. */
  lemma NextSlot(n: nat, index: nat)
    requires index < n
    ensures (index + 1) % n == Slot(n, index, 1) < n
  {
    if index + 1 == n {
    } else {
      assert (index + 1) / n == 0;
    }
  }

  predicate Indexed(n: nat, head: nat, tail: nat, count: nat) {
    tail < n && count <= n && head == Slot(n, tail, count)
  }

  /** The `count` stored elements, oldest first. */
  function Contents<T>(ring: seq<T>, tail: nat, count: nat): (s: seq<T>)
    requires tail < |ring| && count <= |ring|
    ensures |s| == count
  {
    seq(count, i requires 0 <= i < count => ring[Slot(|ring|, tail, i)])
  }

  /** Writing at `head` appends, whatever wrapping the indices do. */
  lemma WriteAppends<T>(ring: seq<T>, head: nat, tail: nat, count: nat, x: T)
    requires Indexed(|ring|, head, tail, count) && count < |ring|
    ensures head < |ring|
    ensures Contents(ring[head := x], tail, count + 1) == Contents(ring, tail, count) + [x]
    ensures Indexed(|ring|, Slot(|ring|, head, 1), tail, count + 1)
  {
    var s := Contents(ring[head := x], tail, count + 1);
    assert s[count] == x;
    assert s[..count] == Contents(ring, tail, count);
  }

  /** Advancing `tail` removes the oldest element, even if its slot is overwritten. */
  lemma AdvanceRemoves<T>(ring: seq<T>, head: nat, tail: nat, count: nat, blank: T)
    requires Indexed(|ring|, head, tail, count) && count > 0
    ensures Contents(ring, tail, count)[0] == ring[tail]
    ensures Contents(ring, Slot(|ring|, tail, 1), count - 1) == Contents(ring, tail, count)[1..]
    ensures Contents(ring[tail := blank], Slot(|ring|, tail, 1), count - 1) == Contents(ring, tail, count)[1..]
    ensures Indexed(|ring|, head, Slot(|ring|, tail, 1), count - 1)
  {
  }

  /** A queue in a fixed number of slots that loses its oldest element when it is full. */
  class SlotRing<T> {
    const slots: array<T>
    var head: nat
    var tail: nat
    var count: nat

    ghost predicate Valid()
      reads this, slots
    {
      slots.Length >= 1 && Indexed(slots.Length, head, tail, count)
    }

    ghost function Queue(): (queue: seq<T>)
      requires Valid()
      reads this, slots
      ensures |queue| == count
    {
      Contents(slots[..], tail, count)
    }

    constructor (size: nat, blank: T)
      requires size >= 1
      ensures Valid() && Queue() == [] && slots.Length == size && fresh(slots)
    {
      slots := new T[size](_ => blank);
      head, tail, count := 0, 0, 0;
    }

    /** Advances the tail; the pairer also clears the slot, the send ring leaves it. */
    method Skip(cleared: T)
      requires Valid() && count > 0
      modifies this, slots
      ensures Valid() && Queue() == old(Queue())[1..]
    {
      AdvanceRemoves(slots[..], head, tail, count, cleared);
      NextSlot(slots.Length, tail);
      ghost var was := slots[..];
      slots[tail] := cleared;
      assert slots[..] == was[tail := cleared];
      tail := (tail + 1) % slots.Length;
      count := count - 1;
    }

    method Append(x: T)
      requires Valid() && count < slots.Length
      modifies this, slots
      ensures Valid() && Queue() == old(Queue()) + [x]
    {
      WriteAppends(slots[..], head, tail, count, x);
      NextSlot(slots.Length, head);
      ghost var was := slots[..];
      slots[head] := x;
      assert slots[..] == was[head := x];
      head := (head + 1) % slots.Length;
      count := count + 1;
    }

    method Push(x: T, cleared: T) returns (lost: bool)
      requires Valid()
      modifies this, slots
      ensures Valid() && lost == (|old(Queue())| == slots.Length)
      ensures Queue() == (if lost then old(Queue())[1..] else old(Queue())) + [x]
    {
      lost := count == slots.Length;
      if lost {
        Skip(cleared);
      }
      Append(x);
    }

    method Front() returns (x: T)
      requires Valid() && count > 0
      ensures x == Queue()[0]
    {
      x := slots[tail];
    }

    method Pop(cleared: T) returns (x: T)
      requires Valid() && count > 0
      modifies this, slots
      ensures Valid() && x == old(Queue())[0] && Queue() == old(Queue())[1..]
    {
      x := Front();
      Skip(cleared);
    }
  }
}
