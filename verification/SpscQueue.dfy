/** The bounded queue as one thread sees it: rounding, push, pop and the destructor over
    wrapping indices and raw slots. QueueSteps.dfy takes the same code apart into the single
    loads, stores, constructions and destructions that two threads interleave. */
module SpscQueue {
  import opened Wrappers
  import opened Words

  datatype CapacityError = ZeroCapacity | CapacityTooLarge

  datatype Slot<T> = Raw | Live(value: T)

  predicate ValidCapacity(capacity: nat) {
    0 < capacity <= Pow2(63)
  }

  /** The least power of two not below the request; exactly 0 and anything above 2^63 is refused. */
  method RoundUpToPowerOfTwo(capacity: nat) returns (r: Result<nat, CapacityError>)
    requires capacity < WORD
    ensures r.Err? <==> capacity == 0 || capacity > 0x8000_0000_0000_0000
    ensures r == Err(ZeroCapacity) <==> capacity == 0
    ensures r.Ok? ==> exists k: nat :: k <= 63 && r.value == Pow2(k)
    ensures r.Ok? ==> capacity <= r.value && forall k: nat :: capacity <= Pow2(k) ==> r.value <= Pow2(k)
  {
    hide Pow2;
    if capacity == 0 {
      return Err(ZeroCapacity);
    }
    Pow2Of64();
    Pow2Unfolds(0);
    var rounded := 1;
    ghost var exponent := 0;
    while rounded < capacity
      invariant exponent <= 63 && rounded == Pow2(exponent) <= Pow2(63)
      invariant forall k: nat :: capacity <= Pow2(k) ==> exponent <= k
      decreases 63 - exponent
    {
      if rounded > (WORD - 1) / 2 {
        return Err(CapacityTooLarge);
      }
      NoSmallerExponent(capacity, exponent);
      Pow2Unfolds(exponent);
      rounded := rounded * 2 % WORD;
      exponent := exponent + 1;
      Pow2Grows(exponent, 63);
    }
    forall k: nat | capacity <= Pow2(k) ensures rounded <= Pow2(k) {
      Pow2Grows(exponent, k);
    }
    return Ok(rounded);
  }

  lemma NoSmallerExponent(capacity: nat, exponent: nat)
    requires Pow2(exponent) < capacity
    ensures forall k: nat :: capacity <= Pow2(k) ==> exponent + 1 <= k
  {
    hide Pow2;
    forall k: nat | capacity <= Pow2(k) ensures exponent + 1 <= k {
      if k <= exponent { Pow2Grows(k, exponent); }
    }
  }

  /** The slot of an unbounded counter. */
  function SlotOf(n: nat, capacity: nat): nat
    requires capacity > 0
  {
    n % capacity
  }

  /** The counter of the window from `start` that falls in slot `s`. */
  function CounterIn(start: nat, capacity: nat, s: nat): nat
    requires s < capacity
  {
    start - start % capacity + s + if s < start % capacity then capacity else 0
  }

  /** Within one window of `capacity` counters, no two share a slot. */
  lemma {:induction false} SlotsSeparate(start: nat, capacity: nat)
    requires capacity > 0
    ensures forall n: nat :: SlotOf(n, capacity) < capacity
    ensures forall i: nat, j: nat | start <= i < start + capacity && start <= j < start + capacity ::
              SlotOf(i, capacity) == SlotOf(j, capacity) ==> i == j
  {
    forall i: nat, j: nat | start <= i < start + capacity && start <= j < start + capacity
      && SlotOf(i, capacity) == SlotOf(j, capacity) ensures i == j
    {
      if i <= j { RemainderSeparates(i, j, capacity); } else { RemainderSeparates(j, i, capacity); }
    }
  }

  lemma SlotRepeats(n: nat, capacity: nat)
    requires capacity > 0
    ensures SlotOf(n + capacity, capacity) == SlotOf(n, capacity)
  {
    ShiftRemainder(n, 1, capacity);
  }

  lemma CounterInHits(start: nat, capacity: nat, s: nat)
    requires s < capacity
    ensures start <= CounterIn(start, capacity, s) < start + capacity
            && SlotOf(CounterIn(start, capacity, s), capacity) == s
  {
    var q, r := start / capacity, start % capacity;
    assert start == q * capacity + r;
    assert (q + 1) * capacity == q * capacity + capacity;
    RemainderIs(CounterIn(start, capacity, s), capacity, if s < r then q + 1 else q, s);
  }

  lemma MaskFindsSlot(n: nat, exponent: nat)
    requires exponent <= 63
    ensures And(n % WORD, Pow2(exponent) - 1) == SlotOf(n, Pow2(exponent))
  {
    WrapThenMask(n, exponent);
  }

  class Queue<T> {
    const capacity: nat
    const mask: nat
    const slots: array<Slot<T>>
    var head: nat
    var tail: nat
    ghost const exponent: nat
    ghost var pops: nat    // what head would be without wrapping
    ghost var pushes: nat  // what tail would be without wrapping
    ghost var contents: seq<T>  // the live items, oldest first

    ghost predicate Shape()
      reads this
    {
      && exponent <= 63 && capacity == Pow2(exponent) <= Pow2(63) && mask == capacity - 1
      && slots.Length == capacity > 0
      && head == pops % WORD && tail == pushes % WORD
      && pops <= pushes <= pops + capacity
    }

    ghost predicate Valid()
      reads this, slots
    {
      && Shape()
      && |contents| == pushes - pops
      && (forall i: nat | pops <= i < pushes :: slots[SlotOf(i, capacity)] == Live(contents[i - pops]))
      && (forall i: nat | pushes <= i < pops + capacity :: slots[SlotOf(i, capacity)].Raw?)
    }

    constructor (requested: nat)
      requires ValidCapacity(requested)
      ensures Valid() && fresh(slots) && contents == []
      ensures requested <= capacity && forall k: nat :: requested <= Pow2(k) ==> capacity <= Pow2(k)
    {
      Pow2Of64();
      var rounded := RoundUpToPowerOfTwo(requested);
      ghost var k: nat :| k <= 63 && rounded.value == Pow2(k);
      Pow2Grows(k, 63);
      capacity, mask, exponent := rounded.value, rounded.value - 1, k;
      slots := new Slot<T>[rounded.value](_ => Raw);
      head, tail, pops, pushes, contents := 0, 0, 0, 0, [];
    }

    /** Full means the wrapped difference equals the capacity; a push never lands on a live slot. */
    method TryPush(value: T) returns (ok: bool)
      requires Valid()
      modifies this, slots
      ensures Valid()
      ensures ok == (|old(contents)| < capacity)
      ensures contents == if ok then old(contents) + [value] else old(contents)
    {
      hide SlotOf, And, Pow2, Inc, Sub;
      Pow2Of64();
      DifferenceSurvivesWrap(pushes, pops);
      if Sub(tail, head) == capacity {
        return false;
      }
      MaskFindsSlot(pushes, exponent);
      SlotsSeparate(pops, capacity);
      hide WORD;
      assert slots[SlotOf(pushes, capacity)].Raw?;
      slots[And(tail, mask)] := Live(value);
      WrapsLikeACounter(pushes);
      tail := Inc(tail);
      pushes := pushes + 1;
      contents := contents + [value];
      return true;
    }

    method TryPop() returns (out: Option<T>)
      requires Valid()
      modifies this, slots
      ensures Valid()
      ensures out.None? <==> old(contents) == []
      ensures out.None? ==> contents == old(contents)
      ensures out.Some? ==> [out.value] + contents == old(contents)
    {
      hide SlotOf, And, Pow2, Inc, Sub;
      Pow2Of64();
      RemainderSeparates(pops, pushes, WORD);
      if head == tail {
        return None;
      }
      MaskFindsSlot(pops, exponent);
      SlotRepeats(pops, capacity);
      SlotsSeparate(pops, capacity);
      hide WORD;
      var slot := And(head, mask);
      out := Some(slots[slot].value);
      slots[slot] := Raw;
      WrapsLikeACounter(pops);
      head := Inc(head);
      pops := pops + 1;
      contents := contents[1..];
    }

    method SizeApprox() returns (n: nat)
      requires Valid()
      ensures n == |contents| <= capacity
    {
      Pow2Of64();
      DifferenceSurvivesWrap(pushes, pops);
      n := Sub(tail, head);
    }

    /** The destructor: every live slot is destroyed and no raw slot is touched. */
    method Destroy() returns (destroyed: seq<T>)
      requires Valid()
      modifies slots
      ensures destroyed == contents
      ensures forall s: nat | s < capacity :: slots[s].Raw?
    {
      hide SlotOf, And, Pow2, CounterIn, Inc;
      Pow2Of64();
      SlotsSeparate(pops, capacity);
      hide WORD;
      destroyed := [];
      var i := head;
      ghost var n := pops;
      while i != tail
        invariant pops <= n <= pushes && i == n % WORD
        invariant forall j: nat | n <= j < pushes :: slots[SlotOf(j, capacity)] == old(slots[SlotOf(j, capacity)])
        invariant forall j: nat | pushes <= j < n + capacity :: slots[SlotOf(j, capacity)].Raw?
        invariant destroyed == contents[..n - pops]
        decreases pushes - n
      {
        assert n < pushes;
        MaskFindsSlot(n, exponent);
        SlotRepeats(n, capacity);
        destroyed := destroyed + [slots[And(i, mask)].value];
        slots[And(i, mask)] := Raw;
        WrapsLikeACounter(n);
        i := Inc(i);
        n := n + 1;
      }
      RemainderSeparates(n, pushes, WORD);
      forall s: nat | s < capacity ensures slots[s].Raw? {
        CounterInHits(pushes, capacity, s);
        assert slots[SlotOf(CounterIn(pushes, capacity, s), capacity)].Raw?;
      }
    }
  }
}
