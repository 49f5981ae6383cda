/** The queue as two threads run it: one step per atomic load, store, construction, move or
    destruction. Each index is the list of values stored to it, in modification order; an
    acquire load of the peer's index may return any value from the last one seen onwards. */
module QueueSteps {
  import opened Wrappers
  import opened Words
  import opened SpscQueue

  /** A slot, with the number of the item that was constructed in it. */
  datatype Cell<T> = Empty | Holding(item: nat, value: T) | MovedFrom(item: nat)

  /** Where the producer is inside try_push. */
  datatype Producer<T> = Outside
                       | LoadingHead(value: T, tail: nat)
                       | Constructing(value: T, tail: nat)
                       | Publishing(tail: nat)
                       | Pushed(ok: bool)

  /** Where the consumer is inside try_pop or size_approx. */
  datatype Consumer<T> = Away
                       | LoadingTail(head: nat)
                       | Moving(head: nat)
                       | Destroying(head: nat, out: T)
                       | Releasing(head: nat, out: T)
                       | Popped(result: Option<T>)
                       | Sizing(head: nat)
                       | Sized(count: nat)

  /** The shared queue. `constructed`, `moved`, `destroyed` and the item numbers only record
      what happened; no step looks at them. `fault` records undefined behaviour. */
  datatype Shared<T> = Shared(
    capacity: nat,
    cells: seq<Cell<T>>,
    heads: seq<nat>,
    tails: seq<nat>,
    headSeen: nat,
    tailSeen: nat,
    producer: Producer<T>,
    consumer: Consumer<T>,
    constructed: seq<T>,
    moved: seq<T>,
    destroyed: seq<nat>,
    fault: bool)

  datatype Step<T> = PushStart(value: T) | LoadHead(index: nat) | Construct | PublishTail | PushReturn
                   | PopStart | LoadTail(index: nat) | MoveOut | Destroy | PublishHead | PopReturn
                   | SizeStart | SizeTail(index: nat) | SizeReturn

  function Start<T>(capacity: nat): Shared<T> {
    Shared(capacity, seq(capacity, _ => Empty), [0], [0], 0, 0, Outside, Away, [], [], [], false)
  }

  predicate Enabled<T>(q: Shared<T>, step: Step<T>) {
    match step
    case PushStart(_) => q.producer.Outside? && |q.tails| > 0
    case LoadHead(k) => q.producer.LoadingHead? && q.headSeen <= k < |q.heads|
    case Construct => q.producer.Constructing?
    case PublishTail => q.producer.Publishing?
    case PushReturn => q.producer.Pushed?
    case PopStart => q.consumer.Away? && |q.heads| > 0
    case LoadTail(k) => q.consumer.LoadingTail? && q.tailSeen <= k < |q.tails|
    case MoveOut => q.consumer.Moving?
    case Destroy => q.consumer.Destroying?
    case PublishHead => q.consumer.Releasing?
    case PopReturn => q.consumer.Popped?
    case SizeStart => q.consumer.Away? && |q.heads| > 0
    case SizeTail(k) => q.consumer.Sizing? && q.tailSeen <= k < |q.tails|
    case SizeReturn => q.consumer.Sized?
  }

  function SlotIndex<T>(q: Shared<T>, index: nat): nat {
    And(index, if q.capacity > 0 then q.capacity - 1 else 0)
  }

  function DoConstruct<T>(q: Shared<T>, value: T, tail: nat): Shared<T> {
    var s := SlotIndex(q, tail);
    if s < |q.cells| && q.cells[s].Empty? then
      q.(cells := q.cells[s := Holding(|q.constructed|, value)], constructed := q.constructed + [value],
         producer := Publishing(tail))
    else q.(fault := true)
  }

  function DoMove<T>(q: Shared<T>, head: nat): Shared<T> {
    var s := SlotIndex(q, head);
    if s < |q.cells| && q.cells[s].Holding? then
      q.(cells := q.cells[s := MovedFrom(q.cells[s].item)], moved := q.moved + [q.cells[s].value],
         consumer := Destroying(head, q.cells[s].value))
    else q.(fault := true)
  }

  /** Run a destructor on the slot at `index`; the slot must hold an object, moved from or not. */
  function DestroySlot<T>(q: Shared<T>, index: nat): Shared<T> {
    var s := SlotIndex(q, index);
    if s < |q.cells| && !q.cells[s].Empty? then
      q.(cells := q.cells[s := Empty], destroyed := q.destroyed + [q.cells[s].item])
    else q.(fault := true)
  }

  function Take<T>(q: Shared<T>, step: Step<T>): Shared<T>
    requires Enabled(q, step)
  {
    match step
    case PushStart(v) => q.(producer := LoadingHead(v, q.tails[|q.tails| - 1]))
    case LoadHead(k) =>
      q.(headSeen := k,
         producer := if Sub(q.producer.tail, q.heads[k]) == q.capacity then Pushed(false)
                     else Constructing(q.producer.value, q.producer.tail))
    case Construct => DoConstruct(q, q.producer.value, q.producer.tail)
    case PublishTail => q.(tails := q.tails + [Inc(q.producer.tail)], producer := Pushed(true))
    case PushReturn => q.(producer := Outside)
    case PopStart => q.(consumer := LoadingTail(q.heads[|q.heads| - 1]))
    case LoadTail(k) =>
      q.(tailSeen := k,
         consumer := if q.consumer.head == q.tails[k] then Popped(None) else Moving(q.consumer.head))
    case MoveOut => DoMove(q, q.consumer.head)
    case Destroy => DestroySlot(q, q.consumer.head).(consumer := Releasing(q.consumer.head, q.consumer.out))
    case PublishHead => q.(heads := q.heads + [Inc(q.consumer.head)], consumer := Popped(Some(q.consumer.out)))
    case PopReturn => q.(consumer := Away)
    case SizeStart => q.(consumer := Sizing(q.heads[|q.heads| - 1]))
    case SizeTail(k) => q.(tailSeen := k, consumer := Sized(Sub(q.tails[k], q.consumer.head)))
    case SizeReturn => q.(consumer := Away)
  }

  predicate Runnable<T>(q: Shared<T>, steps: seq<Step<T>>)
    decreases |steps|
  {
    steps == [] || (Enabled(q, steps[0]) && Runnable(Take(q, steps[0]), steps[1..]))
  }

  function After<T>(q: Shared<T>, steps: seq<Step<T>>): Shared<T>
    requires Runnable(q, steps)
    decreases |steps|
  {
    if steps == [] then q else After(Take(q, steps[0]), steps[1..])
  }

  // ---------------------------------------------------------------- the invariant

  ghost predicate Capacity(capacity: nat) {
    exists k: nat :: k <= 63 && capacity == Pow2(k)
  }

  ghost predicate CountsUp(index: seq<nat>) {
    |index| > 0 && forall i | 0 <= i < |index| :: index[i] == i % WORD
  }

  /** The indices, what each thread has seen of the other's, and the logs' lengths. */
  ghost predicate IndicesHold<T>(q: Shared<T>) {
    var pops, pushes := |q.heads| - 1, |q.tails| - 1;
    && Capacity(q.capacity) && CountsUp(q.heads) && CountsUp(q.tails)
    && q.headSeen <= pops <= q.tailSeen <= pushes <= q.headSeen + q.capacity
    && (!q.producer.Outside? && !q.producer.Pushed? ==> q.producer.tail == pushes % WORD)
    && (q.producer.Constructing? || q.producer.Publishing? ==> pushes < q.headSeen + q.capacity)
    && (!q.consumer.Away? && !q.consumer.Popped? && !q.consumer.Sized? ==> q.consumer.head == pops % WORD)
    && (q.consumer.Moving? || q.consumer.Destroying? || q.consumer.Releasing? ==> pops < q.tailSeen)
    && (q.consumer.Sized? ==> q.consumer.count == q.tailSeen - pops)
    && |q.constructed| == pushes + (if q.producer.Publishing? then 1 else 0)
    && |q.moved| == pops + (if q.consumer.Destroying? || q.consumer.Releasing? then 1 else 0)
    && |q.destroyed| == pops + (if q.consumer.Releasing? then 1 else 0)
  }

  /** The slots: items not yet destroyed sit in their own slots, every other slot is raw. */
  ghost predicate CellsHold<T>(capacity: nat, cells: seq<Cell<T>>, constructed: seq<T>, moved: nat, destroyed: nat)
  {
    && |cells| == capacity > 0
    && destroyed <= |constructed| <= destroyed + capacity
    && (forall i: nat | destroyed <= i < |constructed| ::
          SlotOf(i, capacity) < |cells|
          && cells[SlotOf(i, capacity)] == if i < moved then MovedFrom(i) else Holding(i, constructed[i]))
    && (forall i: nat | |constructed| <= i < destroyed + capacity ::
          SlotOf(i, capacity) < |cells| && cells[SlotOf(i, capacity)].Empty?)
  }

  ghost predicate LogsHold<T>(q: Shared<T>) {
    && |q.moved| <= |q.constructed| && q.moved == q.constructed[..|q.moved|]
    && (forall i | 0 <= i < |q.destroyed| :: q.destroyed[i] == i)
    && (q.consumer.Destroying? || q.consumer.Releasing?
        ==> |q.moved| > 0 && q.consumer.out == q.moved[|q.moved| - 1])
    && (q.consumer.Popped? && q.consumer.result.Some?
        ==> |q.moved| > 0 && q.consumer.result.value == q.moved[|q.moved| - 1])
  }

  ghost predicate Inv<T>(q: Shared<T>) {
    && !q.fault && IndicesHold(q) && LogsHold(q)
    && CellsHold(q.capacity, q.cells, q.constructed, |q.moved|, |q.destroyed|)
  }

  lemma StartInv<T>(capacity: nat)
    requires Capacity(capacity)
    ensures Inv(Start<T>(capacity))
  {
    SlotsSeparate(0, capacity);
  }

  lemma ConstructCell<T>(capacity: nat, cells: seq<Cell<T>>, constructed: seq<T>, moved: nat, destroyed: nat, value: T)
    requires CellsHold(capacity, cells, constructed, moved, destroyed)
    requires moved <= |constructed| < destroyed + capacity
    ensures var s := SlotOf(|constructed|, capacity);
            s < |cells| && cells[s].Empty?
            && CellsHold(capacity, cells[s := Holding(|constructed|, value)], constructed + [value], moved, destroyed)
  {
    SlotsSeparate(destroyed, capacity);
    hide SlotOf;
  }

  lemma MoveCell<T>(capacity: nat, cells: seq<Cell<T>>, constructed: seq<T>, moved: nat, destroyed: nat)
    requires CellsHold(capacity, cells, constructed, moved, destroyed)
    requires destroyed <= moved < |constructed|
    ensures var s := SlotOf(moved, capacity);
            s < |cells| && cells[s] == Holding(moved, constructed[moved])
            && CellsHold(capacity, cells[s := MovedFrom(moved)], constructed, moved + 1, destroyed)
  {
    SlotsSeparate(destroyed, capacity);
    hide SlotOf;
  }

  lemma DestroyCell<T>(capacity: nat, cells: seq<Cell<T>>, constructed: seq<T>, moved: nat, destroyed: nat)
    requires CellsHold(capacity, cells, constructed, moved, destroyed)
    requires destroyed < |constructed|
    ensures var s := SlotOf(destroyed, capacity);
            s < |cells| && !cells[s].Empty? && cells[s].item == destroyed
            && CellsHold(capacity, cells[s := Empty], constructed, moved, destroyed + 1)
  {
    SlotsSeparate(destroyed, capacity);
    SlotRepeats(destroyed, capacity);
    hide SlotOf;
  }

  lemma SlotIndexIsSlot<T>(q: Shared<T>, n: nat)
    requires Capacity(q.capacity)
    ensures q.capacity > 0 && SlotIndex(q, n % WORD) == SlotOf(n, q.capacity)
  {
    var k: nat :| k <= 63 && q.capacity == Pow2(k);
    MaskFindsSlot(n, k);
  }

  lemma CapacityBound(capacity: nat)
    requires Capacity(capacity)
    ensures 0 < capacity < WORD
  {
    var k: nat :| k <= 63 && capacity == Pow2(k);
    Pow2Grows(k, 63);
    Pow2Of64();
  }

  lemma ProducerKeepsInv<T>(q: Shared<T>, step: Step<T>)
    requires Inv(q) && Enabled(q, step)
    requires step.PushStart? || step.LoadHead? || step.PublishTail? || step.PushReturn?
    ensures Inv(Take(q, step))
  {
    var pushes := |q.tails| - 1;
    CapacityBound(q.capacity);
    if step.LoadHead? {
      DifferenceSurvivesWrap(pushes, step.index);
    } else if step.PublishTail? {
      WrapsLikeACounter(pushes);
    }
  }

  lemma ConstructKeepsInv<T>(q: Shared<T>)
    requires Inv(q) && Enabled(q, Construct)
    ensures Inv(Take(q, Construct))
  {
    hide CellsHold, And, Sub, Inc, WORD;
    SlotIndexIsSlot(q, |q.tails| - 1);
    ConstructCell(q.capacity, q.cells, q.constructed, |q.moved|, |q.destroyed|, q.producer.value);
  }

  lemma ConsumerKeepsInv<T>(q: Shared<T>, step: Step<T>)
    requires Inv(q) && Enabled(q, step)
    requires step.PopStart? || step.LoadTail? || step.PublishHead? || step.PopReturn?
    ensures Inv(Take(q, step))
  {
    var pops := |q.heads| - 1;
    CapacityBound(q.capacity);
    if step.LoadTail? {
      RemainderSeparates(pops, step.index, WORD);
    } else if step.PublishHead? {
      WrapsLikeACounter(pops);
    }
  }

  lemma MoveKeepsInv<T>(q: Shared<T>)
    requires Inv(q) && Enabled(q, MoveOut)
    ensures Inv(Take(q, MoveOut))
  {
    hide CellsHold, And, Sub, Inc, WORD;
    SlotIndexIsSlot(q, |q.heads| - 1);
    MoveCell(q.capacity, q.cells, q.constructed, |q.moved|, |q.destroyed|);
  }

  lemma DestroyKeepsInv<T>(q: Shared<T>)
    requires Inv(q) && Enabled(q, Destroy)
    ensures Inv(Take(q, Destroy))
  {
    hide CellsHold, And, Sub, Inc, WORD;
    SlotIndexIsSlot(q, |q.heads| - 1);
    DestroyCell(q.capacity, q.cells, q.constructed, |q.moved|, |q.destroyed|);
  }

  lemma SizeKeepsInv<T>(q: Shared<T>, step: Step<T>)
    requires Inv(q) && Enabled(q, step)
    requires step.SizeStart? || step.SizeTail? || step.SizeReturn?
    ensures Inv(Take(q, step))
  {
    CapacityBound(q.capacity);
    if step.SizeTail? {
      DifferenceSurvivesWrap(step.index, |q.heads| - 1);
    }
  }

  lemma {:induction false} StepKeepsInv<T>(q: Shared<T>, step: Step<T>)
    requires Inv(q) && Enabled(q, step)
    ensures Inv(Take(q, step))
  {
    hide Inv, Take, Enabled;
    match step
    case PushStart(_) => ProducerKeepsInv(q, step);
    case LoadHead(_) => ProducerKeepsInv(q, step);
    case Construct => ConstructKeepsInv(q);
    case PublishTail => ProducerKeepsInv(q, step);
    case PushReturn => ProducerKeepsInv(q, step);
    case PopStart => ConsumerKeepsInv(q, step);
    case LoadTail(_) => ConsumerKeepsInv(q, step);
    case MoveOut => MoveKeepsInv(q);
    case Destroy => DestroyKeepsInv(q);
    case PublishHead => ConsumerKeepsInv(q, step);
    case PopReturn => ConsumerKeepsInv(q, step);
    case SizeStart => SizeKeepsInv(q, step);
    case SizeTail(_) => SizeKeepsInv(q, step);
    case SizeReturn => SizeKeepsInv(q, step);
  }

  lemma {:induction false} RunKeepsInv<T>(q: Shared<T>, steps: seq<Step<T>>)
    requires Inv(q) && Runnable(q, steps)
    ensures Inv(After(q, steps))
    decreases |steps|
  {
    hide Inv, Take, Enabled;
    if steps != [] {
      StepKeepsInv(q, steps[0]);
      RunKeepsInv(Take(q, steps[0]), steps[1..]);
    }
  }

  // ---------------------------------------------------------------- what it gives

  /** On every interleaving, with every stale view: nothing undefined happens; what was moved
      out is what was put in, in order; the occupancy the consumer samples is what it last saw
      pushed less what it has moved out, so never more than is there or than the capacity; items
      are destroyed in order, each at most once. */
  lemma {:induction false} EveryInterleaving<T>(capacity: nat, steps: seq<Step<T>>)
    requires Capacity(capacity) && Runnable(Start<T>(capacity), steps)
    ensures var q := After(Start<T>(capacity), steps);
            && Inv(q) && !q.fault
            && q.moved <= q.constructed
            && (forall i | 0 <= i < |q.destroyed| :: q.destroyed[i] == i)
            && |q.destroyed| <= |q.moved| <= |q.constructed| <= |q.destroyed| + capacity
            && (q.consumer.Sized? ==> q.consumer.count == q.tailSeen - |q.moved| <= |q.constructed| - |q.moved|
                                      && q.consumer.count <= capacity)
            && (q.consumer.Popped? && q.consumer.result.Some?
                ==> |q.moved| > 0 && q.consumer.result.value == q.moved[|q.moved| - 1])
  {
    StartInv<T>(capacity);
    RunKeepsInv(Start<T>(capacity), steps);
    CapacityStays(Start<T>(capacity), steps);
    hide After;
  }

  lemma {:induction false} CapacityStays<T>(q: Shared<T>, steps: seq<Step<T>>)
    requires Runnable(q, steps)
    ensures After(q, steps).capacity == q.capacity
    decreases |steps|
  {
    if steps != [] {
      CapacityStays(Take(q, steps[0]), steps[1..]);
    }
  }

  /** The items moved out followed by the items live in slots are the items pushed: every live
      cell holds an item not yet moved, and every such item is in exactly one cell. */
  lemma {:induction false} LiveCellsAreTheRest<T>(q: Shared<T>)
    requires Inv(q)
    ensures forall s | 0 <= s < |q.cells| && q.cells[s].Holding? ::
              |q.moved| <= q.cells[s].item < |q.constructed|
              && q.cells[s].value == q.constructed[q.cells[s].item]
    ensures forall i: nat | |q.moved| <= i < |q.constructed| ::
              SlotOf(i, q.capacity) < |q.cells| && q.cells[SlotOf(i, q.capacity)] == Holding(i, q.constructed[i])
    ensures forall s, t | 0 <= s < t < |q.cells| && q.cells[s].Holding? && q.cells[t].Holding? ::
              q.cells[s].item != q.cells[t].item
  {
    var d := |q.destroyed|;
    forall s: nat | s < |q.cells|
      ensures q.cells[s].Holding? ==>
        |q.moved| <= q.cells[s].item < |q.constructed|
        && q.cells[s].value == q.constructed[q.cells[s].item]
        && SlotOf(q.cells[s].item, q.capacity) == s
    {
      CounterInHits(d, q.capacity, s);
      var i := CounterIn(d, q.capacity, s);
      assert SlotOf(i, q.capacity) == s;
    }
    hide SlotOf;
  }

  /** While the producer is about to construct, the consumer is never reading or destroying in
      that slot; so the two never touch a slot at the same time. */
  lemma {:induction false} NoTwoThreadsInOneSlot<T>(q: Shared<T>)
    requires Inv(q) && q.producer.Constructing? && (q.consumer.Moving? || q.consumer.Destroying?)
    ensures SlotIndex(q, q.producer.tail) != SlotIndex(q, q.consumer.head)
    ensures SlotIndex(q, q.producer.tail) < |q.cells| && q.cells[SlotIndex(q, q.producer.tail)].Empty?
  {
    var pops, pushes := |q.heads| - 1, |q.tails| - 1;
    SlotIndexIsSlot(q, pops);
    SlotIndexIsSlot(q, pushes);
    SlotsSeparate(pops, q.capacity);
    hide SlotOf;
  }

  // ---------------------------------------------------------------- destruction of the queue

  predicate BothOutside<T>(q: Shared<T>) {
    q.producer.Outside? && q.consumer.Away?
  }

  /** The destructor's loop over wrapped indices from `i` to the final tail. */
  function Drain<T>(q: Shared<T>, i: nat, tail: nat): Shared<T>
    requires i < WORD && tail < WORD
    decreases Sub(tail, i)
  {
    if i == tail then q
    else Drain(DestroySlot(q, i), Inc(i), tail)
  }

  /** Once both threads are out, the destructor leaves every slot raw and has, together with the
      pops, destroyed every constructed item exactly once. */
  lemma {:induction false} DrainDestroysTheRest<T>(q: Shared<T>)
    requires Inv(q) && BothOutside(q)
    ensures var last := Drain(q, q.heads[|q.heads| - 1], q.tails[|q.tails| - 1]);
            && !last.fault
            && (forall s | 0 <= s < |last.cells| :: last.cells[s].Empty?)
            && last.destroyed == seq(|q.constructed|, i => i)
  {
    hide Drain, CellsHold, Inv;
    DrainReady(q);
    CapacityBound(q.capacity);
    hide WORD;
    DrainFrom(q, |q.heads| - 1, |q.tails| - 1);
  }

  lemma DrainReady<T>(q: Shared<T>)
    requires Inv(q) && BothOutside(q)
    ensures var pops, pushes := |q.heads| - 1, |q.tails| - 1;
            && pops >= 0 && pushes >= 0 && q.heads[pops] == pops % WORD && q.tails[pushes] == pushes % WORD
            && Capacity(q.capacity) && |q.constructed| == pushes && |q.destroyed| == pops && !q.fault
            && CellsHold(q.capacity, q.cells, q.constructed, |q.moved|, pops)
            && forall i | 0 <= i < pops :: q.destroyed[i] == i
  {
    hide CellsHold;
  }

  lemma {:induction false} DrainFrom<T>(q: Shared<T>, n: nat, pushes: nat)
    requires !q.fault && Capacity(q.capacity) && q.capacity < WORD
    requires CellsHold(q.capacity, q.cells, q.constructed, |q.moved|, n)
    requires |q.constructed| == pushes && |q.destroyed| == n && forall i | 0 <= i < n :: q.destroyed[i] == i
    ensures var last := Drain(q, n % WORD, pushes % WORD);
            && !last.fault
            && (forall s | 0 <= s < |last.cells| :: last.cells[s].Empty?)
            && last.destroyed == seq(|q.constructed|, i => i)
    decreases pushes - n
  {
    RemainderSeparates(n, pushes, WORD);
    if n < pushes {
      SlotIndexIsSlot(q, n);
      DestroyCell(q.capacity, q.cells, q.constructed, |q.moved|, n);
      WrapsLikeACounter(n);
      DrainFrom(DestroySlot(q, n % WORD), n + 1, pushes);
    } else {
      forall s: nat | s < |q.cells| ensures q.cells[s].Empty? {
        CounterInHits(n, q.capacity, s);
        assert SlotOf(CounterIn(n, q.capacity, s), q.capacity) == s;
      }
    }
  }
}
