/** Under a fair scheduler the pipeline ends: every run is finite, and can only end joined. */
module FairPipeline {
  import opened Wrappers
  import opened Words
  import opened SpscQueue
  import opened QueueSteps
  import opened BookReplayer
  import opened Pipeline
  import opened PipelineProgress

  /** How fair: a thread still at work moves at least once in any `turn` moves; of any `look`
      loads of the other thread's index one finds its latest value, and of any `look` looks at
      an abort flag that is set one sees it. */
  datatype Pace = Pace(turn: nat, look: nat)

  /** What fairness has to remember: moves since each thread's last, loads since each one's last
      latest value, and looks since the flag was set. */
  datatype Waits = Waits(
    producerIdle: nat, consumerIdle: nat, producerStale: nat, consumerStale: nat, producerMissed: nat,
    consumerMissed: nat)

  const NO_WAIT := Waits(0, 0, 0, 0, 0, 0)

  predicate ByProducer(move: Move) {
    move.ProducerQueue? || ProducerLoopMove(move)
  }

  function Waited(r: Run, t: Waits, move: Move): Waits {
    if ByProducer(move) then
      t.(producerIdle := 0, consumerIdle := t.consumerIdle + 1,
         producerStale := if !(move.ProducerQueue? && move.step.LoadHead?) then t.producerStale
                          else if move.step.index + 1 == |r.queue.heads| then 0 else t.producerStale + 1,
         producerMissed := t.producerMissed + if move.ProducerStall? && r.aborted then 1 else 0)
    else
      t.(consumerIdle := 0, producerIdle := t.producerIdle + 1,
         consumerStale := if !(move.ConsumerQueue? && move.step.LoadTail?) then t.consumerStale
                          else if move.step.index + 1 == |r.queue.tails| then 0 else t.consumerStale + 1,
         consumerMissed := t.consumerMissed + if move.ConsumerStall? && r.aborted then 1 else 0)
  }

  predicate Patient(pace: Pace, r: Run, t: Waits) {
    && (!r.producer.ProducerDone? ==> t.producerIdle < pace.turn)
    && (!r.consumer.ConsumerDone? ==> t.consumerIdle < pace.turn)
    && t.producerStale < pace.look && t.consumerStale < pace.look
    && t.producerMissed < pace.look && t.consumerMissed < pace.look
  }

  predicate Fair(pace: Pace, r: Run, t: Waits, moves: seq<Move>)
    requires Executable(r, moves)
    decreases |moves|
  {
    moves == []
    || var s, u := Do(r, moves[0]), Waited(r, t, moves[0]);
       Patient(pace, s, u) && Fair(pace, s, u, moves[1..])
  }

  function AllWaited(r: Run, t: Waits, moves: seq<Move>): Waits
    requires Executable(r, moves)
    decreases |moves|
  {
    if moves == [] then t else AllWaited(Do(r, moves[0]), Waited(r, t, moves[0]), moves[1..])
  }

  // ---------------------------------------------------------------- waiting in a circle

  /** The four places a producer with nothing to do goes round. */
  predicate ProducerSpins(r: Run) {
    r.producer.PushLoop? || r.producer.CheckingAbort?
    || (r.producer.InPush? && (r.queue.producer.LoadingHead? || r.queue.producer == Pushed(false)))
  }

  predicate ConsumerSpins(r: Run) {
    r.consumer.PopLoop? || r.consumer.EmptyCheckingAbort?
    || (r.consumer.InPop? && (r.queue.consumer.LoadingTail? || r.queue.consumer == Popped(None)))
  }

  /** Work, the same all round the circle. */
  function ProducerLevel(r: Run): nat {
    if !ProducerSpins(r) then ProducerWork(r) else 2 + if r.next <= |r.batch| then 6 * (|r.batch| - r.next) else 0
  }

  function ConsumerLevel(r: Run): nat {
    if !ConsumerSpins(r) then ConsumerWork(r) else 12 + if r.consumed <= |r.batch| then 12 * (|r.batch| - r.consumed) else 0
  }

  function Level(r: Run): nat {
    ProducerLevel(r) + ConsumerLevel(r)
  }

  /** The producer is not waiting for the consumer. */
  predicate ProducerCan(r: Run) {
    !r.producer.ProducerDone? && (ProducerSpins(r) && r.next < |r.batch| && Full(r) ==> r.aborted)
  }

  predicate ConsumerCan(r: Run) {
    !r.consumer.ConsumerDone? && (ConsumerSpins(r) && r.consumed < |r.batch| && Drained(r) ==> r.aborted)
  }

  /** How many more moves such a producer may go round: a load that must be stale, or a flag that
      must be missed, comes once a round. */
  function ProducerRounds(pace: Pace, r: Run, t: Waits): nat
    requires t.producerStale < pace.look && t.producerMissed < pace.look
  {
    if !ProducerSpins(r) || r.next >= |r.batch| then 0
    else if !Full(r) then
      4 * (pace.look - 1 - t.producerStale)
      + if r.producer.PushLoop? then 1 else if r.producer.CheckingAbort? then 2
        else if r.queue.producer.LoadingHead? then 0 else 3
    else
      4 * (pace.look - 1 - t.producerMissed)
      + if r.producer.PushLoop? then 3 else if r.producer.CheckingAbort? then 0
        else if r.queue.producer.LoadingHead? then 2 else 1
  }

  function ConsumerRounds(pace: Pace, r: Run, t: Waits): nat
    requires t.consumerStale < pace.look && t.consumerMissed < pace.look
  {
    if !ConsumerSpins(r) || r.consumed >= |r.batch| then 0
    else if !Drained(r) then
      4 * (pace.look - 1 - t.consumerStale)
      + if r.consumer.PopLoop? then 1 else if r.consumer.EmptyCheckingAbort? then 2
        else if r.queue.consumer.LoadingTail? then 0 else 3
    else
      4 * (pace.look - 1 - t.consumerMissed)
      + if r.consumer.PopLoop? then 3 else if r.consumer.EmptyCheckingAbort? then 0
        else if r.queue.consumer.LoadingTail? then 2 else 1
  }

  /** A move round the circle: nothing anyone else can see changes. */
  predicate Circles(r: Run, s: Run) {
    && Level(s) == Level(r) && s.batch == r.batch && s.next == r.next && s.consumed == r.consumed
    && s.aborted == r.aborted && s.queue.heads == r.queue.heads && s.queue.tails == r.queue.tails
    && s.queue.capacity == r.queue.capacity
    && ProducerSpins(s) == ProducerSpins(r) && ConsumerSpins(s) == ConsumerSpins(r)
    && s.producer.ProducerDone? == r.producer.ProducerDone? && s.consumer.ConsumerDone? == r.consumer.ConsumerDone?
  }

  lemma ProducerQueueCircles(r: Run, step: Step<BookUpdate>)
    requires r.next <= |r.batch| && r.producer.InPush? && r.next < |r.batch|
    requires Allowed(r, ProducerQueue(step)) && !Take(r.queue, step).fault
    ensures var s := Do(r, ProducerQueue(step));
            ProducerLevel(s) < ProducerLevel(r)
            || (step.LoadHead? && s.queue.producer == Pushed(false) && ProducerLevel(s) == ProducerLevel(r))
  {
    hide And, Sub, Inc;
  }

  lemma ConsumerQueueCircles(r: Run, step: Step<BookUpdate>)
    requires r.consumed <= |r.batch| && Allowed(r, ConsumerQueue(step)) && !Take(r.queue, step).fault
    requires r.consumer.Sampling? ==> !r.queue.consumer.Popped? && !r.queue.consumer.LoadingTail?
    ensures var s := Do(r, ConsumerQueue(step));
            ConsumerLevel(s) < ConsumerLevel(r)
            || (step.LoadTail? && s.queue.consumer == Popped(None) && ConsumerLevel(s) == ConsumerLevel(r))
  {
    hide And, Sub, Inc;
  }

  /** A producer's move gets it further or takes it one place round the circle. */
  ghost predicate ProducerTurned(pace: Pace, r: Run, t: Waits, s: Run, u: Waits)
    requires Patient(pace, r, t) && Patient(pace, s, u)
  {
    Level(s) < Level(r)
    || (Circles(r, s) && ConsumerRounds(pace, s, u) == ConsumerRounds(pace, r, t)
        && (ProducerCan(r) ==> ProducerRounds(pace, s, u) < ProducerRounds(pace, r, t)))
  }

  ghost predicate ConsumerTurned(pace: Pace, r: Run, t: Waits, s: Run, u: Waits)
    requires Patient(pace, r, t) && Patient(pace, s, u)
  {
    Level(s) < Level(r)
    || (Circles(r, s) && ProducerRounds(pace, s, u) == ProducerRounds(pace, r, t)
        && (ConsumerCan(r) ==> ConsumerRounds(pace, s, u) < ConsumerRounds(pace, r, t)))
  }

  lemma SameProducerLevel(r: Run, s: Run)
    requires s.batch == r.batch && s.next == r.next && s.producer == r.producer && s.queue.producer == r.queue.producer
    ensures ProducerLevel(s) == ProducerLevel(r) && ProducerSpins(s) == ProducerSpins(r)
  {
    SameProducerWork(r, s);
    hide ProducerWork;
  }

  lemma SameConsumerLevel(r: Run, s: Run)
    requires s.batch == r.batch && s.consumed == r.consumed && s.consumer == r.consumer
    requires s.queue.consumer == r.queue.consumer
    ensures ConsumerLevel(s) == ConsumerLevel(r) && ConsumerSpins(s) == ConsumerSpins(r)
  {
    SameConsumerWork(r, s);
    hide ConsumerWork;
  }

  lemma ProducerLoads(pace: Pace, r: Run, t: Waits, move: Move, origin: Replayer)
    requires RunInv(r, origin) && Allowed(r, move) && move.ProducerQueue?
    requires Patient(pace, r, t) && Patient(pace, Do(r, move), Waited(r, t, move))
    ensures ProducerTurned(pace, r, t, Do(r, move), Waited(r, t, move))
  {
    hide Inv, ConsumerWork, ProducerWork, ProducerHolds, ConsumerHolds, Take, ProducerLevel, ConsumerLevel;
    PlacesAllow(r, origin);
    StepKeepsInv(r.queue, move.step);
    InvHasNoFault(Take(r.queue, move.step));
    var s := Do(r, move);
    SameConsumerLevel(r, s) by { ProducerStepIsItsOwn(r, move.step); }
    ProducerQueueCircles(r, move.step);
    if Level(s) >= Level(r) {
      LoadHeadChanges(r.queue, move.step.index);
      if !Full(r) && move.step.index + 1 == |r.queue.heads| {
        FreshLoadHead(r.queue, move.step.index);
      }
    }
  }

  lemma ProducerStepIsItsOwn(r: Run, step: Step<BookUpdate>)
    requires Allowed(r, ProducerQueue(step))
    ensures Take(r.queue, step).consumer == r.queue.consumer && r.producer.InPush?
  {
    hide And, Sub, Inc;
  }

  lemma LoadHeadChanges(q: Shared<BookUpdate>, k: nat)
    requires Enabled(q, LoadHead(k))
    ensures Take(q, LoadHead(k)) == q.(headSeen := k, producer := Take(q, LoadHead(k)).producer)
    ensures q.producer.LoadingHead?
  {
    hide Sub;
  }

  lemma ProducerLoops(pace: Pace, r: Run, t: Waits, move: Move, origin: Replayer)
    requires RunInv(r, origin) && Allowed(r, move) && ProducerLoopMove(move)
    requires Patient(pace, r, t) && Patient(pace, Do(r, move), Waited(r, t, move))
    ensures ProducerTurned(pace, r, t, Do(r, move), Waited(r, t, move))
  {
    hide Inv, ConsumerWork, ConsumerHolds, ConsumerLevel, ProducerTurned;
    if move.PushNext? || move.PushFull? || move.ProducerStall? {
      ProducerGoesRound(pace, r, t, move);
    } else {
      ProducerGetsOn(r, move);
      FurtherIsTurned(pace, r, t, Do(r, move), Waited(r, t, move));
    }
  }

  lemma ProducerGoesRound(pace: Pace, r: Run, t: Waits, move: Move)
    requires ProducerHolds(r) && Allowed(r, move) && (move.PushNext? || move.PushFull? || move.ProducerStall?)
    requires Patient(pace, r, t) && Patient(pace, Do(r, move), Waited(r, t, move))
    ensures ProducerTurned(pace, r, t, Do(r, move), Waited(r, t, move))
  {
    hide ConsumerLevel, ProducerWork;
    SameConsumerLevel(r, Do(r, move));
  }

  lemma ProducerGetsOn(r: Run, move: Move)
    requires ProducerHolds(r) && Allowed(r, move) && ProducerLoopMove(move)
    requires !move.PushNext? && !move.PushFull? && !move.ProducerStall?
    ensures Level(Do(r, move)) < Level(r)
  {
    hide ConsumerLevel;
    SameConsumerLevel(r, Do(r, move));
  }

  lemma ConsumerLoads(pace: Pace, r: Run, t: Waits, move: Move, origin: Replayer)
    requires RunInv(r, origin) && Allowed(r, move) && move.ConsumerQueue?
    requires Patient(pace, r, t) && Patient(pace, Do(r, move), Waited(r, t, move))
    ensures ConsumerTurned(pace, r, t, Do(r, move), Waited(r, t, move))
  {
    hide Inv, ConsumerWork, ProducerWork, ProducerHolds, ConsumerHolds, Take, ProducerLevel, ConsumerLevel;
    PlacesAllow(r, origin);
    PoppingHasRows(r, origin);
    StepKeepsInv(r.queue, move.step);
    InvHasNoFault(Take(r.queue, move.step));
    var s := Do(r, move);
    SameProducerLevel(r, s) by { ConsumerStepKeepsProducer(r, move.step); }
    ConsumerQueueCircles(r, move.step);
    if Level(s) >= Level(r) {
      LoadTailChanges(r.queue, move.step.index);
      if !Drained(r) && move.step.index + 1 == |r.queue.tails| {
        FreshLoadTail(r.queue, move.step.index);
      }
    }
  }

  lemma PoppingHasRows(r: Run, origin: Replayer)
    requires RunInv(r, origin)
    ensures r.consumer.Sampling? ==> !r.queue.consumer.LoadingTail?
    ensures r.consumer.InPop? ==> r.consumed < |r.batch|
  {
    hide Inv, ConsumerState, ProducerHolds;
  }

  lemma LoadTailChanges(q: Shared<BookUpdate>, k: nat)
    requires Enabled(q, LoadTail(k))
    ensures Take(q, LoadTail(k)) == q.(tailSeen := k, consumer := Take(q, LoadTail(k)).consumer)
    ensures q.consumer.LoadingTail?
  {
  }

  lemma ConsumerLoops(pace: Pace, r: Run, t: Waits, move: Move, origin: Replayer)
    requires RunInv(r, origin) && Allowed(r, move) && !ByProducer(move) && !move.ConsumerQueue?
    requires Patient(pace, r, t) && Patient(pace, Do(r, move), Waited(r, t, move))
    ensures ConsumerTurned(pace, r, t, Do(r, move), Waited(r, t, move))
  {
    hide Inv, ProducerWork, ProducerHolds, ConsumerState, ProducerLevel, ConsumerTurned;
    if move.PopNext? || move.PopEmpty? || move.ConsumerStall? {
      ConsumerGoesRound(pace, r, t, move);
    } else {
      ConsumerGetsOn(r, move);
      FurtherIsTurned(pace, r, t, Do(r, move), Waited(r, t, move));
    }
  }

  lemma FurtherIsTurned(pace: Pace, r: Run, t: Waits, s: Run, u: Waits)
    requires Patient(pace, r, t) && Patient(pace, s, u) && Level(s) < Level(r)
    ensures ProducerTurned(pace, r, t, s, u) && ConsumerTurned(pace, r, t, s, u)
  {
  }

  lemma ConsumerGoesRound(pace: Pace, r: Run, t: Waits, move: Move)
    requires ConsumerPlace(r) && Allowed(r, move) && (move.PopNext? || move.PopEmpty? || move.ConsumerStall?)
    requires Patient(pace, r, t) && Patient(pace, Do(r, move), Waited(r, t, move))
    ensures ConsumerTurned(pace, r, t, Do(r, move), Waited(r, t, move))
  {
    hide ProducerLevel, ConsumerWork;
    SameProducerLevel(r, Do(r, move));
  }

  lemma ConsumerGetsOn(r: Run, move: Move)
    requires ConsumerPlace(r) && Allowed(r, move) && !ByProducer(move) && !move.ConsumerQueue?
    requires !move.PopNext? && !move.PopEmpty? && !move.ConsumerStall?
    ensures Level(Do(r, move)) < Level(r)
  {
    hide ProducerLevel, ApplyRow;
    SameProducerLevel(r, Do(r, move));
  }

  /** Short of the join, one of the two is not waiting for the other. */
  lemma {:induction false} SomeoneCan(r: Run, origin: Replayer)
    requires RunInv(r, origin) && !Joined(r)
    ensures ProducerCan(r) || ConsumerCan(r)
  {
    hide CellsHold, LogsHold, Replay;
  }

  // ---------------------------------------------------------------- the potential

  /** Moves the thread that can get further may still let pass before it does. */
  function Slack(pace: Pace, r: Run, t: Waits): nat
    requires Patient(pace, r, t)
  {
    if ProducerCan(r) then Product(pace.turn, ProducerRounds(pace, r, t)) + (pace.turn - 1 - t.producerIdle)
    else if ConsumerCan(r) then Product(pace.turn, ConsumerRounds(pace, r, t)) + (pace.turn - 1 - t.consumerIdle)
    else 0
  }

  function Product(a: nat, b: nat): nat {
    a * b
  }

  /** The longest a thread that can get further takes to do it. */
  function Patience(pace: Pace): nat {
    Product(pace.turn, 4 * pace.look)
  }

  function Potential(pace: Pace, r: Run, t: Waits): nat
    requires Patient(pace, r, t)
  {
    Product(Level(r), Patience(pace)) + Slack(pace, r, t)
  }

  lemma ProductStep(k: nat, less: nat, more: nat)
    requires less < more
    ensures Product(k, less) + k <= Product(k, more) && Product(less, k) + k <= Product(more, k)
  {
    assert k * (more - less - 1) >= 0;
  }

  lemma SlackIsBounded(pace: Pace, r: Run, t: Waits)
    requires Patient(pace, r, t)
    ensures ProducerCan(r) || ConsumerCan(r) ==> Slack(pace, r, t) < Patience(pace)
    ensures !ProducerCan(r) && !ConsumerCan(r) ==> Slack(pace, r, t) == 0
  {
    ProductStep(pace.turn, ProducerRounds(pace, r, t), 4 * pace.look);
    ProductStep(pace.turn, ConsumerRounds(pace, r, t), 4 * pace.look);
    hide Product;
  }

  lemma PatienceIsPositive(pace: Pace)
    requires pace.turn > 0 && pace.look > 0
    ensures Patience(pace) > 0
  {
    ProductStep(pace.turn, 0, 4 * pace.look);
  }

  lemma MoverIsAtWork(r: Run, move: Move)
    requires Allowed(r, move)
    ensures if ByProducer(move) then !r.producer.ProducerDone? else !r.consumer.ConsumerDone?
  {
    hide Enabled;
  }

  lemma CircleLowersSlack(pace: Pace, r: Run, t: Waits, s: Run, u: Waits, producer: bool)
    requires Patient(pace, r, t) && Patient(pace, s, u) && Circles(r, s) && (ProducerCan(r) || ConsumerCan(r))
    requires if producer then u.producerIdle == 0 && u.consumerIdle == t.consumerIdle + 1
             else u.consumerIdle == 0 && u.producerIdle == t.producerIdle + 1
    requires producer ==> !r.producer.ProducerDone? && ConsumerRounds(pace, s, u) == ConsumerRounds(pace, r, t)
                          && (ProducerCan(r) ==> ProducerRounds(pace, s, u) < ProducerRounds(pace, r, t))
    requires !producer ==> !r.consumer.ConsumerDone? && ProducerRounds(pace, s, u) == ProducerRounds(pace, r, t)
                           && (ConsumerCan(r) ==> ConsumerRounds(pace, s, u) < ConsumerRounds(pace, r, t))
    ensures Slack(pace, s, u) < Slack(pace, r, t)
  {
    hide Product, ProducerRounds, ConsumerRounds, ProducerSpins, ConsumerSpins;
    assert ProducerCan(s) == ProducerCan(r) && ConsumerCan(s) == ConsumerCan(r);
    if producer && ProducerCan(r) {
      ProductStep(pace.turn, ProducerRounds(pace, s, u), ProducerRounds(pace, r, t));
    } else if !producer && !ProducerCan(r) {
      ProductStep(pace.turn, ConsumerRounds(pace, s, u), ConsumerRounds(pace, r, t));
    }
  }

  /** Every fair move lowers the potential. */
  lemma FairMoveDescends(pace: Pace, r: Run, t: Waits, move: Move, origin: Replayer)
    requires RunInv(r, origin) && Allowed(r, move)
    requires Patient(pace, r, t) && Patient(pace, Do(r, move), Waited(r, t, move))
    ensures Potential(pace, Do(r, move), Waited(r, t, move)) < Potential(pace, r, t)
  {
    hide Do, Allowed, RunInv, Product, Level, Patience, Slack, ProducerCan, ConsumerCan, Circles, ProducerRounds,
        ConsumerRounds;
    var s, u := Do(r, move), Waited(r, t, move);
    if move.ProducerQueue? {
      ProducerLoads(pace, r, t, move, origin);
    } else if ByProducer(move) {
      ProducerLoops(pace, r, t, move, origin);
    } else if move.ConsumerQueue? {
      ConsumerLoads(pace, r, t, move, origin);
    } else {
      ConsumerLoops(pace, r, t, move, origin);
    }
    MoverIsAtWork(r, move);
    SomeoneCan(r, origin);
    SlackIsBounded(pace, s, u);
    PatienceIsPositive(pace);
    if Level(s) < Level(r) {
      ProductStep(Patience(pace), Level(s), Level(r));
    } else {
      CircleLowersSlack(pace, r, t, s, u, ByProducer(move));
      SameLevel(r, s);
    }
  }

  lemma SameLevel(r: Run, s: Run)
    requires Circles(r, s)
    ensures Level(s) == Level(r)
  {
  }

  // ---------------------------------------------------------------- whole runs

  lemma {:induction false} FairRunsDescend(pace: Pace, r: Run, t: Waits, moves: seq<Move>, origin: Replayer)
    requires RunInv(r, origin) && Patient(pace, r, t) && Executable(r, moves) && Fair(pace, r, t, moves)
    ensures Patient(pace, Execute(r, moves), AllWaited(r, t, moves))
    ensures |moves| + Potential(pace, Execute(r, moves), AllWaited(r, t, moves)) <= Potential(pace, r, t)
    decreases |moves|
  {
    hide RunInv, Do, Allowed, Potential, Waited, Patient;
    if moves != [] {
      MoveKeepsRunInv(r, moves[0], origin);
      FairMoveDescends(pace, r, t, moves[0], origin);
      FairRunsDescend(pace, Do(r, moves[0]), Waited(r, t, moves[0]), moves[1..], origin);
    }
  }

  /** Under a fair scheduler no run over n rows is longer than (18 n + 15) times a thread's
      patience, however small the queue and wherever a row is refused or a push throws. */
  lemma {:induction false} FairRunsEnd(pace: Pace, origin: Replayer, batch: seq<BookUpdate>, capacity: nat,
                                       moves: seq<Move>)
    requires Capacity(capacity) && pace.turn > 0 && pace.look > 0
    requires Executable(Begin(origin, batch, capacity), moves)
    requires Fair(pace, Begin(origin, batch, capacity), NO_WAIT, moves)
    ensures |moves| <= (18 * |batch| + 15) * (4 * pace.turn * pace.look)
  {
    hide Slack, Level, Execute, Executable, Fair, AllWaited, Patience, Product, Begin, RunInv, Patient;
    var r := Begin(origin, batch, capacity);
    BeginInv(origin, batch, capacity);
    BeginLevel(pace, origin, batch, capacity);
    FairRunsDescend(pace, r, NO_WAIT, moves, origin);
    BoundIsProduct(pace, 18 * |batch| + 14);
  }

  lemma BeginLevel(pace: Pace, origin: Replayer, batch: seq<BookUpdate>, capacity: nat)
    requires pace.turn > 0 && pace.look > 0
    ensures Patient(pace, Begin(origin, batch, capacity), NO_WAIT)
    ensures Potential(pace, Begin(origin, batch, capacity), NO_WAIT)
         <= Product(18 * |batch| + 14, Patience(pace)) + Patience(pace)
  {
    SlackIsBounded(pace, Begin(origin, batch, capacity), NO_WAIT);
    hide Slack, Patience, Product;
    assert Level(Begin(origin, batch, capacity)) == 18 * |batch| + 14;
  }

  lemma BoundIsProduct(pace: Pace, n: nat)
    ensures Product(n, Patience(pace)) + Patience(pace) == (n + 1) * (4 * pace.turn * pace.look)
  {
    var p := Patience(pace);
    assert p == 4 * pace.turn * pace.look;
    assert (n + 1) * p == n * p + p;
  }

  // ---------------------------------------------------------------- a fair scheduler is never stuck

  lemma {:induction false} FairRunExtends(pace: Pace, r: Run, t: Waits, moves: seq<Move>, next: Move)
    requires Executable(r, moves) && Fair(pace, r, t, moves) && Allowed(Execute(r, moves), next)
    requires Patient(pace, Do(Execute(r, moves), next), Waited(Execute(r, moves), AllWaited(r, t, moves), next))
    ensures Executable(r, moves + [next]) && Fair(pace, r, t, moves + [next])
    decreases |moves|
  {
    hide Allowed, Do, Waited, Patient;
    if moves == [] {
      assert moves + [next] == [next] && [next][1..] == [];
    } else {
      assert (moves + [next])[1..] == moves[1..] + [next];
      FairRunExtends(pace, Do(r, moves[0]), Waited(r, t, moves[0]), moves[1..], next);
    }
  }

  /** One of the two has just moved. */
  lemma {:induction false} OneJustMoved(r: Run, t: Waits, moves: seq<Move>)
    requires Executable(r, moves) && (t.producerIdle == 0 || t.consumerIdle == 0)
    ensures AllWaited(r, t, moves).producerIdle == 0 || AllWaited(r, t, moves).consumerIdle == 0
    decreases |moves|
  {
    hide Allowed, Do;
    if moves != [] {
      OneJustMoved(Do(r, moves[0]), Waited(r, t, moves[0]), moves[1..]);
    }
  }

  /** The thread that has waited, looking at the latest. */
  function FairChoice(r: Run, t: Waits): Move {
    if !r.producer.ProducerDone? && (r.consumer.ConsumerDone? || t.consumerIdle == 0) then ProducerChoice(r)
    else ConsumerChoice(r)
  }

  lemma FairChoiceIsFair(pace: Pace, r: Run, t: Waits, origin: Replayer)
    requires RunInv(r, origin) && !Joined(r) && Patient(pace, r, t) && pace.turn >= 2
    requires t.producerIdle == 0 || t.consumerIdle == 0
    ensures Allowed(r, FairChoice(r, t)) && Patient(pace, Do(r, FairChoice(r, t)), Waited(r, t, FairChoice(r, t)))
  {
    hide RunInv, Allowed, ApplyRow, Take;
    QueueHasIndices(r, origin);
    if !r.producer.ProducerDone? && (r.consumer.ConsumerDone? || t.consumerIdle == 0) {
      ProducerChoiceAllowed(r, origin);
      ProducerLeavesConsumer(r, ProducerChoice(r));
    } else {
      ConsumerChoiceAllowed(r, origin);
      ConsumerLeavesProducer(r, ConsumerChoice(r));
    }
    hide Do;
  }

  lemma QueueHasIndices(r: Run, origin: Replayer)
    requires RunInv(r, origin)
    ensures r.queue.heads != [] && r.queue.tails != []
  {
    IndicesExist(r.queue);
    hide Inv, ProducerHolds, ConsumerHolds;
  }

  lemma ProducerLeavesConsumer(r: Run, move: Move)
    requires Allowed(r, move) && ByProducer(move)
    ensures Do(r, move).consumer == r.consumer
  {
    hide Take;
  }

  lemma ConsumerLeavesProducer(r: Run, move: Move)
    requires Allowed(r, move) && !ByProducer(move)
    ensures Do(r, move).producer == r.producer
  {
    hide Take, ApplyRow;
  }

  /** Every fair run joins: it is bounded, and short of the join it can always go on fairly. */
  lemma {:induction false} FairRunsJoin(pace: Pace, origin: Replayer, batch: seq<BookUpdate>, capacity: nat,
                                        moves: seq<Move>)
    requires Capacity(capacity) && pace.turn >= 2 && pace.look >= 1
    requires Executable(Begin(origin, batch, capacity), moves)
    requires Fair(pace, Begin(origin, batch, capacity), NO_WAIT, moves)
    ensures |moves| <= (18 * |batch| + 15) * (4 * pace.turn * pace.look)
    ensures var start := Begin(origin, batch, capacity);
            !Joined(Execute(start, moves))
            ==> exists next :: Executable(start, moves + [next]) && Fair(pace, start, NO_WAIT, moves + [next])
  {
    hide Execute, Executable, Fair, AllWaited, Begin, RunInv, Patient, Joined, Do, Waited, FairChoice, Allowed;
    var start := Begin(origin, batch, capacity);
    FairRunsEnd(pace, origin, batch, capacity, moves);
    var r, t := Execute(start, moves), AllWaited(start, NO_WAIT, moves);
    if !Joined(r) {
      BeginInv(origin, batch, capacity);
      BeginLevel(pace, origin, batch, capacity);
      ExecuteKeepsInv(start, moves, origin);
      FairRunsDescend(pace, start, NO_WAIT, moves, origin);
      OneJustMoved(start, NO_WAIT, moves);
      FairChoiceIsFair(pace, r, t, origin);
      FairRunExtends(pace, start, NO_WAIT, moves, FairChoice(r, t));
    }
  }
}
