/** The pipeline cannot hang: work only grows by stalling, and from every reachable state some
    schedule brings both threads to the join. */
module PipelineProgress {
  import opened Wrappers
  import opened Words
  import opened SpscQueue
  import opened QueueSteps
  import opened BookReplayer
  import opened Pipeline

  predicate IsStall(move: Move) {
    move.ProducerStall? || move.ConsumerStall?
  }

  /** Steps the producer still has before it is done, if no push fails. */
  function ProducerWork(r: Run): nat {
    var base: nat := if r.next <= |r.batch| then 6 * (|r.batch| - r.next) else 0;
    match r.producer
    case ProducerDone => 0
    case Raising => 1
    case PushLoop => base + 2
    case CheckingAbort => if base >= 1 then base - 1 else 0
    case InPush =>
      match r.queue.producer
      case Outside => base + 2
      case LoadingHead(_, _) => base + 1
      case Constructing(_, _) => base
      case Publishing(_) => if base >= 1 then base - 1 else 0
      case Pushed(ok) => if ok then (if base >= 2 then base - 2 else 0) else base
  }

  function ConsumerWork(r: Run): nat {
    var base: nat := if r.consumed <= |r.batch| then 12 * (|r.batch| - r.consumed) else 0;
    var stage: nat :=
      match r.consumer
      case PopLoop => 12
      case EmptyCheckingAbort => 9
      case Applying(_) => 3
      case Sampling(_) =>
        (match r.queue.consumer case Sizing(_) => 5 case Sized(_) => 4 case _ => 6)
      case InPop =>
        (match r.queue.consumer
         case LoadingTail(_) => 11
         case Moving(_) => 10
         case Destroying(_, _) => 9
         case Releasing(_, _) => 8
         case Popped(result) => if result.Some? then 7 else 10
         case _ => 12)
      case Failing(_) => 0
      case ConsumerDone => 0;
    match r.consumer
    case ConsumerDone => 0
    case Failing(_) => 1
    case _ => base + stage
  }

  function Work(r: Run): nat {
    ProducerWork(r) + ConsumerWork(r)
  }

  lemma ProducerQueueWorks(r: Run, step: Step<BookUpdate>)
    requires r.next <= |r.batch| && (r.producer.InPush? ==> r.next < |r.batch|)
    requires Allowed(r, ProducerQueue(step)) && !Take(r.queue, step).fault
    ensures ConsumerWork(Do(r, ProducerQueue(step))) == ConsumerWork(r)
    ensures ProducerWork(Do(r, ProducerQueue(step))) < ProducerWork(r)
  {
    hide And, Sub, Inc;
  }

  lemma ConsumerQueueWorks(r: Run, step: Step<BookUpdate>)
    requires r.consumed <= |r.batch| && Allowed(r, ConsumerQueue(step)) && !Take(r.queue, step).fault
    requires r.consumer.Sampling? ==> !r.queue.consumer.Popped?
    ensures ProducerWork(Do(r, ConsumerQueue(step))) == ProducerWork(r)
    ensures ConsumerWork(Do(r, ConsumerQueue(step))) < ConsumerWork(r)
  {
    hide And, Sub, Inc, ProducerWork;
    SameProducerWork(r, Do(r, ConsumerQueue(step)));
  }

  lemma SameProducerWork(r: Run, s: Run)
    requires s.batch == r.batch && s.next == r.next && s.producer == r.producer && s.queue.producer == r.queue.producer
    ensures ProducerWork(s) == ProducerWork(r)
  {
  }

  lemma SameConsumerWork(r: Run, s: Run)
    requires s.batch == r.batch && s.consumed == r.consumed && s.consumer == r.consumer && s.queue.consumer == r.queue.consumer
    ensures ConsumerWork(s) == ConsumerWork(r)
  {
  }

  predicate ProducerLoopMove(move: Move) {
    move.PushNext? || move.ProducerFinish? || move.PushThrows? || move.RaiseAbort?
    || move.PushSucceeded? || move.PushFull? || move.ProducerSeesAbort? || move.ProducerStall?
  }

  lemma ProducerLoopWorks(r: Run, move: Move)
    requires ProducerHolds(r) && Allowed(r, move) && ProducerLoopMove(move)
    ensures ConsumerWork(Do(r, move)) == ConsumerWork(r)
    ensures if move.ProducerStall? then ProducerWork(Do(r, move)) == ProducerWork(r) + 3
            else ProducerWork(Do(r, move)) < ProducerWork(r)
  {
    hide ConsumerWork;
    SameConsumerWork(r, Do(r, move));
  }

  lemma ConsumerLoopWorks(r: Run, move: Move)
    requires ConsumerPlace(r) && Allowed(r, move)
    requires !ProducerLoopMove(move) && !move.ProducerQueue? && !move.ConsumerQueue?
    ensures ProducerWork(Do(r, move)) == ProducerWork(r)
    ensures if move.ConsumerStall? then ConsumerWork(Do(r, move)) == ConsumerWork(r) + 3
            else ConsumerWork(Do(r, move)) < ConsumerWork(r)
  {
    hide ApplyRow, ProducerWork;
    SameProducerWork(r, Do(r, move));
  }

  lemma MoveWorks(r: Run, move: Move, origin: Replayer)
    requires RunInv(r, origin) && Allowed(r, move)
    ensures if IsStall(move) then Work(Do(r, move)) == Work(r) + 3 else Work(Do(r, move)) < Work(r)
    ensures Do(r, move).producerStalls + Do(r, move).consumerStalls
         == r.producerStalls + r.consumerStalls + if IsStall(move) then 1 else 0
  {
    MoveCountsStalls(r, move);
    hide Do, ProducerWork, ConsumerWork, Inv, ProducerHolds, Take;
    if move.ProducerQueue? || move.ConsumerQueue? {
      StepKeepsInv(r.queue, move.step);
      InvHasNoFault(Take(r.queue, move.step));
      PlacesAllow(r, origin);
      if move.ProducerQueue? {
        ProducerQueueWorks(r, move.step);
      } else {
        ConsumerQueueWorks(r, move.step);
      }
    } else if ProducerLoopMove(move) {
      ProducerLoopWorks(r, move);
    } else {
      ConsumerLoopWorks(r, move);
    }
  }

  lemma PlacesAllow(r: Run, origin: Replayer)
    requires RunInv(r, origin)
    ensures r.next <= |r.batch| && (r.producer.InPush? ==> r.next < |r.batch|) && r.consumed <= |r.batch|
    ensures r.consumer.Sampling? ==> !r.queue.consumer.Popped?
  {
    hide Inv, ConsumerState;
  }

  lemma MoveCountsStalls(r: Run, move: Move)
    requires Allowed(r, move)
    ensures Do(r, move).producerStalls + Do(r, move).consumerStalls
         == r.producerStalls + r.consumerStalls + if IsStall(move) then 1 else 0
  {
    hide And, Sub, Inc, ApplyRow, Take;
  }

  lemma {:induction false} MovesAreBounded(r: Run, moves: seq<Move>, origin: Replayer)
    requires RunInv(r, origin) && Executable(r, moves)
    ensures var s := Execute(r, moves);
            |moves| + Work(s) + 4 * (r.producerStalls + r.consumerStalls)
            <= Work(r) + 4 * (s.producerStalls + s.consumerStalls)
    decreases |moves|
  {
    hide RunInv, Do, Allowed, Work;
    if moves != [] {
      MoveKeepsRunInv(r, moves[0], origin);
      MoveWorks(r, moves[0], origin);
      MovesAreBounded(Do(r, moves[0]), moves[1..], origin);
    }
  }

  /** Every run is at most 18 steps a row, 14 more, and 4 for each stall counted: only waiting on
      a full or an empty queue can make it longer. */
  lemma {:induction false} OnlyStallsProlongARun(origin: Replayer, batch: seq<BookUpdate>, capacity: nat,
                                                 moves: seq<Move>)
    requires Capacity(capacity) && Executable(Begin(origin, batch, capacity), moves)
    ensures var r := Execute(Begin(origin, batch, capacity), moves);
            |moves| <= 18 * |batch| + 14 + 4 * (r.producerStalls + r.consumerStalls)
  {
    BeginInv(origin, batch, capacity);
    MovesAreBounded(Begin(origin, batch, capacity), moves, origin);
    hide Execute, Executable;
  }

  // ---------------------------------------------------------------- the join is always in reach

  function ProducerWait(r: Run): nat {
    if !r.aborted && ((r.producer.InPush? && r.queue.producer == Pushed(false)) || r.producer.CheckingAbort?)
    then 4 else 0
  }

  function ConsumerWait(r: Run): nat {
    if !r.aborted && ((r.consumer.InPop? && r.queue.consumer == Popped(None)) || r.consumer.EmptyCheckingAbort?)
    then 4 else 0
  }

  /** Work, with the places that may have to stall ranked above the loop head they stall to. */
  function Distance(r: Run): nat {
    Work(r) + ProducerWait(r) + ConsumerWait(r)
  }

  predicate Full(r: Run) {
    |r.queue.tails| == |r.queue.heads| + r.queue.capacity
  }

  predicate Drained(r: Run) {
    |r.queue.tails| == |r.queue.heads|
  }

  /** The producer can take a step unless it is done or looking at a truly full queue. */
  predicate ProducerReady(r: Run) {
    !r.producer.ProducerDone?
    && !(r.producer.InPush? && r.queue.producer.LoadingHead? && Full(r) && !r.aborted)
  }

  predicate ConsumerReady(r: Run) {
    !r.consumer.ConsumerDone?
    && !(r.consumer.InPop? && r.queue.consumer.LoadingTail? && Drained(r) && !r.aborted)
  }

  function ProducerChoice(r: Run): Move {
    match r.producer
    case ProducerDone => ProducerFinish
    case Raising => RaiseAbort
    case PushLoop => if r.next < |r.batch| then PushNext else ProducerFinish
    case CheckingAbort => if r.aborted then ProducerSeesAbort else ProducerStall
    case InPush =>
      match r.queue.producer
      case Outside => PushFull
      case LoadingHead(_, _) => ProducerQueue(LoadHead(if |r.queue.heads| > 0 then |r.queue.heads| - 1 else 0))
      case Constructing(_, _) => ProducerQueue(Construct)
      case Publishing(_) => ProducerQueue(PublishTail)
      case Pushed(ok) => if ok then PushSucceeded else PushFull
  }

  function ConsumerChoice(r: Run): Move {
    match r.consumer
    case ConsumerDone => ConsumerFinish
    case PopLoop => if r.consumed < |r.batch| then PopNext else ConsumerFinish
    case EmptyCheckingAbort => if r.aborted then ConsumerSeesAbort else ConsumerStall
    case Applying(_) => ApplyRowMove
    case Failing(_) => SignalFailure
    case Sampling(_) =>
      (match r.queue.consumer
       case Sizing(_) => ConsumerQueue(SizeTail(if |r.queue.tails| > 0 then |r.queue.tails| - 1 else 0))
       case Sized(_) => SampleDone
       case _ => ConsumerQueue(SizeStart))
    case InPop =>
      (match r.queue.consumer
       case LoadingTail(_) => ConsumerQueue(LoadTail(if |r.queue.tails| > 0 then |r.queue.tails| - 1 else 0))
       case Moving(_) => ConsumerQueue(MoveOut)
       case Destroying(_, _) => ConsumerQueue(Destroy)
       case Releasing(_, _) => ConsumerQueue(PublishHead)
       case Popped(result) => if result.Some? then PopSucceeded else PopEmpty
       case _ => PopEmpty)
  }

  /** The two sides never wait for each other. A ready side may still have to stall, but only to
      return to its loop head: `ProgressIsNear` says how soon that pays. */
  lemma {:induction false} SomeoneIsReady(r: Run, origin: Replayer)
    requires RunInv(r, origin) && !Joined(r)
    ensures ProducerReady(r) || ConsumerReady(r)
  {
    hide CellsHold, LogsHold, Replay;
  }

  lemma ProducerChoiceAllowed(r: Run, origin: Replayer)
    requires RunInv(r, origin) && !r.producer.ProducerDone?
    ensures Allowed(r, ProducerChoice(r))
  {
    hide CellsHold, LogsHold, ConsumerHolds;
  }

  lemma ConsumerChoiceAllowed(r: Run, origin: Replayer)
    requires RunInv(r, origin) && !r.consumer.ConsumerDone?
    ensures Allowed(r, ConsumerChoice(r))
  {
    hide CellsHold, LogsHold, ProducerHolds, ConsumerState;
  }

  /** Looking at a queue that is not full, through a fresh load, gets past the check. */
  lemma FreshLoadHead(q: Shared<BookUpdate>, k: nat)
    requires Inv(q) && q.producer.LoadingHead? && k == |q.heads| - 1 && |q.tails| != |q.heads| + q.capacity
    ensures Enabled(q, LoadHead(k)) && Take(q, LoadHead(k)).producer.Constructing?
  {
    CapacityBound(q.capacity);
    DifferenceSurvivesWrap(|q.tails| - 1, k);
    hide CellsHold, LogsHold;
  }

  lemma FreshLoadTail(q: Shared<BookUpdate>, k: nat)
    requires Inv(q) && q.consumer.LoadingTail? && k == |q.tails| - 1 && |q.tails| != |q.heads|
    ensures Enabled(q, LoadTail(k)) && Take(q, LoadTail(k)).consumer.Moving?
  {
    CapacityBound(q.capacity);
    RemainderSeparates(|q.heads| - 1, k, WORD);
    hide CellsHold, LogsHold;
  }

  lemma IndicesExist(q: Shared<BookUpdate>)
    requires Inv(q)
    ensures q.heads != [] && q.tails != []
  {
    hide CellsHold, LogsHold;
  }

  lemma ProducerQueueWaits(r: Run, step: Step<BookUpdate>)
    requires Allowed(r, ProducerQueue(step)) && !Take(r.queue, step).fault
    requires step.LoadHead? && !r.aborted ==> Take(r.queue, step).producer.Constructing?
    ensures ProducerWait(Do(r, ProducerQueue(step))) <= ProducerWait(r)
    ensures ConsumerWait(Do(r, ProducerQueue(step))) == ConsumerWait(r)
  {
    hide And, Sub, Inc;
  }

  lemma ConsumerQueueWaits(r: Run, step: Step<BookUpdate>)
    requires Allowed(r, ConsumerQueue(step)) && !Take(r.queue, step).fault
    requires step.LoadTail? && !r.aborted ==> Take(r.queue, step).consumer.Moving?
    ensures ProducerWait(Do(r, ConsumerQueue(step))) == ProducerWait(r)
    ensures ConsumerWait(Do(r, ConsumerQueue(step))) <= ConsumerWait(r)
  {
    hide And, Sub, Inc;
  }

  lemma LoopMoveWaits(r: Run, move: Move)
    requires Allowed(r, move) && !move.ProducerQueue? && !move.ConsumerQueue?
    requires IsStall(move) ==> !r.aborted
    ensures ProducerWait(Do(r, move)) + ConsumerWait(Do(r, move))
         <= if IsStall(move) then ProducerWait(r) + ConsumerWait(r) - 4 else ProducerWait(r) + ConsumerWait(r)
  {
    hide ApplyRow;
  }

  lemma ProducerChoiceProgresses(r: Run, origin: Replayer)
    requires RunInv(r, origin) && ProducerReady(r)
    ensures Allowed(r, ProducerChoice(r)) && Distance(Do(r, ProducerChoice(r))) < Distance(r)
  {
    hide Inv, ProducerHolds, ConsumerHolds, ProducerWork, ConsumerWork, Do, ProducerWait, ConsumerWait, Take, Work,
        Enabled;
    var move := ProducerChoice(r);
    ProducerChoiceAllowed(r, origin);
    MoveWorks(r, move, origin);
    if move.ProducerQueue? {
      if move.step.LoadHead? && !r.aborted {
        IndicesExist(r.queue);
        FreshLoadHead(r.queue, |r.queue.heads| - 1);
      }
      StepKeepsInv(r.queue, move.step);
      InvHasNoFault(Take(r.queue, move.step));
      ProducerQueueWaits(r, move.step);
    } else {
      LoopMoveWaits(r, move);
    }
  }

  lemma ConsumerChoiceProgresses(r: Run, origin: Replayer)
    requires RunInv(r, origin) && ConsumerReady(r)
    ensures Allowed(r, ConsumerChoice(r)) && Distance(Do(r, ConsumerChoice(r))) < Distance(r)
  {
    hide Inv, ProducerHolds, ConsumerHolds, ProducerWork, ConsumerWork, Do, ProducerWait, ConsumerWait, Take, Work,
        Enabled;
    var move := ConsumerChoice(r);
    ConsumerChoiceAllowed(r, origin);
    MoveWorks(r, move, origin);
    if move.ConsumerQueue? {
      if move.step.LoadTail? && !r.aborted {
        IndicesExist(r.queue);
        FreshLoadTail(r.queue, |r.queue.tails| - 1);
      }
      StepKeepsInv(r.queue, move.step);
      InvHasNoFault(Take(r.queue, move.step));
      ConsumerQueueWaits(r, move.step);
    } else {
      LoopMoveWaits(r, move);
    }
  }

  /** A move of a side that is ready. */
  function Choice(r: Run): Move {
    if ProducerReady(r) then ProducerChoice(r) else ConsumerChoice(r)
  }

  lemma ChoiceProgresses(r: Run, origin: Replayer)
    requires RunInv(r, origin) && !Joined(r)
    ensures Allowed(r, Choice(r)) && Distance(Do(r, Choice(r))) < Distance(r) && RunInv(Do(r, Choice(r)), origin)
  {
    SomeoneIsReady(r, origin);
    hide Do, Allowed, Distance, RunInv, Joined, ProducerChoice, ConsumerChoice, ProducerReady, ConsumerReady;
    if ProducerReady(r) {
      ProducerChoiceProgresses(r, origin);
    } else {
      ConsumerChoiceProgresses(r, origin);
    }
    MoveKeepsRunInv(r, Choice(r), origin);
  }

  datatype Phase = AtWork | GivingUp | Ended

  /** What a run has to show: rows pushed, rows consumed, and whether each thread is still at it. */
  datatype Milestone = Milestone(pushed: nat, consumed: nat, producer: Phase, consumer: Phase)

  function Reached(r: Run): Milestone {
    Milestone(r.next, r.consumed,
              if r.producer.ProducerDone? then Ended else if r.producer.Raising? then GivingUp else AtWork,
              if r.consumer.ConsumerDone? then Ended else if r.consumer.Failing? then GivingUp else AtWork)
  }

  /** The least distance at a milestone. */
  function Nearest(rows: nat, m: Milestone): nat {
    var push: nat := if m.pushed <= rows then 6 * (rows - m.pushed) else 0;
    var pop: nat := if m.consumed <= rows then 12 * (rows - m.consumed) else 0;
    (match m.producer case Ended => 0 case GivingUp => 1 case AtWork => if push >= 2 then push - 2 else 0)
    + (match m.consumer case Ended => 0 case GivingUp => 1 case AtWork => pop + 3)
  }

  lemma DistanceIsNear(r: Run)
    ensures Nearest(|r.batch|, Reached(r)) <= Distance(r) <= Nearest(|r.batch|, Reached(r)) + 17
  {
  }

  lemma MoveAdvances(r: Run, move: Move)
    requires Allowed(r, move)
    ensures var s := Do(r, move);
            && s.batch == r.batch && s.next >= r.next && s.consumed >= r.consumed
            && (IsStall(move) ==> Reached(s) == Reached(r))
  {
    hide ApplyRow, Take;
  }

  /** Within 18 moves of any state short of the join something is done that no stall does: a row
      pushed, a row consumed, or a thread ending or giving up. */
  lemma {:induction false} ProgressIsNear(r: Run, origin: Replayer) returns (moves: seq<Move>)
    requires RunInv(r, origin) && !Joined(r)
    ensures Executable(r, moves) && 1 <= |moves| <= 18 && !IsStall(moves[|moves| - 1])
    ensures var s := Execute(r, moves);
            Reached(s) != Reached(r) && s.next >= r.next && s.consumed >= r.consumed
  {
    DistanceIsNear(r);
    hide Distance, Nearest, Executable, Execute, Reached, IsStall, RunInv, Joined;
    moves := NextMilestone(r, origin);
  }

  lemma {:induction false} NextMilestone(r: Run, origin: Replayer) returns (moves: seq<Move>)
    requires RunInv(r, origin) && !Joined(r)
    ensures Executable(r, moves) && 1 <= |moves| <= Distance(r) - Nearest(|r.batch|, Reached(r)) + 1
    ensures !IsStall(moves[|moves| - 1])
    ensures var s := Execute(r, moves);
            Reached(s) != Reached(r) && s.next >= r.next && s.consumed >= r.consumed
    decreases Distance(r)
  {
    hide Do, Allowed, Distance, RunInv, Joined, Choice, Nearest, Reached, IsStall;
    var move := Choice(r);
    ChoiceProgresses(r, origin);
    MoveAdvances(r, move);
    var s := Do(r, move);
    DistanceIsNear(r);
    DistanceIsNear(s);
    if Reached(s) != Reached(r) {
      moves := [move];
      assert moves[1..] == [];
    } else {
      SameMilestoneNotJoined(r, s);
      var rest := NextMilestone(s, origin);
      moves := [move] + rest;
      assert moves[1..] == rest;
    }
  }

  lemma SameMilestoneNotJoined(r: Run, s: Run)
    requires Reached(s) == Reached(r) && !Joined(r)
    ensures !Joined(s)
  {
  }

  /** From every reachable state there is a schedule that joins both threads: the queue cannot
      block both sides, and a side that failed releases the other. */
  lemma {:induction false} JoinIsReachable(r: Run, origin: Replayer) returns (moves: seq<Move>)
    requires RunInv(r, origin)
    ensures Executable(r, moves) && Joined(Execute(r, moves)) && |moves| <= Distance(r)
    decreases Distance(r)
  {
    if Joined(r) {
      moves := [];
    } else {
      var move := Choice(r);
      ChoiceProgresses(r, origin);
      hide Do, Allowed, Distance, RunInv, Joined, Choice;
      var rest := JoinIsReachable(Do(r, move), origin);
      moves := [move] + rest;
      assert moves[1..] == rest;
    }
  }

  lemma {:induction false} BatchIsFixed(r: Run, moves: seq<Move>)
    requires Executable(r, moves)
    ensures Execute(r, moves).batch == r.batch
    decreases |moves|
  {
    hide Do, Allowed;
    if moves != [] {
      MoveAdvances(r, moves[0]);
      BatchIsFixed(Do(r, moves[0]), moves[1..]);
    }
  }

  lemma DistanceIsBounded(r: Run)
    ensures Distance(r) <= 18 * |r.batch| + 21
  {
    DistanceIsNear(r);
    NearestIsBounded(|r.batch|, Reached(r));
    hide Distance, Nearest;
  }

  lemma NearestIsBounded(rows: nat, m: Milestone)
    ensures Nearest(rows, m) <= 18 * rows + 4
  {
  }

  /** However a run has gone so far, it can still be brought to its join, in a number of moves that
      depends on the batch alone. */
  lemma {:induction false} EveryRunCanFinish(origin: Replayer, batch: seq<BookUpdate>, capacity: nat, moves: seq<Move>)
    returns (rest: seq<Move>)
    requires Capacity(capacity) && Executable(Begin(origin, batch, capacity), moves)
    ensures var r := Execute(Begin(origin, batch, capacity), moves);
            Executable(r, rest) && Joined(Execute(r, rest)) && |rest| <= 18 * |batch| + 21
  {
    BeginInv(origin, batch, capacity);
    BatchIsFixed(Begin(origin, batch, capacity), moves);
    DistanceIsBounded(Execute(Begin(origin, batch, capacity), moves));
    ExecuteKeepsInv(Begin(origin, batch, capacity), moves, origin);
    hide Execute, Executable, Joined, Distance;
    rest := JoinIsReachable(Execute(Begin(origin, batch, capacity), moves), origin);
  }
}
