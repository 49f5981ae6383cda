/** `Pipeline::run`: a producer thread feeding a replaying consumer through the queue, one
    atomic step at a time, with the abort flag, the join and the rethrow. */
module Pipeline {
  import opened Wrappers
  import opened Words
  import opened SpscQueue
  import opened QueueSteps
  import opened BookReplayer

  /** The producer's place in its loop; inside try_push the queue knows the place. */
  datatype ProducerAt = PushLoop | InPush | CheckingAbort | Raising | ProducerDone

  /** The consumer's place in its loop; `update` is the row it popped. */
  datatype ConsumerAt = PopLoop | InPop | EmptyCheckingAbort
                      | Sampling(update: BookUpdate)
                      | Applying(update: BookUpdate)
                      | Failing(error: ReplayError)
                      | ConsumerDone

  datatype Run = Run(
    batch: seq<BookUpdate>,
    queue: Shared<BookUpdate>,
    producer: ProducerAt,
    consumer: ConsumerAt,
    next: nat,                            // rows the producer has pushed
    consumed: nat,
    replayer: Replayer,
    aborted: bool,
    producerFailed: bool,
    consumerError: Option<ReplayError>,
    producerStalls: nat,
    consumerStalls: nat,
    peak: nat)

  function Begin(replayer: Replayer, batch: seq<BookUpdate>, capacity: nat): Run {
    Run(batch, Start(capacity), PushLoop, PopLoop, 0, 0, replayer, false, false, None, 0, 0, 0)
  }

  datatype Move = PushNext | ProducerFinish | ProducerQueue(step: Step<BookUpdate>) | PushThrows | RaiseAbort
                | PushSucceeded | PushFull | ProducerSeesAbort | ProducerStall
                | PopNext | ConsumerFinish | ConsumerQueue(step: Step<BookUpdate>)
                | PopSucceeded | PopEmpty | ConsumerSeesAbort | ConsumerStall
                | SampleDone | ApplyRowMove | SignalFailure

  predicate PushStep(step: Step<BookUpdate>) {
    step.LoadHead? || step.Construct? || step.PublishTail?
  }

  predicate PopStep(step: Step<BookUpdate>) {
    step.LoadTail? || step.MoveOut? || step.Destroy? || step.PublishHead?
  }

  predicate SizeStep(step: Step<BookUpdate>) {
    step.SizeStart? || step.SizeTail?
  }

  predicate Allowed(r: Run, move: Move) {
    match move
    case PushNext => r.producer.PushLoop? && r.next < |r.batch| && Enabled(r.queue, PushStart(r.batch[r.next]))
    case ProducerFinish => r.producer.PushLoop? && r.next == |r.batch|
    case ProducerQueue(step) => r.producer.InPush? && PushStep(step) && Enabled(r.queue, step)
    case PushThrows => r.producer.InPush? && r.queue.producer.Constructing?
    case RaiseAbort => r.producer.Raising?
    case PushSucceeded => r.producer.InPush? && r.queue.producer == Pushed(true)
    case PushFull => r.producer.InPush? && r.queue.producer == Pushed(false)
    case ProducerSeesAbort => r.producer.CheckingAbort? && r.aborted
    case ProducerStall => r.producer.CheckingAbort?
    case PopNext => r.consumer.PopLoop? && r.consumed < |r.batch| && Enabled(r.queue, PopStart)
    case ConsumerFinish => r.consumer.PopLoop? && r.consumed == |r.batch|
    case ConsumerQueue(step) =>
      ((r.consumer.InPop? && PopStep(step)) || (r.consumer.Sampling? && SizeStep(step))) && Enabled(r.queue, step)
    case PopSucceeded => r.consumer.InPop? && r.queue.consumer.Popped? && r.queue.consumer.result.Some?
    case PopEmpty => r.consumer.InPop? && r.queue.consumer == Popped(None)
    case ConsumerSeesAbort => r.consumer.EmptyCheckingAbort? && r.aborted
    case ConsumerStall => r.consumer.EmptyCheckingAbort?
    case SampleDone => r.consumer.Sampling? && r.queue.consumer.Sized?
    case ApplyRowMove => r.consumer.Applying?
    case SignalFailure => r.consumer.Failing?
  }

  /** One step of one thread. A load of the abort flag may still see it unset after a store, so
      the two stall moves do not ask what the flag is. */
  function Do(r: Run, move: Move): Run
    requires Allowed(r, move)
  {
    match move
    case PushNext => r.(queue := Take(r.queue, PushStart(r.batch[r.next])), producer := InPush)
    case ProducerFinish => r.(producer := ProducerDone)
    case ProducerQueue(step) => r.(queue := Take(r.queue, step))
    case PushThrows => r.(queue := r.queue.(producer := Outside), producer := Raising, producerFailed := true)
    case RaiseAbort => r.(aborted := true, producer := ProducerDone)
    case PushSucceeded => r.(queue := Take(r.queue, PushReturn), producer := PushLoop, next := r.next + 1)
    case PushFull => r.(queue := Take(r.queue, PushReturn), producer := CheckingAbort)
    case ProducerSeesAbort => r.(producer := ProducerDone)
    case ProducerStall => r.(producer := PushLoop, producerStalls := r.producerStalls + 1)
    case PopNext => r.(queue := Take(r.queue, PopStart), consumer := InPop)
    case ConsumerFinish => r.(consumer := ConsumerDone)
    case ConsumerQueue(step) => r.(queue := Take(r.queue, step))
    case PopSucceeded =>
      r.(queue := Take(r.queue, PopReturn), consumer := Sampling(r.queue.consumer.result.value))
    case PopEmpty => r.(queue := Take(r.queue, PopReturn), consumer := EmptyCheckingAbort)
    case ConsumerSeesAbort => r.(consumer := ConsumerDone)
    case ConsumerStall => r.(consumer := PopLoop, consumerStalls := r.consumerStalls + 1)
    case SampleDone =>
      var occupancy := r.queue.consumer.count;
      r.(queue := Take(r.queue, SizeReturn), consumer := Applying(r.consumer.update),
         peak := if occupancy > r.peak then occupancy else r.peak)
    case ApplyRowMove =>
      var applied := ApplyRow(r.replayer, r.consumer.update);
      if applied.error.Some?
      then r.(replayer := applied.state, consumer := Failing(applied.error.value))
      else r.(replayer := applied.state, consumed := r.consumed + 1, consumer := PopLoop)
    case SignalFailure => r.(consumerError := Some(r.consumer.error), aborted := true, consumer := ConsumerDone)
  }

  predicate Executable(r: Run, moves: seq<Move>)
    decreases |moves|
  {
    moves == [] || (Allowed(r, moves[0]) && Executable(Do(r, moves[0]), moves[1..]))
  }

  function Execute(r: Run, moves: seq<Move>): Run
    requires Executable(r, moves)
    decreases |moves|
  {
    if moves == [] then r else Execute(Do(r, moves[0]), moves[1..])
  }

  /** Both threads have left their loops, so the join returns. */
  predicate Joined(r: Run) {
    r.producer.ProducerDone? && r.consumer.ConsumerDone?
  }

  datatype Outcome = Finished(consumed: nat, stats: Stats, peak: nat)
                   | ConsumerThrew(error: ReplayError)
                   | ProducerThrew

  /** What `run` returns or rethrows after the join: the consumer's error first. */
  function Result(r: Run): Outcome {
    match r.consumerError
    case Some(error) => ConsumerThrew(error)
    case None => if r.producerFailed then ProducerThrew else Finished(r.consumed, r.replayer.stats, r.peak)
  }

  // ---------------------------------------------------------------- the invariant

  ghost predicate ProducerHolds(r: Run) {
    && r.next <= |r.batch|
    && (r.producer.InPush? ==> r.next < |r.batch| && !r.queue.producer.Outside?)
    && (!r.producer.InPush? ==> r.queue.producer.Outside?)
    && (r.queue.producer.LoadingHead? || r.queue.producer.Constructing?
        ==> r.producer.InPush? && r.queue.producer.value == r.batch[r.next])
    && (r.producer.CheckingAbort? ==> r.next < |r.batch|)
    && (r.producer.Raising? ==> r.producerFailed)
    && (r.producerFailed ==> r.producer.Raising? || (r.producer.ProducerDone? && r.aborted))
    && (r.producer.ProducerDone? ==> r.next == |r.batch| || r.aborted)
    // Pushed so far: the rows before `next`, and the one in hand once it is constructed.
    && |r.queue.constructed| == r.next + (if r.queue.producer.Publishing? || r.queue.producer == Pushed(true) then 1 else 0)
    && |r.queue.constructed| <= |r.batch| && r.queue.constructed == r.batch[..|r.queue.constructed|]
  }

  /** The consumer's place, and how many rows it has taken out of the queue at that place. */
  ghost predicate ConsumerPlace(r: Run) {
    && r.consumed <= |r.queue.moved| <= |r.batch|
    && r.queue.moved == r.batch[..|r.queue.moved|]
    && (r.consumer.InPop? <==> !r.queue.consumer.Away? && !r.queue.consumer.Sizing? && !r.queue.consumer.Sized?)
    && (r.queue.consumer.Sizing? || r.queue.consumer.Sized? ==> r.consumer.Sampling?)
    && (r.consumer.PopLoop? || r.consumer.EmptyCheckingAbort? ==> |r.queue.moved| == r.consumed)
    && (r.consumer.InPop? || r.consumer.EmptyCheckingAbort? || r.consumer.Failing? || r.consumerError.Some?
        ==> r.consumed < |r.batch|)
    && (r.consumer.InPop? ==>
          |r.queue.moved| == r.consumed
            + (if r.queue.consumer.Destroying? || r.queue.consumer.Releasing?
                  || (r.queue.consumer.Popped? && r.queue.consumer.result.Some?) then 1 else 0))
    && (r.consumer.Sampling? || r.consumer.Applying? ==>
          |r.queue.moved| == r.consumed + 1 && r.consumer.update == r.batch[r.consumed])
    && r.peak <= r.queue.capacity
  }

  /** What has been replayed, and why either side may have stopped early. */
  ghost predicate ConsumerState(r: Run, origin: Replayer) {
    && r.consumed <= |r.batch|
    && Replay(origin, r.batch[..r.consumed]).error.None?
    && (!r.consumer.Failing? && r.consumerError.None? ==> r.replayer == Replay(origin, r.batch[..r.consumed]).state)
    && (r.consumer.Failing? ==> r.consumerError.None?)
    && (r.consumer.Failing? || r.consumerError.Some? ==>
          r.consumed < |r.batch|
          && Replay(origin, r.batch[..r.consumed + 1])
             == Replayed(r.replayer, r.consumed,
                         Some(if r.consumer.Failing? then r.consumer.error else r.consumerError.value)))
    && (r.consumerError.Some? ==> r.consumer.ConsumerDone? && r.aborted)
    && (r.consumer.ConsumerDone? && r.consumerError.None? && !r.producerFailed ==> r.consumed == |r.batch|)
    && (r.aborted ==> r.consumerError.Some? || r.producerFailed)
  }

  ghost predicate ConsumerHolds(r: Run, origin: Replayer) {
    ConsumerPlace(r) && ConsumerState(r, origin)
  }

  ghost predicate RunInv(r: Run, origin: Replayer) {
    Inv(r.queue) && ProducerHolds(r) && ConsumerHolds(r, origin)
  }

  lemma BeginInv(origin: Replayer, batch: seq<BookUpdate>, capacity: nat)
    requires Capacity(capacity)
    ensures RunInv(Begin(origin, batch, capacity), origin)
  {
    StartInv<BookUpdate>(capacity);
  }

  /** What the consumer's half of the invariant can see. */
  predicate SameForConsumer(r: Run, s: Run) {
    && s.batch == r.batch && s.consumer == r.consumer && s.consumed == r.consumed && s.replayer == r.replayer
    && s.consumerError == r.consumerError && s.producerFailed == r.producerFailed && s.aborted == r.aborted
    && s.peak == r.peak && s.queue.capacity == r.queue.capacity
    && s.queue.moved == r.queue.moved && s.queue.consumer == r.queue.consumer
  }

  predicate SameForProducer(r: Run, s: Run) {
    && s.batch == r.batch && s.producer == r.producer && s.next == r.next && s.aborted == r.aborted
    && s.producerFailed == r.producerFailed
    && s.queue.constructed == r.queue.constructed && s.queue.producer == r.queue.producer
  }

  lemma ConsumerUntouched(r: Run, s: Run, origin: Replayer)
    requires ConsumerHolds(r, origin) && SameForConsumer(r, s)
    ensures ConsumerHolds(s, origin)
  {
    hide Replay;
  }

  lemma ProducerUntouched(r: Run, s: Run)
    requires ProducerHolds(r) && SameForProducer(r, s)
    ensures ProducerHolds(s)
  {
  }

  lemma ProducerQueueHolds(r: Run, step: Step<BookUpdate>)
    requires ProducerHolds(r) && Allowed(r, ProducerQueue(step))
    requires !Take(r.queue, step).fault && !r.queue.fault
    ensures ProducerHolds(Do(r, ProducerQueue(step)))
    ensures SameForConsumer(r, Do(r, ProducerQueue(step)))
  {
    hide And, Sub, Inc;
  }

  lemma ProducerMoveHolds(r: Run, move: Move)
    requires ProducerHolds(r) && Allowed(r, move)
    requires move.PushNext? || move.ProducerFinish? || move.PushSucceeded? || move.PushFull?
             || move.ProducerSeesAbort? || move.ProducerStall?
    ensures ProducerHolds(Do(r, move))
    ensures SameForConsumer(r, Do(r, move))
  {
  }

  lemma ProducerQueueKeepsInv(r: Run, step: Step<BookUpdate>, origin: Replayer)
    requires RunInv(r, origin) && Allowed(r, ProducerQueue(step))
    ensures RunInv(Do(r, ProducerQueue(step)), origin)
  {
    hide Inv, ProducerHolds, ConsumerHolds, Take;
    StepKeepsInv(r.queue, step);
    InvHasNoFault(r.queue);
    InvHasNoFault(Take(r.queue, step));
    ProducerQueueHolds(r, step);
    ConsumerUntouched(r, Do(r, ProducerQueue(step)), origin);
  }

  /** Loop moves leave the queue alone or take one of its start and return steps. */
  lemma QueueSurvivesMove(r: Run, move: Move)
    requires Inv(r.queue) && Allowed(r, move)
    requires !move.PushThrows? && !move.ProducerQueue? && !move.ConsumerQueue?
    ensures Inv(Do(r, move).queue)
  {
    hide Inv, Take;
    if move.PushNext? {
      StepKeepsInv(r.queue, PushStart(r.batch[r.next]));
    } else if move.PushSucceeded? || move.PushFull? {
      StepKeepsInv(r.queue, PushReturn);
    } else if move.PopNext? {
      StepKeepsInv(r.queue, PopStart);
    } else if move.PopSucceeded? || move.PopEmpty? {
      StepKeepsInv(r.queue, PopReturn);
    } else if move.SampleDone? {
      StepKeepsInv(r.queue, SizeReturn);
    }
  }

  lemma ProducerMoveKeepsInv(r: Run, move: Move, origin: Replayer)
    requires RunInv(r, origin) && Allowed(r, move)
    requires move.PushNext? || move.ProducerFinish? || move.PushSucceeded? || move.PushFull?
             || move.ProducerSeesAbort? || move.ProducerStall?
    ensures RunInv(Do(r, move), origin)
  {
    hide Inv, ProducerHolds, ConsumerPlace, ConsumerState, Do, Allowed;
    QueueSurvivesMove(r, move);
    ProducerMoveHolds(r, move);
    ConsumerUntouched(r, Do(r, move), origin);
  }

  lemma InvHasNoFault<T>(q: Shared<T>)
    requires Inv(q)
    ensures !q.fault
  {
  }

  lemma ProducerFailureKeepsInv(r: Run, move: Move, origin: Replayer)
    requires RunInv(r, origin) && Allowed(r, move) && (move.PushThrows? || move.RaiseAbort?)
    ensures RunInv(Do(r, move), origin)
  {
    hide CellsHold, Replay;
  }

  lemma ConsumerQueueHolds(r: Run, step: Step<BookUpdate>, origin: Replayer)
    requires ConsumerHolds(r, origin) && Allowed(r, ConsumerQueue(step)) && r.queue.moved <= r.batch
    requires !Take(r.queue, step).fault && !r.queue.fault && Take(r.queue, step).moved <= r.batch
    ensures ConsumerHolds(Do(r, ConsumerQueue(step)), origin)
  {
    hide And, Sub, Inc, Replay;
    assert ConsumerState(Do(r, ConsumerQueue(step)), origin) by {
      hide ConsumerPlace;
    }
    hide ConsumerState;
  }

  lemma MovedIsBatch(r: Run)
    requires Inv(r.queue) && ProducerHolds(r)
    ensures r.queue.moved <= r.batch && !r.queue.fault
  {
    hide IndicesHold, CellsHold;
  }

  lemma ConsumerQueueKeepsInv(r: Run, step: Step<BookUpdate>, origin: Replayer)
    requires RunInv(r, origin) && Allowed(r, ConsumerQueue(step))
    ensures RunInv(Do(r, ConsumerQueue(step)), origin)
  {
    var s := Do(r, ConsumerQueue(step));
    StepKeepsInv(r.queue, step);
    ConsumerStepKeepsProducer(r, step);
    hide Inv, ProducerHolds, ConsumerHolds, Take;
    ProducerUntouched(r, s);
    MovedIsBatch(r);
    MovedIsBatch(s);
    ConsumerQueueHolds(r, step, origin);
  }

  lemma ConsumerStepKeepsProducer(r: Run, step: Step<BookUpdate>)
    requires Allowed(r, ConsumerQueue(step))
    ensures SameForProducer(r, Do(r, ConsumerQueue(step)))
  {
    hide And, Sub, Inc;
  }

  predicate ConsumerMove(move: Move) {
    move.PopNext? || move.ConsumerFinish? || move.PopSucceeded? || move.PopEmpty?
    || move.ConsumerSeesAbort? || move.ConsumerStall? || move.SampleDone?
  }

  lemma PopReturnPlace(r: Run, move: Move)
    requires ConsumerPlace(r) && Allowed(r, move) && LogsHold(r.queue) && (move.PopSucceeded? || move.PopEmpty?)
    ensures ConsumerPlace(Do(r, move))
    ensures SameForProducer(r, Do(r, move))
  {
    hide Take, LogsHold;
    PoppedIsNext(r);
    TakeForConsumer(r.queue, PopReturn);
  }

  lemma ConsumerMovePlace(r: Run, move: Move)
    requires ConsumerPlace(r) && Allowed(r, move) && LogsHold(r.queue) && ConsumerMove(move)
    requires r.queue.consumer.Sized? ==> r.queue.consumer.count <= r.queue.capacity
    ensures ConsumerPlace(Do(r, move))
    ensures SameForProducer(r, Do(r, move))
  {
    hide Take, LogsHold;
    if move.PopSucceeded? || move.PopEmpty? {
      PopReturnPlace(r, move);
      hide ConsumerPlace, Do, SameForProducer;
    } else if move.PopNext? {
      TakeForConsumer(r.queue, PopStart);
    } else if move.SampleDone? {
      TakeForConsumer(r.queue, SizeReturn);
    }
  }

  lemma PoppedIsNext(r: Run)
    requires ConsumerPlace(r) && LogsHold(r.queue) && r.consumer.InPop? && r.queue.consumer.Popped?
    ensures r.queue.consumer.result.Some?
            ==> r.consumed < |r.batch| && r.queue.consumer.result.value == r.batch[r.consumed]
  {
  }

  lemma TakeForConsumer<T>(q: Shared<T>, step: Step<T>)
    requires Enabled(q, step) && (step.PopStart? || step.PopReturn? || step.SizeReturn?)
    ensures Take(q, step) == q.(consumer := Take(q, step).consumer)
    ensures step.PopStart? <==> Take(q, step).consumer.LoadingTail?
    ensures step.PopReturn? || step.SizeReturn? ==> Take(q, step).consumer.Away?
  {
    hide And, Sub, Inc;
  }

  lemma ConsumerMoveState(r: Run, move: Move, origin: Replayer)
    requires ConsumerState(r, origin) && Allowed(r, move) && ConsumerMove(move)
    ensures ConsumerState(Do(r, move), origin)
  {
    hide Replay, Take, Enabled;
  }

  lemma ConsumerMoveKeepsInv(r: Run, move: Move, origin: Replayer)
    requires RunInv(r, origin) && Allowed(r, move) && ConsumerMove(move)
    ensures RunInv(Do(r, move), origin)
  {
    hide Inv, ProducerHolds, ConsumerPlace, ConsumerState, Do, Allowed, LogsHold;
    QueueSurvivesMove(r, move);
    InvHasLogs(r.queue);
    ConsumerMovePlace(r, move);
    ConsumerMoveState(r, move, origin);
    ProducerUntouched(r, Do(r, move));
  }

  lemma InvHasLogs<T>(q: Shared<T>)
    requires Inv(q)
    ensures LogsHold(q) && (q.consumer.Sized? ==> q.consumer.count <= q.capacity)
  {
    hide CellsHold, LogsHold;
  }

  lemma NextRowReplayed(r: Run, origin: Replayer)
    requires ConsumerHolds(r, origin) && r.consumer.Applying?
    ensures var applied := ApplyRow(r.replayer, r.consumer.update);
            Replay(origin, r.batch[..r.consumed + 1])
            == Replayed(applied.state, if applied.error.Some? then r.consumed else r.consumed + 1, applied.error)
  {
    hide ApplyRow;
    assert r.batch[..r.consumed + 1][..r.consumed] == r.batch[..r.consumed];
  }

  lemma ApplyKeepsPlace(r: Run)
    requires ConsumerPlace(r) && Allowed(r, ApplyRowMove) && r.queue.consumer.Away? && r.consumerError.None?
    ensures ConsumerPlace(Do(r, ApplyRowMove))
    ensures SameForProducer(r, Do(r, ApplyRowMove))
  {
    hide ApplyRow;
  }

  lemma ApplyKeepsState(r: Run, origin: Replayer)
    requires ConsumerHolds(r, origin) && Allowed(r, ApplyRowMove)
    ensures ConsumerState(Do(r, ApplyRowMove), origin)
  {
    hide Replay, ApplyRow, ConsumerPlace;
    ApplyingHasRow(r);
    NextRowReplayed(r, origin);
  }

  lemma ApplyingHasRow(r: Run)
    requires ConsumerPlace(r) && r.consumer.Applying?
    ensures r.consumed < |r.batch|
  {
  }

  lemma ApplyKeepsInv(r: Run, origin: Replayer)
    requires RunInv(r, origin) && Allowed(r, ApplyRowMove)
    ensures RunInv(Do(r, ApplyRowMove), origin)
  {
    hide Inv, ProducerHolds, Do, Replay, ApplyRow;
    ApplyKeepsState(r, origin);
    QueueSurvivesMove(r, ApplyRowMove);
    assert r.queue.consumer.Away? && r.consumerError.None?;
    hide ConsumerPlace, ConsumerState;
    ApplyKeepsPlace(r);
    ProducerUntouched(r, Do(r, ApplyRowMove));
  }

  lemma FailureKeepsInv(r: Run, origin: Replayer)
    requires RunInv(r, origin) && Allowed(r, SignalFailure)
    ensures RunInv(Do(r, SignalFailure), origin)
  {
    hide Replay, ApplyRow, Inv;
  }

  lemma {:induction false} MoveKeepsRunInv(r: Run, move: Move, origin: Replayer)
    requires RunInv(r, origin) && Allowed(r, move)
    ensures RunInv(Do(r, move), origin)
  {
    if move.ProducerQueue? {
      ProducerQueueKeepsInv(r, move.step, origin);
    } else if move.ConsumerQueue? {
      ConsumerQueueKeepsInv(r, move.step, origin);
    } else if move.PushThrows? || move.RaiseAbort? {
      ProducerFailureKeepsInv(r, move, origin);
    } else if move.ApplyRowMove? {
      ApplyKeepsInv(r, origin);
    } else if move.SignalFailure? {
      FailureKeepsInv(r, origin);
    } else if move.PushNext? || move.ProducerFinish? || move.PushSucceeded? || move.PushFull?
              || move.ProducerSeesAbort? || move.ProducerStall? {
      ProducerMoveKeepsInv(r, move, origin);
    } else {
      ConsumerMoveKeepsInv(r, move, origin);
    }
  }

  lemma MoveKeepsBatch(r: Run, move: Move)
    requires Allowed(r, move)
    ensures Do(r, move).batch == r.batch && Do(r, move).queue.capacity == r.queue.capacity
  {
    hide And, Sub, Inc, ApplyRow;
    match move {
      case PushNext => TakeKeepsCapacity(r.queue, PushStart(r.batch[r.next]));
      case ProducerQueue(step) => TakeKeepsCapacity(r.queue, step);
      case PushSucceeded => TakeKeepsCapacity(r.queue, PushReturn);
      case PushFull => TakeKeepsCapacity(r.queue, PushReturn);
      case PopNext => TakeKeepsCapacity(r.queue, PopStart);
      case ConsumerQueue(step) => TakeKeepsCapacity(r.queue, step);
      case PopSucceeded => TakeKeepsCapacity(r.queue, PopReturn);
      case PopEmpty => TakeKeepsCapacity(r.queue, PopReturn);
      case SampleDone => TakeKeepsCapacity(r.queue, SizeReturn);
      case _ =>
    }
    hide Take, Enabled;
  }

  lemma TakeKeepsCapacity<T>(q: Shared<T>, step: Step<T>)
    requires Enabled(q, step)
    ensures Take(q, step).capacity == q.capacity
  {
    hide And, Sub, Inc;
  }

  lemma {:induction false} ExecuteKeepsInv(r: Run, moves: seq<Move>, origin: Replayer)
    requires RunInv(r, origin) && Executable(r, moves)
    ensures RunInv(Execute(r, moves), origin)
    ensures Execute(r, moves).batch == r.batch && Execute(r, moves).queue.capacity == r.queue.capacity
    decreases |moves|
  {
    hide RunInv, Allowed, Do;
    if moves != [] {
      MoveKeepsRunInv(r, moves[0], origin);
      MoveKeepsBatch(r, moves[0]);
      ExecuteKeepsInv(Do(r, moves[0]), moves[1..], origin);
    }
  }

  // ---------------------------------------------------------------- refinement

  /** On every interleaving and every capacity, what the pipeline has done is a prefix of the
      sequential replay; and once both threads have joined it is the sequential replay: the same
      book, counters and block flags, or the first refused row's error with exactly the rows
      before it applied. Only a failure of the producer itself can cut it short. */
  lemma {:induction false} PipelineIsReplay(origin: Replayer, batch: seq<BookUpdate>, capacity: nat, moves: seq<Move>)
    requires Capacity(capacity) && Executable(Begin(origin, batch, capacity), moves)
    ensures var r := Execute(Begin(origin, batch, capacity), moves);
            && r.consumed <= |batch|
            && Replay(origin, batch[..r.consumed]).error.None?
            && (r.consumerError.None? && !r.consumer.Failing?
                ==> r.replayer == Replay(origin, batch[..r.consumed]).state)
            && r.peak <= capacity
    ensures var r := Execute(Begin(origin, batch, capacity), moves);
            Joined(r) ==>
              match Result(r)
              case Finished(consumed, stats, peak) =>
                Replay(origin, batch) == Replayed(r.replayer, |batch|, None)
                && consumed == |batch| && stats == r.replayer.stats && peak == r.peak
              case ConsumerThrew(error) =>
                Replay(origin, batch) == Replayed(r.replayer, r.consumed, Some(error))
              case ProducerThrew =>
                r.producerFailed && r.replayer == Replay(origin, batch[..r.consumed]).state
  {
    BeginInv(origin, batch, capacity);
    ExecuteKeepsInv(Begin(origin, batch, capacity), moves, origin);
    var r := Execute(Begin(origin, batch, capacity), moves);
    hide Execute, Executable;
    JoinedIsReplay(r, origin);
  }

  lemma JoinedIsReplay(r: Run, origin: Replayer)
    requires RunInv(r, origin)
    ensures r.consumerError.Some? ==> Replay(origin, r.batch) == Replayed(r.replayer, r.consumed, r.consumerError)
    ensures Joined(r) && r.consumerError.None? && !r.producerFailed
            ==> r.consumed == |r.batch| && Replay(origin, r.batch) == Replayed(r.replayer, |r.batch|, None)
  {
    hide ApplyRow, Inv, ProducerHolds, ConsumerPlace;
    if r.consumerError.Some? {
      var k := r.consumed + 1;
      assert r.batch == r.batch[..k] + r.batch[k..];
      ReplayComposes(origin, r.batch[..k], r.batch[k..]);
    } else if Joined(r) && !r.producerFailed {
      assert r.batch[..r.consumed] == r.batch;
    }
  }

  /** Two finished runs, one after the other on the same replayer, are one run on the joined batch. */
  lemma {:induction false} RunsCompose(origin: Replayer, a: seq<BookUpdate>, b: seq<BookUpdate>, capacity: nat,
                                       first: seq<Move>, second: seq<Move>)
    requires Capacity(capacity) && Executable(Begin(origin, a, capacity), first)
    requires var r := Execute(Begin(origin, a, capacity), first);
             Joined(r) && Result(r).Finished? && Executable(Begin(r.replayer, b, capacity), second)
    requires var r := Execute(Begin(origin, a, capacity), first);
             var s := Execute(Begin(r.replayer, b, capacity), second);
             Joined(s) && !Result(s).ProducerThrew?
    ensures var r := Execute(Begin(origin, a, capacity), first);
            var s := Execute(Begin(r.replayer, b, capacity), second);
            Replay(origin, a + b)
            == Replayed(s.replayer, |a| + s.consumed,
                        if Result(s).ConsumerThrew? then Some(Result(s).error) else None)
  {
    var r := Execute(Begin(origin, a, capacity), first);
    PipelineIsReplay(origin, a, capacity, first);
    PipelineIsReplay(r.replayer, b, capacity, second);
    hide Execute, Executable, Replay;
    ReplayComposes(origin, a, b);
  }

  /** After the join both threads are outside the queue, so its destructor runs alone and every
      row that was ever constructed in it has been destroyed exactly once. */
  lemma {:induction false} JoinedQueueIsDestroyed(r: Run, origin: Replayer)
    requires RunInv(r, origin) && Joined(r)
    ensures BothOutside(r.queue) && r.queue.heads != [] && r.queue.tails != []
    ensures r.queue.heads[|r.queue.heads| - 1] < WORD && r.queue.tails[|r.queue.tails| - 1] < WORD
    ensures var last := Drain(r.queue, r.queue.heads[|r.queue.heads| - 1], r.queue.tails[|r.queue.tails| - 1]);
            !last.fault && (forall s | 0 <= s < |last.cells| :: last.cells[s].Empty?)
            && last.destroyed == seq(|r.queue.constructed|, i => i)
  {
    hide CellsHold, LogsHold, ConsumerState, Drain;
    DrainDestroysTheRest(r.queue);
  }

  // ---------------------------------------------------------------- the counters

  /** The occupancies a run samples, one after each pop. */
  function Sampled(r: Run, moves: seq<Move>): seq<nat>
    requires Executable(r, moves)
    decreases |moves|
  {
    if moves == [] then []
    else (if moves[0].SampleDone? then [r.queue.consumer.count] else []) + Sampled(Do(r, moves[0]), moves[1..])
  }

  function Stalled(moves: seq<Move>, producer: bool): nat {
    if moves == [] then 0
    else (if (if producer then moves[0].ProducerStall? else moves[0].ConsumerStall?) then 1 else 0)
         + Stalled(moves[1..], producer)
  }

  /** The peak is the greatest occupancy sampled, and each thread's stalls are its own. */
  lemma {:induction false} CountersAreOfTheRun(r: Run, moves: seq<Move>)
    requires Executable(r, moves)
    ensures var s := Execute(r, moves);
            && s.producerStalls == r.producerStalls + Stalled(moves, true)
            && s.consumerStalls == r.consumerStalls + Stalled(moves, false)
            && s.peak >= r.peak && (forall x | x in Sampled(r, moves) :: x <= s.peak)
            && (s.peak == r.peak || s.peak in Sampled(r, moves))
    decreases |moves|
  {
    hide Do, Allowed;
    if moves != [] {
      CountersAreOfTheRun(Do(r, moves[0]), moves[1..]);
      MoveCounts(r, moves[0]);
    }
  }

  lemma MoveCounts(r: Run, move: Move)
    requires Allowed(r, move)
    ensures var s := Do(r, move);
            && s.producerStalls == r.producerStalls + (if move.ProducerStall? then 1 else 0)
            && s.consumerStalls == r.consumerStalls + (if move.ConsumerStall? then 1 else 0)
            && (move.SampleDone? ==> s.peak == if r.queue.consumer.count > r.peak then r.queue.consumer.count else r.peak)
            && (!move.SampleDone? ==> s.peak == r.peak)
  {
    hide ApplyRow, Take, Enabled;
  }
}
