# Verified model of the perpcarry core

This project models, in Dafny, the parts of perpcarry whose correctness spans many steps, and
proves what they promise over every input and every run. Numbers are exact: prices, quantities and
decimals are reals, a `double` that may be NaN or infinite is an option type, and `size_t` arithmetic
wraps at 2^64 explicitly. Square roots are a function about which only `r >= 0` and `r * r == x` is
known.

**Replay (C++).** `OrderBook` and `BookReplayer` are the sorted-vector book and the snapshot-and-diff
replay, as objects updated in place and as the functions they compute. `Words`, `SpscQueue` and
`QueueSteps` are the lock-free ring: first as one thread sees it, with wrapping indices, masks and raw
slots, then as a step relation with one step per atomic load, store, construction, move and
destruction, in which an acquire load of the peer's index may return any value between the last one
seen and the current one. `Pipeline` puts the two loops, the abort flag, the join and the rethrow
around it and refines every interleaving to the sequential replay; `PipelineProgress` shows that no
interleaving can get stuck: progress is always a bounded number of moves away. `FairPipeline` bounds
every run under a fair scheduler.

**Execution and the checks that feed it.** `ImpactSimulator`, `SlicedExecution` and `SplitInvariance`
are the book walk, the consuming walk and the sliced order over a replayed stream; `WalkReport` and
`SlicedReport` say what every reported field means. `CalibrationDataset` is the sampler that prices
instants from checkpoints with a bounded look-ahead, `CalibrationReport` what its rows are.
`BookCompare` and `ReplayValidate` are the comparison and the streaming validation harness;
`IngestCounters` is the chunked counting state; `SymbolGrid` the exact decimal grid, from a sample to
a symbol's record; `RollingFunding` the pruned settlement history.

**Walk-forward strategy (Python).** `Fees` and `Accounting` are the fee schedule and the immutable
ledger, which `Statement` reads off its events alone, `Carry`, `Costs` and `Sizing` the decision gate,
the cost curve and the discrete optimiser, `Execution` the inferred fills, `WalkForward` the runner as
a function from state and event to state and record. `Protocol` proves what every accepted event
stream has in common, for any executor, `Streams` what its events and records are, and `Books` that
the account is its own journal; `Holdings` says when a held position is kept and that it is otherwise
closed. `Affordability` and `Exits` prove when an approved entry and a decided exit are what inferred
execution fills and the account carries, and `LostEntry` runs a stream, on the months of `Calendar`,
that loses an approved entry. `WalkForwardRunner` is the runner as the object that updates its fields:
between events it is the whole run of its history, and its methods carry the guarantees of the other
modules.

Where code and documentation disagree the model follows the code:

- The validation harness says a run that compared nothing must never report success
  (`cpp/tools/replay_validate.hpp:84-85`), but it counts images, compared or not.
  `ReplayValidate.PassesComparingNothing` says exactly when it passes all the same, and
  `OrphansAlonePass` and `LateImagesPass` are two references that do.
- A refused snapshot row can already have cleared the book and counted a resync
  (`cpp/src/book_replayer.cpp:28-33`): `BookReplayer.RefusalIsExact` says exactly when.
- Fill and financing identifiers are made by appending `:spot`, `:perp` or `:finance` to an event's
  own identifier (`python/perpcarry/strategy/execution.py:15-24`,
  `python/perpcarry/strategy/walk_forward.py:251-253`). They share one set with raw event identifiers,
  so a settlement named like a later fill makes the ledger refuse that fill and ends the run.
  `Affordability.EveryApprovedEntryIsExecuted` shows that this, and an impact that leaves the perp no
  price, are the only ways an approved entry can be lost; `LostEntry.TwoNamesLoseTheEntry` is a run
  that loses one, and `ColonlessNeverClash` rules the clash out for identifiers without a colon;
  `Exits.EveryExitIsExecuted` says the same of exits.
- A square-root break-even below the support is among the reported statuses, but an approved size
  never has one: `Sizing.RootIsNotBelowSupport`.

Files named after a module hold that module. `Wrappers`, `Reals` and `Clock` hold what the others
share. `dafny verify dfyconfig.toml` checks the whole project.

## Model

| member | source | states |
|---|---|---|
| OrderBook.Rank | cpp/src/order_book.cpp:47-51 | the rank of a price is the number of leading levels strictly better than it |
| OrderBook.UpdatedMeansMapUpdate | cpp/src/order_book.cpp:43-71 | setting a level is a map update of price to quantity: that price gets the quantity, every other price keeps its own |
| OrderBook.UpdatedWellFormed | cpp/src/order_book.cpp:43-71 | a valid level set on a strictly best-first, all-positive side leaves it strictly best-first and all-positive |
| OrderBook.ListingIsUnique | cpp/src/order_book.cpp:11-15 | two strictly best-first listings of the same map are the same vector |
| OrderBook.LiveBook.LowerBound | cpp/src/order_book.cpp:49-51 | the binary search finds the first level not better than the price |
| OrderBook.LiveBook.Apply | cpp/src/order_book.cpp:43-71 | insert, overwrite or erase in place gives exactly the updated side, or the validation error and no change |
| OrderBook.LiveBook.Clear | cpp/src/order_book.cpp:73-76 | both sides become empty |
| OrderBook.LiveBook.Best | cpp/src/order_book.cpp:78-84 | the front level, and no level of the side is better |
| BookReplayer.RefusalIsExact | cpp/src/book_replayer.cpp:7-33 | exactly which rows are refused, and exactly when a refused row still changes state (a reset before the price check) |
| BookReplayer.RefusedRowCanEmptyTheBook | cpp/src/book_replayer.cpp:28-33 | a replayed two-sided book is emptied, and a resync counted, by a row that is itself refused |
| BookReplayer.ReplayComposes | cpp/src/book_replayer.cpp:50-55 | replaying a concatenation is replaying its parts in turn, stopping at the first refusal |
| BookReplayer.BatchingIsInvisible | cpp/src/book_replayer.cpp:50-55 | any cut into batches replays like the whole stream, error and all |
| BookReplayer.AcceptedIsOrdered | cpp/src/book_replayer.cpp:14-22 | accepted rows never go back in time |
| BookReplayer.BookIsLastWrite | cpp/src/book_replayer.cpp:24-33 | after any accepted stream the book holds, per price, the last quantity written since the latest snapshot block began, and nothing if none was |
| BookReplayer.AcceptedOpensABlock | cpp/src/book_replayer.cpp:7-12 | every accepted non-empty stream has a latest snapshot block |
| BookReplayer.BookIsTheListing | cpp/src/book_replayer.cpp:24-33 | each side is the one strictly best-first, all-positive listing of that map |
| BookReplayer.CountersCount | cpp/src/book_replayer.cpp:35-45 | after an accepted stream each counter is the number of rows it is named for (applied, snapshot, resync starts, removals, crossings) |
| BookReplayer.LiveReplayer.Apply | cpp/src/book_replayer.cpp:7-48 | one row in place: the new state and error are those of the row function, partial change on refusal included |
| BookReplayer.LiveReplayer.ApplyBatch | cpp/src/book_replayer.cpp:50-55 | a batch in place is the replay of the batch, stopping at the first refused row |
| Words.MaskIsRemainder | cpp/include/perpcarry/spsc_queue.hpp:62-64 | masking with a power of two less one, bit by bit, is the remainder |
| Words.WrapThenMask | cpp/include/perpcarry/spsc_queue.hpp:71-73 | a counter wrapped at 2^64 and masked lands in the slot of the unbounded counter modulo the capacity |
| Words.DifferenceSurvivesWrap | cpp/include/perpcarry/spsc_queue.hpp:87-90 | the wrapped difference of two counters less than 2^64 apart is their real difference, so `tail - head == capacity` is the full test |
| SpscQueue.RoundUpToPowerOfTwo | cpp/include/perpcarry/spsc_queue.hpp:142-155 | the least power of two not below the request; exactly 0 and requests above 2^63 are refused |
| SpscQueue.SlotsSeparate | cpp/include/perpcarry/spsc_queue.hpp:91-107 | within a window of `capacity` counters no two share a slot |
| SpscQueue.Queue.constructor | cpp/include/perpcarry/spsc_queue.hpp:61-64 | an empty queue whose capacity is the least power of two that holds the request |
| SpscQueue.Queue.TryPush | cpp/include/perpcarry/spsc_queue.hpp:84-96 | fails exactly when full; otherwise appends, constructing only on a raw slot |
| SpscQueue.Queue.TryPop | cpp/include/perpcarry/spsc_queue.hpp:99-109 | fails exactly when empty; otherwise removes the oldest item and leaves its slot raw |
| SpscQueue.Queue.SizeApprox | cpp/include/perpcarry/spsc_queue.hpp:116-126 | alone, it is the number of live items |
| SpscQueue.Queue.Destroy | cpp/include/perpcarry/spsc_queue.hpp:66-74 | every live item is destroyed once, oldest first, no raw slot is touched, and all slots end raw |
| QueueSteps.StepKeepsInv | cpp/include/perpcarry/spsc_queue.hpp:84-126 | every atomic load, store, construct, move and destroy of either thread, with any stale view of the peer, keeps the queue invariant |
| QueueSteps.EveryInterleaving | cpp/include/perpcarry/spsc_queue.hpp:84-126 | on every interleaving and capacity: pops deliver the pushes in order, items die in order and once, occupancy stays within capacity, a sample of it is what the consumer last saw pushed less what it popped, no step touches a wrong slot |
| QueueSteps.LiveCellsAreTheRest | cpp/include/perpcarry/spsc_queue.hpp:84-109 | the live slots are exactly the pushed items not yet popped, each once |
| QueueSteps.NoTwoThreadsInOneSlot | cpp/include/perpcarry/spsc_queue.hpp:91-106 | while one thread constructs and the other moves or destroys, they are in different slots |
| QueueSteps.DrainDestroysTheRest | cpp/include/perpcarry/spsc_queue.hpp:66-74 | the destructor after any run destroys what is left, so every constructed item is destroyed exactly once |
| Pipeline.MoveKeepsRunInv | cpp/src/pipeline.cpp:29-65 | every move of either loop keeps the pipeline invariant |
| Pipeline.PipelineIsReplay | cpp/src/pipeline.cpp:13-77 | on every interleaving the state is the replay of the rows consumed; once joined, the run is the sequential replay of the batch, or rethrows its first refusal with exactly the earlier rows applied |
| Pipeline.CountersAreOfTheRun | cpp/src/pipeline.cpp:24-65 | the reported peak is the greatest occupancy sampled after a pop, and each thread's stalls are the stalls it made |
| Pipeline.RunsCompose | cpp/src/pipeline.cpp:13-77 | two runs in turn are one run on the concatenated batch |
| Pipeline.JoinedQueueIsDestroyed | cpp/src/pipeline.cpp:15-15 | whatever ended the run, the queue left behind is destroyed without a fault |
| PipelineProgress.MovesAreBounded | cpp/src/pipeline.cpp:24-65 | a measure of the work left falls on every move that is not a stall |
| PipelineProgress.OnlyStallsProlongARun | cpp/src/pipeline.cpp:24-65 | a run over n rows takes at most 18n + 14 moves and 4 more for each stall counted, whatever the interleaving |
| PipelineProgress.ProgressIsNear | cpp/src/pipeline.cpp:24-65 | from every reachable state short of the join at most 18 moves lead to one that is not a stall and pushes a row, consumes a row, or ends a thread or makes it give up |
| PipelineProgress.JoinIsReachable | cpp/src/pipeline.cpp:24-67 | from every reachable state both threads can reach the join |
| PipelineProgress.EveryRunCanFinish | cpp/src/pipeline.cpp:13-77 | every partial run over n rows, failing ones included, extends to a joined one in at most 18n + 21 moves |
| FairPipeline.FairMoveDescends | cpp/src/pipeline.cpp:24-65 | under a fair scheduler every move lowers a potential: either the work left falls or a wait runs down |
| FairPipeline.FairRunsJoin | cpp/src/pipeline.cpp:24-67 | if each thread moves at least once in k moves and sees the latest index and a set abort flag at least once in m looks, a run over n rows has at most (18n + 15) 4km moves and, short of the join, can always go on fairly: every fair run joins |
| ImpactSimulator.FilledIsMin | cpp/src/impact_simulator.cpp:59-72 | the quantity filled is the smaller of the request and the depth |
| ImpactSimulator.DepletedIsWellFormed | cpp/src/impact_simulator.cpp:93-102 | consuming leaves the side strictly best-first and positive, and takes exactly the filled quantity from its depth |
| ImpactSimulator.SplitIsOneOrder | cpp/src/impact_simulator.cpp:93-102 | two consuming orders in turn fill, cost and leave what one order of their total does |
| ImpactSimulator.SplitTouches | cpp/src/impact_simulator.cpp:60-69 | splitting never touches fewer levels, and at most one more |
| ImpactSimulator.WalkIsOptimal | cpp/src/impact_simulator.cpp:57-69 | no other allocation of the filled quantity over the side is cheaper to buy, or pays more to sell |
| ImpactSimulator.AverageNeverImproves | cpp/src/impact_simulator.cpp:75-83 | a larger order never gets a better average price, and slippage against the touch is never negative |
| WalkReport.WalkIsGreedy | cpp/src/impact_simulator.cpp:57-69 | in closed form, each level gives what the depth ahead of it leaves of the order, as far as it goes |
| WalkReport.ReportIsExact | cpp/src/impact_simulator.cpp:35-85 | every field of a fill in terms of the book: amounts by level, levels with less than the order ahead, worst price, touch, midpoint, slippages in basis points of their reference, exhaustion, depth and crossing flags |
| ImpactSimulator.Walk | cpp/src/impact_simulator.cpp:35-85 | the loop returns the greedy fill and the remainder of every level it touched |
| ImpactSimulator.ExecuteMarketOrder | cpp/src/impact_simulator.cpp:93-102 | applying the remainders as level updates leaves exactly the depleted side, the other side and validity intact |
| SlicedExecution.SizesAreShares | cpp/src/impact_simulator.cpp:110-126 | slice sizes are the weighted shares, the last one too, and sum to the parent exactly |
| SlicedExecution.SliceQuantities | cpp/src/impact_simulator.cpp:110-126 | the loop computes those sizes |
| SlicedExecution.SliceTimeIsItsShare | cpp/src/impact_simulator.cpp:188-190 | slice i executes in the last millisecond t with slices (t - start) <= duration i |
| SlicedExecution.SlicesAreSpread | cpp/src/impact_simulator.cpp:188-190 | neighbouring slices are duration / slices apart to within a millisecond |
| SlicedExecution.SimulationIsItsTimeline | cpp/src/impact_simulator.cpp:184-202 | the reported fills are those of a schedule in which each slice walks a book holding exactly the rows due by its share of the duration, less what earlier slices took |
| SlicedExecution.AcceptedStreamIsPriced | cpp/src/impact_simulator.cpp:128-198 | on an accepted stream exactly the admissible orders are priced: taking from the book never causes a refusal |
| SlicedReport.SlicedReportIsExact | cpp/src/impact_simulator.cpp:204-241 | every field of the parent and every count, in terms of the slices: totals, worst price, arrival references, slippages, exhausted, deep and crossed slices |
| SlicedExecution.CutIsInvisible | cpp/src/impact_simulator.cpp:184-225 | rows later than the last slice change nothing |
| SlicedExecution.NoLookAhead | cpp/src/impact_simulator.cpp:188-197 | the outcome through slice i depends only on the rows up to slice i's time |
| SlicedExecution.FillsOnlyGrow | cpp/src/impact_simulator.cpp:184-225 | fills already made are never revised by later slices |
| SlicedExecution.CheckpointIsSound | cpp/src/impact_simulator.cpp:166-198 | starting from the replayed state of a prefix that ends by the start time gives what the whole stream gives |
| SlicedExecution.CheckpointAndCut | cpp/src/impact_simulator.cpp:161-242 | from a checkpoint, with the future cut after the last slice, the whole result is that of simulating the stream from scratch, errors included |
| SlicedExecution.SimulateFromState | cpp/src/impact_simulator.cpp:166-242 | the loops compute the specified simulation, whose slices are those of a timeline in which each meets the rows due by its share of the duration |
| SplitInvariance.ZeroDurationIsAtOnce | cpp/src/impact_simulator.cpp:184-202 | with zero duration all slices see one replayed state and leave the book one order of their sum leaves |
| SplitInvariance.LaterSliceIsWorse | cpp/src/impact_simulator.cpp:218-224 | a later slice never pays a better worst price, so the parent's worst is the single order's |
| SplitInvariance.SlicingIsInvariant | cpp/src/impact_simulator.cpp:166-242 | slicing over zero duration with any admissible weights reports the single order (quantity, notional, average, worst, exhaustion, slippage), leaves the same book and touches at most slices - 1 more levels; the validated-depth flag is raised exactly when some slice alone is too deep, and then for the single order too |
| CalibrationDataset.GroupingKeepsRows | python/perpcarry/models/calibration_dataset.py:141-147 | grouping by millisecond loses, repeats and reorders nothing |
| CalibrationDataset.VisibleIsWithin | python/perpcarry/models/calibration_dataset.py:179-186 | filtering the look-ahead buffer gives exactly the rows up to the last slice, however far it was read |
| CalibrationDataset.LookAheadEndsWithTheOrder | python/perpcarry/models/calibration_dataset.py:172-172 | the look-ahead ends in the millisecond of the order's last slice |
| CalibrationDataset.VisibleDepthIsTheLimit | python/perpcarry/models/calibration_dataset.py:187-187 | exactly the orders no larger than the visible depth fill without passing the validated depth |
| CalibrationDataset.SampleIsWholeStream | python/perpcarry/models/calibration_dataset.py:172-195 | pricing from the sampled state and the cut future is pricing on the whole stream from scratch |
| CalibrationDataset.EverySamplePricesTheWholeStream | python/perpcarry/models/calibration_dataset.py:163-195 | so for every instant of every accepted day |
| CalibrationDataset.SampleRows | python/perpcarry/models/calibration_dataset.py:150-237 | the streaming loop with its look-ahead returns, for every grid instant and size, the order at once and the sliced order as the whole stream from scratch prices them; or the main replay's refusal, or a pricing refusal that only a refused stream or a size not positive can cause |
| CalibrationReport.InstantsAreTheGrid | python/perpcarry/models/calibration_dataset.py:156-178 | of an accepted day the instants sampled are, each once and in order, exactly the milliseconds that hold a grid row and whose sliced order would end in the day |
| CalibrationReport.RowsAreTheirInstants | python/perpcarry/models/calibration_dataset.py:187-234 | each row is its size priced at its instant: on the book of every row of that millisecond and none after, at once and sliced over the whole stream; there are no other rows |
| BookCompare.DiffsAreTheDifferences | cpp/src/book_compare.cpp:9-34 | a rank is reported exactly when the sides differ there, once, with the right kind and levels |
| BookCompare.KindsAreExact | cpp/src/book_compare.cpp:9-34 | which kind a difference is, and which levels it shows, in terms of the two listings alone |
| BookCompare.NoDiffsMeansSameTop | cpp/src/book_compare.cpp:14-15 | no difference means the same first `depth` ranks, in both directions |
| BookCompare.CompareSide | cpp/src/book_compare.cpp:9-34 | the loop appends exactly those differences |
| BookCompare.CompareTopN | cpp/src/book_compare.cpp:43-49 | both sides; empty exactly when both tops agree |
| ReplayValidate.ImagesKeepRows | cpp/tools/replay_validate.cpp:42-68 | every reference row lands in one image, and neighbouring images differ in time |
| ReplayValidate.ImagesSpellTheRows | cpp/tools/replay_validate.cpp:42-68 | the images are the reference rows read off in turn: each is the run of rows of one millisecond, each side the prices and quantities of the run's rows of that side in their order, and nothing else |
| ReplayValidate.RanksAreRows | cpp/tools/replay_validate.cpp:47-58 | rank r of a side holds the price and quantity of the run's row of that side and level r, and every row of the run is at its rank |
| ReplayValidate.RefusedIfMisplaced | cpp/tools/replay_validate.cpp:47-58 | exactly the references with a row that names a rank other than the next of its side in its millisecond are refused |
| ReplayValidate.NextImage | cpp/tools/replay_validate.cpp:42-68 | the streaming reader produces the next image or finds a misplaced level |
| ReplayValidate.GroupIsTheMillisecond | cpp/tools/replay_validate.cpp:124-138 | an image counts exactly the events of its millisecond, or none if an image as late came before |
| ReplayValidate.ComparedAgainstItsPast | cpp/tools/replay_validate.cpp:124-141 | every image that is compared at all is compared with the replay of exactly the events at or before its millisecond, even in an unordered reference |
| ReplayValidate.TallyCounts | cpp/tools/replay_validate.cpp:143-200 | orphan, unambiguous and ambiguous images partition the images by group size, and mismatches are counted once each |
| ReplayValidate.KindsAreCounted | cpp/tools/replay_validate.cpp:197-216 | each kind counter counts the differences of its own kind over the images a single event pairs |
| ReplayValidate.NoKindsMeansNoMismatch | cpp/tools/replay_validate.cpp:197-216 | the kind counters are all zero exactly when no unambiguous image differs |
| ReplayValidate.PassIsExact | cpp/tools/replay_validate.hpp:86-90 | Pass holds exactly when there is an image and every non-orphan image agrees with the book on the first `depth` ranks of both sides |
| ReplayValidate.OrphansAlonePass | cpp/tools/replay_validate.hpp:84-90 | a reference of one image passes against no events at all, with nothing compared |
| ReplayValidate.LateImagesPass | cpp/tools/replay_validate.hpp:84-90 | so does an out-of-order reference whose second image shares its millisecond with an event and differs from the book there |
| ReplayValidate.ComparedIsShared | cpp/tools/replay_validate.cpp:118-146 | an image is compared exactly when its millisecond holds an event and every image before it is earlier, in references of any order |
| ReplayValidate.PassesComparingNothing | cpp/tools/replay_validate.hpp:84-90 | the harness passes having compared nothing exactly when there is an image and no image is compared in that sense |
| ReplayValidate.Validate | cpp/tools/replay_validate.cpp:104-252 | the streaming harness returns that report, or a refusal of the events or the reference |
| IngestCounters.ChunkAddsResyncs | python/perpcarry/ingestion/fetch_book.py:423-425 | counting resync starts chunk by chunk, with the flag carried over, is counting them on the whole |
| IngestCounters.FirstDiffOfConcat | python/perpcarry/ingestion/fetch_book.py:427-432 | the opening block found chunk by chunk is the leading snapshot block of the whole |
| IngestCounters.LaterRowsAreTheRest | python/perpcarry/ingestion/fetch_book.py:456-467 | snapshot rows less opening rows is the number of snapshot rows after the first diff |
| IngestCounters.ReportIsReplay | python/perpcarry/ingestion/fetch_book.py:411-436 | the counters equal the replayer's on every stream it accepts |
| IngestCounters.Ingest | python/perpcarry/ingestion/fetch_book.py:379-454 | for any cut into chunks, empty ones included, the report is that of the whole stream, or the right error |
| SymbolGrid.ScaledIsExact | python/perpcarry/ingestion/derive_symbol_meta.py:92-112 | scaling by the common number of places truncates nothing |
| SymbolGrid.GcdIsGreatest | python/perpcarry/ingestion/derive_symbol_meta.py:133-135 | Euclid's divisor divides both, and every common step, whole or fractional, divides it |
| SymbolGrid.PlainIsUnique | python/perpcarry/ingestion/derive_symbol_meta.py:136-140 | two plain decimals of one value are written the same |
| SymbolGrid.GridIsGreatest | python/perpcarry/ingestion/derive_symbol_meta.py:115-140 | the grid divides every observation, and whatever real step divides them all divides the grid |
| SymbolGrid.RefusalIsExact | python/perpcarry/ingestion/derive_symbol_meta.py:122-130 | exactly the empty and the non-positive samples are refused |
| SymbolGrid.GridIgnoresPresentation | python/perpcarry/ingestion/derive_symbol_meta.py:115-140 | order, repeats and trailing zeros do not matter |
| SymbolGrid.SubgridDivides | python/perpcarry/ingestion/derive_symbol_meta.py:115-140 | more observations can only refine the grid |
| SymbolGrid.EstimateIsOfTheSample | python/perpcarry/ingestion/derive_symbol_meta.py:176-185 | the estimate counts distinct numbers, not spellings, and its grid is that of the whole sample |
| SymbolGrid.PoolingKeepsTheGrid | python/perpcarry/ingestion/derive_symbol_meta.py:334-347 | pooling agreeing windows by union gives the value each of them gave |
| SymbolGrid.CombineIsExact | python/perpcarry/ingestion/derive_symbol_meta.py:303-373 | windows combine exactly when they agree on symbol and grids, and into those |
| SymbolGrid.RecordIsItsWindows | python/perpcarry/ingestion/derive_symbol_meta.py:332-371 | the record counts its trades window by window, and is trusted exactly with twenty numbers of each kind and a second window |
| SymbolGrid.Derive | python/perpcarry/ingestion/derive_symbol_meta.py:256-398 | from the raw trades: the record's sizes are the grids of all the trades together, and it is refused exactly for no days, an empty or non-positive day, or days whose grids differ |
| RollingFunding.AcceptedAreChained | python/perpcarry/models/rolling_funding.py:81-93 | accepted observations are one cadence apart, within the jitter |
| RollingFunding.AcceptanceIsExact | python/perpcarry/models/rolling_funding.py:80-97 | exactly which update joins the history: time, rate bound, cadence range and regularity; any other leaves it as it was |
| RollingFunding.WindowIsBounded | python/perpcarry/models/rolling_funding.py:94-97 | a window holds at most 1 + window / (interval - jitter) observations |
| RollingFunding.SelectionIsWindow | python/perpcarry/models/rolling_funding.py:108-112 | filtering the pruned history is filtering everything accepted: pruning drops nothing a forecast would use |
| RollingFunding.TrainedIsTheWindow | python/perpcarry/models/rolling_funding.py:99-112 | the window a forecast is trained on is the one suffix of accepted observations of the latest cadence and inside the window |
| RollingFunding.RollingFundingModel.Create | python/perpcarry/models/rolling_funding.py:73-78 | construction succeeds exactly for a positive window and at least three settlements |
| RollingFunding.RollingFundingModel.Update | python/perpcarry/models/rolling_funding.py:80-97 | after any sequence of updates the history is the longest suffix of accepted observations sharing the latest cadence and within the window; a refused one leaves no trace |
| RollingFunding.RollingFundingModel.Selection | python/perpcarry/models/rolling_funding.py:99-112 | filtering the pruned history gives the training rows, or the reason there are none, that everything accepted gives |
| Fees.QuoteIsFraction | python/perpcarry/strategy/fees.py:72-86 | a quoted fee is a fraction at least 0 and below 1 |
| Fees.QuoteIsExact | python/perpcarry/strategy/fees.py:72-86 | a rate is quoted exactly when the first period of the symbol and market over the time has it and is an allowed assumption or evidence observed by then |
| Accounting.TradeMovesPnl | python/perpcarry/strategy/accounting.py:52-64 | a trade, opening or closing, moves P&L at any mark by its quantity times the mark's distance from its price |
| Accounting.TradeKeepsClosed | python/perpcarry/strategy/accounting.py:52-61 | a leg with no quantity keeps no basis |
| Accounting.TradeKeepsAverage | python/perpcarry/strategy/accounting.py:52-61 | adding to a leg adds its price to the basis and realizes nothing; reducing it leaves the rest at the same average cost |
| Accounting.FillKeepsSound | python/perpcarry/strategy/accounting.py:127-166 | a fill keeps cash balanced and the legs long spot, short perp |
| Accounting.StepKeepsSound | python/perpcarry/strategy/accounting.py:127-203 | so does every accounting event |
| Accounting.ProfitAddsUp | python/perpcarry/strategy/accounting.py:127-241 | net P&L is price P&L plus funding less fees less financing; gross less net is fees plus financing plus execution cost |
| Accounting.GrossIsFrictionless | python/perpcarry/strategy/accounting.py:205-241 | gross P&L is the net P&L of the same run at the reference mids, free of fees and financing |
| Statement.LedgerIsItsEvents | python/perpcarry/strategy/accounting.py:127-203 | after every accepted run the legs, funding, fees, financing and execution cost are sums over the events, funding being paid at each settlement on the perp held short by then, and cash with the perp at any mark is their balance |
| Statement.ValuationIsItsEvents | python/perpcarry/strategy/accounting.py:205-241 | every figure of a valuation from the events alone: price P&L is what is held at its mark less what it was bought for |
| Statement.ValuedExactlyWhen | python/perpcarry/strategy/accounting.py:205-215 | exactly which accounts have a valuation, in terms of their events and marks |
| Statement.ShortsArePaid | python/perpcarry/strategy/accounting.py:168-187 | a settlement raises the cash of a short at a positive rate and lowers it at a negative one |
| Statement.AcceptanceIsExact | python/perpcarry/strategy/accounting.py:116-203 | exactly which event an account accepts next, in terms of the events before it |
| Statement.FillsAreClear | python/perpcarry/strategy/accounting.py:138-145 | no accepted perp fill is within the guard of any settlement before or after it |
| Carry.DecisionIsExact | python/perpcarry/strategy/carry.py:171-270 | a held position is answered with hold or exit and a flat account with enter or wait, nothing else; hold and enter exactly on the evidence, forecast, approval, quote, mean and probability the source asks for, so whatever may not be kept is closed |
| Carry.ProbabilityIsTheShare | python/perpcarry/strategy/carry.py:256-257 | the probability is the number of draws above the hurdle over the number of draws |
| Carry.ReasonsAreTheirs | python/perpcarry/strategy/carry.py:171-270 | each reason is given for its own failure, and edge and probability are reported exactly when they were reached |
| Carry.BetterStillActs | python/perpcarry/strategy/carry.py:171-270 | a decision to enter or stay survives higher draws, a lower hurdle, a wider approval, a longer quote and a looser policy, with no less edge or probability |
| Carry.CheaperStillEnters | python/perpcarry/strategy/carry.py:248-270 | on the same evidence a lower hurdle keeps an entry and adds the difference to its edge |
| Costs.HurdleIsFixedPlusImpact | python/perpcarry/strategy/costs.py:209-235 | the round-trip hurdle is the fixed charges plus the round-trip coefficient times the root of the size |
| Costs.LargerIsNeverCheaper | python/perpcarry/strategy/costs.py:209-235 | of two quotes the larger size costs no less to open, to close and as a round trip |
| Costs.EntryIsThenHeld | python/perpcarry/strategy/carry.py:247-270 | a position entered on a quote is held on the same quote, with the round trip added to its edge: no entry is undone by its own evidence |
| Sizing.LotsAreLimits | python/perpcarry/strategy/sizing.py:165-180 | the lot bounds admit exactly the positive lots whose quantity meets each limit in turn: support, minimum quantity and notional, validated depth, share of daily volume, maximum notional |
| Sizing.QuoteIsSupported | python/perpcarry/strategy/sizing.py:182-197 | no lot inside the limits is quoted outside the impact model's support |
| Sizing.GateIsMonotone | python/perpcarry/strategy/sizing.py:202-209 | if a size passes the entry gate so does every smaller one |
| Sizing.ProfitIsShape | python/perpcarry/strategy/sizing.py:228-229 | expected profit is scale times s^2 (edge - c s) in the root s of the size |
| Sizing.TargetSplits | python/perpcarry/strategy/sizing.py:216-222 | profit rises up to the target lot count and falls beyond it |
| Sizing.CandidatesDominate | python/perpcarry/strategy/sizing.py:223-233 | one of the two clamped candidates is at least as good as any admitted lot count |
| Sizing.Bisect | python/perpcarry/strategy/sizing.py:203-210 | the bisection finds the last admitted lot count, all smaller ones being admitted |
| Sizing.SizingIsOptimal | python/perpcarry/strategy/sizing.py:149-269 | sizing enters exactly when the inputs are current and some lot inside every written limit passes the gate, with the most profitable of all such lots; its report, binding limits included, is read off the inputs; otherwise the reason is that of the inputs, the limits or the smallest lot |
| Sizing.BreakEvenIsExact | python/perpcarry/strategy/sizing.py:238-245 | the reported root separates the sizes with an edge left from those without, and the status says where it lies |
| Sizing.RootIsNotBelowSupport | python/perpcarry/strategy/sizing.py:240-241 | an approved size never reports a root below the support |
| Sizing.SizePosition | python/perpcarry/strategy/sizing.py:133-269 | the call with its bisection and two candidates computes that optimum |
| Execution.ImpactIsACost | python/perpcarry/strategy/execution.py:45-69 | inferred fills never beat their mid on either leg, opening or closing |
| Protocol.TradeMoves | python/perpcarry/strategy/walk_forward.py:423-449 | a trade moves both legs by the same quantity or leaves the books alone, whatever the executor proposes |
| Protocol.ProcessKeepsInv | python/perpcarry/strategy/walk_forward.py:183-288 | every accepted event keeps the books hedged, the position in step with its plan and the settlement, decision and observation clocks on schedule |
| Protocol.EveryRunKeepsTheProtocol | python/perpcarry/strategy/walk_forward.py:183-449 | in every accepted stream, after every event: settlements and decisions alternate on schedule, observations come one an interval and are the settlements once the study has begun, spot is minus perp, a position is on record exactly when open, and it has held every settlement since it opened, never more than the plan |
| Protocol.RunsRecordTheirStudy | python/perpcarry/strategy/walk_forward.py:479-486 | an accepted run records every event of the study once, in order, and none of the warm-up |
| Protocol.ErrorEndsTheRun | python/perpcarry/strategy/walk_forward.py:479-486 | an error ends a run where it is and keeps the records made before it |
| Streams.AcceptedStreamsAreOrderly | python/perpcarry/strategy/walk_forward.py:183-249 | an accepted stream names each event once, goes forward inside the window, and skips no settlement or decision that was due; at a decision's moment no market event precedes it |
| Streams.FoldsAreSealed | python/perpcarry/strategy/walk_forward.py:385-407 | within an accepted run all admissible evidence of one fold has one curve |
| Streams.RecordsShowTheState | python/perpcarry/strategy/walk_forward.py:450-477 | every field of a record is that of the state its event leaves, and evidence is marked admitted exactly when it is of the fold, symbol and price and known and current then |
| Streams.MarketEventsAreSolvent | python/perpcarry/strategy/walk_forward.py:251-258 | an accepted market event, once financed, finds the account with positive equity and its collateral covered |
| Streams.SettlementsKeepTheClock | python/perpcarry/strategy/walk_forward.py:62-91 | every funding event of an accepted stream falls on the same whole hours of each UTC day, midnight among them |
| Books.AccountIsItsJournal | python/perpcarry/strategy/walk_forward.py:183-449 | the account an accepted run ends with is the ledger run on its settlements, financing charges and executed fills, whatever the executor |
| Books.RunsArePaidTheirFunding | python/perpcarry/strategy/walk_forward.py:216-228 | over a whole run the funding earned is the sum, over the settlements of the study, of the quantity then held times mark times rate |
| Books.TradeIsItsFills | python/perpcarry/strategy/walk_forward.py:423-449 | a trade leaves the account alone or books exactly two fills, spot then perp, opposite and in full, at the event's time and mids |
| Protocol.DecisionsAreClear | python/perpcarry/strategy/walk_forward.py:77-87 | each scheduled decision is clear of the settlements on both sides by more than the guard |
| Protocol.EveryRecordAddsUp | python/perpcarry/strategy/walk_forward.py:450-477 | every valuation a backtest records obeys both accounting identities from the study's own capital, and shows the record's cash |
| Holdings.HeldDecisionIsExact | python/perpcarry/strategy/walk_forward.py:350-377 | a held position is kept exactly when it is worth holding: settlements left, supported evidence, a current approved forecast, and funding above the financing in mean and in share of draws |
| Holdings.HeldEventKeepsOrCloses | python/perpcarry/strategy/walk_forward.py:264-286 | an accepted decision on an open position leaves it and both legs unchanged exactly then, and otherwise leaves no position and two empty legs, whatever the executor |
| Holdings.EveryDecisionKeepsOrCloses | python/perpcarry/strategy/walk_forward.py:183-288 | the same for every accepted run |
| Holdings.ForecastsAreOfTheRest | python/perpcarry/strategy/walk_forward.py:261-281 | after any accepted run the forecaster is asked, from all accepted history, for exactly the settlements still to come up to the last one planned, and is not asked for none |
| Calendar.MonthsAreFolds | python/perpcarry/strategy/walk_forward.py:38-42 | the starts of the UTC months cut time into intervals: times share a start exactly when no month begins between them |
| Calendar.MonthStartIsCivil | python/perpcarry/strategy/walk_forward.py:38-42 | that start is the first day of the Gregorian month, in closed form, that holds the time |
| Affordability.SizedIsAffordable | python/perpcarry/strategy/walk_forward.py:295-335 | a sized quantity is whole lots within every limit of its evidence, can be inferred, and times its worst use per unit is within the cash |
| Affordability.PerUnitIsWorstUse | python/perpcarry/strategy/walk_forward.py:299-315 | the cash set aside per unit exceeds the use at the worst impact by the fee on that impact alone, where the mark is no lower than the mid |
| Affordability.ApprovedEntryExecutes | python/perpcarry/strategy/walk_forward.py:335-347 | an approved entry is filled in full, with the reserve held after it, exactly when its fills' identifiers are unused and its own perp impact is below 1 |
| Affordability.ApprovedEventCompletes | python/perpcarry/strategy/walk_forward.py:183-288 | the whole decision event completes under exactly that condition, with the sized position on both legs |
| Affordability.SizedImpactIsBounded | python/perpcarry/strategy/walk_forward.py:290-335 | no approved size meets more impact than the curve's largest supported one, so a worst impact below 1 rules the second failure out |
| LostEntry.TwoNamesLoseTheEntry | python/perpcarry/strategy/accounting.py:116-125 | a concrete accepted run (February 1970, two warm-up observations, the opening settlement) whose entry is approved for any draws worth entering on and under every name the settlement can have, and executed unless that name is one of the entry's two fills' |
| Affordability.EveryApprovedEntryIsExecuted | python/perpcarry/strategy/walk_forward.py:290-449 | after any accepted run an approved entry is executed exactly when no settlement of the run has the name of one of its fills and its own perp impact is below 1; otherwise it is lost with the run |
| Affordability.ColonlessNeverClash | python/perpcarry/strategy/execution.py:15-24 | settlement identifiers without a colon never take a fill's name |
| Affordability.QuotedCostIsBooked | python/perpcarry/strategy/walk_forward.py:409-421 | the quoted cost of a trade, opening or closing, is exactly the execution cost its inferred fills book plus the fees at the mids |
| Exits.DecidedExitCloses | python/perpcarry/strategy/walk_forward.py:350-377 | under inferred execution a decided exit closes both legs exactly when the evidence supports the whole position, the spot keeps a price, both fees are quoted and the names are unused; the cash left is the account's worth at the fills |
| Exits.ExitEventCompletes | python/perpcarry/strategy/walk_forward.py:183-288 | the whole exit event completes under exactly that condition and if the account is not left in debt |
| Exits.EveryExitIsExecuted | python/perpcarry/strategy/walk_forward.py:350-449 | after any accepted run a decided exit is executed exactly when no settlement of the run has the name of one of its fills, the market supports it and it leaves no debt |
| WalkForwardRunner.Runner.Create | python/perpcarry/strategy/walk_forward.py:163-181 | the runner starts in the initial state of its configuration, or is refused |
| WalkForwardRunner.Runner.Admit | python/perpcarry/strategy/walk_forward.py:385-407 | evidence is admitted, or not, or a changed curve within a fold is an error |
| WalkForwardRunner.Runner.Trade | python/perpcarry/strategy/walk_forward.py:423-449 | both fills on a copy of the ledger, kept unless an opening would break the reserve; hedged books stay hedged and move by the quantity or not at all |
| WalkForwardRunner.Runner.EnterAt | python/perpcarry/strategy/walk_forward.py:290-348 | a flat account's decision, sized against the cash and then traded; an approved entry ends with the sized position on both legs and the reserve held exactly when its names are unused and its impact is below 1 |
| WalkForwardRunner.Runner.HeldAt | python/perpcarry/strategy/walk_forward.py:350-377 | a held position's decision: stay with nothing changed exactly when it is worth holding, or close both legs to zero |
| WalkForwardRunner.Runner.Process | python/perpcarry/strategy/walk_forward.py:183-288 | one event takes the object from the run of its history to the run of one event more, or to that run's error; legs offset, plan kept, collateral covered, next settlement, decision and observation on schedule, an approved entry executed under its exact condition, and an open position kept exactly when worth holding and otherwise closed |
| WalkForwardRunner.IterBacktest | python/perpcarry/strategy/walk_forward.py:479-486 | the loop over a stream returns the records up to its first error, and the error; without one, a record of every event of the study |

## Left out

- Floating-point rounding, Decimal precision, and conversions between the two: every number is exact, so the branches for non-finite edges, coefficients and profits do not arise.
- The C++ memory model beyond stale acquire loads of the peer's index and of the abort flag; cache lines; stall counters as times.
- `int64` overflow of timestamps and of `duration_ms * i`, which are mathematical integers here.
- An allocation failure in the pipeline's own bookkeeping; a producer failure is modelled as a construction in the queue that throws.
- Files, CSV, Parquet, JSON, checksums, downloads and Python/C++ bindings; inputs arrive as sequences of rows and events already parsed.
- Text rendering, ladders, and the sampled timestamps of the validation harness; its summary counters and verdict are modelled.
- The snapshot dataset of the ingest, which only counts rows; the incremental feed is modelled.
- The ratio columns of a calibration row (fractions and percentages of volume and of depth), which are quotients of the fields modelled; the spacing of its sizes, which are any list of two or more.
- Parent references of a sliced order in which no slice executed: the source leaves defaults, and no admissible schedule has that case.
- The window confidence texts of the symbol grid; the counts they rest on and the verdict are modelled. Non-finite decimals and non-decimal inputs are refused before the model begins.
- Fitting the funding model, sampling from it, and its digest: a forecast is whatever a function of the accepted history, the horizon and the time returns.
- The runner does not hold a `RollingFundingModel` object: it keeps the observations offered and their acceptance rule, and the pruned object is proved separately to hold exactly the window of them.
- The runner's folds are an arbitrary function of time, so its results hold for any partition; `Calendar` gives the source's months, and `LostEntry` uses them. Times before 1970 do not occur.
- WalkForwardRunner.Runner.Process: does not describe the state after an error, because the run ends there; provenance hashes and forecast summaries are not part of its records.
- WalkForwardRunner.Runner.HeldAt: any failure to quote a held position's cost counts as an unavailable cost; with the evidence admitted the only one possible is a size outside the support.
- Book execution, margin tiers and liquidation; the protocol is proved for an arbitrary executor, and affordability for the inferred one.
- Fee schedules are given as periods; loading them, and the check that periods do not overlap, are not modelled.
- Loading impact artifacts and fitting curves: a curve is its coefficients and its support.
