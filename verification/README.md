# Real-time stock statistics: a verified model

The program receives trades over a web socket, logs them, and computes per-minute candlesticks and a 15-minute moving
average for each symbol. It is a pipeline of threads: one producer at a time fills `api_queue`; Writers log each trade
and hand it on to `calculation_queue`; one Calculator turns it into statistics. A minute timer feeds directives into
the same pipeline, and an exit order spreads through it stage by stage. This project models that pipeline, the ring
buffer it is built on, the statistics, the JSON callback that assembles trades, and the minute timer. The number of
Writers `w`, the queue capacity `n`, the number of symbols and all inputs are arbitrary.

## How the model is built

- `Pipeline` is a state machine. A thread's turn is fixed by where it stands in its program: one critical section, one
  signal, or one unlocked write of an exit flag is one step, so signals come after the unlock and waking is separate from
  running again. `queue_remove` is split between its test and its wait, during which the thread holds the mutex, because
  the calculation exit flag is set and signalled without that mutex. In `queue_add` the exit test, the full test and the
  store are one step: the flag is not read again after the test, so an unlocked write of it inside that section has the
  effect of one just after it. Spurious wake-ups are steps too. Items are named by their position in the history of the
  api queue, and a `Book` records what has happened (submitted, rejected, logged, delivered by whom, dropped).
- `Signals` states who wakes whom and who can move; `Safety`, `Ledger` and `Submission` prove what every step keeps,
  `Drain` that work is bounded and what rest means; `Theorems` states it for every reachable state. `Limits`, `LossBound`
  and `OrderLimits` construct, for all sizes, the runs that show where the guarantees end.
- `Queues` is the queue as a value with its two critical sections, `Added` and `Removal`. The pipeline's steps call them,
  and `PCQueue.PCQueue`, the array-based ring, is proved to implement them.
- `Statistics` is the Calculator's arithmetic on values, with `real` for `double`; `SlidingWindow`, `WindowLaws`,
  `Candlesticks` and `Reordering` prove what it computes; `Averages`, `Records` and `FileOrder` add the files, `EndToEnd`
  composes all of it with the pipeline's runs; `TradeProcessing` is the in-place code. The parameter `clears`
  selects the header's description of the weighted price (cleared each minute) instead of the code's (never cleared).
- `JSONParsing` is the parser callback, fed with parser events that carry the path, the text and the conversion results;
  `Messages` puts it in front of the pipeline.

## What was found

- The weighted price of a candlestick survives the end of its minute, although the header calls it the sum of one
  interval. After T minutes minute j counts min(15, T - j) times (counting from 0) in the 15-minute total, so the emitted
  average is too high as soon as any earlier minute had trades; `AverageIsBiased` says exactly when it is not, and
  `AverageTooHigh` shows two minutes.
- The Calculator can wait for ever: every Writer's exit signal can fall between its test and its wait. It leaves exactly if
  some wake-up after the exit flag misses that gap (`CalculatorWasHeard`, `CalculatorCanHang`).
- Before the first exit of a Writer the exit order can rest with a blocked one: after WSSClient's return all Writers can
  be waiting with no signal pending, and it takes the Calculator's next removal to set them going (`EveryoneCanWait`,
  `NobodyForgotten`). From the first exit on this cannot happen (`ExitIsRelayed`).
- When an item enters the calculation queue at most w - 1 older ones are missing, and this is attained
  (`OvertakingIsAttained`); but a directive can be passed by any number of younger trades, so its minute can take in any
  number of them (`DirectiveCanBeLate`).
- With several Writers the directive of call 2880 can be dropped because of the exit order it raises itself, so that the
  last minute is counted but never written (`LastMinuteCanBeLost`).
- Where trades with and without volume meet in a window, the average can leave the range of its prices altogether
  (`VolumelessTradeDoubles`); `ForexAverage` bounds it.
- Every Writer leaves if and only if the queue has room for all Writers but one (`WritersLeave`, `WritersNeedRoom`).
- A shutdown loses at most as many accepted items as there are Writers, and this bound is attained for every size.
- A minute whose first price is -1 or less gets a wrong record or none (`RecordIsDue`, `NegativeOpeningIsLost`).
- An incomplete trade object is queued with fields of the previous item (`StaleFieldsShow`, `MissingVolumeIsStale`).
- The header says a directive is told by a negative volume; the code takes any volume above -1 for a trade. The model
  follows the code.

## Model

| member | source | states |
|---|---|---|
| Theorems.BoundedLoss | src/ThreadRoutines.c:63-80 | in every reachable state where all Writers and the Calculator have left, accepted minus consumed items is at most the number of Writers |
| LossBound.LossIsAttained | src/ThreadRoutines.c:63-80 | for all sizes a shutdown exists that loses exactly as many items as there are Writers |
| Safety.RunKeepsCore | src/PCQueue.c:34-87 | queue bounds, announced wake-ups, exit order and loss bound hold after every run; after WSSClient's return, while a Writer waits for items, a signal is pending or some Writer that has not left does not wait for items |
| Signals.ParkedAreWoken | src/PCQueue.c:63-74 | a Writer waiting for items leaves its wait only as a woken one, by a signal on api not_empty or spuriously |
| Signals.BlockedAreWoken | src/PCQueue.c:43-45 | a Writer waiting for room leaves its wait only as a woken one, by the Calculator's signal or spuriously |
| Signals.SignalsWakeOne | src/PCQueue.c:54-85 | each of the signals, of producer, Writers, Calculator, the closed connection and WSSClient's end, wakes exactly one Writer if any waits |
| Signals.SingleWaitersAreWoken | src/PCQueue.c:43-85 | a waiting producer or Calculator leaves its wait exactly when signalled by a Writer, or spuriously |
| Signals.WritersMove | src/ThreadRoutines.c:63-80 | a Writer can take a step exactly unless it waits, has gone, or wants a mutex held by a thread between test and wait |
| Signals.OutsideMoves | src/WSSHandling.c:42-69 | when messages, directives, interrupts, the closing of the connection and WSSClient's end can happen |
| Theorems.NoLostWakeup | src/PCQueue.c:43-85 | for each of the four conditions: while a thread waits, items or free places do not exceed pending signals plus woken threads |
| Theorems.NobodyForgotten | src/ThreadRoutines.c:40-45 | once WSSClient has returned, a Writer waits for items only while a signal is pending, or another Writer is woken or running, or no Writer has left yet, one is blocked on the calculation queue and the Calculator can take a step |
| Theorems.ExitIsRelayed | src/PCQueue.c:63-74 | from the first exit of a Writer on, while Writers wait for items, pending signals plus woken Writers exceed the items left, so the order is passed on without help from blocked Writers |
| Theorems.EveryoneCanWait | src/ThreadRoutines.c:40-45 | a reachable state in which every Writer waits, one of them for items, with no signal pending after WSSClient's return, exists if and only if there are at least two Writers |
| Limits.AllCanWait | src/ThreadRoutines.c:40-45 | for all sizes with two Writers or more, the run to that state: Writer 0 blocked on a full calculation queue, all others waiting for items, the exit order given |
| Theorems.WorkIsBounded | src/ThreadRoutines.c:63-118 | in every run without spurious wake-ups, Writers, Calculator and producer make at most 8w + 2 working steps, plus 16 for each item submitted, 1 for each message or directive and 2 for each signal from outside |
| Drain.WorkIsPaidFor | src/PCQueue.c:34-87 | from any state with the safety invariant, working steps plus the potential left never exceed the potential at the start plus what comes in |
| Theorems.RestIsComplete | src/ThreadRoutines.c:63-118 | while no Writer has left, no thread inside the pipeline can take a step if and only if the producer lock is free, everything accepted has been removed by the Calculator and all threads wait for items; then every accepted item was delivered exactly once |
| Theorems.WritersLeave | src/ThreadRoutines.c:63-80 | with capacity at least the Writers but one, a drain takes boundedly many working steps however the timer interleaves, and only stops when every Writer has left |
| Theorems.ShutdownCompletes | src/ThreadRoutines.c:63-118 | a drain that can do no more working step has let every Writer leave, and the Calculator exactly if it heard the exit; then at most w accepted items are lost |
| Drain.DrainIsBounded | src/ThreadRoutines.c:63-80 | working steps plus remaining potential never exceed the potential at the start of the drain |
| Drain.DrainProgresses | src/PCQueue.c:43-85 | with capacity at least the Writers but one, some working step is possible while a Writer has not left |
| Theorems.WritersNeedRoom | src/PCQueue.c:38-45 | a Writer can stay blocked behind a Calculator that has left if and only if the capacity is below the number of Writers minus one |
| Limits.ForsakenForEver | src/PCQueue.c:43-45 | such a Writer stays blocked in every continuation without spurious wake-ups |
| Theorems.CalculatorLeaves | src/PCQueue.c:63-74 | when all Writers have gone and it can do nothing more, the Calculator has left if and only if a wake-up after the exit flag missed the gap between its test and its wait |
| Theorems.CalculatorWasHeard | src/ThreadRoutines.c:67-68 | in a run after which all Writers have gone and the Calculator can do nothing more, it has left if and only if some step of the run was a wake-up of it, taken after the exit flag was set and outside the gap |
| Theorems.CalculatorCanHang | src/ThreadRoutines.c:67-68 | for all sizes a run exists after which the Calculator waits for ever |
| Theorems.Conservation | src/ThreadRoutines.c:63-80 | every accepted item is in exactly one of: api queue, a Writer's hands, calculation history, dropped; drops only after the calculation exit flag |
| Theorems.LoggedFirst | src/ThreadRoutines.c:70-79 | each trade in the calculation history has been logged exactly once, directives never |
| Theorems.Overtaking | src/ThreadRoutines.c:63-80 | in every reachable state: when an item (a directive in particular) entered the calculation queue, at most w - 1 older ones were missing that have not been dropped; its position there is at most w - 1, plus one for each dropped item, below its api position; each Writer's deliveries keep api order; nothing is dropped before the calculation exit flag and at most w items ever |
| OrderLimits.OvertakingIsAttained | src/ThreadRoutines.c:63-80 | for all sizes a run exists in which the first item delivered overtakes w - 1 older ones |
| Theorems.MinuteBoundary | src/ThreadRoutines.c:106-117 | in every reachable state: when an item (a directive in particular) entered the calculation queue, at most w - 1 trades accepted before it had neither entered nor have been dropped since |
| OrderLimits.LastMinuteCanBeLost | src/WSSHandling.c:235-238 | the directive of call 2880, which raises the exit order, can be dropped in favour of that order if and only if there are several Writers |
| OrderLimits.LastMinuteIsLost | src/ThreadRoutines.c:63-80 | for all sizes with two Writers or more, the run: a trade is counted, the directive that should close its minute is dropped |
| OrderLimits.DirectiveCanBeLate | src/ThreadRoutines.c:70-79 | in the other direction there is no bound: with two Writers or more, any number of trades accepted after a directive can enter the calculation queue, and be counted, before it |
| Theorems.SingleWriterKeepsOrder | src/ThreadRoutines.c:63-80 | with one Writer the calculation history is the api history and nothing is ever dropped |
| Theorems.BatchesStayWhole | src/WSSHandling.c:42-51 | in every run the accepted history is the run's received messages and single directives, with the items and in the order of its steps, at most the last one cut, and all of them while nothing was rejected |
| Submission.ProducerMovesOne | src/PCQueue.c:34-57 | each step of a producer submits at most one item, which is accepted or rejected, and goes on with the next |
| Theorems.NothingAfterRejection | src/PCQueue.c:38-41 | after a rejection nothing is ever accepted |
| Theorems.DirectiveQuota | src/WSSHandling.c:210-242 | no run accepts more directives than it calls the minute handler, nor more than 2880 |
| Theorems.ExitIsOrdered | src/WSSHandling.c:230-240 | after any run the api exit order has been given if and only if the run was interrupted, or has called the minute handler 2880 times and released the lock after that call |
| MinuteTimer.CountersAreTime | src/WSSHandling.c:211-216 | after n calls 60 * hours + minutes = n with minutes below 60 |
| MinuteTimer.RaisedFromCall2880 | src/WSSHandling.c:235-238 | the exit order is raised from call 2880 on, for 60 calls, and by no earlier call |
| MinuteTimer.MinuteHandler.OnAlarm | src/WSSHandling.c:211-216 | one call keeps the two counters equal to the number of calls, in hours and minutes, and tells whether the hour limit is reached |
| PCQueue.PCQueue.constructor | src/PCQueue.c:4-20 | an empty queue of any capacity of at least 1 |
| PCQueue.PCQueue.Add | src/PCQueue.c:37-53 | under the mutex, from the lock or the return of a wait to the unlock or the next wait, the ring's insertion is the queue value's: rejected, told to wait, or appended |
| PCQueue.PCQueue.Remove | src/PCQueue.c:62-83 | likewise the ring's removal: the oldest item, the exit order, or nothing yet |
| PCQueue.Drive | src/PCQueue.c:34-87 | any history of calls on a ring object gets the replies of a bounded FIFO and leaves its contents; what was held and accepted is what was removed, in order, followed by what is held |
| PCQueue.FirstInFirstOut | src/PCQueue.c:46-52 | in every history of that FIFO, what was held and accepted is what was removed, in order, followed by what is held, never above capacity |
| EndToEnd.RunStatistics | src/ThreadRoutines.c:100-118 | in every run each symbol's buffer and both files, as the Calculator's steps build them, are the fold of that symbol's own delivered trades and the directives, and depend on nothing else |
| EndToEnd.VolumeDecides | src/ThreadRoutines.c:70-117 | in every run, an item delivered with volume above -1 has been logged exactly once and adds one deal to its own symbol's stream only; one at -1 or below has not been logged and ends every symbol's minute; the minute handler's directives have volume -1 |
| Records.TurnMakes | src/TradeProcessing.c:80-152 | one item keeps every symbol's buffer and both files those of its own trades and the directives |
| EndToEnd.SingleWriterEndToEnd | src/ThreadRoutines.c:87-121 | with one Writer the buffers and both files the run builds are those of the api history itself, the candlestick files exactly the records due when prices are above -1, short of at most one item after a full shutdown |
| EndToEnd.ReorderingIsHarmless | src/ThreadRoutines.c:100-118 | if Writers only reorder a symbol's trades inside its minutes, its buffer differs in opening and closing price at most; if the directives keep their order too, the run's own files agree with those of the api order in the columns of FileOrder.FilesTolerateOrder |
| FileOrder.FilesTolerateOrder | src/TradeProcessing.c:109-141 | permuting trades inside minutes leaves both files of a whole run the same row by row: time and volume always, the average unless the window has no volume, high and low for every minute with trades |
| SlidingWindow.PushKeeps | src/TradeProcessing.c:95-106 | subtracting the oldest and adding the newest keeps each of the last 15 values in its place and the total equal to their sum |
| WindowLaws.SlidingVolume | src/TradeProcessing.c:95-106 | for every stream the total volume is the sum of the circular array and the volume of the last 15 closed minutes |
| WindowLaws.ExactLaw | src/TradeProcessing.c:100-106 | as written, minute j counts min(15, T - j) times in the weighted total after T minutes |
| WindowLaws.AverageIsBiased | src/TradeProcessing.c:109-118 | for non-negative trades with volume the average written is at least the window's own, with equality exactly when no earlier minute had any weighted price |
| WindowLaws.AverageTooHigh | src/TradeProcessing.c:147-149 | two minutes of one trade each at price 10 and volume 1: 15 is written, cleared each minute 10 |
| Averages.AverageIsDue | src/TradeProcessing.c:109-118 | the record written at each minute: its time stamp, the volume of the last 15 minutes, and their weighted price over it by the exact law, or the last price (-1 if none) if that volume is 0 |
| Averages.AverageFileIsDue | src/TradeProcessing.c:95-118 | the moving-average file of any stream has exactly these records, one for each minute, in order |
| EndToEnd.RunAverages | src/ThreadRoutines.c:100-118 | the same of every symbol's moving-average file in every run of the pipeline |
| WindowLaws.IntendedTotal | include/TradeProcessing.h:54-63 | cleared each minute, the weighted total is that of the last 15 minutes |
| WindowLaws.IntendedAverage | include/TradeProcessing.h:38-63 | cleared each minute, with positive volumes the average written lies between any bounds of the window's prices |
| WindowLaws.ForexAverage | src/TradeProcessing.c:69-75 | with volumes of 0 too, times the window's volume it lies between those bounds times the volume that counts each trade without volume as 1 |
| WindowLaws.VolumelessTradeDoubles | src/TradeProcessing.c:69-75 | trades of volume 0 and 1 at price 10 in one minute make an average of 20 |
| Statistics.StreamIsMinutes | src/TradeProcessing.c:49-152 | processing a stream event by event is processing its minutes |
| Candlesticks.RecordIsDue | src/TradeProcessing.c:127-149 | a minute gets the record it deserves if and only if the price that decides it is above -1 |
| Candlesticks.NegativeOpeningIsLost | src/TradeProcessing.c:54-66 | a minute with prices -2 and 5 is recorded as opening at 5 |
| Candlesticks.DueRecordIsSound | src/TradeProcessing.c:127-141 | opening and closing price lie between low and high |
| Candlesticks.DueAfterFirstTrade | src/TradeProcessing.c:133-141 | a record is due at a minute exactly if some trade came before its end |
| Candlesticks.FileIsDue | src/TradeProcessing.c:127-149 | with prices above -1 the candlestick file of a whole run is exactly the records due |
| Candlesticks.FileOfPricesIsDue | src/TradeProcessing.c:127-149 | in particular with prices of at least 0 |
| Candlesticks.TradelessMinutesRepeat | src/TradeProcessing.c:133-141 | of the records written: however many trade-less minutes follow a minute, each repeats that minute's record's close four times with volume 0, and nothing if there was no record, if and only if that close is above -1 |
| Reordering.MinutesTolerateOrder | src/TradeProcessing.c:49-77 | permuting trades inside minutes leaves high, low, volume, weighted price and both windows unchanged |
| Reordering.RecordsTolerateOrder | src/TradeProcessing.c:109-141 | and of what is written, volumes, high and low, and the average unless the window has no volume |
| TradeProcessing.CalculatorBuffer.constructor | include/TradeProcessing.h:92-102 | the documented initial buffer |
| TradeProcessing.CalculatorBuffer.AddTrade | src/TradeProcessing.c:49-77 | the in-place update of one symbol is the candlestick fold's step |
| TradeProcessing.CalculatorBuffer.WriteAndReset | src/TradeProcessing.c:99-149 | the in-place minute end is the window's step and writes the records stated |
| TradeProcessing.Calculator.constructor | src/TradeProcessing.c:38-46 | separate initial buffers and empty files for every symbol |
| TradeProcessing.Calculator.AddTrade | src/TradeProcessing.c:49-77 | a trade changes its own symbol's buffer and keeps every buffer and file that of the items so far |
| TradeProcessing.Calculator.WriteAndResetBuffers | src/TradeProcessing.c:80-152 | the loop over the symbols keeps every buffer and file that of the items so far |
| TradeProcessing.Calculator.Process | src/ThreadRoutines.c:104-117 | one turn of the Calculator does the same for a trade or a directive |
| JSONParsing.TradeAssembler.FindSymbol | src/JSONParsing.c:61-66 | the search loop sets the index JSONParsing.FindIsFirst speaks of, or leaves the item alone |
| JSONParsing.FindIsFirst | src/JSONParsing.c:61-66 | a symbol is found at an index if and only if that is the first one with this name and no name up to it is empty |
| JSONParsing.ListedIsFound | src/JSONParsing.c:61-66 | in a list of distinct names each name is found at its own index |
| JSONParsing.TradeAssembler.JsonCallback | src/JSONParsing.c:35-120 | one call changes the static variables and adds an item as the event function says |
| JSONParsing.UnrelatedIsIgnored | src/JSONParsing.c:46-118 | events at other paths, or of other kinds, can be left out of any sequence of events without any effect |
| JSONParsing.ParseObject | src/JSONParsing.c:52-115 | an object adds the last values of its fields if no conversion failed, and nothing otherwise |
| JSONParsing.MessageIsDecoded | src/JSONParsing.c:46-118 | a message adds exactly its convertible objects, in order, whatever the static state was, if each object is complete or has a failed conversion |
| JSONParsing.FailedObjectIsSkipped | src/JSONParsing.c:69-113 | an object whose time stamp, price or volume is not convertible adds nothing and does not affect the objects before and after it |
| JSONParsing.StaleFieldsShow | src/JSONParsing.c:40-42 | an object's result is independent of the previous item if and only if it is complete or has a failed conversion |
| JSONParsing.MissingVolumeIsStale | src/JSONParsing.c:40-42 | an object without a volume is queued with the previous item's volume |
| JSONParsing.UnlistedSymbolIsStale | src/JSONParsing.c:61-66 | an object of an unlisted symbol is queued under the previous item's symbol |
| Messages.AcceptedIsListed | src/JSONParsing.c:61-66 | in every run fed by the callback, every trade accepted and every trade delivered names a listed symbol, if the static item did at the start; so the Calculator never leaves its buffers |
| Messages.TextsAreDecoded | src/JSONParsing.c:35-118 | over any sequence of well-formed messages, with the static state kept between them, each message adds exactly its own trades |
| Messages.ParseAllIsParse | src/JSONParsing.c:40-42 | any messages one after the other add what one parse of all their events adds, the static state being kept between them |
| Messages.MessagesToFiles | src/WSSHandling.c:42-51 | with one Writer, well-formed messages, no interrupt and fewer than 2880 directives, a pipeline at rest has made every buffer and file from exactly the trades the messages contain and the directives, in the order of submission; from the trades alone, message after message, if there were no directives |

## Left out

- Network, TLS, subscription, reconnection and `lws_service`: only "a message is parsed under the producer lock" remains.
- JSON grammar, `strtod` and `strtoull`: parser events carry the conversion results; their paths are an enumeration.
- Files, formatting, delay logs, CPU statistics and plots: records and log entries are sequences.
- Floating-point rounding: `double` is `real`; the narrow `char` symbol index is a natural number.
- Signal reentrancy: the SIGINT and SIGALRM handlers are separate threads.
- Set-up that differs from its headers: `queue_init` initialises one condition variable twice and the other never, and the
  `memset` of `init_calculator_buffers` misses symbol 0's candlestick; the model starts from the documented state.
- The file mutexes of `write_trade_to_file`: a Writer's log entry is one step.
- PCQueue.PCQueue.Add: stops where the thread would wait; waiting, waking and signalling are the pipeline's steps.
- PCQueue.PCQueue.Remove: stops where the thread would wait, for the same reason.
- MinuteTimer.MinuteHandler.OnAlarm: the directive's queue_add under the producer lock and the write of the exit flag are
  the pipeline's steps; it only keeps the counters and reports what is to be raised.
- The Writer and Calculator loops as code: they are the pipeline's steps, except the Calculator's per-item work.
- Theorems.WritersLeave: spurious wake-ups are excluded during the drain, since unboundedly many would make it endless.
- Theorems.CalculatorLeaves: speaks of a Calculator that can do nothing more; that it gets there follows from the
  bounded drain.
