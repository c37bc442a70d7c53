# Event Streams sample producer: a verified model of its core

The sample producer sends generated JSON payloads to a Kafka topic. A
Handlebars template describes each payload. The template's helpers fill in
fake data, and sequential helpers keep one counter or date cursor per
identifier across payloads. This project models the parts of the program that
decide values and control flow. Each part is proved against a specification
in Dafny:

- **Sequential generators.** `FakeNumber` keeps a cursor that goes up by an
  increment and resets when it equals the end. `FakeDate` moves a millisecond
  cursor on every read by a fixed step: the nanosecond span `end - start`
  divided by `numRecords` (truncated toward zero), then floored to whole
  milliseconds. For `end >= start` and `numRecords > 0` that step is
  `(end - start) / numRecords` in milliseconds.
- **Helper registry.** The `fake-int`, `fake-long`, `fake-date` and
  `fake-datetime` helpers of `PayloadGenerator` each keep a table from
  identifier to generator. A generator is created on first use and reused
  after that.
- **Worker loop.** `ProducerThread.run` checks a per-worker quota, polls the
  shared queue, sends, and pauses for `1000 / throughput` ms.
- **Configuration.** `ProducerConfig`, `PayloadConfig`, `Configuration` and
  both `Producer` entry points let environment variables override the parsed
  arguments.
- **Entry points.** `Configuration.validate`, `Runner.main` and the two
  `Producer.main` methods run a chain of argument checks. The three `main`
  methods then start the workers and total the workers' counts at shutdown.

Java semantics are written out in module `Java`:

- 32-bit wrap-around of `AtomicInteger` and `IntStream.sum`;
- `/` truncating toward zero;
- `Integer.parseInt` and `Long.parseLong`, and `Integer.toString`;
- `Math.round(int)`, which widens to `float` first;
- the unchecked exceptions a run can end with.

Objects that the source changes in place are classes with `modifies`
clauses: generators, tables of generators, configuration objects, workers
and the message queue. Each method is tied to a pure function of the old
state, and the lemmas are stated about those functions. The environment, the
parsed arguments, the clock, file readability, the result of loading the
Kafka properties and each generated payload are all inputs.

A numeric generator returns `start + increment` first, and `start` only after
a reset; when `start == end` the first value is already `start`
(`FakeNumbers.FirstValue`).

Two behaviours below come from the code as written and are modelled that way:

- A worker's `messageCount()` is one more than the number of records it sent
  when its loop ends normally. The counter is incremented before the quota
  check.
- A sequential `fake-date` call builds a new `FakeDate` on every call, even
  when its identifier is already stored. The `orElse` argument is evaluated
  eagerly, so a record count of 0 throws `ArithmeticException` on every such
  call.

## Model

| member | source | states |
|---|---|---|
| FakeNumbers.FakeNumber.constructor | src/main/java/com/ibm/ei/utils/FakeNumber.java:10-15 | a new generator holds the three bounds and its cursor is at `start` |
| FakeNumbers.FakeNumber.Next | src/main/java/com/ibm/ei/utils/FakeNumber.java:17-25 | a cursor equal to `end` goes back to `start`, any other cursor gains `increment`; the new cursor is returned; the k-th call returns the k-th value of the reference sequence `After` |
| FakeNumbers.BoundsAreFixed | src/main/java/com/ibm/ei/utils/FakeNumber.java:5-14 | after any number of calls `start`, `end` and `increment` are unchanged |
| FakeNumbers.FirstValue | src/main/java/com/ibm/ei/utils/FakeNumber.java:13-24 | the first call returns `start + increment` (or `start` when `start == end`) |
| FakeNumbers.ConstantWhenStartIsEnd | src/main/java/com/ibm/ei/utils/FakeNumber.java:13-20 | with `start == end` every call returns `start` |
| FakeNumbers.Cycles | src/main/java/com/ibm/ei/utils/FakeNumber.java:18-24 | when `end - start` is m > 0 positive increments, call k returns `start + (k mod (m+1)) * increment`, so every value lies in `[start, end]` |
| FakeNumbers.CycleExample | src/main/java/com/ibm/ei/utils/FakeNumber.java:18-24 | bounds 0, 10, 2 give 2, 8, 10, 0, 2 at calls 1, 4, 5, 6, 7 |
| FakeNumbers.OvershootsEnd | src/main/java/com/ibm/ei/utils/FakeNumber.java:18-24 | when no whole number of positive increments reaches `end`, call k returns `start + k * increment`: the values pass `end` and never wrap |
| FakeNumbers.Mirrored | src/main/java/com/ibm/ei/utils/FakeNumber.java:17-25 | negating start, end and increment negates every value, so a negative increment behaves as the mirror image of a positive one |
| FakeNumbers.CyclesDownward | src/main/java/com/ibm/ei/utils/FakeNumber.java:18-24 | when `end - start` is m > 0 negative increments, call k returns `start + (k mod (m+1)) * increment`, so every value lies in `[end, start]` |
| FakeNumbers.OvershootsEndDownward | src/main/java/com/ibm/ei/utils/FakeNumber.java:18-24 | with a negative increment and an `end` no whole number of increments reaches, call k returns `start + k * increment`: the values fall past `end` and never wrap |
| FakeNumbers.IdentityNeverWraps | src/main/java/com/ibm/ei/utils/FakeNumber.java:18-23 | with the reference comparison as written, a generator whose `start` and `end` are not one cached box never wraps |
| FakeNumbers.IdentityDiffersFromValueEquality | src/main/java/com/ibm/ei/utils/FakeNumber.java:18 | where the value comparison returns `start` at call m+1, the reference comparison returns `end + increment` |
| FakeDates.IntervalNanos | src/main/java/com/ibm/ei/utils/FakeDate.java:15-16 | the interval is the nanosecond span divided by `numRecords` truncated toward zero: the remainder is smaller than the divisor |
| FakeDates.FakeDate.constructor | src/main/java/com/ibm/ei/utils/FakeDate.java:12-17 | the generator copies the two instants and fixes the interval; the caller's dates are only read |
| FakeDates.Create | src/main/java/com/ibm/ei/utils/FakeDate.java:12-17 | construction throws `ArithmeticException` exactly when `numRecords == 0`, and otherwise yields a fresh generator at `start` |
| FakeDates.FakeDate.GetTime | src/main/java/com/ibm/ei/utils/FakeDate.java:19-24 | each read moves the stored cursor on by one interval and returns it; the k-th read returns `TimeAfter(k)` |
| FakeDates.TimeAfterClosedForm | src/main/java/com/ibm/ei/utils/FakeDate.java:16-22 | the k-th value is `start` plus k whole-millisecond steps; `end` and the interval never change |
| FakeDates.StepIsFlooredQuotient | src/main/java/com/ibm/ei/utils/FakeDate.java:16-21 | for `end >= start` and `numRecords > 0` the millisecond step is `(end - start) / numRecords` |
| FakeDates.KthValue | src/main/java/com/ibm/ei/utils/FakeDate.java:16-22 | for `end >= start` and `numRecords > 0` the k-th read returns `start + k * ((end - start) / numRecords)` |
| FakeDates.WithinEnd | src/main/java/com/ibm/ei/utils/FakeDate.java:15-22 | for `end >= start` and `numRecords > 0` the first `numRecords` reads lie in `[start, end]` |
| FakeDates.PassesEnd | src/main/java/com/ibm/ei/utils/FakeDate.java:21-22 | `end` is never consulted: when `numRecords > 0` and the span `end - start` is at least `numRecords` ms (so each step is at least 1 ms), read `numRecords + (end - start) % numRecords + 1` returns a value past `end` |
| FakeDates.StepSign | src/main/java/com/ibm/ei/utils/FakeDate.java:15-16 | with a positive record count the step is never negative going forward in time and never positive going backward; a negative count, which `Duration.dividedBy` accepts, reverses both |
| FakeDates.Monotone | src/main/java/com/ibm/ei/utils/FakeDate.java:16-22 | with a positive count the values never decrease when `end >= start` and never increase when `end < start`; a negative count reverses both |
| FakeDates.BackwardOvershoots | src/main/java/com/ibm/ei/utils/FakeDate.java:16-21 | going backward, the truncated nanosecond interval is floored to whole milliseconds, so 0 to -1 ms over 3 records reaches -3 after 3 reads |
| FakeDates.EvenSplitExample | src/main/java/com/ibm/ei/utils/FakeDate.java:16-22 | 100000 ms over 10 records gives 10000 at read 1 and 100000 at read 10 |
| FakeDates.TimestampOf | src/main/java/com/ibm/ei/producer/PayloadGenerator.java:182-184 | `timestamp(date)` advances the stored generator by one read and carries that read's value |
| PayloadGenerators.NumberRequest | src/main/java/com/ibm/ei/producer/PayloadGenerator.java:119-124 | a sequential request adds `id` to the table if it is absent, leaves every other entry alone, and returns the new cursor of the entry under `id` |
| PayloadGenerators.DateRequest | src/main/java/com/ibm/ei/producer/PayloadGenerator.java:70-75 | the same for a date table: only the entry under `id` advances, and the returned value is its new cursor |
| PayloadGenerators.StoredNumberIgnoresBounds | src/main/java/com/ibm/ei/producer/PayloadGenerator.java:121-122 | once `id` is stored, requests with different bounds give the same result |
| PayloadGenerators.StoredDateIgnoresBounds | src/main/java/com/ibm/ei/producer/PayloadGenerator.java:71-73 | once `id` is stored, date requests with different bounds or clocks give the same result |
| PayloadGenerators.DateHelperFailures | src/main/java/com/ibm/ei/producer/PayloadGenerator.java:55-75 | a date call throws exactly on an unparseable argument, or when sequential with a null (NullPointerException) or zero (ArithmeticException) record count, even if `id` is stored |
| PayloadGenerators.RandomDateDefaults | src/main/java/com/ibm/ei/producer/PayloadGenerator.java:55-78 | a non-sequential date call draws between its start and end, a missing start defaulting to now and a missing end to one hour later, and leaves the table alone |
| PayloadGenerators.UntargetedEntryKept | src/main/java/com/ibm/ei/producer/PayloadGenerator.java:118-124 | over any sequence of calls, keys only grow, and an id that no call targets keeps its entry or stays absent |
| PayloadGenerators.KeysOnlyGrow | src/main/java/com/ibm/ei/producer/PayloadGenerator.java:123 | over any sequence of calls the table's keys only grow |
| PayloadGenerators.RandomCallsKeepTable | src/main/java/com/ibm/ei/producer/PayloadGenerator.java:127 | calls without the sequential flag leave the table unchanged |
| PayloadGenerators.FirstRequestFixesGenerator | src/main/java/com/ibm/ei/producer/PayloadGenerator.java:119-124 | the generator stored for a new id has the bounds of the first call that targets it, and has advanced once per call that targets it |
| PayloadGenerators.UntargetedDateKept | src/main/java/com/ibm/ei/producer/PayloadGenerator.java:69-75 | with parseable dates and a non-zero count no date call throws, and an id no call targets keeps its entry |
| PayloadGenerators.FirstRequestFixesDate | src/main/java/com/ibm/ei/producer/PayloadGenerator.java:71-75 | the date generator for a new id is built from its first request and advanced once per request for it |
| PayloadGenerators.NumberMap.NextFor | src/main/java/com/ibm/ei/producer/PayloadGenerator.java:121-124 | get-or-create then `next()` on the HashMap: other entries are untouched, a new entry is a fresh object, and the state and result follow `NumberRequest` |
| PayloadGenerators.DateMap.NextFor | src/main/java/com/ibm/ei/producer/PayloadGenerator.java:71-75 | get-or-else-the-new-FakeDate then `put` and `timestamp`: the state and result follow `DateRequest` |
| PayloadGenerators.NumberHelperOn | src/main/java/com/ibm/ei/producer/PayloadGenerator.java:113-127 | one numeric helper call on its table agrees with `NumberHelper` (defaults: id 0, increment 1, not sequential) |
| PayloadGenerators.DateHelperOn | src/main/java/com/ibm/ei/producer/PayloadGenerator.java:53-78 | one date helper call on its table agrees with `DateHelper`, including its exceptions |
| PayloadGenerators.PayloadGenerator.constructor | src/main/java/com/ibm/ei/producer/PayloadGenerator.java:45-49 | a new generator's tables are empty and separate |
| PayloadGenerators.PayloadGenerator.FakeInt | src/main/java/com/ibm/ei/producer/PayloadGenerator.java:111-128 | `fake-int` with int bounds by default changes only the fakeInts table |
| PayloadGenerators.PayloadGenerator.FakeLong | src/main/java/com/ibm/ei/producer/PayloadGenerator.java:130-147 | `fake-long` with long bounds by default changes only the fakeLongs table |
| PayloadGenerators.PayloadGenerator.FakeDate | src/main/java/com/ibm/ei/producer/PayloadGenerator.java:51-79 | `fake-date` changes only the fakeDates table |
| PayloadGenerators.PayloadGenerator.FakeDatetime | src/main/java/com/ibm/ei/producer/PayloadGenerator.java:81-109 | `fake-datetime` changes only the fakeTimestamps table |
| ProducerThreads.MessageQueue.Poll | src/main/java/com/ibm/ei/producer/ProducerThread.java:69 | `poll()` removes and returns the head, or returns null on an empty queue |
| ProducerThreads.SentCount | src/main/java/com/ibm/ei/producer/ProducerThread.java:63-75 | a worker never takes more payloads than the queue holds |
| ProducerThreads.Pauses | src/main/java/com/ibm/ei/producer/ProducerThread.java:77-84 | one pause of `PauseMillis` per send when throughput is positive, none otherwise |
| ProducerThreads.ProducerThread.constructor | src/main/java/com/ibm/ei/producer/ProducerThread.java:42-52 | a new worker is on the given queue with the given settings, its counter at 0, not running |
| ProducerThreads.ProducerThread.Start | src/main/java/com/ibm/ei/producer/ProducerThread.java:93-97 | `start()` marks the worker started and changes nothing else |
| ProducerThreads.ProducerThread.Run | src/main/java/com/ibm/ei/producer/ProducerThread.java:55-91 | the loop of `run()` ending normally is recorded, and nothing else about `start()` changes; records go to the topic in FIFO order, as many as `SentCount` gives for the quota `numRecords / numThreads`; the queue loses exactly that prefix; the counter is that number + 1 wrapped to 32 bits; one pause per send; a load failure, a null throughput or an undefined quota ends the run with nothing sent |
| ProducerThreads.ProducerThread.SendLoop | src/main/java/com/ibm/ei/producer/ProducerThread.java:62-85 | the loop alone: with a computable quota it stops after sending the `SentCount` FIFO prefix with the counter at that number + 1, otherwise its first iteration throws NullPointerException or ArithmeticException with the counter at 1 and nothing sent |
| ProducerThreads.ProducerThread.MessageCount | src/main/java/com/ibm/ei/producer/ProducerThread.java:99-101 | `messageCount()` is the int counter, and once the loop of `run()` has ended normally it is one more than the records sent (wrapped to 32 bits) |
| ProducerThreads.ProducerThread.Interrupt | src/main/java/com/ibm/ei/producer/ProducerThread.java:103-107 | `interrupt()` clears `running` and changes nothing else |
| ProducerThreads.SentWithinQuota | src/main/java/com/ibm/ei/producer/ProducerThread.java:63-75 | a worker sends at most its quota, and exactly its quota when the queue holds enough |
| ProducerThreads.CountIsOneAhead | src/main/java/com/ibm/ei/producer/ProducerThread.java:63-66 | after a normal stop the count is the number sent + 1, with no wrap-around |
| ProducerThreads.PauseIsQuotient | src/main/java/com/ibm/ei/producer/ProducerThread.java:77-78 | the pause is `1000 / throughput` by integer division: 0 above 1000, within `[0, 1000]` |
| ProducerThreads.NonPositiveQuotaSendsNothing | src/main/java/com/ibm/ei/producer/ProducerThread.java:64-67 | a quota of 0 or less stops the worker before it polls |
| ProducerThreads.ThreadNamesDistinct | src/main/java/com/ibm/ei/producer/Runner.java:162 | the names `producer%d` of two different indices differ |
| Configuration.GetInt | src/main/java/com/ibm/ei/utils/Configuration.java:139-141 | only a malformed environment value throws, always NumberFormatException; a set variable yields a present int; an unset one yields the argument |
| Configuration.GetLong | src/main/java/com/ibm/ei/utils/Configuration.java:149-151 | only a malformed environment value throws, always NumberFormatException; a set variable yields a present long; an unset one yields the argument |
| Configuration.GetString | src/main/java/com/ibm/ei/utils/Configuration.java:153-155 | a set variable, even an empty one, is returned and is never null; an unset one yields the argument |
| Configuration.GetBoolean | src/main/java/com/ibm/ei/utils/Configuration.java:157-159 | a set variable is never null: "true" reads true and any value not four characters long reads false; an unset one yields the argument |
| Configuration.Validate | src/main/java/com/ibm/ei/utils/Configuration.java:161-187 | `validate()` returns at once exactly when GEN_CONFIG reads true; a null GEN_CONFIG throws NullPointerException |
| Configuration.ValidateIsFirstFailure | src/main/java/com/ibm/ei/utils/Configuration.java:165-186 | with every setting present, `validate()` reports the first failing check: missing arguments, then paths, then threads, then throughput |
| Configuration.MissingTemplateFirst | src/main/java/com/ibm/ei/utils/Configuration.java:167-171 | a missing template is reported as missing arguments whatever else is wrong |
| Configuration.PassesIff | src/main/java/com/ibm/ei/utils/Configuration.java:161-187 | `validate()` passes exactly when the template is readable, topic and readable config are given outside batch mode, a writable output is given in batch mode, threads >= 1, and throughput is -1 or >= 1 |
| Configuration.GettersPreferEnvironment | src/main/java/com/ibm/ei/utils/Configuration.java:139-159 | each getter returns the environment value when set (parsed for numbers, `Boolean.valueOf` for flags) and the argument otherwise |
| Configuration.MalformedNumberThrows | src/main/java/com/ibm/ei/utils/Configuration.java:139-141 | a malformed environment number throws rather than falling back to the argument |
| Guards.FirstFailure | src/main/java/com/ibm/ei/utils/Configuration.java:167-186 | the reference for every guard chain: None exactly when no check fails, otherwise the reason of the earliest failing check |
| Guards.EarliestFailureDecides | src/main/java/com/ibm/ei/producer/Runner.java:99-118 | a failing check preceded only by passing checks decides the chain |
| Guards.ThroughputRulesAgree | src/main/java/com/ibm/ei/producer/Runner.java:114 | the two spellings of the throughput test reject the same values: all except -1 and the positive ones |
| Guards.MainGuard | src/main/java/com/ibm/ei/producer/Producer.java:110-124 | the Producer guard throws only NullPointerException, reports missing arguments whatever the numbers are, and passes exactly when the three paths are present, threads >= 1 and throughput is -1 or positive |
| Guards.MainGuardIsFirstFailure | src/main/java/com/ibm/ei/producer/Producer.java:110-124 | with both numbers present, the Producer guard is the first failure of missing arguments, threads, throughput |
| Guards.MainGuardThrowsOnlyOnNullNumbers | src/main/java/com/ibm/es/producer/Producer.java:99-113 | the guard throws exactly when the arguments are present and a number it reaches is null, always with NullPointerException |
| Arguments.OverrideStringPrecedence | src/main/java/com/ibm/ei/producer/config/ProducerConfig.java:33-35 | a present variable wins over the argument and an absent one leaves it |
| Arguments.OverrideIntCases | src/main/java/com/ibm/ei/producer/config/ProducerConfig.java:36-38 | an integer override fails exactly on a malformed value, with NumberFormatException, and otherwise stores the parsed value |
| Arguments.OverrideIntOfRendered | src/main/java/com/ibm/ei/producer/config/ProducerConfig.java:37 | an int written with `Integer.toString` is read back unchanged |
| ProducerConfigs.ProducerConfig.constructor | src/main/java/com/ibm/ei/producer/config/ProducerConfig.java:19 | a new object has all four fields null |
| ProducerConfigs.ProducerConfig.CreateProducerConfig | src/main/java/com/ibm/ei/producer/config/ProducerConfig.java:21-30 | the fields are the namespace's topic, throughput, config path and thread count |
| ProducerConfigs.ProducerConfig.OverrideWithEnvVars | src/main/java/com/ibm/ei/producer/config/ProducerConfig.java:32-47 | the fields become `Overridden(old fields, env)`; the result is this object, or the NumberFormatException that stopped the overriding |
| ProducerConfigs.OverriddenFields | src/main/java/com/ibm/ei/producer/config/ProducerConfig.java:33-44 | field by field: a present variable replaces its field, an absent one keeps it, a malformed number stops the rest |
| ProducerConfigs.EmptyEnvironmentKeeps | src/main/java/com/ibm/ei/producer/config/ProducerConfig.java:32-46 | with none of the four variables nothing changes |
| ProducerConfigs.OverrideIdempotent | src/main/java/com/ibm/ei/producer/config/ProducerConfig.java:32-46 | overriding twice with one environment equals overriding once |
| ProducerConfigs.OtherVariablesIgnored | src/main/java/com/ibm/ei/producer/config/ProducerConfig.java:32-46 | variables other than the four make no difference |
| ProducerConfigs.RenderedThreadsRead | src/main/java/com/ibm/ei/producer/config/ProducerConfig.java:36-38 | a thread count written with `Integer.toString` is read back as that count |
| PayloadConfigs.FromNamespace | src/main/java/com/ibm/ei/producer/config/PayloadConfig.java:25-35 | the template is always copied; the other settings only when the namespace holds them; the interval is 1 otherwise |
| PayloadConfigs.PayloadConfig.constructor | src/main/java/com/ibm/ei/producer/config/PayloadConfig.java:18-23 | a new object's interval is 1 and the rest is null |
| PayloadConfigs.PayloadConfig.CreatePayloadConfig | src/main/java/com/ibm/ei/producer/config/PayloadConfig.java:25-35 | the fields are `FromNamespace(ns)` |
| PayloadConfigs.PayloadConfig.OverrideWithEnvVars | src/main/java/com/ibm/ei/producer/config/PayloadConfig.java:39-59 | the fields become `Overridden(old fields, env)`; the result is this object, or the NumberFormatException that stopped the overriding |
| PayloadConfigs.OverriddenFields | src/main/java/com/ibm/ei/producer/config/PayloadConfig.java:40-57 | field by field: a present variable replaces its field, an absent one keeps it, a malformed number stops the rest |
| PayloadConfigs.OverrideIdempotent | src/main/java/com/ibm/ei/producer/config/PayloadConfig.java:39-59 | overriding twice equals overriding once |
| PayloadConfigs.OtherVariablesIgnored | src/main/java/com/ibm/ei/producer/config/PayloadConfig.java:39-59 | variables other than the five make no difference |
| PayloadConfigs.LongIntervalRefused | src/main/java/com/ibm/ei/producer/config/PayloadConfig.java:55-57 | an interval that fits a long but not an int is refused from the environment with NumberFormatException |
| PayloadConfigs.RenderedIntervalRead | src/main/java/com/ibm/ei/producer/config/PayloadConfig.java:55-57 | an int interval written with `Integer.toString` is read back unchanged |
| Runner.BuildQueue | src/main/java/com/ibm/ei/producer/Runner.java:125-142 | a null record count throws NullPointerException, a negative one IllegalArgumentException; otherwise the queue holds at most `numRecords` payloads |
| Runner.CollectedLength | src/main/java/com/ibm/ei/producer/Runner.java:129-142 | the queue holds one message per generation that produced a payload |
| Runner.CollectedPlacement | src/main/java/com/ibm/ei/producer/Runner.java:126-142 | every payload is in the queue, at the position given by the payloads before it, so none is lost and call order is kept |
| Runner.PositionMonotone | src/main/java/com/ibm/ei/producer/Runner.java:126-142 | an earlier payload sits strictly before a later one |
| Runner.CollectedFromCalls | src/main/java/com/ibm/ei/producer/Runner.java:129-141 | every queued message is the payload of some generation: the failed ones (null) are filtered out |
| Runner.AllCollected | src/main/java/com/ibm/ei/producer/Runner.java:126-142 | when every generation succeeds, the queue is exactly the payloads in order |
| Runner.RunnerGuard | src/main/java/com/ibm/ei/producer/Runner.java:99-118 | the Runner guard throws only NullPointerException, reports a missing template once the batch flag is read, and passes exactly when the flag and template are present, topic and config are present outside batch mode, threads >= 1 and throughput is -1 or positive |
| Runner.RunnerGuardIsFirstFailure | src/main/java/com/ibm/ei/producer/Runner.java:99-118 | the Runner guard is the first failure of missing arguments (topic and config only outside batch mode), threads, throughput |
| Runner.StartWorkers | src/main/java/com/ibm/ei/producer/Runner.java:156-168 | `max(numThreads, 0)` distinct new workers, named `producer0`, `producer1`, ..., all started on the one shared queue with the configuration's settings |
| Runner.RunMain | src/main/java/com/ibm/ei/producer/Runner.java:57-182 | main ends as `Decision` says; workers are started only in the Started outcome, one per thread, sharing a fresh queue that holds the generated payloads |
| Runner.BatchPrintsQueue | src/main/java/com/ibm/ei/producer/Runner.java:151-154 | in batch mode, once the checks pass, main prints exactly the generated payloads and starts nothing |
| Runner.StartsIff | src/main/java/com/ibm/ei/producer/Runner.java:79-168 | workers start exactly when both configurations override cleanly, neither flag is set, the arguments are present, threads >= 1, throughput is -1 or positive, the generator is built and the record count is non-negative |
| Runner.WorkerCounts | src/main/java/com/ibm/ei/producer/Runner.java:66-67 | one count per started worker, in order, each its `messageCount()` |
| Runner.ShutdownTotal | src/main/java/com/ibm/ei/producer/Runner.java:65-69 | the logged total is the sum of the workers' counts wrapped to 32 bits |
| Launch.StartProducers | src/main/java/com/ibm/ei/producer/Producer.java:128-135 | `max(numThreads, 0)` workers are started and recorded in order, the i-th named `producer{i}` |
| Launch.ShutdownTotal | src/main/java/com/ibm/ei/producer/Producer.java:74-78 | `summingInt` gives the exact sum of the counts wrapped to 32 bits, and the exact sum while it fits an int |
| EiProducer.Producer.constructor | src/main/java/com/ibm/ei/producer/Producer.java:59-67 | the implicit constructor leaves all six settings null |
| EiProducer.OverrideArgumentsWithEnvVars | src/main/java/com/ibm/ei/producer/Producer.java:235-256 | the settings become `Overridden(old settings, env)` over TOPIC, NUM_THREADS, PRODUCER_CONFIG, THROUGHPUT, PAYLOAD_TEMPLATE and NUM_RECORDS; a malformed number throws NumberFormatException |
| EiProducer.OverriddenFields | src/main/java/com/ibm/ei/producer/Producer.java:238-255 | field by field: a present variable replaces its setting, an absent one keeps it; failure exactly on a malformed number |
| EiProducer.OverrideIdempotent | src/main/java/com/ibm/ei/producer/Producer.java:235-256 | overriding twice equals overriding once |
| EiProducer.EmptyEnvironmentKeeps | src/main/java/com/ibm/ei/producer/Producer.java:235-256 | with none of the six variables nothing changes |
| EiProducer.OtherVariablesIgnored | src/main/java/com/ibm/ei/producer/Producer.java:235-256 | variables other than the six make no difference |
| EiProducer.RecordCountAsWritten | src/main/java/com/ibm/ei/producer/Producer.java:298-300 | as written: fails exactly on a null setting or zero threads, otherwise `Math.round` of the int quotient through float |
| EiProducer.RecordCount | src/main/java/com/ibm/ei/producer/Producer.java:298-300 | as intended: the int quotient, with NullPointerException on a null setting and ArithmeticException on zero threads |
| EiProducer.RecordCountSplitsEvenly | src/main/java/com/ibm/ei/producer/Producer.java:298-300 | for non-negative records and positive threads, `count * threads <= records < (count + 1) * threads` |
| EiProducer.RecordCountAgreesWhenSmall | src/main/java/com/ibm/ei/producer/Producer.java:299 | the two agree while the quotient is below 2^24 in magnitude |
| EiProducer.RecordCountLosesPrecision | src/main/java/com/ibm/ei/producer/Producer.java:299 | 16777217 records on one thread: 16777217 as intended, 16777216 as written |
| EiProducer.RunMain | src/main/java/com/ibm/ei/producer/Producer.java:66-136 | main ends as `Decision` says, and only the Started outcome records workers: one per thread, named by index |
| EiProducer.GenConfigSkipsChecks | src/main/java/com/ibm/ei/producer/Producer.java:96-107 | with genConfig set, no check runs and no thread starts, whatever the other settings |
| EiProducer.StartsIff | src/main/java/com/ibm/ei/producer/Producer.java:96-135 | threads start exactly when genConfig is false, topic, config and template are present, threads >= 1 and throughput is -1 or positive; then one per thread |
| EsProducer.Producer.constructor | src/main/java/com/ibm/es/producer/Producer.java:48-55 | the implicit constructor leaves all five settings null |
| EsProducer.OverrideArgumentsWithEnvVars | src/main/java/com/ibm/es/producer/Producer.java:216-234 | the settings become `Overridden(old settings, env)` over the ES_ variables; a malformed number throws NumberFormatException |
| EsProducer.OverriddenFields | src/main/java/com/ibm/es/producer/Producer.java:219-233 | field by field: a present ES_ variable replaces its setting, an absent one keeps it; failure exactly on a malformed number |
| EsProducer.OverrideIdempotent | src/main/java/com/ibm/es/producer/Producer.java:216-234 | overriding twice equals overriding once |
| EsProducer.EmptyEnvironmentKeeps | src/main/java/com/ibm/es/producer/Producer.java:216-234 | with none of the five ES_ variables nothing changes |
| EsProducer.OtherVariablesIgnored | src/main/java/com/ibm/es/producer/Producer.java:216-234 | variables other than the five ES_ ones, including the unprefixed ones, make no difference |
| EsProducer.StartProducersAsWritten | src/main/java/com/ibm/es/producer/Producer.java:57-123 | as written, with at least one thread: producer0 is started, then adding it to `List.of()` throws UnsupportedOperationException and the list stays empty, so the shutdown total is 0 whatever producer0 sent; with no thread nothing starts and nothing is thrown |
| EsProducer.RunMain | src/main/java/com/ibm/es/producer/Producer.java:54-125 | main ends as `Decision` says, and only the Started outcome records workers: one per thread, named by index |
| EsProducer.GenConfigSkipsChecks | src/main/java/com/ibm/es/producer/Producer.java:85-96 | with genConfig set, no check runs and no thread starts, whatever the other settings |
| EsProducer.StartsIff | src/main/java/com/ibm/es/producer/Producer.java:85-123 | threads start exactly when genConfig is false, the three paths are present, threads >= 1 and throughput is -1 or positive |
| Java.Wrap32 | src/main/java/com/ibm/ei/producer/ProducerThread.java:63 | int arithmetic: the result is an int congruent to the exact value mod 2^32, and equal to it when that fits |
| Java.IntSumWrapsSum | src/main/java/com/ibm/ei/producer/Runner.java:65-69 | summing with int addition at every step equals wrapping the exact sum once |
| Java.TruncDiv | src/main/java/com/ibm/ei/producer/ProducerThread.java:64 | Java's `/`: the remainder is smaller than the divisor and has the dividend's sign |
| Java.ParseIntOfToString | src/main/java/com/ibm/ei/producer/config/ProducerConfig.java:37 | `Integer.parseInt(Integer.toString(n)) == n` for every int |
| Java.MathRoundIntLosesPrecision | src/main/java/com/ibm/ei/producer/Producer.java:299 | `Math.round` of the int 16777217 returns 16777216 |
| Java.MathRoundIntExactWhenSmall | src/main/java/com/ibm/ei/producer/ProducerThread.java:78 | `Math.round` of an int below 2^24 in magnitude returns it unchanged |

## Left out

- Handlebars template compilation and rendering, the Faker draws of the non-sequential helpers, `fake-uuid`, the name helpers and `oneof`'s `Math.random`: these are foreign libraries and randomness. A random draw is the opaque value `RandomBetween`, and a whole generated payload is an input to `Runner.BuildQueue`.
- The `fake-double` helper and the `double` arithmetic of `FakeNumber.next()`: floating point. The cursor is an integer.
- `FakeNumbers.FakeNumber.Next`: compares by value, not by reference; the reference comparison as written is modelled separately (see Findings).
- `Configuration.getDouble`: floating point.
- The Kafka producer and `Utils.loadProps`: a send appends a `Record` to the worker's log, and whether the properties loaded is the input `propsLoaded`.
- File access: `File.canRead`/`canWrite` are the input sets `readable` and `writable`, and the generated config file is not written. A failure to write it still ends in `ConfigGenerated`.
- `Thread.sleep`: only the computed pause is recorded.
- Interrupt timing.
- Several workers draining the shared queue at once: each worker's run is modelled alone.
- The shutdown hook's timing.
- `Runner.BuildQueue`: the parallel stream is modelled as generating the payloads in index order. Its unsynchronised use of the shared generators is not modelled, and neither are unchecked exceptions thrown by `generatePayload`.
- `Runner.RunMain`: a `GenerationException` from the generator's constructor is the input `generatorFails`, and the payload generator runs outside the model, so the helper tables are not connected to the queue.
- `SimpleDateFormat` parsing and `Calendar.getInstance()`: a date argument arrives already parsed (or marked unparseable), and "now" is an input.
- argparse4j: the parsed arguments are a `Namespace` of typed maps. Parser construction, help text, `printHelp`, `handleError` and the `ArgumentParserException` path of each `main` are not modelled.
- The argument destinations `genConfig` and `batch` used by `Runner` come from `com.ibm.ei.utils.Arguments`. That class is not part of this model, so the names are taken from `CLIArguments`.
- `Integer.parseInt` is modelled on ASCII digits with an optional sign. Non-ASCII Unicode digits, which Java also accepts, are left out.
- `Boolean.valueOf` lower-cases with ASCII letters only.
- `long` overflow in `fake-long` and in `Long.parseLong` callers: long values are unbounded integers checked against the long range only where parsed. `FakeDate` arithmetic is exact, with no `Instant` overflow.
- `Double`/`Number` rendering of helper results in the template text.
- `com.ibm.es.producer.ProducerThread` and `com.ibm.es.producer.PayloadGenerator`: I/O, concurrency and templating only. The workers that both `Producer.main` methods start are therefore modelled by their names. The `ei` Producer also calls a `ProducerThread` constructor and a `PayloadGenerator(String)` constructor (`Producer.java:129`) that the `ei` classes do not declare, and `Runner.java:121` calls `new PayloadGenerator(payloadConfig, null)`, while `PayloadGenerator.java:39` declares only the one-argument constructor; in the model, whether the generator is built is the input `generatorFails`. The `es` Producer's shutdown hook calls `t.messageCount()` (`es/producer/Producer.java:66-67`), which `com.ibm.es.producer.ProducerThread` does not declare, so that file does not compile as written; its Findings row describes the text of the file.
- `EsProducer.RunMain`: records the workers in a growable list, the corrected form; the immutable list as written is `EsProducer.StartProducersAsWritten` (see Findings).

## Findings

| source | as written | input that shows it | evidently intended | confidence | as-written member | corrected member |
|---|---|---|---|---|---|---|
| src/main/java/com/ibm/ei/utils/FakeNumber.java:18 | `next == end` compares boxed `Number` references, and line 23 stores a freshly boxed `Double`, so the test is false unless start and end are one cached box | start 0, end 10, increment 2: the sixth call returns 12 instead of 0 | compare the values, so the sequence wraps to `start` after reaching `end` | not executed | FakeNumbers.IdentityDiffersFromValueEquality | FakeNumbers.FakeNumber.Next |
| src/main/java/com/ibm/ei/producer/Producer.java:299 | `Math.round(numRecords / numThreads)` on an int quotient selects `Math.round(float)`, which widens to float and loses precision | numRecords 16777217, numThreads 1: returns 16777216 | the int quotient itself | not executed | EiProducer.RecordCountLosesPrecision | EiProducer.RecordCount |
| src/main/java/com/ibm/es/producer/Producer.java:57 | the workers are recorded in the immutable `List.of()`, so the first `producers.add` (line 122) throws after producer0 has started; this reads the text of a file that also calls the undeclared `messageCount()` and so does not compile as written | numThreads 2: producer0 runs, producer1 never starts, main ends in UnsupportedOperationException, and the shutdown total is 0 | a growable list, as in the ei Producer, so that every thread starts and is counted | not executed | EsProducer.StartProducersAsWritten | Launch.StartProducers |
