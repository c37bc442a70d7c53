/** com.ibm.ei.producer.Runner: main reads both configurations, checks the
    arguments, generates every payload up front into one queue, and then either
    prints the queue (batch mode) or starts the workers that drain it. The
    payload generator is an input: `gen(i)` is what the i-th generatePayload
    call yields, a payload or a checked exception that was caught. Whether the
    generator could be built is the input `generatorFails`. */
module Runner {
  import Java
  import Arguments
  import Guards
  import ProducerConfigs
  import PayloadConfigs
  import ProducerThreads
  import Launch

  // argument destinations of the two flags
  const GEN_CONFIG: string := "genConfig"
  const BATCH: string := "batch"

  // ----- the message queue -----

  /** One generatePayload call: its text, or a JsonGeneratorException,
      GenerationException or IOException that was printed and left the payload null. */
  datatype Generated = Payload(text: string) | Caught

  /** The payloads of calls 0 .. n-1, nulls dropped, in encounter order. */
  function Collected(gen: int -> Generated, n: nat): seq<string>
  {
    if n == 0 then []
    else Collected(gen, n - 1) + (if gen(n - 1).Payload? then [gen(n - 1).text] else [])
  }

  /** How many of calls 0 .. i-1 produced a payload: where call i's payload lands. */
  function Position(gen: int -> Generated, i: nat): nat
  {
    if i == 0 then 0 else Position(gen, i - 1) + (if gen(i - 1).Payload? then 1 else 0)
  }

  /** The stream pipeline: Stream.iterate(0, n -> n + 1).limit(numRecords),
      each element mapped to a payload, nulls filtered out, collected into a
      LinkedBlockingQueue. A null count fails to unbox, a negative one is
      refused by limit. */
  function BuildQueue(numRecords: Java.Option<int>, gen: int -> Generated): (r: Java.Result<seq<string>>)
    ensures r.Err? <==> numRecords.None? || numRecords.value < 0
    ensures r.Err? ==> r.error == if numRecords.None? then Java.NullPointer else Java.IllegalArgument
    ensures r.Ok? ==> |r.value| <= numRecords.value
  {
    if numRecords.None? then Java.Err(Java.NullPointer)
    else if numRecords.value < 0 then Java.Err(Java.IllegalArgument)
    else
      CollectedLength(gen, numRecords.value);
      Java.Ok(Collected(gen, numRecords.value))
  }

  /** The queue holds one message per call that produced a payload. */
  lemma {:induction false} CollectedLength(gen: int -> Generated, n: nat)
    ensures |Collected(gen, n)| == Position(gen, n)
    ensures Position(gen, n) <= n
  {
    if n > 0 {
      CollectedLength(gen, n - 1);
    }
  }

  /** Collecting more calls only appends. */
  lemma {:induction false} CollectedPrefix(gen: int -> Generated, m: nat, n: nat)
    requires m <= n
    ensures Collected(gen, m) <= Collected(gen, n)
  {
    if m < n {
      CollectedPrefix(gen, m, n - 1);
    }
  }

  /** Every payload of calls 0 .. n-1 is in the queue, at its position: so
      payloads keep the order of the calls and none is lost. */
  lemma CollectedPlacement(gen: int -> Generated, n: nat, i: nat)
    requires i < n && gen(i).Payload?
    ensures Position(gen, i) < |Collected(gen, n)|
    ensures Collected(gen, n)[Position(gen, i)] == gen(i).text
  {
    CollectedLength(gen, i);
    CollectedPrefix(gen, i + 1, n);
    assert Collected(gen, i + 1) == Collected(gen, i) + [gen(i).text];
  }

  /** Earlier payloads sit strictly before later ones. */
  lemma {:induction false} PositionMonotone(gen: int -> Generated, i: nat, j: nat)
    requires i < j && gen(i).Payload?
    ensures Position(gen, i) < Position(gen, j)
  {
    if j > i + 1 {
      PositionMonotone(gen, i, j - 1);
    }
  }

  /** Every message in the queue is the payload of some call. */
  lemma {:induction false} CollectedFromCalls(gen: int -> Generated, n: nat, k: nat)
    requires k < |Collected(gen, n)|
    ensures exists i :: 0 <= i < n && gen(i) == Payload(Collected(gen, n)[k])
  {
    var prev := Collected(gen, n - 1);
    if k < |prev| {
      CollectedFromCalls(gen, n - 1, k);
      assert Collected(gen, n)[k] == prev[k];
    } else {
      assert gen(n - 1) == Payload(Collected(gen, n)[k]);
    }
  }

  /** When every call succeeds, the queue is the payloads in call order. */
  lemma {:induction false} AllCollected(gen: int -> Generated, n: nat)
    requires forall i :: 0 <= i < n ==> gen(i).Payload?
    ensures |Collected(gen, n)| == n
    ensures forall i :: 0 <= i < n ==> Collected(gen, n)[i] == gen(i).text
  {
    if n > 0 {
      AllCollected(gen, n - 1);
    }
  }

  // ----- the argument checks -----

  /** Lines 99-118: the batch flag is unboxed first, then missing arguments
      (topic and producer config only outside batch mode, the template always),
      the thread count and the throughput, a null number failing to unbox. */
  function RunnerGuard(batch: Java.Option<bool>, topic: Java.Option<string>, config: Java.Option<string>,
                       template: Java.Option<string>, threads: Java.Option<int>,
                       throughput: Java.Option<int>): (r: Java.Result<Java.Option<Guards.Reason>>)
    ensures r.Err? ==> r.error == Java.NullPointer
    ensures batch.Some? && template.None? ==> r == Java.Ok(Java.Some(Guards.ArgsMissing))
    ensures r == Java.Ok(Java.None) <==>
      batch.Some? && template.Some? && (batch.value || (topic.Some? && config.Some?))
      && threads.Some? && threads.value >= 1
      && throughput.Some? && (throughput.value == -1 || throughput.value >= 1)
  {
    if batch.None? then Java.Err(Java.NullPointer)
    else if (!batch.value && (topic.None? || config.None?)) || template.None? then Java.Ok(Java.Some(Guards.ArgsMissing))
    else if threads.None? then Java.Err(Java.NullPointer)
    else if threads.value < 1 then Java.Ok(Java.Some(Guards.InvalidThreads))
    else if throughput.None? then Java.Err(Java.NullPointer)
    else if Guards.ThroughputRejectedByMain(throughput.value) then Java.Ok(Java.Some(Guards.InvalidThroughput))
    else Java.Ok(Java.None)
  }

  /** With the flag and both numbers present, the guard reports the first
      failing check; in batch mode a missing topic or producer config is fine. */
  lemma RunnerGuardIsFirstFailure(batch: bool, topic: Java.Option<string>, config: Java.Option<string>,
                                  template: Java.Option<string>, threads: int, throughput: int)
    ensures RunnerGuard(Java.Some(batch), topic, config, template, Java.Some(threads), Java.Some(throughput)) ==
      Java.Ok(Guards.FirstFailure([Guards.Check((!batch && (topic.None? || config.None?)) || template.None?, Guards.ArgsMissing),
                                   Guards.Check(threads < 1, Guards.InvalidThreads),
                                   Guards.Check(Guards.ThroughputRejectedByMain(throughput), Guards.InvalidThroughput)]))
  {
    var checks := [Guards.Check((!batch && (topic.None? || config.None?)) || template.None?, Guards.ArgsMissing),
                   Guards.Check(threads < 1, Guards.InvalidThreads),
                   Guards.Check(Guards.ThroughputRejectedByMain(throughput), Guards.InvalidThroughput)];
    if checks[0].fails {
      Guards.EarliestFailureDecides(checks, 0);
    } else if checks[1].fails {
      Guards.EarliestFailureDecides(checks, 1);
    } else if checks[2].fails {
      Guards.EarliestFailureDecides(checks, 2);
    } else {
      assert forall i :: 0 <= i < |checks| ==> !checks[i].fails;
    }
  }

  // ----- main -----

  /** How main ends: the config file was generated (genConfig set), a check
      failed and System.exit(0) ran after the help text, the generator could not
      be built, the queue was printed (batch mode), `count` workers were started
      on `queue`, or an unchecked exception escaped. */
  datatype RunnerOutcome =
    | ConfigGenerated
    | Exited(reason: Guards.Reason)
    | GeneratorFailed
    | Printed(messages: seq<string>)
    | Started(count: nat, queue: seq<string>)
    | Crashed(error: Java.Exception)

  /** What main decides. */
  function Decision(ns: Arguments.Namespace, env: Arguments.Env, generatorFails: bool, gen: int -> Generated): RunnerOutcome
  {
    var producer := ProducerConfigs.Overridden(ProducerConfigs.FromNamespace(ns), env);
    var payload := PayloadConfigs.Overridden(PayloadConfigs.FromNamespace(ns), env);
    if producer.error.Some? then Crashed(producer.error.value)
    else if payload.error.Some? then Crashed(payload.error.value)
    else
      match Arguments.NsBoolean(ns, GEN_CONFIG)
      case None => Crashed(Java.NullPointer)
      case Some(genConfig) =>
        if genConfig then ConfigGenerated
        else
          var p, y := producer.fields, payload.fields;
          match RunnerGuard(Arguments.NsBoolean(ns, BATCH), p.topic, p.configFilePath, y.templateFilePath,
                            p.numThreads, p.throughput)
          case Err(e) => Crashed(e)
          case Ok(failure) =>
            if failure.Some? then Exited(failure.value)
            else if generatorFails then GeneratorFailed
            else
              match BuildQueue(y.numRecords, gen)
              case Err(e) => Crashed(e)
              case Ok(queue) =>
                if Arguments.NsBoolean(ns, BATCH).value then Printed(queue)
                else Started(p.numThreads.value, queue)
  }

  /** A worker as the start loop leaves it: new, started, on the shared queue,
      with the configuration's settings and nothing sent yet. */
  ghost predicate Launched(w: ProducerThreads.ProducerThread, i: nat, queue: ProducerThreads.MessageQueue,
                     p: ProducerConfigs.ProducerFields, y: PayloadConfigs.PayloadFields)
    reads w
  {
    && w.name == ProducerThreads.ThreadName(i) && w.queue == queue && w.started
    && w.topic == p.topic && w.numThreads == p.numThreads && w.throughput == p.throughput
    && w.numRecords == y.numRecords
    && w.Valid() && w.numberRecordsSent == 0 && !w.running && !w.stopped && w.sent == [] && w.pauses == []
  }

  /** The start loop of lines 156-168: one new worker per thread, all on one queue. */
  method StartWorkers(numThreads: int, queue: ProducerThreads.MessageQueue,
                      p: ProducerConfigs.ProducerFields, y: PayloadConfigs.PayloadFields)
    returns (producers: seq<ProducerThreads.ProducerThread>)
    ensures |producers| == Java.Max(numThreads, 0)
    ensures forall i :: 0 <= i < |producers| ==> fresh(producers[i]) && Launched(producers[i], i, queue, p, y)
    ensures forall i, j :: 0 <= i < j < |producers| ==> producers[i] != producers[j]
  {
    producers := [];
    var i := 0;
    while i < numThreads
      invariant 0 <= i == |producers| <= Java.Max(numThreads, 0)
      invariant forall k :: 0 <= k < i ==> fresh(producers[k]) && Launched(producers[k], k, queue, p, y)
      invariant forall k, l :: 0 <= k < l < i ==> producers[k] != producers[l]
    {
      var w := new ProducerThreads.ProducerThread(ProducerThreads.ThreadName(i), queue, p.topic,
                                                   p.numThreads, p.throughput, y.numRecords);
      w.Start();
      producers := producers + [w];
      i := i + 1;
    }
  }

  /** main(args) after the arguments parsed into `ns`. */
  method RunMain(ns: Arguments.Namespace, env: Arguments.Env, generatorFails: bool, gen: int -> Generated)
    returns (outcome: RunnerOutcome, producers: seq<ProducerThreads.ProducerThread>)
    ensures outcome == Decision(ns, env, generatorFails, gen)
    ensures !outcome.Started? ==> producers == []
    ensures outcome.Started? ==>
      && |producers| == outcome.count
      && (forall i, j :: 0 <= i < j < |producers| ==> producers[i] != producers[j])
      && forall i :: 0 <= i < |producers| ==>
           && fresh(producers[i]) && fresh(producers[i].queue) && producers[i].queue == producers[0].queue
           && producers[i].queue.items == outcome.queue
           && Launched(producers[i], i, producers[0].queue,
                       ProducerConfigs.Overridden(ProducerConfigs.FromNamespace(ns), env).fields,
                       PayloadConfigs.Overridden(PayloadConfigs.FromNamespace(ns), env).fields)
  {
    producers := [];
    var producerConfig := ProducerConfigs.ProducerConfig.CreateProducerConfig(ns);
    var po := producerConfig.OverrideWithEnvVars(env);
    if po.Err? {
      return Crashed(po.error), producers;
    }
    var payloadConfig := PayloadConfigs.PayloadConfig.CreatePayloadConfig(ns);
    var yo := payloadConfig.OverrideWithEnvVars(env);
    if yo.Err? {
      return Crashed(yo.error), producers;
    }
    var genConfig := Arguments.NsBoolean(ns, GEN_CONFIG);
    if genConfig.None? {
      return Crashed(Java.NullPointer), producers;
    }
    if genConfig.value {
      return ConfigGenerated, producers;
    }
    var p, y := producerConfig.Fields(), payloadConfig.Fields();
    var batch := Arguments.NsBoolean(ns, BATCH);
    var guard := RunnerGuard(batch, p.topic, p.configFilePath, y.templateFilePath, p.numThreads, p.throughput);
    if guard.Err? {
      return Crashed(guard.error), producers;
    }
    if guard.value.Some? {
      return Exited(guard.value.value), producers;
    }
    if generatorFails {
      return GeneratorFailed, producers;
    }
    var messages := BuildQueue(y.numRecords, gen);
    if messages.Err? {
      return Crashed(messages.error), producers;
    }
    if batch.value {
      return Printed(messages.value), producers;
    }
    var queue := new ProducerThreads.MessageQueue(messages.value);
    producers := StartWorkers(p.numThreads.value, queue, p, y);
    outcome := Started(p.numThreads.value, messages.value);
  }

  /** In batch mode, once the checks pass and the generator is built, main
      prints exactly the generated payloads and starts nothing. */
  lemma BatchPrintsQueue(ns: Arguments.Namespace, env: Arguments.Env, gen: int -> Generated)
    requires Arguments.NsBoolean(ns, BATCH) == Java.Some(true)
    requires Decision(ns, env, false, gen).Printed? || Decision(ns, env, false, gen).Started?
    ensures Decision(ns, env, false, gen) ==
      Printed(Collected(gen, PayloadConfigs.Overridden(PayloadConfigs.FromNamespace(ns), env).fields.numRecords.value))
  {
  }

  /** Workers start exactly when: both configurations override cleanly,
      genConfig and batch are false, topic, producer config and template are
      given, the thread count is at least 1, the throughput is -1 or positive,
      the generator is built and the record count is present and non-negative. */
  lemma StartsIff(ns: Arguments.Namespace, env: Arguments.Env, generatorFails: bool, gen: int -> Generated)
    ensures var producer := ProducerConfigs.Overridden(ProducerConfigs.FromNamespace(ns), env);
            var payload := PayloadConfigs.Overridden(PayloadConfigs.FromNamespace(ns), env);
            var p, y := producer.fields, payload.fields;
      Decision(ns, env, generatorFails, gen).Started? <==>
        && producer.error.None? && payload.error.None?
        && Arguments.NsBoolean(ns, GEN_CONFIG) == Java.Some(false)
        && Arguments.NsBoolean(ns, BATCH) == Java.Some(false)
        && p.topic.Some? && p.configFilePath.Some? && y.templateFilePath.Some?
        && p.numThreads.Some? && p.numThreads.value >= 1
        && p.throughput.Some? && (p.throughput.value == -1 || p.throughput.value >= 1)
        && !generatorFails
        && y.numRecords.Some? && y.numRecords.value >= 0
  {
  }

  /** The shutdown hook's total over the started workers' message counts. */
  function WorkerCounts(producers: seq<ProducerThreads.ProducerThread>): (counts: seq<int>)
    reads set w | w in producers
    ensures |counts| == |producers|
    ensures forall i :: 0 <= i < |producers| ==> counts[i] == producers[i].numberRecordsSent
  {
    if producers == [] then []
    else WorkerCounts(producers[..|producers| - 1]) + [producers[|producers| - 1].numberRecordsSent]
  }

  /** Lines 62-72: the total the shutdown hook logs. */
  function ShutdownTotal(producers: seq<ProducerThreads.ProducerThread>): (total: int)
    reads set w | w in producers
    ensures Java.IsInt(total)
    ensures total == Java.Wrap32(Java.Sum(WorkerCounts(producers)))
  {
    Launch.ShutdownTotal(WorkerCounts(producers))
  }
}
