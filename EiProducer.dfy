/** The entry point com.ibm.ei.producer.Producer: its settings object filled
    from the parsed arguments and overridden from the environment, the argument
    checks of main, the start loop that names and records one worker per
    thread, getProducerRecordCount, and the shutdown total. The workers it
    starts use a ProducerThread constructor that com.ibm.ei.producer.ProducerThread
    does not have, so they are modelled by their names only. */
module EiProducer {
  import Java
  import Arguments
  import Guards
  import ProducerThreads
  import Launch

  // argument destinations
  const TOPIC: string := "topic"
  const PRODUCER_CONFIG: string := "producerConfig"
  const THROUGHPUT: string := "throughput"
  const NUM_THREADS: string := "numThreads"
  const PAYLOAD_TEMPLATE: string := "payloadTemplate"
  const NUM_RECORDS: string := "numRecords"
  const GEN_CONFIG: string := "genConfig"

  // environment variables
  const ENV_TOPIC: string := "TOPIC"
  const ENV_NUM_THREADS: string := "NUM_THREADS"
  const ENV_PRODUCER_CONFIG: string := "PRODUCER_CONFIG"
  const ENV_THROUGHPUT: string := "THROUGHPUT"
  const ENV_PAYLOAD_TEMPLATE: string := "PAYLOAD_TEMPLATE"
  const ENV_NUM_RECORDS: string := "NUM_RECORDS"

  /** The six settings of a Producer, each possibly null. */
  datatype ProducerFields = ProducerFields(
    topic: Java.Option<string>,
    numThreads: Java.Option<int>,
    throughput: Java.Option<int>,
    configFilePath: Java.Option<string>,
    templateFilePath: Java.Option<string>,
    numRecords: Java.Option<int>)

  /** The settings main copies from the namespace. */
  function FromNamespace(ns: Arguments.Namespace): ProducerFields
  {
    ProducerFields(Arguments.NsString(ns, TOPIC), Arguments.NsInt(ns, NUM_THREADS), Arguments.NsInt(ns, THROUGHPUT),
                   Arguments.NsString(ns, PRODUCER_CONFIG), Arguments.NsString(ns, PAYLOAD_TEMPLATE),
                   Arguments.NsInt(ns, NUM_RECORDS))
  }

  /** overrideArgumentsWithEnvVars on settings f: TOPIC, NUM_THREADS,
      PRODUCER_CONFIG, THROUGHPUT, PAYLOAD_TEMPLATE and NUM_RECORDS in that
      order, stopping at the first malformed number. */
  function Overridden(f: ProducerFields, env: Arguments.Env): Arguments.Applied<ProducerFields>
  {
    var f1 := f.(topic := Arguments.OverrideString(f.topic, env, ENV_TOPIC));
    match Arguments.OverrideInt(f1.numThreads, env, ENV_NUM_THREADS)
    case Err(e) => Arguments.Applied(f1, Java.Some(e))
    case Ok(threads) =>
      var f2 := f1.(numThreads := threads, configFilePath := Arguments.OverrideString(f1.configFilePath, env, ENV_PRODUCER_CONFIG));
      match Arguments.OverrideInt(f2.throughput, env, ENV_THROUGHPUT)
      case Err(e) => Arguments.Applied(f2, Java.Some(e))
      case Ok(throughput) =>
        var f3 := f2.(throughput := throughput,
                      templateFilePath := Arguments.OverrideString(f2.templateFilePath, env, ENV_PAYLOAD_TEMPLATE));
        match Arguments.OverrideInt(f3.numRecords, env, ENV_NUM_RECORDS)
        case Err(e) => Arguments.Applied(f3, Java.Some(e))
        case Ok(records) => Arguments.Applied(f3.(numRecords := records), Java.None)
  }

  class Producer {
    var topic: Java.Option<string>
    var numThreads: Java.Option<int>
    var throughput: Java.Option<int>
    var configFilePath: Java.Option<string>
    var templateFilePath: Java.Option<string>
    var numRecords: Java.Option<int>

    function Fields(): ProducerFields
      reads this
    {
      ProducerFields(topic, numThreads, throughput, configFilePath, templateFilePath, numRecords)
    }

    constructor ()
      ensures Fields() == ProducerFields(Java.None, Java.None, Java.None, Java.None, Java.None, Java.None)
    {
      topic := Java.None;
      numThreads := Java.None;
      throughput := Java.None;
      configFilePath := Java.None;
      templateFilePath := Java.None;
      numRecords := Java.None;
    }
  }

  /** overrideArgumentsWithEnvVars(producer), with System.getenv() as `env`. */
  method OverrideArgumentsWithEnvVars(producer: Producer, env: Arguments.Env) returns (r: Java.Result<()>)
    modifies producer
    ensures producer.Fields() == Overridden(old(producer.Fields()), env).fields
    ensures r.Ok? <==> Overridden(old(producer.Fields()), env).error.None?
    ensures r.Err? ==> Overridden(old(producer.Fields()), env).error == Java.Some(r.error)
  {
    ghost var f := producer.Fields();
    if ENV_TOPIC in env {
      producer.topic := Java.Some(env[ENV_TOPIC]);
    }
    ghost var f1 := producer.Fields();
    if ENV_NUM_THREADS in env {
      var n := Java.ParseInt(env[ENV_NUM_THREADS]);
      if n.Err? {
        assert Overridden(f, env) == Arguments.Applied(f1, Java.Some(n.error));
        return Java.Err(n.error);
      }
      producer.numThreads := Java.Some(n.value);
    }
    if ENV_PRODUCER_CONFIG in env {
      producer.configFilePath := Java.Some(env[ENV_PRODUCER_CONFIG]);
    }
    ghost var f2 := producer.Fields();
    if ENV_THROUGHPUT in env {
      var n := Java.ParseInt(env[ENV_THROUGHPUT]);
      if n.Err? {
        assert Overridden(f, env) == Arguments.Applied(f2, Java.Some(n.error));
        return Java.Err(n.error);
      }
      producer.throughput := Java.Some(n.value);
    }
    if ENV_PAYLOAD_TEMPLATE in env {
      producer.templateFilePath := Java.Some(env[ENV_PAYLOAD_TEMPLATE]);
    }
    ghost var f3 := producer.Fields();
    if ENV_NUM_RECORDS in env {
      var n := Java.ParseInt(env[ENV_NUM_RECORDS]);
      if n.Err? {
        assert Overridden(f, env) == Arguments.Applied(f3, Java.Some(n.error));
        return Java.Err(n.error);
      }
      producer.numRecords := Java.Some(n.value);
    }
    assert Overridden(f, env) == Arguments.Applied(producer.Fields(), Java.None);
    return Java.Ok(());
  }

  /** Field by field: a variable that is present replaces its setting, an absent
      one keeps it, as long as no earlier number was malformed; the only
      failure is a NumberFormatException from a malformed number. */
  lemma OverriddenFields(f: ProducerFields, env: Arguments.Env)
    ensures var a := Overridden(f, env);
      && a.fields.topic == Arguments.OverrideString(f.topic, env, ENV_TOPIC)
      && (a.error.Some? <==> Arguments.Malformed(env, ENV_NUM_THREADS) || Arguments.Malformed(env, ENV_THROUGHPUT)
                             || Arguments.Malformed(env, ENV_NUM_RECORDS))
      && (a.error.Some? ==> a.error.value == Java.NumberFormat)
      && (a.error.None? ==>
            && a.fields.numThreads == (if ENV_NUM_THREADS in env then Java.Some(Java.ParseInt(env[ENV_NUM_THREADS]).value) else f.numThreads)
            && a.fields.configFilePath == Arguments.OverrideString(f.configFilePath, env, ENV_PRODUCER_CONFIG)
            && a.fields.throughput == (if ENV_THROUGHPUT in env then Java.Some(Java.ParseInt(env[ENV_THROUGHPUT]).value) else f.throughput)
            && a.fields.templateFilePath == Arguments.OverrideString(f.templateFilePath, env, ENV_PAYLOAD_TEMPLATE)
            && a.fields.numRecords == (if ENV_NUM_RECORDS in env then Java.Some(Java.ParseInt(env[ENV_NUM_RECORDS]).value) else f.numRecords))
      && (Arguments.Malformed(env, ENV_NUM_THREADS) ==> a.fields == f.(topic := a.fields.topic))
  {
    Arguments.OverrideIntCases(f.numThreads, env, ENV_NUM_THREADS);
    Arguments.OverrideIntCases(f.throughput, env, ENV_THROUGHPUT);
    Arguments.OverrideIntCases(f.numRecords, env, ENV_NUM_RECORDS);
  }

  /** Overriding twice with one environment is overriding once. */
  lemma OverrideIdempotent(f: ProducerFields, env: Arguments.Env)
    ensures Overridden(Overridden(f, env).fields, env) == Overridden(f, env)
  {
    Arguments.OverrideIntCases(f.numThreads, env, ENV_NUM_THREADS);
    Arguments.OverrideIntCases(f.throughput, env, ENV_THROUGHPUT);
    Arguments.OverrideIntCases(f.numRecords, env, ENV_NUM_RECORDS);
    var g := Overridden(f, env).fields;
    Arguments.OverrideIntCases(g.numThreads, env, ENV_NUM_THREADS);
    Arguments.OverrideIntCases(g.throughput, env, ENV_THROUGHPUT);
    Arguments.OverrideIntCases(g.numRecords, env, ENV_NUM_RECORDS);
  }

  /** Without any of the six variables, nothing changes. */
  lemma EmptyEnvironmentKeeps(f: ProducerFields, env: Arguments.Env)
    requires ENV_TOPIC !in env && ENV_NUM_THREADS !in env && ENV_PRODUCER_CONFIG !in env
    requires ENV_THROUGHPUT !in env && ENV_PAYLOAD_TEMPLATE !in env && ENV_NUM_RECORDS !in env
    ensures Overridden(f, env) == Arguments.Applied(f, Java.None)
  {
  }

  /** Variables other than the six are ignored (the ES_ names among them). */
  lemma OtherVariablesIgnored(f: ProducerFields, env: Arguments.Env, key: string, value: string)
    requires key != ENV_TOPIC && key != ENV_NUM_THREADS && key != ENV_PRODUCER_CONFIG
    requires key != ENV_THROUGHPUT && key != ENV_PAYLOAD_TEMPLATE && key != ENV_NUM_RECORDS
    ensures Overridden(f, env[key := value]) == Overridden(f, env)
  {
    var e := env[key := value];
    assert ENV_TOPIC in e <==> ENV_TOPIC in env;
    assert ENV_NUM_THREADS in e <==> ENV_NUM_THREADS in env;
    assert ENV_PRODUCER_CONFIG in e <==> ENV_PRODUCER_CONFIG in env;
    assert ENV_THROUGHPUT in e <==> ENV_THROUGHPUT in env;
    assert ENV_PAYLOAD_TEMPLATE in e <==> ENV_PAYLOAD_TEMPLATE in env;
    assert ENV_NUM_RECORDS in e <==> ENV_NUM_RECORDS in env;
  }

  // ----- getProducerRecordCount -----

  /** getProducerRecordCount as written: Math.round(numRecords / numThreads).
      The int quotient selects Math.round(float), so it is widened to float first. */
  function RecordCountAsWritten(f: ProducerFields): (r: Java.Result<int>)
    ensures r.Err? <==> f.numRecords.None? || f.numThreads.None? || f.numThreads.value == 0
  {
    if f.numRecords.None? || f.numThreads.None? then Java.Err(Java.NullPointer)
    else if f.numThreads.value == 0 then Java.Err(Java.Arithmetic)
    else Java.Ok(Java.MathRoundInt(Java.IntDiv(f.numRecords.value, f.numThreads.value)))
  }

  /** getProducerRecordCount as intended: the int quotient numRecords / numThreads. */
  function RecordCount(f: ProducerFields): (r: Java.Result<int>)
    ensures r.Err? <==> f.numRecords.None? || f.numThreads.None? || f.numThreads.value == 0
    ensures r.Err? ==> r.error == (if f.numThreads.Some? && f.numThreads.value == 0 && f.numRecords.Some?
                                   then Java.Arithmetic else Java.NullPointer)
  {
    if f.numRecords.None? || f.numThreads.None? then Java.Err(Java.NullPointer)
    else if f.numThreads.value == 0 then Java.Err(Java.Arithmetic)
    else Java.Ok(Java.IntDiv(f.numRecords.value, f.numThreads.value))
  }

  /** The intended count splits the records evenly: for a non-negative count
      and a positive number of threads, count * threads <= numRecords < (count + 1) * threads. */
  lemma RecordCountSplitsEvenly(f: ProducerFields)
    requires f.numRecords.Some? && f.numThreads.Some?
    requires Java.IsInt(f.numRecords.value) && f.numRecords.value >= 0 && f.numThreads.value > 0
    ensures RecordCount(f).Ok?
    ensures RecordCount(f).value * f.numThreads.value <= f.numRecords.value
    ensures f.numRecords.value < (RecordCount(f).value + 1) * f.numThreads.value
  {
    var r, t := f.numRecords.value, f.numThreads.value;
    Java.TruncDivAgreesOnNaturals(r, t);
    var q := r / t;
    assert RecordCount(f).value == q;
    assert r == q * t + r % t && 0 <= r % t < t;
    assert (q + 1) * t == q * t + t;
  }

  /** The two agree while the quotient is below 2^24 in magnitude. */
  lemma RecordCountAgreesWhenSmall(f: ProducerFields)
    requires RecordCount(f).Ok? && Java.Abs(RecordCount(f).value) < 0x100_0000
    ensures RecordCountAsWritten(f) == RecordCount(f)
  {
    Java.MathRoundIntExactWhenSmall(RecordCount(f).value);
  }

  /** 16777217 records on one thread: as written the count is 16777216. */
  lemma RecordCountLosesPrecision(f: ProducerFields)
    requires f.numRecords == Java.Some(0x100_0001) && f.numThreads == Java.Some(1)
    ensures RecordCount(f) == Java.Ok(0x100_0001)
    ensures RecordCountAsWritten(f) == Java.Ok(0x100_0000)
  {
    Java.MathRoundIntLosesPrecision();
  }

  // ----- main -----

  /** How main ends: the config file was generated (genConfig set), a check
      failed and Exit.exit(0) ran after the help text, `count` workers were
      started, or an unchecked exception escaped. */
  datatype MainOutcome = ConfigGenerated | Exited(reason: Guards.Reason) | Started(count: nat) | Crashed(error: Java.Exception)

  /** What main decides for the namespace `ns` and the environment `env`. */
  function Decision(ns: Arguments.Namespace, env: Arguments.Env): MainOutcome
  {
    var a := Overridden(FromNamespace(ns), env);
    if a.error.Some? then Crashed(a.error.value)
    else
      match Arguments.NsBoolean(ns, GEN_CONFIG)
      case None => Crashed(Java.NullPointer)
      case Some(gen) =>
        if gen then ConfigGenerated
        else
          var f := a.fields;
          match Guards.MainGuard(f.topic, f.configFilePath, f.templateFilePath, f.numThreads, f.throughput)
          case Err(e) => Crashed(e)
          case Ok(failure) =>
            if failure.Some? then Exited(failure.value)
            else Started(f.numThreads.value)
  }

  /** main(args) after the arguments parsed into `ns`. */
  method RunMain(ns: Arguments.Namespace, env: Arguments.Env) returns (outcome: MainOutcome, producers: seq<string>)
    ensures outcome == Decision(ns, env)
    ensures outcome.Started? ==> |producers| == outcome.count
                                 && forall i :: 0 <= i < |producers| ==> producers[i] == ProducerThreads.ThreadName(i)
    ensures !outcome.Started? ==> producers == []
  {
    producers := [];
    var producer := new Producer();
    producer.topic := Arguments.NsString(ns, TOPIC);
    producer.throughput := Arguments.NsInt(ns, THROUGHPUT);
    producer.configFilePath := Arguments.NsString(ns, PRODUCER_CONFIG);
    producer.numThreads := Arguments.NsInt(ns, NUM_THREADS);
    producer.templateFilePath := Arguments.NsString(ns, PAYLOAD_TEMPLATE);
    producer.numRecords := Arguments.NsInt(ns, NUM_RECORDS);
    var overridden := OverrideArgumentsWithEnvVars(producer, env);
    if overridden.Err? {
      return Crashed(overridden.error), producers;
    }
    var gen := Arguments.NsBoolean(ns, GEN_CONFIG);
    if gen.None? {
      return Crashed(Java.NullPointer), producers;
    }
    if gen.value {
      return ConfigGenerated, producers;
    }
    var guard := Guards.MainGuard(producer.topic, producer.configFilePath, producer.templateFilePath,
                                  producer.numThreads, producer.throughput);
    if guard.Err? {
      return Crashed(guard.error), producers;
    }
    if guard.value.Some? {
      return Exited(guard.value.value), producers;
    }
    producers := Launch.StartProducers(producer.numThreads.value);
    outcome := Started(producer.numThreads.value);
  }

  /** With genConfig set (and the environment well formed) nothing is checked
      and no worker starts, whatever the other settings are. */
  lemma GenConfigSkipsChecks(ns: Arguments.Namespace, env: Arguments.Env)
    requires Overridden(FromNamespace(ns), env).error.None?
    requires Arguments.NsBoolean(ns, GEN_CONFIG) == Java.Some(true)
    ensures Decision(ns, env) == ConfigGenerated
  {
  }

  /** Workers start exactly when every check passes, and then one per thread. */
  lemma StartsIff(ns: Arguments.Namespace, env: Arguments.Env)
    ensures var f := Overridden(FromNamespace(ns), env).fields;
      Decision(ns, env).Started? <==>
        && Overridden(FromNamespace(ns), env).error.None?
        && Arguments.NsBoolean(ns, GEN_CONFIG) == Java.Some(false)
        && f.topic.Some? && f.configFilePath.Some? && f.templateFilePath.Some?
        && f.numThreads.Some? && f.numThreads.value >= 1
        && f.throughput.Some? && !Guards.ThroughputRejectedByMain(f.throughput.value)
    ensures Decision(ns, env).Started? ==> Decision(ns, env).count == Overridden(FromNamespace(ns), env).fields.numThreads.value
  {
  }
}
