/** The entry point com.ibm.es.producer.Producer: its settings filled from the
    parsed arguments and overridden from the ES_ environment variables, the
    argument checks of main, and the start loop. Its workers are
    com.ibm.es.producer.ProducerThread objects, not part of this model, so they
    are modelled by their names only. */
module EsProducer {
  import Java
  import Arguments
  import Guards
  import ProducerThreads
  import Launch

  // argument destinations
  const TOPIC: string := "topic"
  const PRODUCER_CONFIG: string := "producerConfigFile"
  const THROUGHPUT: string := "throughput"
  const NUM_THREADS: string := "numThreads"
  const PAYLOAD_TEMPLATE: string := "payloadTemplate"
  const GEN_CONFIG: string := "genConfig"

  // environment variables
  const ENV_TOPIC: string := "ES_TOPIC"
  const ENV_NUM_THREADS: string := "ES_NUM_THREADS"
  const ENV_PRODUCER_CONFIG: string := "ES_PRODUCER_CONFIG"
  const ENV_THROUGHPUT: string := "ES_THROUGHPUT"
  const ENV_TEMPLATE_FILE_PATH: string := "ES_TEMPLATE_FILE_PATH"

  /** The five settings of a Producer, each possibly null. */
  datatype ProducerFields = ProducerFields(
    topic: Java.Option<string>,
    numThreads: Java.Option<int>,
    throughput: Java.Option<int>,
    configFilePath: Java.Option<string>,
    templateFilePath: Java.Option<string>)

  /** The settings main copies from the namespace. */
  function FromNamespace(ns: Arguments.Namespace): ProducerFields
  {
    ProducerFields(Arguments.NsString(ns, TOPIC), Arguments.NsInt(ns, NUM_THREADS), Arguments.NsInt(ns, THROUGHPUT),
                   Arguments.NsString(ns, PRODUCER_CONFIG), Arguments.NsString(ns, PAYLOAD_TEMPLATE))
  }

  /** overrideArgumentsWithEnvVars on settings f: ES_TOPIC, ES_NUM_THREADS,
      ES_PRODUCER_CONFIG, ES_THROUGHPUT and ES_TEMPLATE_FILE_PATH in that order,
      stopping at the first malformed number. */
  function Overridden(f: ProducerFields, env: Arguments.Env): Arguments.Applied<ProducerFields>
  {
    var f1 := f.(topic := Arguments.OverrideString(f.topic, env, ENV_TOPIC));
    match Arguments.OverrideInt(f1.numThreads, env, ENV_NUM_THREADS)
    case Err(e) => Arguments.Applied(f1, Java.Some(e))
    case Ok(threads) =>
      var f2 := f1.(numThreads := threads, configFilePath := Arguments.OverrideString(f1.configFilePath, env, ENV_PRODUCER_CONFIG));
      match Arguments.OverrideInt(f2.throughput, env, ENV_THROUGHPUT)
      case Err(e) => Arguments.Applied(f2, Java.Some(e))
      case Ok(throughput) =>
        Arguments.Applied(f2.(throughput := throughput,
                              templateFilePath := Arguments.OverrideString(f2.templateFilePath, env, ENV_TEMPLATE_FILE_PATH)),
                          Java.None)
  }

  class Producer {
    var topic: Java.Option<string>
    var numThreads: Java.Option<int>
    var throughput: Java.Option<int>
    var configFilePath: Java.Option<string>
    var templateFilePath: Java.Option<string>

    function Fields(): ProducerFields
      reads this
    {
      ProducerFields(topic, numThreads, throughput, configFilePath, templateFilePath)
    }

    constructor ()
      ensures Fields() == ProducerFields(Java.None, Java.None, Java.None, Java.None, Java.None)
    {
      topic := Java.None;
      numThreads := Java.None;
      throughput := Java.None;
      configFilePath := Java.None;
      templateFilePath := Java.None;
    }
  }

  /** overrideArgumentsWithEnvVars(producer), with System.getenv() as `env`. */
  method OverrideArgumentsWithEnvVars(producer: Producer, env: Arguments.Env) returns (r: Java.Result<()>)
    modifies producer
    ensures producer.Fields() == Overridden(old(producer.Fields()), env).fields
    ensures r.Ok? <==> Overridden(old(producer.Fields()), env).error.None?
    ensures r.Err? ==> Overridden(old(producer.Fields()), env).error == Java.Some(r.error)
  {
    if ENV_TOPIC in env {
      producer.topic := Java.Some(env[ENV_TOPIC]);
    }
    if ENV_NUM_THREADS in env {
      var n := Java.ParseInt(env[ENV_NUM_THREADS]);
      if n.Err? {
        return Java.Err(n.error);
      }
      producer.numThreads := Java.Some(n.value);
    }
    if ENV_PRODUCER_CONFIG in env {
      producer.configFilePath := Java.Some(env[ENV_PRODUCER_CONFIG]);
    }
    if ENV_THROUGHPUT in env {
      var n := Java.ParseInt(env[ENV_THROUGHPUT]);
      if n.Err? {
        return Java.Err(n.error);
      }
      producer.throughput := Java.Some(n.value);
    }
    if ENV_TEMPLATE_FILE_PATH in env {
      producer.templateFilePath := Java.Some(env[ENV_TEMPLATE_FILE_PATH]);
    }
    return Java.Ok(());
  }

  /** Field by field: a variable that is present replaces its setting and an
      absent one keeps it, as long as no earlier number was malformed; the only
      failure is a NumberFormatException from a malformed number. */
  lemma OverriddenFields(f: ProducerFields, env: Arguments.Env)
    ensures var a := Overridden(f, env);
      && a.fields.topic == Arguments.OverrideString(f.topic, env, ENV_TOPIC)
      && (a.error.Some? <==> Arguments.Malformed(env, ENV_NUM_THREADS) || Arguments.Malformed(env, ENV_THROUGHPUT))
      && (a.error.Some? ==> a.error.value == Java.NumberFormat)
      && (a.error.None? ==>
            && a.fields.numThreads == (if ENV_NUM_THREADS in env then Java.Some(Java.ParseInt(env[ENV_NUM_THREADS]).value) else f.numThreads)
            && a.fields.configFilePath == Arguments.OverrideString(f.configFilePath, env, ENV_PRODUCER_CONFIG)
            && a.fields.throughput == (if ENV_THROUGHPUT in env then Java.Some(Java.ParseInt(env[ENV_THROUGHPUT]).value) else f.throughput)
            && a.fields.templateFilePath == Arguments.OverrideString(f.templateFilePath, env, ENV_TEMPLATE_FILE_PATH))
      && (a.error.Some? ==> a.fields.templateFilePath == f.templateFilePath)
  {
    Arguments.OverrideIntCases(f.numThreads, env, ENV_NUM_THREADS);
    Arguments.OverrideIntCases(f.throughput, env, ENV_THROUGHPUT);
  }

  /** Overriding twice with one environment is overriding once. */
  lemma OverrideIdempotent(f: ProducerFields, env: Arguments.Env)
    ensures Overridden(Overridden(f, env).fields, env) == Overridden(f, env)
  {
    Arguments.OverrideIntCases(f.numThreads, env, ENV_NUM_THREADS);
    Arguments.OverrideIntCases(f.throughput, env, ENV_THROUGHPUT);
    var g := Overridden(f, env).fields;
    Arguments.OverrideIntCases(g.numThreads, env, ENV_NUM_THREADS);
    Arguments.OverrideIntCases(g.throughput, env, ENV_THROUGHPUT);
  }

  /** Without any of the five variables, nothing changes. */
  lemma EmptyEnvironmentKeeps(f: ProducerFields, env: Arguments.Env)
    requires ENV_TOPIC !in env && ENV_NUM_THREADS !in env && ENV_PRODUCER_CONFIG !in env
    requires ENV_THROUGHPUT !in env && ENV_TEMPLATE_FILE_PATH !in env
    ensures Overridden(f, env) == Arguments.Applied(f, Java.None)
  {
  }

  /** The ei variable names (TOPIC, NUM_THREADS, ...) are ignored here. */
  lemma OtherVariablesIgnored(f: ProducerFields, env: Arguments.Env, key: string, value: string)
    requires key != ENV_TOPIC && key != ENV_NUM_THREADS && key != ENV_PRODUCER_CONFIG
    requires key != ENV_THROUGHPUT && key != ENV_TEMPLATE_FILE_PATH
    ensures Overridden(f, env[key := value]) == Overridden(f, env)
  {
    var e := env[key := value];
    assert ENV_TOPIC in e <==> ENV_TOPIC in env;
    assert ENV_NUM_THREADS in e <==> ENV_NUM_THREADS in env;
    assert ENV_PRODUCER_CONFIG in e <==> ENV_PRODUCER_CONFIG in env;
    assert ENV_THROUGHPUT in e <==> ENV_THROUGHPUT in env;
    assert ENV_TEMPLATE_FILE_PATH in e <==> ENV_TEMPLATE_FILE_PATH in env;
  }

  // ----- main -----

  /** How main ends: the config file was generated (genConfig set), a check
      failed and Exit.exit(0) ran after the help text, `count` workers were
      started, or an unchecked exception escaped. */
  datatype MainOutcome = ConfigGenerated | Exited(reason: Guards.Reason) | Started(count: nat) | Crashed(error: Java.Exception)

  /** What main decides for the namespace `ns` and the environment `env`. */
  function Decision(ns: Arguments.Namespace, env: Arguments.Env): MainOutcome
  {
    var a := Overridden(FromNamespace(ns), env);
    if a.error.Some? then Crashed(a.error.value)
    else
      match Arguments.NsBoolean(ns, GEN_CONFIG)
      case None => Crashed(Java.NullPointer)
      case Some(gen) =>
        if gen then ConfigGenerated
        else
          var f := a.fields;
          match Guards.MainGuard(f.topic, f.configFilePath, f.templateFilePath, f.numThreads, f.throughput)
          case Err(e) => Crashed(e)
          case Ok(failure) =>
            if failure.Some? then Exited(failure.value)
            else Started(f.numThreads.value)
  }

  /** The start loop as written, followed by the shutdown hook: the workers are
      recorded in List.of(), which is immutable, so the first add throws
      UnsupportedOperationException right after producer0 has started.
      `started` are the workers running, `producers` the list the shutdown hook
      totals, and `messageCount(name)` what the worker of that name reports
      there; `total` is the logged total. */
  method StartProducersAsWritten(numThreads: int, messageCount: string -> int)
    returns (started: seq<string>, producers: seq<string>, r: Java.Result<()>, total: int)
    ensures producers == []
    ensures numThreads >= 1 ==> started == [ProducerThreads.ThreadName(0)] && r == Java.Err(Java.UnsupportedOperation)
    ensures numThreads < 1 ==> started == [] && r == Java.Ok(())
    // whatever producer0 sends, none of it is counted
    ensures total == 0
  {
    started, producers := [], [];
    r := Java.Ok(());
    // the loop's first iteration, which is also its last
    var i := 0;
    if i < numThreads {
      started := started + [ProducerThreads.ThreadName(i)];
      // producers.add(producerThread) on the immutable List.of()
      r := Java.Err(Java.UnsupportedOperation);
    }
    var counts := seq(|producers|, k requires 0 <= k < |producers| => messageCount(producers[k]));
    total := Launch.ShutdownTotal(counts);
  }

  /** main(args) after the arguments parsed into `ns`, with the workers
      recorded in a growable list. */
  method RunMain(ns: Arguments.Namespace, env: Arguments.Env) returns (outcome: MainOutcome, producers: seq<string>)
    ensures outcome == Decision(ns, env)
    ensures outcome.Started? ==> |producers| == outcome.count
                                 && forall i :: 0 <= i < |producers| ==> producers[i] == ProducerThreads.ThreadName(i)
    ensures !outcome.Started? ==> producers == []
  {
    producers := [];
    var producer := new Producer();
    producer.topic := Arguments.NsString(ns, TOPIC);
    producer.throughput := Arguments.NsInt(ns, THROUGHPUT);
    producer.configFilePath := Arguments.NsString(ns, PRODUCER_CONFIG);
    producer.numThreads := Arguments.NsInt(ns, NUM_THREADS);
    producer.templateFilePath := Arguments.NsString(ns, PAYLOAD_TEMPLATE);
    var overridden := OverrideArgumentsWithEnvVars(producer, env);
    if overridden.Err? {
      return Crashed(overridden.error), producers;
    }
    var gen := Arguments.NsBoolean(ns, GEN_CONFIG);
    if gen.None? {
      return Crashed(Java.NullPointer), producers;
    }
    if gen.value {
      return ConfigGenerated, producers;
    }
    var guard := Guards.MainGuard(producer.topic, producer.configFilePath, producer.templateFilePath,
                                  producer.numThreads, producer.throughput);
    if guard.Err? {
      return Crashed(guard.error), producers;
    }
    if guard.value.Some? {
      return Exited(guard.value.value), producers;
    }
    producers := Launch.StartProducers(producer.numThreads.value);
    outcome := Started(producer.numThreads.value);
  }

  /** With genConfig set (and the environment well formed) nothing is checked
      and no worker starts, whatever the other settings are. */
  lemma GenConfigSkipsChecks(ns: Arguments.Namespace, env: Arguments.Env)
    requires Overridden(FromNamespace(ns), env).error.None?
    requires Arguments.NsBoolean(ns, GEN_CONFIG) == Java.Some(true)
    ensures Decision(ns, env) == ConfigGenerated
  {
  }

  /** Workers start exactly when every check passes, and then one per thread. */
  lemma StartsIff(ns: Arguments.Namespace, env: Arguments.Env)
    ensures var f := Overridden(FromNamespace(ns), env).fields;
      Decision(ns, env).Started? <==>
        && Overridden(FromNamespace(ns), env).error.None?
        && Arguments.NsBoolean(ns, GEN_CONFIG) == Java.Some(false)
        && f.topic.Some? && f.configFilePath.Some? && f.templateFilePath.Some?
        && f.numThreads.Some? && f.numThreads.value >= 1
        && f.throughput.Some? && !Guards.ThroughputRejectedByMain(f.throughput.value)
    ensures Decision(ns, env).Started? ==> Decision(ns, env).count == Overridden(FromNamespace(ns), env).fields.numThreads.value
  {
  }
}
