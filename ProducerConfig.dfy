/** com.ibm.ei.producer.config.ProducerConfig: the topic, thread count,
    throughput and Kafka configuration path of the workers, copied from the
    parsed arguments and then overridden from the environment. */
module ProducerConfigs {
  import Java
  import Arguments

  // argument destinations
  const TOPIC: string := "topic"
  const PRODUCER_CONFIG: string := "producerConfig"
  const THROUGHPUT: string := "throughput"
  const NUM_THREADS: string := "numThreads"

  // environment variables
  const ENV_TOPIC: string := "TOPIC"
  const ENV_NUM_THREADS: string := "NUM_THREADS"
  const ENV_PRODUCER_CONFIG: string := "PRODUCER_CONFIG"
  const ENV_THROUGHPUT: string := "THROUGHPUT"

  /** The four fields, each possibly null. */
  datatype ProducerFields = ProducerFields(
    topic: Java.Option<string>,
    numThreads: Java.Option<int>,
    throughput: Java.Option<int>,
    configFilePath: Java.Option<string>)

  /** The fields createProducerConfig copies from the namespace. */
  function FromNamespace(ns: Arguments.Namespace): ProducerFields
  {
    ProducerFields(Arguments.NsString(ns, TOPIC), Arguments.NsInt(ns, NUM_THREADS),
                   Arguments.NsInt(ns, THROUGHPUT), Arguments.NsString(ns, PRODUCER_CONFIG))
  }

  /** overrideWithEnvVars on fields f: TOPIC, NUM_THREADS, PRODUCER_CONFIG and
      THROUGHPUT in that order, stopping at the first malformed number. */
  function Overridden(f: ProducerFields, env: Arguments.Env): Arguments.Applied<ProducerFields>
  {
    var f1 := f.(topic := Arguments.OverrideString(f.topic, env, ENV_TOPIC));
    match Arguments.OverrideInt(f1.numThreads, env, ENV_NUM_THREADS)
    case Err(e) => Arguments.Applied(f1, Java.Some(e))
    case Ok(threads) =>
      var f2 := f1.(numThreads := threads, configFilePath := Arguments.OverrideString(f1.configFilePath, env, ENV_PRODUCER_CONFIG));
      match Arguments.OverrideInt(f2.throughput, env, ENV_THROUGHPUT)
      case Err(e) => Arguments.Applied(f2, Java.Some(e))
      case Ok(throughput) => Arguments.Applied(f2.(throughput := throughput), Java.None)
  }

  class ProducerConfig {
    var topic: Java.Option<string>
    var numThreads: Java.Option<int>
    var throughput: Java.Option<int>
    var configFilePath: Java.Option<string>

    function Fields(): ProducerFields
      reads this
    {
      ProducerFields(topic, numThreads, throughput, configFilePath)
    }

    /** The private constructor: every field null. */
    constructor ()
      ensures Fields() == ProducerFields(Java.None, Java.None, Java.None, Java.None)
    {
      topic := Java.None;
      numThreads := Java.None;
      throughput := Java.None;
      configFilePath := Java.None;
    }

    /** createProducerConfig: a new object whose fields are the namespace values. */
    static method CreateProducerConfig(ns: Arguments.Namespace) returns (config: ProducerConfig)
      ensures fresh(config)
      ensures config.Fields() == FromNamespace(ns)
    {
      config := new ProducerConfig();
      config.topic := Arguments.NsString(ns, TOPIC);
      config.throughput := Arguments.NsInt(ns, THROUGHPUT);
      config.configFilePath := Arguments.NsString(ns, PRODUCER_CONFIG);
      config.numThreads := Arguments.NsInt(ns, NUM_THREADS);
    }

    /** overrideWithEnvVars: returns this, or throws NumberFormatException with
        the setters before the malformed variable already applied. */
    method OverrideWithEnvVars(env: Arguments.Env) returns (r: Java.Result<ProducerConfig>)
      modifies this
      ensures Fields() == Overridden(old(Fields()), env).fields
      ensures r.Ok? <==> Overridden(old(Fields()), env).error.None?
      ensures r.Ok? ==> r.value == this
      ensures r.Err? ==> Overridden(old(Fields()), env).error == Java.Some(r.error)
    {
      if ENV_TOPIC in env {
        topic := Java.Some(env[ENV_TOPIC]);
      }
      if ENV_NUM_THREADS in env {
        var n := Java.ParseInt(env[ENV_NUM_THREADS]);
        if n.Err? {
          return Java.Err(n.error);
        }
        numThreads := Java.Some(n.value);
      }
      if ENV_PRODUCER_CONFIG in env {
        configFilePath := Java.Some(env[ENV_PRODUCER_CONFIG]);
      }
      if ENV_THROUGHPUT in env {
        var n := Java.ParseInt(env[ENV_THROUGHPUT]);
        if n.Err? {
          return Java.Err(n.error);
        }
        throughput := Java.Some(n.value);
      }
      return Java.Ok(this);
    }
  }

  /** Field by field: the topic always follows TOPIC; a malformed NUM_THREADS
      stops everything after it; otherwise each later field follows its variable
      when present and stays when absent. The only failure is a
      NumberFormatException from a malformed NUM_THREADS or THROUGHPUT. */
  lemma OverriddenFields(f: ProducerFields, env: Arguments.Env)
    ensures var a := Overridden(f, env);
      && a.fields.topic == (if ENV_TOPIC in env then Java.Some(env[ENV_TOPIC]) else f.topic)
      && (a.error.Some? <==> Arguments.Malformed(env, ENV_NUM_THREADS) || Arguments.Malformed(env, ENV_THROUGHPUT))
      && (a.error.Some? ==> a.error.value == Java.NumberFormat)
      && (Arguments.Malformed(env, ENV_NUM_THREADS) ==>
            a.fields.numThreads == f.numThreads && a.fields.configFilePath == f.configFilePath
            && a.fields.throughput == f.throughput)
      && (!Arguments.Malformed(env, ENV_NUM_THREADS) ==>
            && a.fields.numThreads == (if ENV_NUM_THREADS in env then Java.Some(Java.ParseInt(env[ENV_NUM_THREADS]).value) else f.numThreads)
            && a.fields.configFilePath == (if ENV_PRODUCER_CONFIG in env then Java.Some(env[ENV_PRODUCER_CONFIG]) else f.configFilePath)
            && a.fields.throughput == (if ENV_THROUGHPUT in env && !Arguments.Malformed(env, ENV_THROUGHPUT)
                                       then Java.Some(Java.ParseInt(env[ENV_THROUGHPUT]).value) else f.throughput))
  {
    Arguments.OverrideIntCases(f.numThreads, env, ENV_NUM_THREADS);
    Arguments.OverrideIntCases(f.throughput, env, ENV_THROUGHPUT);
  }

  /** Without any of the four variables, nothing changes. */
  lemma EmptyEnvironmentKeeps(f: ProducerFields, env: Arguments.Env)
    requires ENV_TOPIC !in env && ENV_NUM_THREADS !in env && ENV_PRODUCER_CONFIG !in env && ENV_THROUGHPUT !in env
    ensures Overridden(f, env) == Arguments.Applied(f, Java.None)
  {
  }

  /** Overriding twice with one environment is overriding once. */
  lemma OverrideIdempotent(f: ProducerFields, env: Arguments.Env)
    ensures Overridden(Overridden(f, env).fields, env) == Overridden(f, env)
  {
    Arguments.OverrideIntCases(f.numThreads, env, ENV_NUM_THREADS);
    Arguments.OverrideIntCases(f.throughput, env, ENV_THROUGHPUT);
    var g := Overridden(f, env).fields;
    Arguments.OverrideIntCases(g.numThreads, env, ENV_NUM_THREADS);
    Arguments.OverrideIntCases(g.throughput, env, ENV_THROUGHPUT);
  }

  /** Variables other than the four are ignored. */
  lemma OtherVariablesIgnored(f: ProducerFields, env: Arguments.Env, key: string, value: string)
    requires key != ENV_TOPIC && key != ENV_NUM_THREADS && key != ENV_PRODUCER_CONFIG && key != ENV_THROUGHPUT
    ensures Overridden(f, env[key := value]) == Overridden(f, env)
  {
    var e := env[key := value];
    assert ENV_TOPIC in e <==> ENV_TOPIC in env;
    assert ENV_NUM_THREADS in e <==> ENV_NUM_THREADS in env;
    assert ENV_PRODUCER_CONFIG in e <==> ENV_PRODUCER_CONFIG in env;
    assert ENV_THROUGHPUT in e <==> ENV_THROUGHPUT in env;
  }

  /** A thread count rendered with Integer.toString is read back as that count. */
  lemma RenderedThreadsRead(f: ProducerFields, env: Arguments.Env, n: int)
    requires Java.IsInt(n) && env.Keys == {ENV_NUM_THREADS} && env[ENV_NUM_THREADS] == Java.IntToString(n)
    ensures Overridden(f, env) == Arguments.Applied(f.(numThreads := Java.Some(n)), Java.None)
  {
    Arguments.OverrideIntOfRendered(f.numThreads, env, ENV_NUM_THREADS, n);
  }
}
