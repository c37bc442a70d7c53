/** com.ibm.ei.producer.config.PayloadConfig: the template path, the number
    of records to generate and the timestamp range and interval of the payload
    generator, copied from the parsed arguments and then overridden from the
    environment. The timestamps stay unparsed strings here. */
module PayloadConfigs {
  import Java
  import Arguments

  // argument destinations
  const START_TIMESTAMP: string := "startTimestamp"
  const END_TIMESTAMP: string := "endTimestamp"
  const PAYLOAD_TEMPLATE: string := "payloadTemplate"
  const NUM_RECORDS: string := "numRecords"
  const TIMESTAMP_INTERVAL: string := "timestampInterval"

  // environment variables
  const ENV_PAYLOAD_TEMPLATE: string := "PAYLOAD_TEMPLATE"
  const ENV_NUM_RECORDS: string := "NUM_RECORDS"
  const ENV_START_TIMESTAMP: string := "START_TIMESTAMP"
  const ENV_END_TIMESTAMP: string := "END_TIMESTAMP"
  const ENV_TIMESTAMP_INTERVAL: string := "TIMESTAMP_INTERVAL"

  /** The interval a new PayloadConfig holds. */
  const DEFAULT_INTERVAL: int := 1

  /** The five fields; the interval is a primitive long, the others may be null. */
  datatype PayloadFields = PayloadFields(
    templateFilePath: Java.Option<string>,
    numRecords: Java.Option<int>,
    endTimestamp: Java.Option<string>,
    timestampInterval: int,
    startTimestamp: Java.Option<string>)

  /** The fields of a new object. */
  const Fresh: PayloadFields := PayloadFields(Java.None, Java.None, Java.None, DEFAULT_INTERVAL, Java.None)

  /** `Optional.ofNullable(value).ifPresent(setter)`: a null leaves the field. */
  function IfPresent<T>(value: Java.Option<T>, current: Java.Option<T>): Java.Option<T>
  {
    if value.Some? then value else current
  }

  /** The fields createPayloadConfig sets from the namespace. */
  function FromNamespace(ns: Arguments.Namespace): (f: PayloadFields)
    ensures f.templateFilePath == Arguments.NsString(ns, PAYLOAD_TEMPLATE)
    ensures f.numRecords == Arguments.NsInt(ns, NUM_RECORDS)
    ensures f.startTimestamp == Arguments.NsString(ns, START_TIMESTAMP)
    ensures f.endTimestamp == Arguments.NsString(ns, END_TIMESTAMP)
    ensures f.timestampInterval == if TIMESTAMP_INTERVAL in ns.longs then ns.longs[TIMESTAMP_INTERVAL] else DEFAULT_INTERVAL
  {
    var interval := Arguments.NsLong(ns, TIMESTAMP_INTERVAL);
    Fresh.(templateFilePath := Arguments.NsString(ns, PAYLOAD_TEMPLATE),
           numRecords := IfPresent(Arguments.NsInt(ns, NUM_RECORDS), Fresh.numRecords),
           startTimestamp := IfPresent(Arguments.NsString(ns, START_TIMESTAMP), Fresh.startTimestamp),
           endTimestamp := IfPresent(Arguments.NsString(ns, END_TIMESTAMP), Fresh.endTimestamp),
           timestampInterval := if interval.Some? then interval.value else Fresh.timestampInterval)
  }

  /** overrideWithEnvVars on fields f: PAYLOAD_TEMPLATE, NUM_RECORDS,
      START_TIMESTAMP, END_TIMESTAMP and TIMESTAMP_INTERVAL in that order,
      stopping at the first malformed number. TIMESTAMP_INTERVAL goes through
      Integer.parseInt, so only int values reach the long field. */
  function Overridden(f: PayloadFields, env: Arguments.Env): Arguments.Applied<PayloadFields>
  {
    var f1 := f.(templateFilePath := Arguments.OverrideString(f.templateFilePath, env, ENV_PAYLOAD_TEMPLATE));
    match Arguments.OverrideInt(f1.numRecords, env, ENV_NUM_RECORDS)
    case Err(e) => Arguments.Applied(f1, Java.Some(e))
    case Ok(records) =>
      var f2 := f1.(numRecords := records,
                    startTimestamp := Arguments.OverrideString(f1.startTimestamp, env, ENV_START_TIMESTAMP),
                    endTimestamp := Arguments.OverrideString(f1.endTimestamp, env, ENV_END_TIMESTAMP));
      match Arguments.OverrideInt(Java.Some(f2.timestampInterval), env, ENV_TIMESTAMP_INTERVAL)
      case Err(e) => Arguments.Applied(f2, Java.Some(e))
      case Ok(interval) => Arguments.Applied(f2.(timestampInterval := interval.value), Java.None)
  }

  class PayloadConfig {
    var templateFilePath: Java.Option<string>
    var numRecords: Java.Option<int>
    var endTimestamp: Java.Option<string>
    var timestampInterval: int
    var startTimestamp: Java.Option<string>

    function Fields(): PayloadFields
      reads this
    {
      PayloadFields(templateFilePath, numRecords, endTimestamp, timestampInterval, startTimestamp)
    }

    /** The private constructor: the interval is 1, the rest null. */
    constructor ()
      ensures Fields() == Fresh
    {
      templateFilePath := Java.None;
      numRecords := Java.None;
      endTimestamp := Java.None;
      timestampInterval := DEFAULT_INTERVAL;
      startTimestamp := Java.None;
    }

    /** createPayloadConfig: the template path is always copied (possibly
        null), the other settings only when the namespace holds them. */
    static method CreatePayloadConfig(ns: Arguments.Namespace) returns (config: PayloadConfig)
      ensures fresh(config)
      ensures config.Fields() == FromNamespace(ns)
    {
      config := new PayloadConfig();
      config.templateFilePath := Arguments.NsString(ns, PAYLOAD_TEMPLATE);
      var records := Arguments.NsInt(ns, NUM_RECORDS);
      if records.Some? {
        config.numRecords := records;
      }
      var start := Arguments.NsString(ns, START_TIMESTAMP);
      if start.Some? {
        config.startTimestamp := start;
      }
      var end := Arguments.NsString(ns, END_TIMESTAMP);
      if end.Some? {
        config.endTimestamp := end;
      }
      var interval := Arguments.NsLong(ns, TIMESTAMP_INTERVAL);
      if interval.Some? {
        config.timestampInterval := interval.value;
      }
    }

    /** overrideWithEnvVars: returns this, or throws NumberFormatException with
        the setters before the malformed variable already applied. */
    method OverrideWithEnvVars(env: Arguments.Env) returns (r: Java.Result<PayloadConfig>)
      modifies this
      ensures Fields() == Overridden(old(Fields()), env).fields
      ensures r.Ok? <==> Overridden(old(Fields()), env).error.None?
      ensures r.Ok? ==> r.value == this
      ensures r.Err? ==> Overridden(old(Fields()), env).error == Java.Some(r.error)
    {
      if ENV_PAYLOAD_TEMPLATE in env {
        templateFilePath := Java.Some(env[ENV_PAYLOAD_TEMPLATE]);
      }
      if ENV_NUM_RECORDS in env {
        var n := Java.ParseInt(env[ENV_NUM_RECORDS]);
        if n.Err? {
          return Java.Err(n.error);
        }
        numRecords := Java.Some(n.value);
      }
      if ENV_START_TIMESTAMP in env {
        startTimestamp := Java.Some(env[ENV_START_TIMESTAMP]);
      }
      if ENV_END_TIMESTAMP in env {
        endTimestamp := Java.Some(env[ENV_END_TIMESTAMP]);
      }
      if ENV_TIMESTAMP_INTERVAL in env {
        var n := Java.ParseInt(env[ENV_TIMESTAMP_INTERVAL]);
        if n.Err? {
          return Java.Err(n.error);
        }
        timestampInterval := n.value;
      }
      return Java.Ok(this);
    }
  }

  /** Field by field: the template always follows PAYLOAD_TEMPLATE; a malformed
      NUM_RECORDS stops everything after it; otherwise each later field follows
      its variable when present and stays when absent. The only failure is a
      NumberFormatException from a malformed NUM_RECORDS or TIMESTAMP_INTERVAL. */
  lemma OverriddenFields(f: PayloadFields, env: Arguments.Env)
    ensures var a := Overridden(f, env);
      && a.fields.templateFilePath == (if ENV_PAYLOAD_TEMPLATE in env then Java.Some(env[ENV_PAYLOAD_TEMPLATE]) else f.templateFilePath)
      && (a.error.Some? <==> Arguments.Malformed(env, ENV_NUM_RECORDS) || Arguments.Malformed(env, ENV_TIMESTAMP_INTERVAL))
      && (a.error.Some? ==> a.error.value == Java.NumberFormat)
      && (Arguments.Malformed(env, ENV_NUM_RECORDS) ==>
            a.fields == f.(templateFilePath := a.fields.templateFilePath))
      && (!Arguments.Malformed(env, ENV_NUM_RECORDS) ==>
            && a.fields.numRecords == (if ENV_NUM_RECORDS in env then Java.Some(Java.ParseInt(env[ENV_NUM_RECORDS]).value) else f.numRecords)
            && a.fields.startTimestamp == (if ENV_START_TIMESTAMP in env then Java.Some(env[ENV_START_TIMESTAMP]) else f.startTimestamp)
            && a.fields.endTimestamp == (if ENV_END_TIMESTAMP in env then Java.Some(env[ENV_END_TIMESTAMP]) else f.endTimestamp)
            && a.fields.timestampInterval == (if ENV_TIMESTAMP_INTERVAL in env && !Arguments.Malformed(env, ENV_TIMESTAMP_INTERVAL)
                                              then Java.ParseInt(env[ENV_TIMESTAMP_INTERVAL]).value else f.timestampInterval))
  {
    Arguments.OverrideIntCases(f.numRecords, env, ENV_NUM_RECORDS);
    Arguments.OverrideIntCases(Java.Some(f.timestampInterval), env, ENV_TIMESTAMP_INTERVAL);
  }

  /** Overriding twice with one environment is overriding once. */
  lemma OverrideIdempotent(f: PayloadFields, env: Arguments.Env)
    ensures Overridden(Overridden(f, env).fields, env) == Overridden(f, env)
  {
    Arguments.OverrideIntCases(f.numRecords, env, ENV_NUM_RECORDS);
    Arguments.OverrideIntCases(Java.Some(f.timestampInterval), env, ENV_TIMESTAMP_INTERVAL);
    var g := Overridden(f, env).fields;
    Arguments.OverrideIntCases(g.numRecords, env, ENV_NUM_RECORDS);
    Arguments.OverrideIntCases(Java.Some(g.timestampInterval), env, ENV_TIMESTAMP_INTERVAL);
  }

  /** Variables other than the five are ignored. */
  lemma OtherVariablesIgnored(f: PayloadFields, env: Arguments.Env, key: string, value: string)
    requires key != ENV_PAYLOAD_TEMPLATE && key != ENV_NUM_RECORDS && key != ENV_START_TIMESTAMP
    requires key != ENV_END_TIMESTAMP && key != ENV_TIMESTAMP_INTERVAL
    ensures Overridden(f, env[key := value]) == Overridden(f, env)
  {
    var e := env[key := value];
    assert ENV_PAYLOAD_TEMPLATE in e <==> ENV_PAYLOAD_TEMPLATE in env;
    assert ENV_NUM_RECORDS in e <==> ENV_NUM_RECORDS in env;
    assert ENV_START_TIMESTAMP in e <==> ENV_START_TIMESTAMP in env;
    assert ENV_END_TIMESTAMP in e <==> ENV_END_TIMESTAMP in env;
    assert ENV_TIMESTAMP_INTERVAL in e <==> ENV_TIMESTAMP_INTERVAL in env;
  }

  /** An interval that fits a long but not an int is refused from the
      environment, although the argument of the same value is accepted. */
  lemma LongIntervalRefused(f: PayloadFields, env: Arguments.Env, n: int)
    requires Java.IsLong(n) && !Java.IsInt(n)
    requires env.Keys == {ENV_TIMESTAMP_INTERVAL} && env[ENV_TIMESTAMP_INTERVAL] == Java.IntToString(n)
    ensures Overridden(f, env) == Arguments.Applied(f, Java.Some(Java.NumberFormat))
  {
    Java.ParseDecimalOfToString(n);
  }

  /** An int interval rendered with Integer.toString is read back unchanged. */
  lemma RenderedIntervalRead(f: PayloadFields, env: Arguments.Env, n: int)
    requires Java.IsInt(n)
    requires env.Keys == {ENV_TIMESTAMP_INTERVAL} && env[ENV_TIMESTAMP_INTERVAL] == Java.IntToString(n)
    ensures Overridden(f, env) == Arguments.Applied(f.(timestampInterval := n), Java.None)
  {
    Arguments.OverrideIntOfRendered(Java.Some(f.timestampInterval), env, ENV_TIMESTAMP_INTERVAL, n);
  }
}
