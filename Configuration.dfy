/** com.ibm.ei.utils.Configuration: typed lookups of a setting under one
    name, the environment variable winning over the parsed argument of the same
    destination, and validate(), the chain of argument checks. Whether a path
    names a readable or writable file is an input (the sets `readable` and
    `writable`), as are the environment and the parsed arguments. */
module Configuration {
  import Java
  import Arguments
  import Guards

  const BATCH_MODE: string := "BATCH"
  const RUNTIME_MODE: string := "RUNTIME_MODE"
  const OUTPUT_PATH: string := "OUTPUT"
  const GEN_CONFIG: string := "GEN_CONFIG"
  const TOPIC: string := "TOPIC"
  const PRODUCER_CONFIG: string := "PRODUCER_CONFIG"
  const THROUGHPUT: string := "THROUGHPUT"
  const NUM_PRODUCERS: string := "NUM_THREADS"
  const PAYLOAD_TEMPLATE: string := "PAYLOAD_TEMPLATE"
  const NUM_RECORDS: string := "NUM_RECORDS"

  /** getInt: Integer.parseInt of the environment value, else the argument. */
  function GetInt(env: Arguments.Env, ns: Arguments.Namespace, key: string): (r: Java.Result<Java.Option<int>>)
    ensures r.Err? <==> key in env && Java.ParseInt(env[key]).Err?
    ensures r.Err? ==> r.error == Java.NumberFormat
    ensures key in env && r.Ok? ==> r.value.Some? && Java.IsInt(r.value.value)
    ensures key !in env ==> r == Java.Ok(Arguments.NsInt(ns, key))
  {
    if key in env then
      match Java.ParseInt(env[key])
      case Ok(n) => Java.Ok(Java.Some(n))
      case Err(e) => Java.Err(e)
    else Java.Ok(Arguments.NsInt(ns, key))
  }

  /** getLong: Long.parseLong of the environment value, else the argument. */
  function GetLong(env: Arguments.Env, ns: Arguments.Namespace, key: string): (r: Java.Result<Java.Option<int>>)
    ensures r.Err? <==> key in env && Java.ParseLong(env[key]).Err?
    ensures r.Err? ==> r.error == Java.NumberFormat
    ensures key in env && r.Ok? ==> r.value.Some? && Java.IsLong(r.value.value)
    ensures key !in env ==> r == Java.Ok(Arguments.NsLong(ns, key))
  {
    if key in env then
      match Java.ParseLong(env[key])
      case Ok(n) => Java.Ok(Java.Some(n))
      case Err(e) => Java.Err(e)
    else Java.Ok(Arguments.NsLong(ns, key))
  }

  /** getString: the environment value, else the argument. */
  function GetString(env: Arguments.Env, ns: Arguments.Namespace, key: string): (r: Java.Option<string>)
    ensures r.None? ==> key !in env
    ensures key in env ==> r == Java.Some(env[key])
    ensures key !in env ==> r == Arguments.NsString(ns, key)
  {
    if key in env then Java.Some(env[key]) else Arguments.NsString(ns, key)
  }

  /** Character.toLowerCase on the ASCII letters. */
  function LowerAscii(c: char): char
  {
    if 'A' <= c <= 'Z' then (c as int + 32) as char else c
  }

  /** Boolean.valueOf(String): true exactly for "true" in any letter case. */
  predicate ParseBoolean(s: string)
  {
    |s| == 4 && LowerAscii(s[0]) == 't' && LowerAscii(s[1]) == 'r' && LowerAscii(s[2]) == 'u' && LowerAscii(s[3]) == 'e'
  }

  /** getBoolean: Boolean.valueOf of the environment value, else the argument. */
  function GetBoolean(env: Arguments.Env, ns: Arguments.Namespace, key: string): (r: Java.Option<bool>)
    ensures key in env ==> r.Some?
    ensures key in env && env[key] == "true" ==> r == Java.Some(true)
    ensures key in env && |env[key]| != 4 ==> r == Java.Some(false)
    ensures key !in env ==> r == Arguments.NsBoolean(ns, key)
  {
    if key in env then Java.Some(ParseBoolean(env[key])) else Arguments.NsBoolean(ns, key)
  }

  /** How validate() ends: it returns at once because GEN_CONFIG is set, it
      returns after every check passed, it throws the ArgumentParserException
      with a check's message, or an unchecked exception escapes (unboxing a null
      Boolean or Integer, or parsing a malformed number). */
  datatype Verdict = Skipped | Passed | Rejected(reason: Guards.Reason) | Thrown(error: Java.Exception)

  /** The batch-mode test: RUNTIME_MODE is exactly "BATCH". */
  predicate IsBatch(mode: string)
  {
    mode == BATCH_MODE
  }

  /** validate(). */
  function Validate(env: Arguments.Env, ns: Arguments.Namespace, readable: set<string>, writable: set<string>): (v: Verdict)
    ensures v == Skipped <==> GetBoolean(env, ns, GEN_CONFIG) == Java.Some(true)
    ensures v.Thrown? && GetBoolean(env, ns, GEN_CONFIG).None? ==> v.error == Java.NullPointer
  {
    match GetBoolean(env, ns, GEN_CONFIG)
    case None => Thrown(Java.NullPointer)
    case Some(gen) =>
      if gen then Skipped
      else
        match GetString(env, ns, RUNTIME_MODE)
        case None => Thrown(Java.NullPointer)
        case Some(mode) =>
          var batch := IsBatch(mode);
          var template := GetString(env, ns, PAYLOAD_TEMPLATE);
          var topic := GetString(env, ns, TOPIC);
          var config := GetString(env, ns, PRODUCER_CONFIG);
          var output := GetString(env, ns, OUTPUT_PATH);
          if template.None? || (!batch && (topic.None? || config.None?)) || (batch && output.None?) then
            Rejected(Guards.ArgsMissing)
          else if template.value !in readable || (batch && output.value !in writable)
               || (!batch && config.value !in readable) then
            Rejected(Guards.InvalidPath)
          else
            match GetInt(env, ns, NUM_PRODUCERS)
            case Err(e) => Thrown(e)
            case Ok(threads) =>
              if threads.None? then Thrown(Java.NullPointer)
              else if threads.value < 1 then Rejected(Guards.InvalidThreads)
              else
                match GetInt(env, ns, THROUGHPUT)
                case Err(e) => Thrown(e)
                case Ok(throughput) =>
                  if throughput.None? then Thrown(Java.NullPointer)
                  else if Guards.ThroughputRejectedByValidate(throughput.value) then Rejected(Guards.InvalidThroughput)
                  else Passed
  }

  /** The settings validate() reads, all present and well formed. */
  datatype Settings = Settings(
    batch: bool, template: string, topic: Java.Option<string>, config: Java.Option<string>,
    output: Java.Option<string>, threads: int, throughput: int)

  /** The checks of validate() in the order it runs them. */
  function ValidateChecks(s: Settings, readable: set<string>, writable: set<string>): seq<Guards.Check>
  {
    [ Guards.Check((!s.batch && (s.topic.None? || s.config.None?)) || (s.batch && s.output.None?), Guards.ArgsMissing),
      Guards.Check(s.template !in readable || (s.batch && s.output.Some? && s.output.value !in writable)
                   || (!s.batch && s.config.Some? && s.config.value !in readable), Guards.InvalidPath),
      Guards.Check(s.threads < 1, Guards.InvalidThreads),
      Guards.Check(Guards.ThroughputRejectedByValidate(s.throughput), Guards.InvalidThroughput) ]
  }

  /** Whether the environment and arguments supply `s` to validate(): GEN_CONFIG
      false, a mode and a template, and both numbers present and well formed. */
  predicate Supplies(env: Arguments.Env, ns: Arguments.Namespace, s: Settings)
  {
    && GetBoolean(env, ns, GEN_CONFIG) == Java.Some(false)
    && GetString(env, ns, RUNTIME_MODE).Some?
    && s.batch == IsBatch(GetString(env, ns, RUNTIME_MODE).value)
    && GetString(env, ns, PAYLOAD_TEMPLATE) == Java.Some(s.template)
    && GetString(env, ns, TOPIC) == s.topic
    && GetString(env, ns, PRODUCER_CONFIG) == s.config
    && GetString(env, ns, OUTPUT_PATH) == s.output
    && GetInt(env, ns, NUM_PRODUCERS) == Java.Ok(Java.Some(s.threads))
    && GetInt(env, ns, THROUGHPUT) == Java.Ok(Java.Some(s.throughput))
  }

  /** With every setting readable, validate() reports the first failing check
      (missing arguments, then paths, then threads, then throughput), or passes. */
  lemma ValidateIsFirstFailure(env: Arguments.Env, ns: Arguments.Namespace, s: Settings,
                               readable: set<string>, writable: set<string>)
    requires Supplies(env, ns, s)
    ensures var first := Guards.FirstFailure(ValidateChecks(s, readable, writable));
            Validate(env, ns, readable, writable) == if first.None? then Passed else Rejected(first.value)
  {
    var checks := ValidateChecks(s, readable, writable);
    var v := Validate(env, ns, readable, writable);
    if checks[0].fails {
      Guards.EarliestFailureDecides(checks, 0);
    } else if checks[1].fails {
      Guards.EarliestFailureDecides(checks, 1);
    } else if checks[2].fails {
      Guards.EarliestFailureDecides(checks, 2);
    } else if checks[3].fails {
      Guards.EarliestFailureDecides(checks, 3);
    } else {
      assert forall i :: 0 <= i < |checks| ==> !checks[i].fails;
    }
  }

  /** A missing template is reported as missing arguments, whatever else is wrong. */
  lemma MissingTemplateFirst(env: Arguments.Env, ns: Arguments.Namespace, readable: set<string>, writable: set<string>)
    requires GetBoolean(env, ns, GEN_CONFIG) == Java.Some(false) && GetString(env, ns, RUNTIME_MODE).Some?
    requires GetString(env, ns, PAYLOAD_TEMPLATE).None?
    ensures Validate(env, ns, readable, writable) == Rejected(Guards.ArgsMissing)
  {
  }

  /** validate() passes exactly when GEN_CONFIG is false and: the template is
      readable; outside batch mode topic and producer config are given and the
      config is readable; in batch mode the output is given and writable; there
      is at least one thread; and the throughput is -1 or positive. */
  lemma PassesIff(env: Arguments.Env, ns: Arguments.Namespace, readable: set<string>, writable: set<string>)
    ensures Validate(env, ns, readable, writable) == Passed <==>
      && GetBoolean(env, ns, GEN_CONFIG) == Java.Some(false)
      && GetString(env, ns, RUNTIME_MODE).Some?
      && var batch := IsBatch(GetString(env, ns, RUNTIME_MODE).value);
         && GetString(env, ns, PAYLOAD_TEMPLATE).Some? && GetString(env, ns, PAYLOAD_TEMPLATE).value in readable
         && (!batch ==> GetString(env, ns, TOPIC).Some? && GetString(env, ns, PRODUCER_CONFIG).Some?
                        && GetString(env, ns, PRODUCER_CONFIG).value in readable)
         && (batch ==> GetString(env, ns, OUTPUT_PATH).Some? && GetString(env, ns, OUTPUT_PATH).value in writable)
         && GetInt(env, ns, NUM_PRODUCERS).Ok? && GetInt(env, ns, NUM_PRODUCERS).value.Some?
         && GetInt(env, ns, NUM_PRODUCERS).value.value >= 1
         && GetInt(env, ns, THROUGHPUT).Ok? && GetInt(env, ns, THROUGHPUT).value.Some?
         && (GetInt(env, ns, THROUGHPUT).value.value >= 1 || GetInt(env, ns, THROUGHPUT).value.value == -1)
  {
  }

  /** Each getter reads the environment first: a variable that is set decides,
      one that is unset leaves the argument. */
  lemma GettersPreferEnvironment(env: Arguments.Env, ns: Arguments.Namespace, key: string, value: string, n: int)
    requires Java.IsInt(n)
    ensures GetString(env[key := value], ns, key) == Java.Some(value)
    ensures GetString(env - {key}, ns, key) == Arguments.NsString(ns, key)
    ensures GetInt(env[key := Java.IntToString(n)], ns, key) == Java.Ok(Java.Some(n))
    ensures GetInt(env - {key}, ns, key) == Java.Ok(Arguments.NsInt(ns, key))
    ensures GetLong(env[key := Java.IntToString(n)], ns, key) == Java.Ok(Java.Some(n))
    ensures GetLong(env - {key}, ns, key) == Java.Ok(Arguments.NsLong(ns, key))
    ensures GetBoolean(env[key := "TRUE"], ns, key) == Java.Some(true)
    ensures GetBoolean(env[key := "yes"], ns, key) == Java.Some(false)
    ensures GetBoolean(env - {key}, ns, key) == Arguments.NsBoolean(ns, key)
  {
    Java.ParseIntOfToString(n);
    Java.ParseLongOfToString(n);
  }

  /** A malformed number in the environment makes the getter throw rather than
      fall back to the argument. */
  lemma MalformedNumberThrows(env: Arguments.Env, ns: Arguments.Namespace, key: string)
    requires key in env && Java.ParseInt(env[key]).Err?
    ensures GetInt(env, ns, key) == Java.Err(Java.NumberFormat)
  {
  }
}
