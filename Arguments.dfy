/** The two sources of settings the command-line entry points read: the
    argparse4j Namespace of parsed arguments and the process environment
    (System.getenv()), and the `if (env.containsKey(KEY)) setX(...)` step with
    which every configuration object lets the environment override an argument. */
module Arguments {
  import Java

  /** The process environment: variable names to their (never null) values. */
  type Env = map<string, string>

  /** A parsed argparse4j Namespace: the value stored under each destination,
      by its declared type. A destination missing from its map holds null. */
  datatype Namespace = Namespace(
    strings: map<string, string>,
    ints: map<string, int>,
    longs: map<string, int>,
    bools: map<string, bool>)

  /** Namespace.getString. */
  function NsString(ns: Namespace, key: string): Java.Option<string>
  {
    if key in ns.strings then Java.Some(ns.strings[key]) else Java.None
  }

  /** Namespace.getInt. */
  function NsInt(ns: Namespace, key: string): Java.Option<int>
  {
    if key in ns.ints then Java.Some(ns.ints[key]) else Java.None
  }

  /** Namespace.getLong. */
  function NsLong(ns: Namespace, key: string): Java.Option<int>
  {
    if key in ns.longs then Java.Some(ns.longs[key]) else Java.None
  }

  /** Namespace.getBoolean. */
  function NsBoolean(ns: Namespace, key: string): Java.Option<bool>
  {
    if key in ns.bools then Java.Some(ns.bools[key]) else Java.None
  }

  /** A configuration object's fields after overrideWithEnvVars, and the
      exception that cut the overriding short, if any: the setters that ran
      before it keep their effect. */
  datatype Applied<T> = Applied(fields: T, error: Java.Option<Java.Exception>)

  /** A String field after `if (env.containsKey(key)) setField(env.get(key))`. */
  function OverrideString(current: Java.Option<string>, env: Env, key: string): Java.Option<string>
  {
    if key in env then Java.Some(env[key]) else current
  }

  /** An Integer field after `if (env.containsKey(key)) setField(Integer.parseInt(env.get(key)))`:
      the field, or the NumberFormatException that parseInt throws before the setter runs. */
  function OverrideInt(current: Java.Option<int>, env: Env, key: string): Java.Result<Java.Option<int>>
  {
    if key !in env then Java.Ok(current)
    else
      match Java.ParseInt(env[key])
      case Ok(n) => Java.Ok(Java.Some(n))
      case Err(e) => Java.Err(e)
  }

  /** Whether the environment holds a value for `key` that Integer.parseInt rejects. */
  predicate Malformed(env: Env, key: string)
  {
    key in env && Java.ParseInt(env[key]).Err?
  }

  /** The environment value wins over the argument exactly when it is present. */
  lemma OverrideStringPrecedence(current: Java.Option<string>, env: Env, key: string, value: string)
    ensures OverrideString(current, env[key := value], key) == Java.Some(value)
    ensures OverrideString(current, env - {key}, key) == current
  {
  }

  /** An integer override fails exactly on a malformed value, with a
      NumberFormatException, and otherwise stores the parsed value; a value that
      Integer.toString rendered comes back unchanged. */
  lemma OverrideIntCases(current: Java.Option<int>, env: Env, key: string)
    ensures OverrideInt(current, env, key).Err? <==> Malformed(env, key)
    ensures OverrideInt(current, env, key).Err? ==> OverrideInt(current, env, key).error == Java.NumberFormat
    ensures key !in env ==> OverrideInt(current, env, key) == Java.Ok(current)
    ensures key in env && !Malformed(env, key) ==>
      OverrideInt(current, env, key) == Java.Ok(Java.Some(Java.ParseInt(env[key]).value))
  {
  }

  lemma OverrideIntOfRendered(current: Java.Option<int>, env: Env, key: string, n: int)
    requires Java.IsInt(n) && key in env && env[key] == Java.IntToString(n)
    ensures OverrideInt(current, env, key) == Java.Ok(Java.Some(n))
  {
    Java.ParseIntOfToString(n);
  }
}
