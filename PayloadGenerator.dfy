/** The sequential branches of the template helpers that
    com.ibm.ei.producer.PayloadGenerator registers: fake-date, fake-datetime,
    fake-int and fake-long. Each helper kind has a map from a generator id to
    the generator it created on the first sequential request for that id; later
    requests with the id reuse the stored generator, whatever bounds they pass,
    and advance it once. Non-sequential requests are random draws between the
    bounds and leave every map alone. */
module PayloadGenerators {
  import Java
  import FakeNumbers
  import FakeDates

  /** Calendar.add(HOUR, 1): the default end of a date range is an hour after now. */
  const HOUR_MILLIS: int := 3_600_000

  /** A start or end hash argument of a date helper: absent, a string the date
      format parses to an epoch-millisecond value, or one it cannot parse. */
  datatype DateArg = Absent | Given(millis: int) | Unparseable

  /** The hash arguments a helper call receives (each may be missing). */
  datatype HelperArgs = HelperArgs(
    sequential: Java.Option<bool>,
    id: Java.Option<int>,
    increment: Java.Option<int>,
    min: Java.Option<int>,
    max: Java.Option<int>,
    start: DateArg,
    end: DateArg)

  /** What a helper returns: the next value of a sequential generator, or a
      random draw (made by the Faker library) between the two bounds given. */
  datatype HelperValue = Next(value: int) | RandomBetween(lo: int, hi: int)

  /** options.hash(key, default). */
  function OrElse(o: Java.Option<int>, default: int): int
  {
    if o.Some? then o.value else default
  }

  /** sequential defaults to false. */
  predicate IsSequential(args: HelperArgs)
  {
    args.sequential == Java.Some(true)
  }

  /** id defaults to 0. */
  function IdOf(args: HelperArgs): int
  {
    OrElse(args.id, 0)
  }

  /** A start or end argument parsed, or the clock default when absent; a
      ParseException comes out wrapped in an unchecked exception. */
  function ResolveDate(arg: DateArg, default: int): Java.Result<int>
  {
    match arg
    case Absent => Java.Ok(default)
    case Given(ms) => Java.Ok(ms)
    case Unparseable => Java.Err(Java.Unchecked)
  }

  type NumberTable = map<int, FakeNumbers.NumberState>
  type DateTable = map<int, FakeDates.DateState>

  // ----- the registry as values -----

  /** A sequential numeric request for id: the stored generator, or a new one
      from this call's bounds, is stored under id and advanced once. */
  function NumberRequest(table: NumberTable, id: int, start: int, end: int, increment: int): (r: (NumberTable, int))
    ensures r.0.Keys == table.Keys + {id}
    ensures forall k :: k in table && k != id ==> r.0[k] == table[k]
    ensures r.1 == r.0[id].next
  {
    var g := FakeNumbers.Advance(if id in table then table[id] else FakeNumbers.Initial(start, end, increment));
    (table[id := g], g.next)
  }

  /** A fake-int or fake-long call: the table after it and what it returns.
      The bounds default to the kind's range, the increment to 1. */
  function NumberHelper(table: NumberTable, args: HelperArgs, minDefault: int, maxDefault: int): (NumberTable, HelperValue)
  {
    var min := OrElse(args.min, minDefault);
    var max := OrElse(args.max, maxDefault);
    if IsSequential(args) then
      var r := NumberRequest(table, IdOf(args), min, max, OrElse(args.increment, 1));
      (r.0, Next(r.1))
    else
      (table, RandomBetween(min, max))
  }

  /** A sequential date request for id: as for numbers, with a new generator
      splitting [start, end] into numRecords intervals. */
  function DateRequest(table: DateTable, id: int, startMillis: int, endMillis: int, numRecords: int): (r: (DateTable, int))
    requires numRecords != 0
    ensures r.0.Keys == table.Keys + {id}
    ensures forall k :: k in table && k != id ==> r.0[k] == table[k]
    ensures r.1 == r.0[id].cursor
  {
    var g := FakeDates.AdvanceDate(if id in table then table[id] else FakeDates.InitialDate(startMillis, endMillis, numRecords));
    (table[id := g], g.cursor)
  }

  /** A fake-date or fake-datetime call at clock time now, with
      config.getNumRecords() returning numRecords. Both dates are parsed first;
      on a sequential call a new FakeDate is built even when one is stored
      (Optional.orElse evaluates its argument), so a null numRecords (unboxing)
      or a zero one (Duration.dividedBy) throws on every sequential call. */
  function DateHelper(table: DateTable, args: HelperArgs, now: int, numRecords: Java.Option<int>): Java.Result<(DateTable, HelperValue)>
  {
    var start :- ResolveDate(args.start, now);
    var end :- ResolveDate(args.end, now + HOUR_MILLIS);
    if !IsSequential(args) then
      Java.Ok((table, RandomBetween(start, end)))
    else if numRecords.None? then
      Java.Err(Java.NullPointer)
    else if numRecords.value == 0 then
      Java.Err(Java.Arithmetic)
    else
      var r := DateRequest(table, IdOf(args), start, end, numRecords.value);
      Java.Ok((r.0, Next(r.1)))
  }

  // ----- properties of the registry -----

  /** A stored generator is reused: the bounds of a later request make no difference. */
  lemma StoredNumberIgnoresBounds(table: NumberTable, a: HelperArgs, b: HelperArgs, minDefault: int, maxDefault: int)
    requires IsSequential(a) && IsSequential(b) && IdOf(a) == IdOf(b) && IdOf(a) in table
    ensures NumberHelper(table, a, minDefault, maxDefault) == NumberHelper(table, b, minDefault, maxDefault)
  {
  }

  lemma StoredDateIgnoresBounds(table: DateTable, a: HelperArgs, b: HelperArgs, now: int, later: int, n: int)
    requires IsSequential(a) && IsSequential(b) && IdOf(a) == IdOf(b) && IdOf(a) in table
    requires !a.start.Unparseable? && !a.end.Unparseable? && !b.start.Unparseable? && !b.end.Unparseable?
    requires n != 0
    ensures DateHelper(table, a, now, Java.Some(n)) == DateHelper(table, b, later, Java.Some(n))
  {
  }

  /** Exactly when a date helper call throws, and what. */
  lemma DateHelperFailures(table: DateTable, args: HelperArgs, now: int, numRecords: Java.Option<int>)
    ensures DateHelper(table, args, now, numRecords).Err? <==>
      args.start.Unparseable? || args.end.Unparseable?
      || (IsSequential(args) && (numRecords.None? || numRecords.value == 0))
    ensures args.start.Unparseable? || args.end.Unparseable? ==>
      DateHelper(table, args, now, numRecords) == Java.Err(Java.Unchecked)
    ensures !args.start.Unparseable? && !args.end.Unparseable? && IsSequential(args) && numRecords.None? ==>
      DateHelper(table, args, now, numRecords) == Java.Err(Java.NullPointer)
    ensures !args.start.Unparseable? && !args.end.Unparseable? && IsSequential(args) && numRecords == Java.Some(0) ==>
      DateHelper(table, args, now, numRecords) == Java.Err(Java.Arithmetic)
  {
  }

  /** Without the sequential flag a date helper draws between start (default
      now) and end (default an hour later) and leaves the table alone. */
  lemma RandomDateDefaults(table: DateTable, args: HelperArgs, now: int, numRecords: Java.Option<int>)
    requires !IsSequential(args)
    ensures args.start.Absent? && args.end.Absent? ==>
      DateHelper(table, args, now, numRecords) == Java.Ok((table, RandomBetween(now, now + HOUR_MILLIS)))
    ensures args.start.Given? && args.end.Absent? ==>
      DateHelper(table, args, now, numRecords) == Java.Ok((table, RandomBetween(args.start.millis, now + HOUR_MILLIS)))
    ensures args.start.Absent? && args.end.Given? ==>
      DateHelper(table, args, now, numRecords) == Java.Ok((table, RandomBetween(now, args.end.millis)))
    ensures args.start.Given? && args.end.Given? ==>
      DateHelper(table, args, now, numRecords) == Java.Ok((table, RandomBetween(args.start.millis, args.end.millis)))
  {
  }

  /** A request targets id when it is sequential and names id. */
  predicate Targets(args: HelperArgs, id: int)
  {
    IsSequential(args) && IdOf(args) == id
  }

  /** The number table after a sequence of calls of one helper kind. */
  function ReplayNumbers(table: NumberTable, calls: seq<HelperArgs>, minDefault: int, maxDefault: int): NumberTable
  {
    if calls == [] then table
    else NumberHelper(ReplayNumbers(table, calls[..|calls| - 1], minDefault, maxDefault), calls[|calls| - 1], minDefault, maxDefault).0
  }

  /** How many of the calls target id. */
  function CountFor(calls: seq<HelperArgs>, id: int): nat
  {
    if calls == [] then 0
    else CountFor(calls[..|calls| - 1], id) + (if Targets(calls[|calls| - 1], id) then 1 else 0)
  }

  /** The first call that targets id. */
  function FirstFor(calls: seq<HelperArgs>, id: int): (first: HelperArgs)
    requires CountFor(calls, id) > 0
    ensures first in calls && Targets(first, id)
  {
    if CountFor(calls[..|calls| - 1], id) > 0 then FirstFor(calls[..|calls| - 1], id) else calls[|calls| - 1]
  }

  /** Keys are only added; a key no call targets keeps its entry, or stays absent. */
  lemma {:induction false} UntargetedEntryKept(table: NumberTable, calls: seq<HelperArgs>, minDefault: int, maxDefault: int, id: int)
    requires CountFor(calls, id) == 0
    ensures table.Keys <= ReplayNumbers(table, calls, minDefault, maxDefault).Keys
    ensures id in ReplayNumbers(table, calls, minDefault, maxDefault) <==> id in table
    ensures id in table ==> ReplayNumbers(table, calls, minDefault, maxDefault)[id] == table[id]
  {
    if calls != [] {
      UntargetedEntryKept(table, calls[..|calls| - 1], minDefault, maxDefault, id);
    }
  }

  /** Keys are only added. */
  lemma {:induction false} KeysOnlyGrow(table: NumberTable, calls: seq<HelperArgs>, minDefault: int, maxDefault: int)
    ensures table.Keys <= ReplayNumbers(table, calls, minDefault, maxDefault).Keys
  {
    if calls != [] {
      KeysOnlyGrow(table, calls[..|calls| - 1], minDefault, maxDefault);
    }
  }

  /** Calls without the sequential flag change nothing. */
  lemma {:induction false} RandomCallsKeepTable(table: NumberTable, calls: seq<HelperArgs>, minDefault: int, maxDefault: int)
    requires forall i :: 0 <= i < |calls| ==> !IsSequential(calls[i])
    ensures ReplayNumbers(table, calls, minDefault, maxDefault) == table
  {
    if calls != [] {
      RandomCallsKeepTable(table, calls[..|calls| - 1], minDefault, maxDefault);
    }
  }

  /** Whatever else is requested in between, the generator for a new id is the
      one its first request built, advanced once per request that targets it. */
  lemma {:induction false} FirstRequestFixesGenerator(table: NumberTable, calls: seq<HelperArgs>, minDefault: int, maxDefault: int, id: int)
    requires id !in table && CountFor(calls, id) > 0
    ensures var first := FirstFor(calls, id);
      var t := ReplayNumbers(table, calls, minDefault, maxDefault);
      id in t && t[id] == FakeNumbers.After(OrElse(first.min, minDefault), OrElse(first.max, maxDefault), OrElse(first.increment, 1), CountFor(calls, id))
  {
    var prefix := calls[..|calls| - 1];
    var last := calls[|calls| - 1];
    if CountFor(prefix, id) == 0 {
      UntargetedEntryKept(table, prefix, minDefault, maxDefault, id);
    } else {
      FirstRequestFixesGenerator(table, prefix, minDefault, maxDefault, id);
    }
  }

  /** A call of a date helper kind: its arguments and the clock time it ran at. */
  datatype DateCall = DateCall(args: HelperArgs, now: int)

  /** The date table after a sequence of calls, or the first exception. */
  function ReplayDates(table: DateTable, calls: seq<DateCall>, numRecords: Java.Option<int>): Java.Result<DateTable>
  {
    if calls == [] then Java.Ok(table)
    else
      var t :- ReplayDates(table, calls[..|calls| - 1], numRecords);
      var r :- DateHelper(t, calls[|calls| - 1].args, calls[|calls| - 1].now, numRecords);
      Java.Ok(r.0)
  }

  function DateCountFor(calls: seq<DateCall>, id: int): nat
  {
    if calls == [] then 0
    else DateCountFor(calls[..|calls| - 1], id) + (if Targets(calls[|calls| - 1].args, id) then 1 else 0)
  }

  function DateFirstFor(calls: seq<DateCall>, id: int): (first: DateCall)
    requires DateCountFor(calls, id) > 0
    ensures first in calls && Targets(first.args, id)
  {
    if DateCountFor(calls[..|calls| - 1], id) > 0 then DateFirstFor(calls[..|calls| - 1], id) else calls[|calls| - 1]
  }

  /** Every date argument parses. */
  predicate AllParse(calls: seq<DateCall>)
  {
    forall i :: 0 <= i < |calls| ==> !calls[i].args.start.Unparseable? && !calls[i].args.end.Unparseable?
  }

  /** With parseable dates and a non-zero record count, no call throws; a key no
      call targets keeps its entry, or stays absent. */
  lemma {:induction false} UntargetedDateKept(table: DateTable, calls: seq<DateCall>, n: int, id: int)
    requires AllParse(calls) && n != 0 && DateCountFor(calls, id) == 0
    ensures ReplayDates(table, calls, Java.Some(n)).Ok?
    ensures id in ReplayDates(table, calls, Java.Some(n)).value <==> id in table
    ensures id in table ==> ReplayDates(table, calls, Java.Some(n)).value[id] == table[id]
  {
    if calls != [] {
      UntargetedDateKept(table, calls[..|calls| - 1], n, id);
    }
  }

  /** The sequential date generator for a new id: built from its first
      request's start and end (or that call's clock defaults), advanced once per
      request that targets it. */
  lemma {:induction false} FirstRequestFixesDate(table: DateTable, calls: seq<DateCall>, n: int, id: int)
    requires AllParse(calls) && n != 0
    requires id !in table && DateCountFor(calls, id) > 0
    ensures var first := DateFirstFor(calls, id);
      var t := ReplayDates(table, calls, Java.Some(n));
      t.Ok? && id in t.value
      && t.value[id] == FakeDates.DateAfter(
           ResolveDate(first.args.start, first.now).value,
           ResolveDate(first.args.end, first.now + HOUR_MILLIS).value,
           n, DateCountFor(calls, id))
  {
    var prefix := calls[..|calls| - 1];
    if DateCountFor(prefix, id) == 0 {
      UntargetedDateKept(table, prefix, n, id);
    } else {
      FirstRequestFixesDate(table, prefix, n, id);
    }
  }

  // ----- the registry as objects -----

  ghost predicate Injective<T>(m: map<int, T>)
  {
    forall i, j :: i in m && j in m && i != j ==> m[i] != m[j]
  }

  /** Storing a value under a new key adds exactly that value. */
  lemma AddedValue<T>(m: map<int, T>, k: int, v: T)
    requires k !in m
    ensures m[k := v].Values == m.Values + {v}
  {
    var n := m[k := v];
    assert forall j :: j in m ==> n[j] == m[j];
    assert n[k] == v;
  }

  /** One of the HashMap<Integer, FakeNumber> tables (fakeInts, fakeLongs). */
  class NumberMap {
    var entries: map<int, FakeNumbers.FakeNumber>

    /** No generator is stored under two ids. */
    ghost predicate Valid()
      reads this
    {
      Injective(entries)
    }

    /** The state of every stored generator. */
    function States(): NumberTable
      reads this, entries.Values
    {
      map k | k in entries :: entries[k].State()
    }

    constructor ()
      ensures Valid() && entries == map[]
    {
      entries := map[];
    }

    /** get(id), or a new FakeNumber from the bounds; put(id, it); next(). */
    method NextFor(id: int, start: int, end: int, increment: int) returns (v: int)
      requires Valid()
      modifies this, if id in entries then {entries[id]} else {}
      ensures Valid()
      ensures id in old(entries) ==> entries == old(entries)
      ensures id !in old(entries) ==> id in entries && entries == old(entries)[id := entries[id]] && fresh(entries[id])
      ensures entries.Values == old(entries.Values) + {entries[id]}
      ensures (States(), v) == NumberRequest(old(States()), id, start, end, increment)
    {
      var g: FakeNumbers.FakeNumber;
      if id in entries {
        g := entries[id];
      } else {
        g := new FakeNumbers.FakeNumber(start, end, increment);
        AddedValue(entries, id, g);
      }
      ghost var before := States();
      assert forall k :: k in entries && k != id ==> entries[k] != g;
      entries := entries[id := g];
      v := g.Next();
      assert States() == before[id := g.State()];
    }
  }

  /** One of the HashMap<Integer, FakeDate> tables (fakeDates, fakeTimestamps). */
  class DateMap {
    var entries: map<int, FakeDates.FakeDate>

    ghost predicate Valid()
      reads this
    {
      Injective(entries)
    }

    function States(): DateTable
      reads this, entries.Values
    {
      map k | k in entries :: entries[k].State()
    }

    constructor ()
      ensures Valid() && entries == map[]
    {
      entries := map[];
    }

    /** get(id), or else created (the FakeDate the call has just built);
        put(id, it); getTime(). */
    method NextFor(id: int, created: FakeDates.FakeDate) returns (v: int)
      requires Valid()
      requires created.Valid() && created.calls == 0 && created !in entries.Values
      modifies this, if id in entries then {entries[id]} else {created}
      ensures Valid()
      ensures id in old(entries) ==> entries == old(entries) && created.State() == old(created.State())
      ensures id !in old(entries) ==> entries == old(entries)[id := created]
      ensures entries.Values == old(entries.Values) + {entries[id]}
      ensures (States(), v)
           == DateRequest(old(States()), id, created.startMillis, created.endMillis, created.numRecords)
    {
      var g := if id in entries then entries[id] else created;
      if id !in entries {
        AddedValue(entries, id, g);
      }
      ghost var before := States();
      assert forall k :: k in entries && k != id ==> entries[k] != g;
      entries := entries[id := g];
      var stamp := FakeDates.TimestampOf(g);
      v := stamp.millis;
      assert States() == before[id := g.State()];
    }
  }

  /** A fake-int or fake-long call on its table. */
  method NumberHelperOn(m: NumberMap, args: HelperArgs, minDefault: int, maxDefault: int) returns (r: HelperValue)
    requires m.Valid()
    modifies m, m.entries.Values
    ensures m.Valid()
    ensures forall k :: k in old(m.entries) ==> k in m.entries && m.entries[k] == old(m.entries[k])
    ensures forall o :: o in m.entries.Values ==> o in old(m.entries.Values) || fresh(o)
    ensures (m.States(), r) == NumberHelper(old(m.States()), args, minDefault, maxDefault)
  {
    var min := OrElse(args.min, minDefault);
    var max := OrElse(args.max, maxDefault);
    if !IsSequential(args) {
      return RandomBetween(min, max);
    }
    var v := m.NextFor(IdOf(args), min, max, OrElse(args.increment, 1));
    r := Next(v);
  }

  /** A fake-date or fake-datetime call on its table. */
  method DateHelperOn(m: DateMap, args: HelperArgs, now: int, numRecords: Java.Option<int>) returns (r: Java.Result<HelperValue>)
    requires m.Valid()
    modifies m, m.entries.Values
    ensures m.Valid()
    ensures forall k :: k in old(m.entries) ==> k in m.entries && m.entries[k] == old(m.entries[k])
    ensures forall o :: o in m.entries.Values ==> o in old(m.entries.Values) || fresh(o)
    ensures var spec := DateHelper(old(m.States()), args, now, numRecords);
      if spec.Ok? then r == Java.Ok(spec.value.1) && m.States() == spec.value.0
      else r == Java.Err(spec.error) && m.States() == old(m.States())
  {
    var start := ResolveDate(args.start, now);
    if start.Err? {
      return Java.Err(start.error);
    }
    var end := ResolveDate(args.end, now + HOUR_MILLIS);
    if end.Err? {
      return Java.Err(end.error);
    }
    if !IsSequential(args) {
      return Java.Ok(RandomBetween(start.value, end.value));
    }
    if numRecords.None? {
      return Java.Err(Java.NullPointer);
    }
    var startDate := new FakeDates.Date(start.value);
    var endDate := new FakeDates.Date(end.value);
    var created := FakeDates.Create(startDate, endDate, numRecords.value);
    if created.Err? {
      return Java.Err(created.error);
    }
    var v := m.NextFor(IdOf(args), created.value);
    r := Java.Ok(Next(v));
  }

  /** The helper registry: four independent tables. */
  class PayloadGenerator {
    const fakeDates: DateMap
    const fakeTimestamps: DateMap
    const fakeInts: NumberMap
    const fakeLongs: NumberMap

    /** Every table is consistent, and no generator object is in two tables. */
    ghost predicate Valid()
      reads this, fakeDates, fakeTimestamps, fakeInts, fakeLongs
      reads fakeDates.entries.Values, fakeTimestamps.entries.Values, fakeInts.entries.Values, fakeLongs.entries.Values
    {
      fakeDates != fakeTimestamps && fakeInts != fakeLongs
      && fakeDates.Valid() && fakeTimestamps.Valid() && fakeInts.Valid() && fakeLongs.Valid()
      && fakeDates.entries.Values !! fakeTimestamps.entries.Values
      && fakeInts.entries.Values !! fakeLongs.entries.Values
    }

    /** A new registry's tables are all empty. */
    constructor ()
      ensures Valid()
      ensures fakeDates.entries == map[] && fakeTimestamps.entries == map[]
      ensures fakeInts.entries == map[] && fakeLongs.entries == map[]
    {
      fakeDates := new DateMap();
      fakeTimestamps := new DateMap();
      fakeInts := new NumberMap();
      fakeLongs := new NumberMap();
    }

    /** The fake-int helper: int bounds. Only fakeInts changes. */
    method FakeInt(args: HelperArgs) returns (r: HelperValue)
      requires Valid()
      modifies fakeInts, fakeInts.entries.Values
      ensures Valid()
      ensures fakeLongs.States() == old(fakeLongs.States())
      ensures fakeDates.States() == old(fakeDates.States()) && fakeTimestamps.States() == old(fakeTimestamps.States())
      ensures forall k :: k in old(fakeInts.entries) ==> k in fakeInts.entries && fakeInts.entries[k] == old(fakeInts.entries[k])
      ensures (fakeInts.States(), r) == NumberHelper(old(fakeInts.States()), args, Java.INT_MIN, Java.INT_MAX)
    {
      r := NumberHelperOn(fakeInts, args, Java.INT_MIN, Java.INT_MAX);
    }

    /** The fake-long helper: long bounds. Only fakeLongs changes. */
    method FakeLong(args: HelperArgs) returns (r: HelperValue)
      requires Valid()
      modifies fakeLongs, fakeLongs.entries.Values
      ensures Valid()
      ensures fakeInts.States() == old(fakeInts.States())
      ensures fakeDates.States() == old(fakeDates.States()) && fakeTimestamps.States() == old(fakeTimestamps.States())
      ensures forall k :: k in old(fakeLongs.entries) ==> k in fakeLongs.entries && fakeLongs.entries[k] == old(fakeLongs.entries[k])
      ensures (fakeLongs.States(), r) == NumberHelper(old(fakeLongs.States()), args, Java.LONG_MIN, Java.LONG_MAX)
    {
      r := NumberHelperOn(fakeLongs, args, Java.LONG_MIN, Java.LONG_MAX);
    }

    /** The fake-date helper (dates in the date format). Only fakeDates changes. */
    method FakeDate(args: HelperArgs, now: int, numRecords: Java.Option<int>) returns (r: Java.Result<HelperValue>)
      requires Valid()
      modifies fakeDates, fakeDates.entries.Values
      ensures Valid()
      ensures fakeTimestamps.States() == old(fakeTimestamps.States())
      ensures fakeInts.States() == old(fakeInts.States()) && fakeLongs.States() == old(fakeLongs.States())
      ensures forall k :: k in old(fakeDates.entries) ==> k in fakeDates.entries && fakeDates.entries[k] == old(fakeDates.entries[k])
      ensures var spec := DateHelper(old(fakeDates.States()), args, now, numRecords);
        if spec.Ok? then r == Java.Ok(spec.value.1) && fakeDates.States() == spec.value.0
        else r == Java.Err(spec.error) && fakeDates.States() == old(fakeDates.States())
    {
      r := DateHelperOn(fakeDates, args, now, numRecords);
    }

    /** The fake-datetime helper (dates in the timestamp format). Only fakeTimestamps changes. */
    method FakeDatetime(args: HelperArgs, now: int, numRecords: Java.Option<int>) returns (r: Java.Result<HelperValue>)
      requires Valid()
      modifies fakeTimestamps, fakeTimestamps.entries.Values
      ensures Valid()
      ensures fakeDates.States() == old(fakeDates.States())
      ensures fakeInts.States() == old(fakeInts.States()) && fakeLongs.States() == old(fakeLongs.States())
      ensures forall k :: k in old(fakeTimestamps.entries) ==> k in fakeTimestamps.entries && fakeTimestamps.entries[k] == old(fakeTimestamps.entries[k])
      ensures var spec := DateHelper(old(fakeTimestamps.States()), args, now, numRecords);
        if spec.Ok? then r == Java.Ok(spec.value.1) && fakeTimestamps.States() == spec.value.0
        else r == Java.Err(spec.error) && fakeTimestamps.States() == old(fakeTimestamps.States())
    {
      r := DateHelperOn(fakeTimestamps, args, now, numRecords);
    }
  }
}
