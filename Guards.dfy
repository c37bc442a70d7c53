/** The argument checks that the entry points (Configuration.validate,
    Runner.main and both Producer.main methods) run before doing any work: a
    chain of guards tried in order, the first one that fails deciding the
    message shown to the user. */
module Guards {
  import Java

  /** The message of a failed check: runner.argsMissing, runner.invalidPath,
      runner.invalidThreads, runner.invalidThroughput (or their producer.* twins). */
  datatype Reason = ArgsMissing | InvalidPath | InvalidThreads | InvalidThroughput

  /** One guard of a chain: whether its condition holds, and its message. */
  datatype Check = Check(fails: bool, reason: Reason)

  /** The message of the first failing guard, or None when every guard passes. */
  function FirstFailure(checks: seq<Check>): (r: Java.Option<Reason>)
    ensures r.None? <==> forall i :: 0 <= i < |checks| ==> !checks[i].fails
    ensures r.Some? ==> exists i :: 0 <= i < |checks| && checks[i].fails && checks[i].reason == r.value
                                  && forall j :: 0 <= j < i ==> !checks[j].fails
  {
    if checks == [] then Java.None
    else if checks[0].fails then Java.Some(checks[0].reason)
    else
      var r := FirstFailure(checks[1..]);
      assert forall i :: 1 <= i < |checks| ==> checks[i] == checks[1..][i - 1];
      r
  }

  /** Every check before a failing one passes, so that one decides. */
  lemma {:induction false} EarliestFailureDecides(checks: seq<Check>, i: nat)
    requires i < |checks| && checks[i].fails
    requires forall j :: 0 <= j < i ==> !checks[j].fails
    ensures FirstFailure(checks) == Java.Some(checks[i].reason)
  {
    if i > 0 {
      assert forall j :: 0 <= j < i - 1 ==> !checks[1..][j].fails by {
        forall j | 0 <= j < i - 1 ensures !checks[1..][j].fails {
          assert checks[1..][j] == checks[j + 1];
        }
      }
      EarliestFailureDecides(checks[1..], i - 1);
    }
  }

  /** The throughput test of Configuration.validate: anything below 1 except -1 is rejected. */
  predicate ThroughputRejectedByValidate(throughput: int)
  {
    throughput < 1 && throughput != -1
  }

  /** The throughput test of Runner.main and the Producer.main methods. */
  predicate ThroughputRejectedByMain(throughput: int)
  {
    throughput == 0 || throughput < -1
  }

  /** Both spellings reject the same values: those other than -1 and the positive ones. */
  lemma ThroughputRulesAgree(throughput: int)
    ensures ThroughputRejectedByValidate(throughput) <==> ThroughputRejectedByMain(throughput)
    ensures !ThroughputRejectedByMain(throughput) <==> throughput == -1 || throughput >= 1
  {
  }

  /** The guard chain both Producer.main methods run unless genConfig is set:
      a null topic, config path or template path, then fewer than one thread,
      then a throughput of 0 or below -1. Comparing a null Integer unboxes it
      and throws NullPointerException. Ok(None) means every check passed. */
  function MainGuard(topic: Java.Option<string>, config: Java.Option<string>, template: Java.Option<string>,
                     threads: Java.Option<int>, throughput: Java.Option<int>): (r: Java.Result<Java.Option<Reason>>)
    ensures r.Err? ==> r.error == Java.NullPointer
    ensures topic.None? || config.None? || template.None? ==> r == Java.Ok(Java.Some(ArgsMissing))
    ensures r == Java.Ok(Java.None) <==>
      topic.Some? && config.Some? && template.Some? && threads.Some? && threads.value >= 1
      && throughput.Some? && (throughput.value == -1 || throughput.value >= 1)
  {
    if topic.None? || config.None? || template.None? then Java.Ok(Java.Some(ArgsMissing))
    else if threads.None? then Java.Err(Java.NullPointer)
    else if threads.value < 1 then Java.Ok(Java.Some(InvalidThreads))
    else if throughput.None? then Java.Err(Java.NullPointer)
    else if ThroughputRejectedByMain(throughput.value) then Java.Ok(Java.Some(InvalidThroughput))
    else Java.Ok(Java.None)
  }

  /** With both numbers present, MainGuard reports the first failing check of
      missing arguments, thread count and throughput. */
  lemma MainGuardIsFirstFailure(topic: Java.Option<string>, config: Java.Option<string>, template: Java.Option<string>,
                                threads: int, throughput: int)
    ensures MainGuard(topic, config, template, Java.Some(threads), Java.Some(throughput)) ==
      Java.Ok(FirstFailure([Check(topic.None? || config.None? || template.None?, ArgsMissing),
                            Check(threads < 1, InvalidThreads),
                            Check(ThroughputRejectedByMain(throughput), InvalidThroughput)]))
  {
    var checks := [Check(topic.None? || config.None? || template.None?, ArgsMissing),
                   Check(threads < 1, InvalidThreads),
                   Check(ThroughputRejectedByMain(throughput), InvalidThroughput)];
    if checks[0].fails {
      EarliestFailureDecides(checks, 0);
    } else if checks[1].fails {
      EarliestFailureDecides(checks, 1);
    } else if checks[2].fails {
      EarliestFailureDecides(checks, 2);
    } else {
      assert forall i :: 0 <= i < |checks| ==> !checks[i].fails;
    }
  }

  /** A null count is only reached, and only throws, when the checks before it pass. */
  lemma MainGuardThrowsOnlyOnNullNumbers(topic: Java.Option<string>, config: Java.Option<string>,
                                         template: Java.Option<string>, threads: Java.Option<int>,
                                         throughput: Java.Option<int>)
    ensures MainGuard(topic, config, template, threads, throughput).Err? <==>
      topic.Some? && config.Some? && template.Some?
      && (threads.None? || (threads.value >= 1 && throughput.None?))
    ensures MainGuard(topic, config, template, threads, throughput).Err? ==>
      MainGuard(topic, config, template, threads, throughput).error == Java.NullPointer
  {
  }
}
