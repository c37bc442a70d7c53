/** The worker of com.ibm.ei.producer.ProducerThread. Each worker drains the
    shared payload queue: per iteration it first increments its record counter,
    stops once the counter exceeds its quota numRecords / numThreads, otherwise
    polls the queue (stopping when it is empty), sends the payload, and pauses
    1000 / throughput milliseconds when a positive throughput is configured.
    The Kafka send is an append to a log of records and the pause is recorded,
    not slept. */
module ProducerThreads {
  import Java

  /** The shared LinkedBlockingQueue<String> of generated payloads, head first. */
  class MessageQueue {
    var items: seq<string>

    constructor (items: seq<string>)
      ensures this.items == items
    {
      this.items := items;
    }

    /** poll(): removes and returns the head, or null when the queue is empty. */
    method Poll() returns (head: Java.Option<string>)
      modifies this
      ensures old(items) == [] ==> head == Java.None && items == []
      ensures old(items) != [] ==> head == Java.Some(old(items)[0]) && items == old(items)[1..]
    {
      if items == [] {
        return Java.None;
      }
      head := Java.Some(items[0]);
      items := items[1..];
    }
  }

  /** A ProducerRecord: the configured topic (possibly null) and the payload. */
  datatype Record = Record(topic: Java.Option<string>, value: string)

  /** How run() ends: the loop stopped, Utils.loadProps threw the IOException
      that run() catches, or an unchecked exception escaped and ended the thread. */
  datatype RunOutcome = Stopped | LoadFailed | Crashed(error: Java.Exception)

  /** The per-worker record quota, numRecords / numThreads with Java's int division. */
  function Quota(numRecords: int, numThreads: int): int
    requires numThreads != 0
  {
    Java.IntDiv(numRecords, numThreads)
  }

  /** The pause after each send: Math.round of the int quotient 1000 / throughput. */
  function PauseMillis(throughput: int): int
    requires throughput > 0
  {
    Java.MathRoundInt(Java.IntDiv(1000, throughput))
  }

  /** How many payloads a worker with the given quota takes from a queue of
      `available` payloads. A quota of Integer.MAX_VALUE is never exceeded by
      an int counter, so such a worker drains the queue. */
  function SentCount(available: nat, quota: int): (n: nat)
    ensures n <= available
  {
    if quota == Java.INT_MAX then available else Java.Min(available, Java.Max(quota, 0))
  }

  /** The recorded pauses after n sends. */
  function Pauses(throughput: int, n: nat): (p: seq<int>)
    ensures throughput <= 0 ==> p == []
    ensures throughput > 0 ==> |p| == n && forall i :: 0 <= i < n ==> p[i] == PauseMillis(throughput)
  {
    if throughput <= 0 || n == 0 then [] else Pauses(throughput, n - 1) + [PauseMillis(throughput)]
  }

  /** Whether the quota can be computed: both Integers present and a non-zero divisor. */
  predicate QuotaDefined(numRecords: Java.Option<int>, numThreads: Java.Option<int>)
  {
    numRecords.Some? && numThreads.Some? && numThreads.value != 0
  }

  class ProducerThread {
    const name: string
    const queue: MessageQueue
    /** ProducerConfig.getTopic(), getNumThreads(), getThroughput() and
        PayloadConfig.getNumRecords(), each possibly null. */
    const topic: Java.Option<string>
    const numThreads: Java.Option<int>
    const throughput: Java.Option<int>
    const numRecords: Java.Option<int>
    /** The AtomicInteger numberRecordsSent. */
    var numberRecordsSent: int
    /** The AtomicBoolean running. */
    var running: bool
    /** The records handed to producer.send, in order. */
    var sent: seq<Record>
    /** The pauses computed after the sends, in order. */
    var pauses: seq<int>
    /** Whether start() has been called. */
    var started: bool
    /** Whether run() has left its loop normally. */
    ghost var stopped: bool

    /** The counter is an int, and a worker whose loop ended normally has it
        one ahead of the records it sent. */
    ghost predicate Valid()
      reads this
    {
      && Java.IsInt(numberRecordsSent)
      && (stopped ==> numberRecordsSent == Java.Wrap32(|sent| + 1))
    }

    constructor (name: string, queue: MessageQueue, topic: Java.Option<string>,
                 numThreads: Java.Option<int>, throughput: Java.Option<int>, numRecords: Java.Option<int>)
      ensures Valid()
      ensures this.name == name && this.queue == queue && this.topic == topic
      ensures this.numThreads == numThreads && this.throughput == throughput && this.numRecords == numRecords
      ensures numberRecordsSent == 0 && !running && sent == [] && pauses == [] && !started && !stopped
    {
      this.name := name;
      this.queue := queue;
      this.topic := topic;
      this.numThreads := numThreads;
      this.throughput := throughput;
      this.numRecords := numRecords;
      numberRecordsSent := 0;
      running := false;
      sent := [];
      pauses := [];
      started := false;
      stopped := false;
    }

    /** start(): hands the thread to the scheduler, which runs run() on it. */
    method Start()
      modifies this
      ensures started
      ensures numberRecordsSent == old(numberRecordsSent) && running == old(running)
      ensures sent == old(sent) && pauses == old(pauses) && stopped == old(stopped)
    {
      started := true;
    }

    /** run(), on the first (and only) start of the thread. `propsLoaded` says
        whether Utils.loadProps read the producer configuration file. */
    method Run(propsLoaded: bool) returns (outcome: RunOutcome)
      requires numberRecordsSent == 0 && !running && sent == [] && pauses == []
      modifies this, queue
      ensures Valid()
      ensures started == old(started)
      ensures stopped <==> outcome.Stopped?
      ensures !propsLoaded ==> outcome == LoadFailed
      ensures propsLoaded && throughput.None? ==> outcome == Crashed(Java.NullPointer)
      ensures propsLoaded && throughput.Some? && !QuotaDefined(numRecords, numThreads) ==>
        outcome == Crashed(if numRecords.None? || numThreads.None? then Java.NullPointer else Java.Arithmetic)
      ensures propsLoaded && throughput.Some? && QuotaDefined(numRecords, numThreads) ==> outcome == Stopped
      // an exception leaves the thread with nothing sent and `running` still set
      ensures !outcome.Stopped? ==> running && sent == [] && pauses == [] && queue.items == old(queue.items)
      ensures !outcome.Stopped? ==> numberRecordsSent == if outcome.Crashed? && throughput.Some? then 1 else 0
      ensures outcome.Stopped? ==>
        var n := SentCount(|old(queue.items)|, Quota(numRecords.value, numThreads.value));
        && !running
        && |sent| == n
        && (forall i :: 0 <= i < n ==> sent[i] == Record(topic, old(queue.items)[i]))
        && queue.items == old(queue.items)[n..]
        && numberRecordsSent == Java.Wrap32(n + 1)
        && pauses == Pauses(throughput.value, n)
    {
      stopped := false;
      running := true;
      if !propsLoaded {
        return LoadFailed;
      }
      if throughput.None? {
        return Crashed(Java.NullPointer);
      }
      outcome := SendLoop(throughput.value);
      if outcome.Stopped? {
        stopped := true;
      }
    }

    /** The while loop of run(), entered with `running` set and the throughput read. */
    method SendLoop(t: int) returns (outcome: RunOutcome)
      requires throughput == Java.Some(t) && running
      requires numberRecordsSent == 0 && sent == [] && pauses == []
      modifies this`numberRecordsSent, this`running, this`sent, this`pauses, queue
      ensures Java.IsInt(numberRecordsSent)
      ensures !QuotaDefined(numRecords, numThreads) ==>
        outcome == Crashed(if numRecords.None? || numThreads.None? then Java.NullPointer else Java.Arithmetic)
      ensures QuotaDefined(numRecords, numThreads) ==> outcome == Stopped
      ensures !outcome.Stopped? ==> running && sent == [] && pauses == [] && queue.items == old(queue.items)
      ensures !outcome.Stopped? ==> numberRecordsSent == 1
      ensures outcome.Stopped? ==>
        var n := SentCount(|old(queue.items)|, Quota(numRecords.value, numThreads.value));
        && !running
        && |sent| == n
        && (forall i :: 0 <= i < n ==> sent[i] == Record(topic, old(queue.items)[i]))
        && queue.items == old(queue.items)[n..]
        && numberRecordsSent == Java.Wrap32(n + 1)
        && pauses == Pauses(t, n)
    {
      ghost var initial := queue.items;
      ghost var q := if QuotaDefined(numRecords, numThreads) then Quota(numRecords.value, numThreads.value) else 0;
      ghost var defined := QuotaDefined(numRecords, numThreads);
      while running
        invariant Progress(initial, topic, t, q, defined, sent, queue.items, numberRecordsSent, running, pauses)
        decreases |queue.items| + if running then 1 else 0
      {
        ghost var before, prev := queue.items, numberRecordsSent;
        numberRecordsSent := Java.Wrap32(numberRecordsSent + 1);
        var recordCount := numberRecordsSent;
        if numRecords.None? || numThreads.None? {
          return Crashed(Java.NullPointer);
        }
        if numThreads.value == 0 {
          return Crashed(Java.Arithmetic);
        }
        if recordCount > Quota(numRecords.value, numThreads.value) {
          StopStep(initial, topic, t, q, sent, before, prev, numberRecordsSent, pauses);
          running := false;
          continue;
        }
        var payload := queue.Poll();
        if payload.None? {
          StopStep(initial, topic, t, q, sent, before, prev, numberRecordsSent, pauses);
          running := false;
          continue;
        }
        assert q == Quota(numRecords.value, numThreads.value) && queue.items == before[1..] && payload.value == before[0];
        SendStep(initial, topic, t, q, sent, before, prev, numberRecordsSent, pauses);
        sent := sent + [Record(topic, payload.value)];
        if t > 0 {
          pauses := pauses + [PauseMillis(t)];
        }
      }
      StopCount(|initial|, q, |sent|, queue.items == [], numberRecordsSent);
      outcome := Stopped;
    }

    /** messageCount(): the counter, which a worker whose loop ended normally
        leaves at one more than the records it sent. */
    function MessageCount(): (count: int)
      reads this
      requires Valid()
      ensures Java.IsInt(count)
      ensures count == numberRecordsSent
      ensures stopped ==> count == Java.Wrap32(|sent| + 1)
    {
      numberRecordsSent
    }

    /** interrupt(): clears `running`, so no further iteration starts. */
    method Interrupt()
      modifies this
      ensures !running
      ensures numberRecordsSent == old(numberRecordsSent) && sent == old(sent) && pauses == old(pauses)
      ensures stopped == old(stopped) && started == old(started)
    {
      running := false;
    }
  }

  /** What the loop of run() keeps: the records sent so far carry the first
      payloads of the initial queue, in order, and `rest` is what is left of it;
      the counter is the number sent, plus one once the loop has stopped; one
      pause is recorded per send when the throughput is positive; the quota is
      respected; and a stopped loop saw an empty queue or a counter past the
      quota. Without a computable quota the first iteration throws. */
  ghost predicate Progress(initial: seq<string>, topic: Java.Option<string>, t: int, quota: int, defined: bool,
                           sent: seq<Record>, rest: seq<string>, counter: int, running: bool, pauses: seq<int>)
  {
    && |sent| <= |initial|
    && rest == initial[|sent|..]
    && (forall i :: 0 <= i < |sent| ==> sent[i] == Record(topic, initial[i]))
    && Java.IsInt(counter)
    && counter == Java.Wrap32(|sent| + if running then 0 else 1)
    && pauses == Pauses(t, |sent|)
    && (!defined ==> running && sent == [] && counter == 0)
    && (quota != Java.INT_MAX ==> |sent| <= Java.Max(quota, 0))
    && (!running ==> rest == [] || counter > quota)
  }

  /** Stopping after the counter increment, on the quota or on an empty queue. */
  lemma StopStep(initial: seq<string>, topic: Java.Option<string>, t: int, quota: int,
                 sent: seq<Record>, rest: seq<string>, prev: int, counter: int, pauses: seq<int>)
    requires Progress(initial, topic, t, quota, true, sent, rest, prev, true, pauses)
    requires counter == Java.Wrap32(prev + 1)
    requires rest == [] || counter > quota
    ensures Progress(initial, topic, t, quota, true, sent, rest, counter, false, pauses)
  {
    Java.Wrap32Add(|sent|, 1);
  }

  /** Sending the head of the queue after a counter increment within the quota. */
  lemma SendStep(initial: seq<string>, topic: Java.Option<string>, t: int, quota: int,
                 sent: seq<Record>, rest: seq<string>, prev: int, counter: int, pauses: seq<int>)
    requires Progress(initial, topic, t, quota, true, sent, rest, prev, true, pauses)
    requires Java.IsInt(quota) && counter == Java.Wrap32(prev + 1)
    requires rest != [] && counter <= quota
    ensures Progress(initial, topic, t, quota, true, sent + [Record(topic, rest[0])], rest[1..], counter, true,
                     if t > 0 then pauses + [PauseMillis(t)] else pauses)
  {
    Java.Wrap32Add(|sent|, 1);
  }

  /** Why the loop ends: with at most max(quota, 0) sent, it stopped on an
      empty queue or on a counter of sent + 1 past the quota; either way the
      number sent is SentCount. */
  lemma StopCount(available: nat, quota: int, sent: nat, drained: bool, counter: int)
    requires Java.IsInt(quota) && Java.IsInt(counter) && sent <= available
    requires drained ==> sent == available
    requires quota != Java.INT_MAX ==> sent <= Java.Max(quota, 0)
    requires counter == Java.Wrap32(sent + 1)
    requires drained || counter > quota
    ensures sent == SentCount(available, quota)
  {
  }

  /** A worker never sends more than its quota. */
  lemma SentWithinQuota(available: nat, quota: int)
    requires 0 <= quota < Java.INT_MAX
    ensures SentCount(available, quota) <= quota
    ensures available >= quota ==> SentCount(available, quota) == quota
  {
  }

  /** The count messageCount() reports after a normal stop is one more than what
      was sent: the counter is incremented before the check that ends the loop. */
  lemma CountIsOneAhead(available: nat, quota: int)
    requires 0 <= quota < Java.INT_MAX
    ensures Java.Wrap32(SentCount(available, quota) + 1) == SentCount(available, quota) + 1
  {
  }

  /** The pause is the integer quotient 1000 / throughput: Math.round changes nothing. */
  lemma PauseIsQuotient(throughput: int)
    requires throughput > 0
    ensures PauseMillis(throughput) == 1000 / throughput
    ensures throughput > 1000 ==> PauseMillis(throughput) == 0
    ensures 0 <= PauseMillis(throughput) <= 1000
  {
    Java.TruncDivAgreesOnNaturals(1000, throughput);
    Java.MathRoundIntExactWhenSmall(1000 / throughput);
  }

  /** A worker whose quota is negative or zero stops before polling. */
  lemma NonPositiveQuotaSendsNothing(available: nat, quota: int)
    requires quota <= 0
    ensures SentCount(available, quota) == 0
  {
  }

  /** String.format("producer%d", i): the name of the i-th started worker. */
  function ThreadName(i: nat): string
  {
    "producer" + Java.IntToString(i)
  }

  /** No two workers get the same name. */
  lemma ThreadNamesDistinct(i: nat, j: nat)
    requires i != j
    ensures ThreadName(i) != ThreadName(j)
  {
    if ThreadName(i) == ThreadName(j) {
      assert ThreadName(i)[8..] == Java.NatToString(i);
      assert ThreadName(j)[8..] == Java.NatToString(j);
      Java.NatToStringRoundTrip(i);
      Java.NatToStringRoundTrip(j);
    }
  }
}
