/** What the two Producer entry points share around their workers: the start
    loop that creates, starts and records one worker per thread under the
    names producer0, producer1, ..., and the shutdown hook that totals the
    recorded workers' message counts with Collectors.summingInt. */
module Launch {
  import Java
  import ProducerThreads

  /** The start loop, with the workers recorded in a growable list: after it,
      the list holds one worker per thread, in start order, named by index. */
  method StartProducers(numThreads: int) returns (producers: seq<string>)
    ensures |producers| == Java.Max(numThreads, 0)
    ensures forall i :: 0 <= i < |producers| ==> producers[i] == ProducerThreads.ThreadName(i)
  {
    producers := [];
    var i := 0;
    while i < numThreads
      invariant 0 <= i == |producers|
      invariant i <= Java.Max(numThreads, 0)
      invariant forall k :: 0 <= k < i ==> producers[k] == ProducerThreads.ThreadName(k)
    {
      producers := producers + [ProducerThreads.ThreadName(i)];
      i := i + 1;
    }
  }

  /** The shutdown total: the counts summed in int arithmetic, that is the
      exact sum wrapped to 32 bits, and the exact sum while that fits in an int. */
  function ShutdownTotal(counts: seq<int>): (total: int)
    ensures Java.IsInt(total)
    ensures total == Java.Wrap32(Java.Sum(counts))
    ensures Java.IsInt(Java.Sum(counts)) ==> total == Java.Sum(counts)
  {
    Java.IntSumWrapsSum(counts);
    Java.IntSum(counts)
  }
}
