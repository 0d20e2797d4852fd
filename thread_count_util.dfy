/** prototyping/thread_count_util.py: a prototype of the pool-sizing rule with a user ceiling,
    whose test `max_required is int` compares the argument with the class `int` itself. */
module ThreadCountUtil {
  import opened Exceptions
  import SrcExecutor

  const MaxAllowedThreads := 4

  /** What `max_required` can be: `None`, an int, or (the only value `is int` accepts) the class
      `int` itself. */
  datatype Arg = NoneArg | IntArg(n: int) | IntClass

  /** What Python raises when the class `int` is compared with an int by `<`. */
  const TypeIntCompareMessage := "'<' not supported between instances of 'type' and 'int'"

  /** The result of `get_thread_count` as written. */
  function AsWritten(cpuCount: int, maxRequired: Arg, maxThreads: int): Result<int> {
    if maxRequired.IntClass? then Raise(TypeError(TypeIntCompareMessage))
    else if cpuCount > maxThreads then Ok(maxThreads)
    else Ok(cpuCount)
  }

  /** As written, `max_required` has no effect: for `None` and for every int the result is the
      smaller of the core count and the ceiling, so it never exceeds the ceiling and is 0 or less
      whenever the ceiling is. */
  lemma MaxRequiredIsDead(cpuCount: int, maxRequired: Arg, maxThreads: int)
    requires !maxRequired.IntClass?
    ensures AsWritten(cpuCount, maxRequired, maxThreads) == AsWritten(cpuCount, NoneArg, maxThreads)
    ensures AsWritten(cpuCount, maxRequired, maxThreads).Ok?
    ensures AsWritten(cpuCount, maxRequired, maxThreads).value <= maxThreads
    ensures AsWritten(cpuCount, maxRequired, maxThreads).value <= cpuCount
    ensures maxThreads <= 0 ==> AsWritten(cpuCount, maxRequired, maxThreads).value <= 0
  {
  }

  /** Eight cores, two jobs and the default ceiling of 4: as written the pool gets 4 threads,
      where the documented rule gives 2. */
  lemma TwoJobsOnEightCores()
    ensures AsWritten(8, IntArg(2), MaxAllowedThreads) == Ok(4)
    ensures SrcExecutor.ThreadCount(8, Some(2), Some(MaxAllowedThreads)) == 2
  {
  }

  /** `get_thread_count(max_required, max_threads=4)` as written, with
      `multiprocessing.cpu_count()` given as `cpuCount`. */
  method GetThreadCount(cpuCount: int, maxRequired: Arg := NoneArg, maxThreads: int := MaxAllowedThreads)
    returns (r: Result<int>)
    ensures r == AsWritten(cpuCount, maxRequired, maxThreads)
  {
    var threadCount := cpuCount;
    if maxRequired.IntClass? {
      return Raise(TypeError(TypeIntCompareMessage));
    }
    if threadCount > maxThreads {
      threadCount := maxThreads;
    }
    return Ok(threadCount);
  }

  /** `get_thread_count` with the test written `isinstance(max_required, int)`: the rule of
      src/networkguardian/executor.py with the ceiling always set. */
  method GetThreadCountCorrected(cpuCount: int, maxRequired: Option<int> := None, maxThreads: int := MaxAllowedThreads)
    returns (threadCount: int)
    ensures threadCount == SrcExecutor.ThreadCount(cpuCount, maxRequired, Some(maxThreads))
    ensures threadCount <= cpuCount && threadCount <= maxThreads
    ensures maxRequired.Some? ==> threadCount <= maxRequired.value
  {
    threadCount := cpuCount;
    if maxRequired.Some? {
      if maxRequired.value < threadCount {
        threadCount := maxRequired.value;
      }
    }
    if threadCount > maxThreads {
      threadCount := maxThreads;
    }
  }
}
