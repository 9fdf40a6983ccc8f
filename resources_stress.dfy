/**
 * The resource stress generator: the bounds a stress request must meet,
 * the thread count of the CPU workload and the chunked allocation loop of
 * the memory workload.
 */
module ResourcesStress {

  /** Memory is allocated in chunks of one MiB. */
  const ChunkSize: nat := 1024 * 1024

  function Min(a: nat, b: nat): nat { if a <= b then a else b }

  // ------------------------------------------------------------ requests

  /** The field constraints the request model declares, one per violated bound. */
  datatype FieldError = PercentageBelowZero | PercentageAbove100 | DurationNotPositive

  /** The errors validation reports for a request body; the request is accepted when there are none. */
  function RequestErrors(percentage: real, duration: int): (errs: seq<FieldError>)
    ensures PercentageBelowZero in errs <==> percentage < 0.0
    ensures PercentageAbove100 in errs <==> percentage > 100.0
    ensures DurationNotPositive in errs <==> duration <= 0
    ensures errs == [] <==> 0.0 <= percentage <= 100.0 && duration > 0
  {
    (if percentage < 0.0 then [PercentageBelowZero] else [])
    + (if percentage > 100.0 then [PercentageAbove100] else [])
    + (if duration <= 0 then [DurationNotPositive] else [])
  }

  // ------------------------------------------------------------ CPU

  /** `max(1, int(num_cores * percentage / 100))`, in exact arithmetic. */
  function ThreadCount(cores: nat, percentage: real): (n: nat)
    requires 0.0 <= percentage
    ensures n >= 1
    ensures n > 1 ==> n as real <= (cores as real) * percentage / 100.0 < (n + 1) as real
    ensures percentage <= 100.0 ==> n <= if cores == 0 then 1 else cores
  {
    var share := ((cores as real) * percentage / 100.0).Floor;
    assert percentage <= 100.0 ==> (cores as real) * percentage <= (cores as real) * 100.0;
    if share < 1 then 1 else share
  }

  /**
   * stress_cpu: starts ThreadCount threads, one per iteration, then joins
   * them in the order they were started. Threads are named by their index.
   */
  method StressCpu(cores: nat, percentage: real) returns (started: seq<nat>, joined: seq<nat>)
    requires 0.0 <= percentage
    ensures |started| == ThreadCount(cores, percentage)
    ensures forall i :: 0 <= i < |started| ==> started[i] == i
    ensures joined == started
  {
    var numThreads := ThreadCount(cores, percentage);
    started := [];
    for i := 0 to numThreads
      invariant |started| == i
      invariant forall j :: 0 <= j < i ==> started[j] == j
    {
      started := started + [i];
    }
    joined := [];
    for k := 0 to |started|
      invariant joined == started[..k]
    {
      joined := joined + [started[k]];
    }
  }

  // ------------------------------------------------------------ memory

  /** `int(total_memory * percentage / 100)`, in exact arithmetic. */
  function TargetMemory(total: nat, percentage: real): (t: nat)
    requires 0.0 <= percentage
    ensures t as real <= (total as real) * percentage / 100.0 < (t + 1) as real
    ensures percentage <= 100.0 ==> t <= total
  {
    ((total as real) * percentage / 100.0).Floor
  }

  function Sum(s: seq<nat>): nat
  {
    if s == [] then 0 else Sum(s[..|s| - 1]) + s[|s| - 1]
  }

  /** The chunks the allocation loop requests for a target, in order. */
  function ChunkPlan(target: nat): seq<nat>
    decreases target
  {
    if target == 0 then [] else [Min(ChunkSize, target)] + ChunkPlan(target - Min(ChunkSize, target))
  }

  lemma {:induction false} SumCons(x: nat, s: seq<nat>)
    ensures Sum([x] + s) == x + Sum(s)
    decreases |s|
  {
    if s != [] {
      assert ([x] + s)[..|s|] == [x] + s[..|s| - 1];
      SumCons(x, s[..|s| - 1]);
    }
  }

  lemma SumSnoc(s: seq<nat>, x: nat)
    ensures Sum(s + [x]) == Sum(s) + x
  {
  }

  lemma {:induction false} ChunkPlanSum(target: nat)
    ensures Sum(ChunkPlan(target)) == target
    decreases target
  {
    if target > 0 {
      var c := Min(ChunkSize, target);
      ChunkPlanSum(target - c);
      SumCons(c, ChunkPlan(target - c));
    }
  }

  lemma {:induction false} ChunkPlanCount(target: nat)
    ensures |ChunkPlan(target)| == (target + ChunkSize - 1) / ChunkSize
    decreases target
  {
    if target > ChunkSize {
      ChunkPlanCount(target - ChunkSize);
      assert (target + ChunkSize - 1) / ChunkSize == 1 + (target - ChunkSize + ChunkSize - 1) / ChunkSize;
    }
  }

  lemma {:induction false} ChunkPlanSizes(target: nat)
    ensures forall i :: 0 <= i < |ChunkPlan(target)| ==> 0 < ChunkPlan(target)[i] <= ChunkSize
    ensures forall i :: 0 <= i < |ChunkPlan(target)| - 1 ==> ChunkPlan(target)[i] == ChunkSize
    decreases target
  {
    if target > 0 {
      var c := Min(ChunkSize, target);
      ChunkPlanSizes(target - c);
      assert target - c > 0 ==> c == ChunkSize;
    }
  }

  /**
   * The shape of the allocation: the chunks add up to the target, each is
   * at most one MiB and not empty, all but the last are exactly one MiB,
   * and there are ceil(target / 1 MiB) of them.
   */
  lemma ChunkPlanShape(target: nat)
    ensures Sum(ChunkPlan(target)) == target
    ensures forall i :: 0 <= i < |ChunkPlan(target)| ==> 0 < ChunkPlan(target)[i] <= ChunkSize
    ensures forall i :: 0 <= i < |ChunkPlan(target)| - 1 ==> ChunkPlan(target)[i] == ChunkSize
    ensures |ChunkPlan(target)| == (target + ChunkSize - 1) / ChunkSize
  {
    ChunkPlanSum(target);
    ChunkPlanCount(target);
    ChunkPlanSizes(target);
  }

  lemma PrefixOf(a: seq<nat>, b: seq<nat>, c: seq<nat>)
    requires a + b == c
    ensures |a| <= |c| && c[..|a|] == a
  {
  }

  /** Every prefix of the plan has the plan's chunk shape. */
  lemma PlanPrefixShape(target: nat, chunks: seq<nat>)
    requires |chunks| <= |ChunkPlan(target)| && chunks == ChunkPlan(target)[..|chunks|]
    ensures forall i :: 0 <= i < |chunks| ==> 0 < chunks[i] <= ChunkSize
    ensures forall i :: 0 <= i < |chunks| - 1 ==> chunks[i] == ChunkSize
  {
    ChunkPlanSizes(target);
  }

  /** One iteration of the allocation loop takes the next chunk of the plan. */
  lemma PlanStep(chunks: seq<nat>, target: nat, done: nat)
    requires done < target
    requires chunks + ChunkPlan(target - done) == ChunkPlan(target)
    ensures (chunks + [Min(ChunkSize, target - done)]) + ChunkPlan(target - done - Min(ChunkSize, target - done))
      == ChunkPlan(target)
  {
    var c := Min(ChunkSize, target - done);
    assert ChunkPlan(target - done) == [c] + ChunkPlan(target - done - c);
    assert (chunks + [c]) + ChunkPlan(target - done - c) == chunks + ([c] + ChunkPlan(target - done - c));
  }

  /** How the allocation loop ends. */
  datatype Allocation = Allocated | MemoryError

  /**
   * The allocation loop of stress_memory. `capacity` stands for how much the
   * allocator can hand out: a chunk that would take the total past it raises
   * MemoryError and the loop stops there. The chunks it holds are always a
   * prefix of the plan for the target, never more than the target in all;
   * when no error is raised they are the whole plan.
   */
  method AllocateChunks(target: nat, capacity: nat) returns (chunks: seq<nat>, allocatedBytes: nat, ending: Allocation)
    ensures allocatedBytes == Sum(chunks) && allocatedBytes <= target && allocatedBytes <= capacity
    ensures |chunks| <= |ChunkPlan(target)| && chunks == ChunkPlan(target)[..|chunks|]
    ensures ending == Allocated <==> target <= capacity
    ensures ending == Allocated ==> chunks == ChunkPlan(target) && allocatedBytes == target
    ensures ending == MemoryError ==> capacity < allocatedBytes + Min(ChunkSize, target - allocatedBytes)
    ensures forall i :: 0 <= i < |chunks| ==> 0 < chunks[i] <= ChunkSize
    ensures forall i :: 0 <= i < |chunks| - 1 ==> chunks[i] == ChunkSize
    ensures ending == Allocated ==> |chunks| == (target + ChunkSize - 1) / ChunkSize
  {
    chunks := [];
    allocatedBytes := 0;
    ending := Allocated;
    while allocatedBytes < target && ending == Allocated
      invariant allocatedBytes <= target && allocatedBytes <= capacity
      invariant allocatedBytes == Sum(chunks)
      invariant chunks + ChunkPlan(target - allocatedBytes) == ChunkPlan(target)
      invariant ending == MemoryError ==> capacity < allocatedBytes + Min(ChunkSize, target - allocatedBytes)
      decreases target - allocatedBytes, if ending == Allocated then 1 else 0
    {
      var remaining := target - allocatedBytes;
      var current := Min(ChunkSize, remaining);
      if allocatedBytes + current > capacity {
        // bytearray(current_chunk_size) raises MemoryError
        ending := MemoryError;
      } else {
        PlanStep(chunks, target, allocatedBytes);
        SumSnoc(chunks, current);
        chunks := chunks + [current];
        allocatedBytes := allocatedBytes + current;
      }
    }
    PrefixOf(chunks, ChunkPlan(target - allocatedBytes), ChunkPlan(target));
    PlanPrefixShape(target, chunks);
    if ending == Allocated {
      assert chunks == ChunkPlan(target);
      ChunkPlanCount(target);
    }
  }

  /** What a stress_memory call ends with. */
  datatype MemoryOutcome = Completed | Raised(reason: Allocation) | SleepRaised

  /**
   * stress_memory: allocate the target in chunks, hold it for the duration
   * (`sleepRaises` says whether the sleep raised), and in `finally` clear the
   * chunk list whatever happened. `peak` is how much was held before the
   * clean-up.
   */
  method StressMemory(totalMemory: nat, percentage: real, capacity: nat, sleepRaises: bool)
    returns (outcome: MemoryOutcome, peak: nat, held: seq<nat>)
    requires 0.0 <= percentage
    ensures held == []
    ensures peak <= TargetMemory(totalMemory, percentage) && peak <= capacity
    ensures TargetMemory(totalMemory, percentage) <= capacity ==> peak == TargetMemory(totalMemory, percentage)
    ensures outcome == Raised(MemoryError) <==> TargetMemory(totalMemory, percentage) > capacity
    ensures outcome == Completed <==> TargetMemory(totalMemory, percentage) <= capacity && !sleepRaises
  {
    var target := TargetMemory(totalMemory, percentage);
    var chunks, allocatedBytes, ending := AllocateChunks(target, capacity);
    peak := allocatedBytes;
    if ending == MemoryError {
      outcome := Raised(MemoryError);
    } else if sleepRaises {
      outcome := SleepRaised;
    } else {
      outcome := Completed;
    }
    // finally: chunks.clear()
    chunks := [];
    held := chunks;
  }
}
