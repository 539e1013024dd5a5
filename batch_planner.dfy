/** Splitting the simulations of a bias-measurement run into batches of
    parallel workers (`create_batches` and `get_sim_no` in both parallel
    drivers), and the clamp that fixes the number of workers
    (`check_args`). */
module BatchPlanner {
  import opened Wrappers
  import opened Strings

  /** One batch: its number, how many workers it runs, and the half-open
      range `[minSimNo, maxSimNo)` of simulation numbers it covers. */
  datatype Batch = Batch(batchNo: nat, nThreads: int, minSimNo: nat, maxSimNo: nat)

  // ---------------------------------------------------------------------
  // Arithmetic

  /** `math.ceil(n / w)`. */
  function CeilDiv(n: nat, w: nat): (k: nat)
    requires w > 0
    ensures w * k >= n
    ensures k > 0 ==> w * (k - 1) < n
  {
    var k := (n + w - 1) / w;
    DivBounds(n + w - 1, w);
    k
  }

  lemma DivBounds(x: nat, w: nat)
    requires w > 0
    ensures w * (x / w) <= x < w * (x / w) + w
  {
  }

  lemma MulMono(w: nat, a: nat, b: nat)
    requires a <= b
    ensures w * a <= w * b
  {
  }

  lemma MulMonoStrict(w: nat, a: nat, b: nat)
    requires w * a < w * b
    ensures a < b
  {
    if a >= b {
      MulMono(w, b, a);
    }
  }

  // ---------------------------------------------------------------------
  // The batch plan

  /** Batch `b` of `n` simulations run `w` at a time: `w` workers from
      simulation `w * b` on, cut short at `n` in the last batch. */
  function PlannedBatch(w: nat, n: nat, b: nat): Batch {
    var lo := w * b;
    var hi := w * (b + 1);
    if hi > n then Batch(b, n - lo, lo, n) else Batch(b, w, lo, hi)
  }

  /** The list `create_batches` returns for width `w`. */
  function Batches(w: nat, n: nat): (bs: seq<Batch>)
    requires w > 0
  {
    seq(CeilDiv(n, w), b requires 0 <= b => PlannedBatch(w, n, b))
  }

  /** `create_batches`: the worker width is `number_threads` in the
      calibration driver and the number of thread directories in the bias
      driver; a width of 0 divides by zero. */
  method CreateBatches(w: nat, n: nat) returns (r: Result<seq<Batch>>)
    ensures w == 0 <==> r == Err(ZeroDivisionError)
    ensures w > 0 ==> r == Ok(Batches(w, n))
  {
    if w == 0 {
      return Err(ZeroDivisionError);
    }
    var numberBatches := (n + w - 1) / w;
    var batchList: seq<Batch> := [];
    var batchNo := 0;
    while batchNo < numberBatches
      invariant 0 <= batchNo <= numberBatches
      invariant |batchList| == batchNo
      invariant forall b :: 0 <= b < batchNo ==> batchList[b] == PlannedBatch(w, n, b)
    {
      var nThreads := w;
      var minSimNo := w * batchNo;
      var maxSimNo := w * (batchNo + 1);
      if maxSimNo > n {
        nThreads := n - minSimNo;
        maxSimNo := n;
      }
      batchList := batchList + [Batch(batchNo, nThreads, minSimNo, maxSimNo)];
      batchNo := batchNo + 1;
    }
    assert numberBatches == |Batches(w, n)|;
    assert forall b :: 0 <= b < |batchList| ==> batchList[b] == Batches(w, n)[b];
    assert batchList == Batches(w, n);
    return Ok(batchList);
  }

  /** There are `ceil(n / w)` batches, none at all for no simulations. */
  lemma BatchCount(w: nat, n: nat)
    requires w > 0
    ensures |Batches(w, n)| == CeilDiv(n, w)
    ensures n == 0 <==> Batches(w, n) == []
    ensures n > 0 ==> |Batches(w, n)| >= 1
  {
    if n > 0 {
      assert w * 0 < n;
    }
  }

  /** The shape of batch `b`: numbered `b`, starting at `w * b`, ending at
      `min(w * (b + 1), n)`, with one worker per simulation in its range,
      at least one and at most `w`; every batch but the last is full. */
  lemma BatchShape(w: nat, n: nat, b: nat)
    requires w > 0 && b < |Batches(w, n)|
    ensures Batches(w, n)[b].batchNo == b
    ensures Batches(w, n)[b].minSimNo == w * b
    ensures Batches(w, n)[b].maxSimNo == if w * (b + 1) > n then n else w * (b + 1)
    ensures Batches(w, n)[b].nThreads == Batches(w, n)[b].maxSimNo - Batches(w, n)[b].minSimNo
    ensures 0 < Batches(w, n)[b].nThreads <= w
    ensures b + 1 < |Batches(w, n)| ==> Batches(w, n)[b].nThreads == w
    ensures b + 1 == |Batches(w, n)| ==> Batches(w, n)[b].maxSimNo == n
  {
    var k := CeilDiv(n, w);
    MulMono(w, b, k - 1);
    assert w * b < n;
    if b + 1 < k {
      MulMono(w, b + 1, k - 1);
    }
    assert w * (b + 1) == w * b + w;
  }

  /** Consecutive batches meet without gap or overlap, the first starts at 0
      and the last ends at `n`. */
  lemma BatchesContiguous(w: nat, n: nat)
    requires w > 0
    ensures |Batches(w, n)| > 0 ==> Batches(w, n)[0].minSimNo == 0
    ensures |Batches(w, n)| > 0 ==> Batches(w, n)[|Batches(w, n)| - 1].maxSimNo == n
    ensures forall b :: 0 <= b < |Batches(w, n)| - 1 ==>
              Batches(w, n)[b].maxSimNo == Batches(w, n)[b + 1].minSimNo
  {
    var bs := Batches(w, n);
    if |bs| > 0 {
      BatchShape(w, n, |bs| - 1);
    }
    forall b | 0 <= b < |bs| - 1
      ensures bs[b].maxSimNo == bs[b + 1].minSimNo
    {
      BatchShape(w, n, b);
      BatchShape(w, n, b + 1);
    }
  }

  predicate InBatch(s: nat, batch: Batch) {
    batch.minSimNo <= s < batch.maxSimNo
  }

  /** The only multiple of `w` at or below `s` within `w` of it is `w * (s / w)`. */
  lemma DivUnique(s: nat, w: nat, b: nat)
    requires w > 0 && w * b <= s < w * b + w
    ensures s / w == b
    ensures s % w == s - w * b
  {
    var q := s / w;
    DivBounds(s, w);
    assert w * (q + 1) == w * q + w;
    assert w * (b + 1) == w * b + w;
    MulMonoStrict(w, b, q + 1);
    MulMonoStrict(w, q, b + 1);
  }

  /** The batches partition `[0, n)`: every simulation lies in exactly one
      batch, the one numbered `s / w`, and no batch reaches past `n`. */
  lemma BatchesPartition(w: nat, n: nat, s: nat)
    requires w > 0
    ensures s < n ==> s / w < |Batches(w, n)| && InBatch(s, Batches(w, n)[s / w])
    ensures forall b :: 0 <= b < |Batches(w, n)| && InBatch(s, Batches(w, n)[b]) ==> s < n && b == s / w
  {
    if s < n {
      OwnBatch(w, n, s);
    }
    forall b | 0 <= b < |Batches(w, n)| && InBatch(s, Batches(w, n)[b])
      ensures s < n && b == s / w
    {
      OnlyBatch(w, n, s, b);
    }
  }

  lemma OwnBatch(w: nat, n: nat, s: nat)
    requires w > 0 && s < n
    ensures s / w < |Batches(w, n)| && InBatch(s, Batches(w, n)[s / w])
  {
    var q := s / w;
    DivBounds(s, w);
    MulMonoStrict(w, q, CeilDiv(n, w));
    BatchShape(w, n, q);
    assert w * (q + 1) == w * q + w;
  }

  lemma OnlyBatch(w: nat, n: nat, s: nat, b: nat)
    requires w > 0 && b < |Batches(w, n)| && InBatch(s, Batches(w, n)[b])
    ensures s < n && b == s / w
  {
    BatchShape(w, n, b);
    assert w * (b + 1) == w * b + w;
    DivUnique(s, w, b);
  }

  // ---------------------------------------------------------------------
  // Simulation numbers

  /** `get_sim_no(thread_no, batch)`. */
  function GetSimNo(threadNo: int, batch: Batch): (s: int) {
    batch.minSimNo + threadNo
  }

  /** A worker of a batch runs a simulation of that batch. */
  lemma SimNoInBatch(w: nat, n: nat, b: nat, t: nat)
    requires w > 0 && b < |Batches(w, n)| && t < Batches(w, n)[b].nThreads
    ensures InBatch(GetSimNo(t, Batches(w, n)[b]), Batches(w, n)[b])
    ensures GetSimNo(t, Batches(w, n)[b]) < n
  {
    BatchShape(w, n, b);
  }

  /** Distinct workers run distinct simulations. */
  lemma SimNoInjective(w: nat, n: nat, b1: nat, t1: nat, b2: nat, t2: nat)
    requires w > 0
    requires b1 < |Batches(w, n)| && t1 < Batches(w, n)[b1].nThreads
    requires b2 < |Batches(w, n)| && t2 < Batches(w, n)[b2].nThreads
    requires GetSimNo(t1, Batches(w, n)[b1]) == GetSimNo(t2, Batches(w, n)[b2])
    ensures b1 == b2 && t1 == t2
  {
    var s := GetSimNo(t1, Batches(w, n)[b1]);
    SimNoInBatch(w, n, b1, t1);
    SimNoInBatch(w, n, b2, t2);
    BatchesPartition(w, n, s);
  }

  /** Every simulation is run by some worker: simulation `s` by worker
      `s % w` of batch `s / w`. */
  lemma SimNoCovers(w: nat, n: nat, s: nat)
    requires w > 0 && s < n
    ensures s / w < |Batches(w, n)|
    ensures s % w < Batches(w, n)[s / w].nThreads
    ensures GetSimNo(s % w, Batches(w, n)[s / w]) == s
  {
    var q, r := s / w, s % w;
    assert s == w * q + r;
    OwnBatch(w, n, s);
    BatchShape(w, n, q);
    var batch := Batches(w, n)[q];
    assert batch.minSimNo == w * q && s < batch.maxSimNo;
  }

  /** The calibration driver picks worker directory
      `thread_no + number_threads * batch_no`; for a worker of a batch that
      is the worker's simulation number. */
  function WorkerIndex(threadNo: nat, numberThreads: nat, batchNo: nat): nat {
    threadNo + numberThreads * batchNo
  }

  lemma WorkerIndexIsSimNo(w: nat, n: nat, b: nat, t: nat)
    requires w > 0 && b < |Batches(w, n)| && t < Batches(w, n)[b].nThreads
    ensures WorkerIndex(t, w, b) == GetSimNo(t, Batches(w, n)[b])
    ensures WorkerIndex(t, w, b) < n
  {
    SimNoInBatch(w, n, b, t);
  }

  // ---------------------------------------------------------------------
  // Clamping the number of workers

  /** `--number_threads` is read as a string, but its default is the
      integer 0. */
  datatype ThreadsArg = IntArg(i: int) | StrArg(s: string)

  function Max(a: int, b: int): int { if a >= b then a else b }
  function Min(a: int, b: int): int { if a <= b then a else b }

  /** The thread count `check_args` settles on, given `cpu_count()`: the
      integer 0 stands for one less than the number of CPUs; a string must
      be all digits; the count is then kept within `[1, cpu]`. Any other
      integer has no `isdigit` and fails. */
  function ClampThreads(arg: ThreadsArg, cpu: nat): (r: Result<nat>)
    requires cpu >= 1
    ensures r.Ok? ==> 1 <= r.value <= cpu
    ensures arg == IntArg(0) ==> r == Ok(Max(1, cpu - 1))
    ensures arg.IntArg? && arg.i != 0 ==> r == Err(AttributeError)
    ensures arg.StrArg? ==> (r.Err? <==> !IsDigits(arg.s))
    ensures arg.StrArg? && IsDigits(arg.s) ==> r == Ok(Max(1, Min(DigitsValue(arg.s), cpu)))
  {
    var s :=
      if arg == IntArg(0) then StrArg(NatToString(cpu - 1)) else arg;
    match s
    case IntArg(_) => Err(AttributeError)
    case StrArg(t) =>
      if !IsDigits(t) then Err(ValueError("number-threads"))
      else Ok(Max(1, Min(DigitsValue(t), cpu)))
  }

  /** Feeding the settled count back in as a string settles on the same count. */
  lemma ClampThreadsIdempotent(arg: ThreadsArg, cpu: nat)
    requires cpu >= 1 && ClampThreads(arg, cpu).Ok?
    ensures ClampThreads(StrArg(NatToString(ClampThreads(arg, cpu).value)), cpu) == ClampThreads(arg, cpu)
  {
  }
}
