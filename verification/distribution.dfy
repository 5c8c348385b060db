/**
 * One distribution cycle of the Stellar reward bot: the early returns, the
 * guard against paying the distributor, and the loop that submits the
 * payments in batches of 100, one transaction per batch.
 *
 * The network is a parameter: the holder listing is given as its outcome,
 * loading the distributor account as a flag, and the ledger's answer to the
 * k-th submitted batch (counting from 0) as `ledger(k)`.
 */
module Distribution {
  import opened Rewards

  /** Payments per transaction. */
  const BATCH_SIZE: nat := 100

  /** How the ledger answers the submission of one batch. */
  datatype Submission =
    | Accepted
    | Rejected     // the submission fails with a Horizon response attached
    | NoResponse   // the submission fails with no response (timeout, connection reset)

  /** A batch that was submitted, with the ledger's answer. */
  datatype Attempt = Attempt(batch: seq<Payment>, result: Submission)

  /** Where a cycle ended. */
  datatype CycleEnd =
    | FetchFailed            // the holder listing threw
    | NoHolders
    | NoEligiblePayments
    | DistributorInPayments
    | AccountLoadFailed      // loading the distributor account threw
    | Completed

  datatype CycleReport = CycleReport(end: CycleEnd, attempts: seq<Attempt>)

  function Min(a: int, b: int): int
  {
    if a <= b then a else b
  }

  /** The payments in consecutive groups of BATCH_SIZE, the last one possibly shorter. */
  function Batches(payments: seq<Payment>): seq<seq<Payment>>
    decreases |payments|
  {
    if |payments| == 0 then []
    else if |payments| <= BATCH_SIZE then [payments]
    else [payments[..BATCH_SIZE]] + Batches(payments[BATCH_SIZE..])
  }

  /** The batches put back together. */
  function Flatten(batches: seq<seq<Payment>>): seq<Payment>
  {
    if |batches| == 0 then [] else batches[0] + Flatten(batches[1..])
  }

  /**
   * The batches partition the payments in order: there are ceil(N / 100) of
   * them, none is empty, none holds more than 100, all but the last hold
   * exactly 100, and together they are the payments.
   */
  lemma {:induction false} BatchesPartition(payments: seq<Payment>)
    ensures var bs := Batches(payments);
            && |bs| == (|payments| + BATCH_SIZE - 1) / BATCH_SIZE
            && (forall k :: 0 <= k < |bs| ==> 0 < |bs[k]| <= BATCH_SIZE)
            && (forall k :: 0 <= k < |bs| - 1 ==> |bs[k]| == BATCH_SIZE)
            && Flatten(bs) == payments
    decreases |payments|
  {
    if |payments| > BATCH_SIZE {
      var rest := payments[BATCH_SIZE..];
      BatchesPartition(rest);
      var bs := Batches(payments);
      assert bs == [payments[..BATCH_SIZE]] + Batches(rest);
      assert bs[1..] == Batches(rest);
      assert Flatten(bs) == payments[..BATCH_SIZE] + rest;
    }
  }

  /** The k-th batch is `payments.slice(100 * k, 100 * k + 100)`. */
  lemma {:induction false} BatchAt(payments: seq<Payment>, k: nat)
    requires k < |Batches(payments)|
    ensures BATCH_SIZE * k < |payments|
    ensures Batches(payments)[k] == payments[BATCH_SIZE * k .. Min(BATCH_SIZE * k + BATCH_SIZE, |payments|)]
    decreases |payments|
  {
    if k > 0 {
      var rest := payments[BATCH_SIZE..];
      BatchAt(rest, k - 1);
      assert Batches(payments)[k] == Batches(rest)[k - 1];
    }
  }

  /** Every batch submitted in turn, each with the ledger's answer to it. */
  function Attempts(payments: seq<Payment>, ledger: nat -> Submission): seq<Attempt>
  {
    var bs := Batches(payments);
    seq(|bs|, k requires 0 <= k < |bs| => Attempt(bs[k], ledger(k)))
  }

  /** The first of the first n batches that gets no response, or n if none does. */
  function FirstUnanswered(ledger: nat -> Submission, n: nat): (r: nat)
    ensures r <= n
    ensures r < n ==> ledger(r) == NoResponse
    ensures forall k :: 0 <= k < r ==> ledger(k) != NoResponse
  {
    if n == 0 then 0
    else
      var r := FirstUnanswered(ledger, n - 1);
      if r < n - 1 then r
      else if ledger(n - 1) == NoResponse then n - 1
      else n
  }

  /** The attempts of the loop as written: none after the first batch that gets no response. */
  function AsWrittenAttempts(payments: seq<Payment>, ledger: nat -> Submission): seq<Attempt>
  {
    var n := |Batches(payments)|;
    Attempts(payments, ledger)[..Min(FirstUnanswered(ledger, n) + 1, n)]
  }

  /**
   * The batch loop, with a failed submission logged and skipped whatever
   * the failure carries: every batch is submitted, in order, whatever the
   * ledger answered to the earlier ones.
   */
  method RunBatches(payments: seq<Payment>, ledger: nat -> Submission) returns (attempts: seq<Attempt>)
    ensures |attempts| == (|payments| + BATCH_SIZE - 1) / BATCH_SIZE
    ensures forall k :: 0 <= k < |attempts| ==> attempts[k].result == ledger(k)
    ensures Flatten(seq(|attempts|, k requires 0 <= k < |attempts| => attempts[k].batch)) == payments
    ensures attempts == Attempts(payments, ledger)
  {
    BatchesPartition(payments);
    ghost var all := Attempts(payments, ledger);
    attempts := [];
    var i := 0;
    while i < |payments|
      invariant i == BATCH_SIZE * |attempts|
      invariant |attempts| <= |all|
      invariant attempts == all[..|attempts|]
    {
      var batch := payments[i..Min(i + BATCH_SIZE, |payments|)];
      BatchAt(payments, |attempts|);
      var result := ledger(|attempts|);
      assert Attempt(batch, result) == all[|attempts|];
      attempts := attempts + [Attempt(batch, result)];
      i := i + BATCH_SIZE;
    }
    assert |attempts| == |all|;
    assert attempts == all;
    assert seq(|attempts|, k requires 0 <= k < |attempts| => attempts[k].batch) == Batches(payments);
  }

  /**
   * The batch loop as the source writes it: a failure with no response makes
   * the error handler throw, which leaves the loop, so later batches are not
   * submitted.
   */
  method RunBatchesAsWritten(payments: seq<Payment>, ledger: nat -> Submission)
    returns (attempts: seq<Attempt>, abandoned: bool)
    ensures abandoned <==> exists k :: 0 <= k < |Batches(payments)| && ledger(k) == NoResponse
    ensures abandoned ==> attempts != [] && attempts[|attempts| - 1].result == NoResponse
    ensures attempts == AsWrittenAttempts(payments, ledger)
  {
    ghost var all := Attempts(payments, ledger);
    ghost var stop := FirstUnanswered(ledger, |all|);
    BatchesPartition(payments);
    attempts, abandoned := [], false;
    var i := 0;
    while i < |payments|
      invariant i == BATCH_SIZE * |attempts|
      invariant |attempts| <= |all| && |attempts| <= stop
      invariant attempts == all[..|attempts|]
    {
      var batch := payments[i..Min(i + BATCH_SIZE, |payments|)];
      BatchAt(payments, |attempts|);
      var result := ledger(|attempts|);
      attempts := attempts + [Attempt(batch, result)];
      if result == NoResponse {
        abandoned := true;
        break;
      }
      i := i + BATCH_SIZE;
    }
  }

  /**
   * From the guard on: refuse a payment list that pays the distributor,
   * load the distributor account, then submit the batches.
   */
  method SubmitPayments(cfg: Config, payments: seq<Payment>, accountLoaded: bool, ledger: nat -> Submission)
    returns (report: CycleReport)
    ensures (exists p :: p in payments && p.address == cfg.distributor) ==>
              report == CycleReport(DistributorInPayments, [])
    ensures (forall p :: p in payments ==> p.address != cfg.distributor) && !accountLoaded ==>
              report == CycleReport(AccountLoadFailed, [])
    ensures (forall p :: p in payments ==> p.address != cfg.distributor) && accountLoaded ==>
              report == CycleReport(Completed, Attempts(payments, ledger))
  {
    if exists p :: p in payments && p.address == cfg.distributor {
      return CycleReport(DistributorInPayments, []);
    }
    if !accountLoaded {
      return CycleReport(AccountLoadFailed, []);
    }
    var attempts := RunBatches(payments, ledger);
    report := CycleReport(Completed, attempts);
  }

  /**
   * distributeRewards: fetch the holders, compute the payments, and submit
   * them unless there is nothing to pay.
   */
  method DistributeRewards(cfg: Config, fetched: Option<seq<Holder>>, accountLoaded: bool, ledger: nat -> Submission)
    returns (report: CycleReport)
    ensures fetched.None? ==> report == CycleReport(FetchFailed, [])
    ensures fetched == Some([]) ==> report == CycleReport(NoHolders, [])
    ensures fetched.Some? && fetched.value != [] && CalculateRewards(fetched.value, cfg) == [] ==>
              report == CycleReport(NoEligiblePayments, [])
    ensures fetched.Some? && CalculateRewards(fetched.value, cfg) != [] ==>
              report == if accountLoaded
                        then CycleReport(Completed, Attempts(CalculateRewards(fetched.value, cfg), ledger))
                        else CycleReport(AccountLoadFailed, [])
    ensures report.end != DistributorInPayments
  {
    if fetched.None? {
      return CycleReport(FetchFailed, []);
    }
    var holders := fetched.value;
    if |holders| == 0 {
      return CycleReport(NoHolders, []);
    }
    var payments := CalculateRewards(holders, cfg);
    if |payments| == 0 {
      return CycleReport(NoEligiblePayments, []);
    }
    report := SubmitPayments(cfg, payments, accountLoaded, ledger);
  }

  /** The ledger answers nothing to the second batch and accepts the others. */
  function SecondBatchUnanswered(k: nat): Submission
  {
    if k == 1 then NoResponse else Accepted
  }

  /**
   * 250 payments make batches of 100, 100 and 50. When the second batch gets
   * no response, the loop as written never submits the third; with the
   * failure only logged, all three are submitted.
   */
  lemma UnansweredBatchStrandsTheRest()
    ensures var payments := seq(250, k => Payment("G", 1));
            && |Batches(payments)| == 3
            && |Batches(payments)[0]| == 100 && |Batches(payments)[1]| == 100 && |Batches(payments)[2]| == 50
            && |AsWrittenAttempts(payments, SecondBatchUnanswered)| == 2
            && |Attempts(payments, SecondBatchUnanswered)| == 3
            && Attempts(payments, SecondBatchUnanswered)[2].result == Accepted
  {
    var payments := seq(250, k => Payment("G", 1));
    BatchesPartition(payments);
    BatchAt(payments, 2);
    assert FirstUnanswered(SecondBatchUnanswered, 3) == 1;
  }
}
