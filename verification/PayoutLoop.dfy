// The retry loop of one payout, against a chain that may commit a transfer and still report
// an error, and a lookup that may be silent.
module PayoutLoop {
  import opened Prelude

  type TxId = string

  /**
   * What happens at one call to the payer: the transfer may commit first (`commits`), and the
   * call may or may not bring the news back.
   */
  datatype Moment = Moment(commits: Option<TxId>, payReports: bool, lookupReports: bool, error: string)

  /** One payout id can commit once: whatever committed first stays. */
  function Advance(committed: Option<TxId>, m: Moment): Option<TxId> {
    if committed.Some? then committed else m.commits
  }

  /** The chain, seen through the payer, for one payout id. */
  class Payer {
    const moments: nat -> Moment
    /** Whether this payer can search the chain at all. */
    const canLookUp: bool
    var clock: nat
    var submits: nat
    var committed: Option<TxId>
    /** Submissions made when a transfer had already committed. */
    ghost var repeats: nat
    /** What the last submission that failed reported. */
    ghost var said: Option<string>

    constructor (moments: nat -> Moment, canLookUp: bool, committed: Option<TxId>)
      ensures this.moments == moments && this.canLookUp == canLookUp
      ensures this.committed == committed && clock == 0 && submits == 0 && repeats == 0 && said == None
    {
      this.moments, this.canLookUp, this.committed := moments, canLookUp, committed;
      clock, submits := 0, 0;
      repeats, said := 0, None;
    }

    /** Every lookup tells the truth. */
    ghost predicate Truthful() {
      canLookUp && forall n :: moments(n).lookupReports
    }

    /** Submits; succeeds only with the id of a committed transfer. */
    method Pay() returns (r: Result<TxId, string>)
      modifies this
      ensures clock == old(clock) + 1 && submits == old(submits) + 1
      ensures old(committed).Some? ==> committed == old(committed)
      ensures r.Ok? ==> committed == Some(r.value)
      ensures repeats == old(repeats) + (if old(committed).Some? then 1 else 0)
      ensures r.Err? ==> said == Some(r.error) && r.error == moments(old(clock)).error
      ensures r.Ok? <==> moments(old(clock)).payReports && committed.Some?
    {
      var m := moments(clock);
      if committed.Some? { repeats := repeats + 1; }
      clock, submits := clock + 1, submits + 1;
      committed := Advance(committed, m);
      r := if m.payReports && committed.Some? then Ok(committed.value) else Err(m.error);
      if r.Err? { said := Some(r.error); }
    }

    method FindLanded() returns (r: Option<TxId>)
      modifies this
      ensures submits == old(submits) && repeats == old(repeats) && said == old(said)
      ensures old(committed).Some? ==> committed == old(committed)
      ensures r.Some? ==> committed == r
      ensures Truthful() ==> r == committed
    {
      if !canLookUp { return None; }
      var m := moments(clock);
      clock := clock + 1;
      committed := Advance(committed, m);
      r := if m.lookupReports then committed else None;
    }
  }

  datatype Status =
    | Pending
    | Accrued
    | Settled(payoutTxId: Option<TxId>, settledIn: Option<string>)
    | Failed(error: string, failedIn: Option<string>)

  /** Writes `status` onto every listed entry that is still in the ledger. */
  function Marked(ledger: map<string, Status>, ids: seq<string>, status: Status): map<string, Status> {
    map id | id in ledger :: if id in ids then status else ledger[id]
  }

  datatype Job = Job(records: seq<string>, batchId: Option<string>, checkLandedFirst: bool)

  function Cut(s: string, n: nat): string {
    if |s| > n then s[..n] else s
  }

  class Runner {
    var ledger: map<string, Status>

    constructor (ledger: map<string, Status>)
      ensures this.ledger == ledger
    {
      this.ledger := ledger;
    }

    method FinalizeSettled(job: Job, tx: Option<TxId>)
      modifies this
      ensures ledger == Marked(old(ledger), job.records, Settled(tx, job.batchId))
    {
      Mark(job.records, Settled(tx, job.batchId));
    }

    method FinalizeFailed(job: Job, reason: string)
      modifies this
      ensures ledger == Marked(old(ledger), job.records, Failed(Cut(reason, 1024), job.batchId))
    {
      Mark(job.records, Failed(Cut(reason, 1024), job.batchId));
    }

    /** An entry that has aged out of the ledger is not brought back. */
    method Mark(ids: seq<string>, status: Status)
      modifies this
      ensures ledger == Marked(old(ledger), ids, status)
    {
      for i := 0 to |ids|
        invariant ledger == Marked(old(ledger), ids[..i], status)
      {
        if ids[i] in ledger { ledger := ledger[ids[i] := status]; }
        assert ids[..i + 1] == ids[..i] + [ids[i]];
      }
      assert ids[..|ids|] == ids;
    }

    /**
     * Runs one payout to a terminal state.
     *
     *   - Settled is recorded only with the id of a committed transfer, on all records alike.
     *   - With truthful lookups, failed means that nothing had committed at the last look.
     *   - At most `attempts` submissions are made; none if a resumed payout had landed.
     *   - With truthful lookups nothing is submitted again once it has committed, except the first
     *     submission of a payout that is not resumed.
     *   - A failure is recorded with what the last submission reported, up to 1024 characters.
     */
    method RunPayout(payer: Payer, job: Job, attempts: nat) returns (paid: Option<TxId>)
      modifies this, payer
      ensures old(payer.committed).Some? ==> payer.committed == old(payer.committed)
      ensures paid.Some? ==>
        payer.committed == paid && ledger == Marked(old(ledger), job.records, Settled(paid, job.batchId))
      ensures paid.None? ==>
        && payer.submits == old(payer.submits) + attempts
        && var error := if attempts == 0 || payer.said == None then "unknown error" else payer.said.value;
           ledger == Marked(old(ledger), job.records, Failed(Cut(error, 1024), job.batchId))
      ensures paid.None? && attempts > 0 ==> payer.said.Some?
      ensures payer.Truthful() ==> paid == payer.committed
      ensures payer.submits <= old(payer.submits) + attempts
      ensures payer.Truthful() && job.checkLandedFirst && old(payer.committed).Some? ==>
        paid == old(payer.committed) && payer.submits == old(payer.submits)
      ensures payer.Truthful() && (job.checkLandedFirst || old(payer.committed).None?) ==>
        payer.repeats == old(payer.repeats)
      ensures payer.Truthful() ==> payer.repeats <= old(payer.repeats) + 1
    {
      if job.checkLandedFirst {
        var already := payer.FindLanded();
        if already.Some? {
          FinalizeSettled(job, already);
          return already;
        }
      }
      var lastError := "unknown error";
      var attempt := 1;
      while attempt <= attempts
        invariant 1 <= attempt <= attempts + 1
        invariant payer.submits == old(payer.submits) + attempt - 1
        invariant old(payer.committed).Some? ==> payer.committed == old(payer.committed)
        invariant payer.Truthful() && (attempt > 1 || job.checkLandedFirst) ==> payer.committed.None?
        invariant payer.Truthful() && (attempt > 1 || job.checkLandedFirst || old(payer.committed).None?) ==>
          payer.repeats <= old(payer.repeats) + (if job.checkLandedFirst || old(payer.committed).None? then 0 else 1)
        invariant attempt == 1 ==> payer.repeats == old(payer.repeats)
        invariant payer.repeats >= old(payer.repeats)
        invariant attempt == 1 && old(payer.committed).None? && !job.checkLandedFirst ==> payer.committed.None?
        invariant attempt > 1 ==> payer.said == Some(lastError)
        invariant attempt == 1 ==> lastError == "unknown error"
        invariant ledger == old(ledger)
      {
        var r := payer.Pay();
        if r.Ok? {
          FinalizeSettled(job, Some(r.value));
          return Some(r.value);
        }
        lastError := r.error;
        var landed := payer.FindLanded();
        if landed.Some? {
          FinalizeSettled(job, landed);
          return landed;
        }
        attempt := attempt + 1;
      }
      var late := payer.FindLanded();
      if late.Some? {
        FinalizeSettled(job, late);
        return late;
      }
      FinalizeFailed(job, lastError);
      return None;
    }
  }
}
