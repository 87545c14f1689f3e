/** What the service owes at any moment, and the report that lists it. */
module Owing {
  import opened Prelude
  import opened AccrualStore
  import opened Settlement

  ghost function SumTotals(m: map<Operator, Accrual>): nat {
    if m == map[] then 0
    else
      var op :| op in m;
      m[op].total + SumTotals(m - {op})
  }

  ghost function SumOwed(m: map<BatchId, Liability>): nat {
    if m == map[] then 0
    else
      var b :| b in m;
      m[b].owed + SumOwed(m - {b})
  }

  /** Everything the pending-payouts report lists. */
  ghost function Owed(s: Service): nat {
    SumTotals(s.accruals) + SumOwed(s.liabilities)
  }

  lemma {:induction false} SumOwedAt(m: map<BatchId, Liability>, b: BatchId)
    requires b in m
    ensures SumOwed(m) == m[b].owed + SumOwed(m - {b})
    decreases |m|
  {
    var c :| c in m && SumOwed(m) == m[c].owed + SumOwed(m - {c});
    if c != b {
      SumOwedAt(m - {c}, b);
      assert m - {c} - {b} == m - {b} - {c};
      SumOwedAt(m - {b}, c);
    }
  }

  lemma {:induction false} SumOwedPut(m: map<BatchId, Liability>, b: BatchId, l: Liability)
    ensures SumOwed(m[b := l]) == l.owed + SumOwed(m - {b})
    ensures b !in m ==> SumOwed(m[b := l]) == l.owed + SumOwed(m)
  {
    SumOwedAt(m[b := l], b);
    assert m[b := l] - {b} == m - {b};
    if b !in m { assert m - {b} == m; }
  }

  lemma {:induction false} SumTotalsAt(m: map<Operator, Accrual>, op: Operator)
    requires op in m
    ensures SumTotals(m) == m[op].total + SumTotals(m - {op})
    decreases |m|
  {
    var c :| c in m && SumTotals(m) == m[c].total + SumTotals(m - {c});
    if c != op {
      SumTotalsAt(m - {c}, op);
      assert m - {c} - {op} == m - {op} - {c};
      SumTotalsAt(m - {op}, c);
    }
  }

  lemma {:induction false} SumTotalsPut(m: map<Operator, Accrual>, op: Operator, a: Accrual)
    ensures SumTotals(m[op := a]) == a.total + SumTotals(m - {op})
    ensures op !in m ==> SumTotals(m[op := a]) == a.total + SumTotals(m)
  {
    SumTotalsAt(m[op := a], op);
    assert m[op := a] - {op} == m - {op};
    if op !in m { assert m - {op} == m; }
  }

  // ----- the report -----

  /** One line of the report; `batchId` is absent while the amount is still accruing. */
  datatype Pending = Pending(
    operator: Operator, owed: nat, requests: nat, oldestAt: int, batchId: Option<BatchId>,
    deadlineAt: Option<int>, attempts: nat, lastError: Option<string>, lastAttemptAt: Option<int>)

  function PendingAccrual(s: Service, op: Operator, maxDelayMs: int): Pending
    requires op in s.accruals
  {
    var a := s.accruals[op];
    Pending(op, a.total, |ArrayAt(s.heap, a.arr)|, a.firstAt, None, Some(a.firstAt + maxDelayMs), 0, None, None)
  }

  function PendingBatch(s: Service, b: BatchId): Pending
    requires b in s.liabilities
  {
    var l := s.liabilities[b];
    Pending(l.operator, l.owed, l.requests, l.oldestAt, Some(b), None, l.attempts, l.lastError, l.lastAttemptAt)
  }

  function SumPending(ps: seq<Pending>): nat {
    if ps == [] then 0 else ps[0].owed + SumPending(ps[1..])
  }

  lemma {:induction false} SumPendingAppend(a: seq<Pending>, b: seq<Pending>)
    ensures SumPending(a + b) == SumPending(a) + SumPending(b)
  {
    if a == [] {
      assert a + b == b;
    } else {
      assert (a + b)[1..] == a[1..] + b;
      SumPendingAppend(a[1..], b);
    }
  }

  lemma {:induction false} SumPendingOne(p: Pending)
    ensures SumPending([p]) == p.owed
  {
    assert [p][1..] == [];
  }

  predicate OldestFirst(ps: seq<Pending>) {
    forall i, j | 0 <= i < j < |ps| :: ps[i].oldestAt <= ps[j].oldestAt
  }

  function InsertByAge(ps: seq<Pending>, p: Pending): seq<Pending> {
    if ps == [] || p.oldestAt < ps[0].oldestAt then [p] + ps else [ps[0]] + InsertByAge(ps[1..], p)
  }

  /** Oldest first, entries of one age in their original order. */
  function SortByAge(ps: seq<Pending>): seq<Pending> {
    if ps == [] then [] else InsertByAge(SortByAge(ps[..|ps| - 1]), ps[|ps| - 1])
  }

  lemma {:induction false} InsertOrdered(ps: seq<Pending>, p: Pending)
    requires OldestFirst(ps)
    ensures OldestFirst(InsertByAge(ps, p))
    ensures forall x | x in InsertByAge(ps, p) :: x == p || x in ps
  {
    if ps != [] && p.oldestAt >= ps[0].oldestAt {
      InsertOrdered(ps[1..], p);
      var tail := InsertByAge(ps[1..], p);
      forall i | 0 <= i < |tail|
        ensures ps[0].oldestAt <= tail[i].oldestAt
      {
        assert tail[i] in tail;
        if tail[i] != p {
          var k :| 0 <= k < |ps[1..]| && ps[1..][k] == tail[i];
          assert ps[k + 1] == tail[i];
        }
      }
    }
  }

  lemma {:induction false} InsertSame(ps: seq<Pending>, p: Pending)
    ensures multiset(InsertByAge(ps, p)) == multiset(ps) + multiset{p}
    ensures SumPending(InsertByAge(ps, p)) == SumPending(ps) + p.owed
  {
    if ps == [] || p.oldestAt < ps[0].oldestAt {
      assert ([p] + ps)[1..] == ps;
    } else {
      InsertSame(ps[1..], p);
      var tail := InsertByAge(ps[1..], p);
      assert ps == [ps[0]] + ps[1..] && ([ps[0]] + tail)[1..] == tail;
    }
  }

  lemma {:induction false} SortSame(ps: seq<Pending>)
    ensures OldestFirst(SortByAge(ps)) && multiset(SortByAge(ps)) == multiset(ps)
    ensures SumPending(SortByAge(ps)) == SumPending(ps)
  {
    if ps != [] {
      var front, last := ps[..|ps| - 1], ps[|ps| - 1];
      assert ps == front + [last];
      SortSame(front);
      InsertOrdered(SortByAge(front), last);
      InsertSame(SortByAge(front), last);
      SumPendingAppend(front, [last]);
      SumPendingOne(last);
      hide InsertByAge, SumPending, OldestFirst;
    }
  }

  lemma {:induction false} SortedHas(ps: seq<Pending>)
    ensures |SortByAge(ps)| == |ps| && OldestFirst(SortByAge(ps)) && SumPending(SortByAge(ps)) == SumPending(ps)
    ensures forall p | p in ps :: p in SortByAge(ps)
  {
    SortSame(ps);
    assert |SortByAge(ps)| == |multiset(SortByAge(ps))| == |ps|;
    forall p | p in ps
      ensures p in SortByAge(ps)
    {
      assert p in multiset(ps);
    }
  }

  /** Every accrual and every unpaid batch is listed, and nothing else. */
  ghost predicate ListsEverything(s: Service, maxDelayMs: int, ps: seq<Pending>) {
    && |ps| == |s.accruals| + |s.liabilities|
    && (forall op | op in s.accruals :: PendingAccrual(s, op, maxDelayMs) in ps)
    && (forall b | b in s.liabilities :: PendingBatch(s, b) in ps)
  }
}
