/** What every accepted charge has become, over whole runs and across crashes. */
module PayoutBalance {
  import opened Prelude
  import opened AccrualStore
  import opened Settlement
  import opened Owing
  import opened WriteChain
  import opened PayoutLine
  import opened PayoutWorld
  import opened PayoutSteps
  import opened PayoutAccrue
  import opened PayoutSettle
  import opened PayoutRecover
  import opened PayoutBoot
  import opened PayoutTheorems

  // ----- adding up records by their request ids -----

  type Amount = Rec -> nat

  const PAYOUT: Amount := (r: Rec) => r.payout
  const MARGIN: Amount := (r: Rec) => r.margin
  const INBOUND: Amount := (r: Rec) => r.inbound

  /** The sum of one amount over the accepted records of the requests `ids`. */
  ghost function Over(recs: map<RequestId, Rec>, ids: set<RequestId>, amount: Amount): nat
    decreases |ids|
  {
    if ids == {} then 0
    else
      var x :| x in ids;
      (if x in recs then amount(recs[x]) else 0) + Over(recs, ids - {x}, amount)
  }

  lemma {:induction false} OverAt(recs: map<RequestId, Rec>, ids: set<RequestId>, amount: Amount, x: RequestId)
    requires x in ids
    ensures Over(recs, ids, amount)
      == (if x in recs then amount(recs[x]) else 0) + Over(recs, ids - {x}, amount)
    decreases |ids|
  {
    var y :| y in ids
      && Over(recs, ids, amount) == (if y in recs then amount(recs[y]) else 0) + Over(recs, ids - {y}, amount);
    if y != x {
      OverAt(recs, ids - {y}, amount, x);
      assert ids - {y} - {x} == ids - {x} - {y};
      OverAt(recs, ids - {x}, amount, y);
    }
  }

  lemma {:induction false} OverUnion(
      recs: map<RequestId, Rec>, a: set<RequestId>, b: set<RequestId>, amount: Amount)
    requires a !! b
    ensures Over(recs, a + b, amount) == Over(recs, a, amount) + Over(recs, b, amount)
    decreases |a|
  {
    if a == {} {
      assert a + b == b;
    } else {
      var x :| x in a;
      OverUnion(recs, a - {x}, b, amount);
      OverAt(recs, a, amount, x);
      OverAt(recs, a + b, amount, x);
      assert a + b - {x} == (a - {x}) + b;
    }
  }

  /** Records that are the accepted records of their requests, none twice. */
  ghost predicate Matches(rs: seq<Rec>, recs: map<RequestId, Rec>) {
    Distinct(rs) && forall r | r in rs :: r.requestId in recs && recs[r.requestId] == r
  }

  lemma {:induction false} SumIsOver(rs: seq<Rec>, recs: map<RequestId, Rec>)
    requires Matches(rs, recs)
    ensures Sum(rs) == Over(recs, Ids(rs), PAYOUT)
  {
    if rs == [] {
      assert Ids(rs) == {};
    } else {
      var x, tail := rs[0].requestId, rs[1..];
      assert rs == [rs[0]] + tail;
      forall r | r in tail
        ensures r in rs && r.requestId != x
      {
        var i :| 0 <= i < |tail| && tail[i] == r;
        assert rs[i + 1] == r;
      }
      SumIsOver(tail, recs);
      assert Ids(rs) == Ids(tail) + {x} && x !in Ids(tail);
      assert Ids(rs) - {x} == Ids(tail);
      OverAt(recs, Ids(rs), PAYOUT, x);
    }
  }

  // ----- adding up groups of records -----

  ghost function IdsIn<K(!new)>(g: map<K, seq<Rec>>): set<RequestId> {
    set k, r | k in g && r in g[k] :: r.requestId
  }

  ghost function SumIn<K(!new)>(g: map<K, seq<Rec>>): nat
    decreases |g|
  {
    if g == map[] then 0
    else
      var k :| k in g;
      Sum(g[k]) + SumIn(g - {k})
  }

  lemma {:induction false} SumInAt<K(!new)>(g: map<K, seq<Rec>>, k: K)
    requires k in g
    ensures SumIn(g) == Sum(g[k]) + SumIn(g - {k})
    decreases |g|
  {
    var j :| j in g && SumIn(g) == Sum(g[j]) + SumIn(g - {j});
    if j != k {
      SumInAt(g - {j}, k);
      assert g - {j} - {k} == g - {k} - {j};
      SumInAt(g - {k}, j);
    }
  }

  ghost predicate Apart<K(!new)>(g: map<K, seq<Rec>>) {
    forall j, k | j in g && k in g && j != k :: Ids(g[j]) !! Ids(g[k])
  }

  lemma {:induction false} GroupsSum<K(!new)>(g: map<K, seq<Rec>>, recs: map<RequestId, Rec>)
    requires Apart(g) && forall k | k in g :: Matches(g[k], recs)
    ensures SumIn(g) == Over(recs, IdsIn(g), PAYOUT)
    decreases |g|
  {
    if g == map[] {
      assert IdsIn(g) == {};
    } else {
      var k :| k in g;
      var rest := g - {k};
      SumInAt(g, k);
      GroupsSum(rest, recs);
      SumIsOver(g[k], recs);
      IdsInAt(g, k);
      OverUnion(recs, Ids(g[k]), IdsIn(rest), PAYOUT);
    }
  }

  lemma {:induction false} IdsInAt<K(!new)>(g: map<K, seq<Rec>>, k: K)
    requires Apart(g) && k in g
    ensures IdsIn(g) == Ids(g[k]) + IdsIn(g - {k}) && Ids(g[k]) !! IdsIn(g - {k})
  {
    var rest := g - {k};
    forall x | x in IdsIn(rest)
      ensures x in IdsIn(g) && x !in Ids(g[k])
    {
      var j: K, r: Rec :| j in rest && r in rest[j] && r.requestId == x;
      assert g[j] == rest[j] && x in Ids(g[j]);
    }
    forall x | x in IdsIn(g)
      ensures x in Ids(g[k]) || x in IdsIn(rest)
    {
      var j: K, r: Rec :| j in g && r in g[j] && r.requestId == x;
      if j != k { assert j in rest && rest[j] == g[j]; }
    }
    assert forall x | x in Ids(g[k]) :: x in IdsIn(g);
  }

  // ----- what is owed -----

  ghost function ListedGroups(w: World): map<BatchId, seq<Rec>> {
    map b | b in w.svc.liabilities && b in w.table :: w.table[b].records
  }

  ghost function AccruingGroups(s: Service): map<Operator, seq<Rec>> {
    map op | op in s.accruals :: ArrayAt(s.heap, s.accruals[op].arr)
  }

  /** The requests the pending-payouts report stands for. */
  ghost function OwedIds(w: World): set<RequestId> {
    IdsIn(ListedGroups(w)) + IdsIn(AccruingGroups(w.svc))
  }

  lemma {:induction false} SumOwedIs(m: map<BatchId, Liability>, g: map<BatchId, seq<Rec>>)
    requires m.Keys == g.Keys && forall b | b in m :: m[b].owed == Sum(g[b])
    ensures SumOwed(m) == SumIn(g)
    decreases |m|
  {
    if m != map[] {
      var b :| b in m;
      SumOwedAt(m, b);
      SumInAt(g, b);
      SumOwedIs(m - {b}, g - {b});
    }
  }

  lemma {:induction false} SumTotalsIs(m: map<Operator, Accrual>, g: map<Operator, seq<Rec>>)
    requires m.Keys == g.Keys && forall op | op in m :: m[op].total == Sum(g[op])
    ensures SumTotals(m) == SumIn(g)
    decreases |m|
  {
    if m != map[] {
      var op :| op in m;
      SumTotalsAt(m, op);
      SumInAt(g, op);
      SumTotalsIs(m - {op}, g - {op});
    }
  }

  lemma {:induction false} ListedSum(w: World)
    requires Core(w)
    ensures SumOwed(w.svc.liabilities) == Over(w.recs, IdsIn(ListedGroups(w)), PAYOUT)
  {
    var g := ListedGroups(w);
    assert g.Keys == w.svc.liabilities.Keys;
    forall b, c | b in g && c in g && b != c
      ensures Ids(g[b]) !! Ids(g[c])
    {
      assert Active(w, b) && Active(w, c);
    }
    SumOwedIs(w.svc.liabilities, g);
    hide Core, SumOwed, SumIn;
    GroupsSum(g, w.recs);
  }

  lemma {:induction false} AccruingSum(w: World)
    requires HeapOk(w.svc, w.recs)
    ensures SumTotals(w.svc.accruals) == Over(w.recs, IdsIn(AccruingGroups(w.svc)), PAYOUT)
  {
    var g := AccruingGroups(w.svc);
    forall op | op in g
      ensures w.svc.accruals[op].total == Sum(g[op]) && RecsOk(g[op], op, w.recs)
    {
      AccrualArray(w, op);
    }
    forall p, q | p in g && q in g && p != q
      ensures Ids(g[p]) !! Ids(g[q])
    {
      OperatorsApart(g[p], p, g[q], q, w.recs);
    }
    SumTotalsIs(w.svc.accruals, g);
    hide HeapOk, SumTotals, SumIn;
    GroupsSum(g, w.recs);
  }

  /** What is owed is the sum of the payouts of the requests it stands for, each counted once. */
  lemma {:induction false} OwedIsPayouts(w: World)
    requires Core(w)
    ensures Owed(w.svc) == Over(w.recs, OwedIds(w), PAYOUT)
  {
    ListedSum(w);
    AccruingSum(w);
    ListedNotAccruing(w);
    hide Core;
    OverUnion(w.recs, IdsIn(ListedGroups(w)), IdsIn(AccruingGroups(w.svc)), PAYOUT);
  }

  lemma {:induction false} ListedNotAccruing(w: World)
    requires DisjointOk(w)
    ensures IdsIn(ListedGroups(w)) !! IdsIn(AccruingGroups(w.svc))
  {
    var g, h := ListedGroups(w), AccruingGroups(w.svc);
    forall x | x in IdsIn(g)
      ensures x !in IdsIn(h)
    {
      var b: BatchId, r: Rec :| b in g && r in g[b] && r.requestId == x;
      assert x in Ids(w.table[b].records);
      forall op: Operator, q: Rec | op in h && q in h[op]
        ensures q.requestId != x
      {
        assert q.requestId in Ids(ArrayAt(w.svc.heap, w.svc.accruals[op].arr));
      }
    }
  }

  // ----- what was sent -----

  ghost function SentGroups(w: World): map<PayoutId, seq<Rec>> {
    map id | id in w.committed :: w.committed[id].records
  }

  /** The requests some committed transfer covers. */
  ghost function PaidIds(w: World): set<RequestId> {
    IdsIn(SentGroups(w))
  }

  ghost function SumAmounts(m: map<PayoutId, Transfer>): nat
    decreases |m|
  {
    if m == map[] then 0
    else
      var id :| id in m;
      m[id].amount + SumAmounts(m - {id})
  }

  lemma {:induction false} SumAmountsAt(m: map<PayoutId, Transfer>, id: PayoutId)
    requires id in m
    ensures SumAmounts(m) == m[id].amount + SumAmounts(m - {id})
    decreases |m|
  {
    var j :| j in m && SumAmounts(m) == m[j].amount + SumAmounts(m - {j});
    if j != id {
      SumAmountsAt(m - {j}, id);
      assert m - {j} - {id} == m - {id} - {j};
      SumAmountsAt(m - {id}, j);
    }
  }

  lemma {:induction false} SumAmountsIs(m: map<PayoutId, Transfer>, g: map<PayoutId, seq<Rec>>)
    requires m.Keys == g.Keys && forall id | id in m :: m[id].amount == Sum(g[id])
    ensures SumAmounts(m) == SumIn(g)
    decreases |m|
  {
    if m != map[] {
      var id :| id in m;
      SumAmountsAt(m, id);
      SumInAt(g, id);
      SumAmountsIs(m - {id}, g - {id});
    }
  }

  lemma {:induction false} PaidIdsAre(w: World, x: RequestId)
    ensures x in PaidIds(w) <==> PaidFor(w, x)
  {
    var g := SentGroups(w);
    if x in PaidIds(w) {
      var id: PayoutId, r: Rec :| id in g && r in g[id] && r.requestId == x;
      assert Covers(w.committed[id], x);
    }
    if PaidFor(w, x) {
      var id :| id in w.committed && Covers(w.committed[id], x);
      assert id in g;
    }
  }

  lemma {:induction false} SentRecords(w: World, id: PayoutId)
    requires Core(w) && id in w.committed
    ensures Matches(w.committed[id].records, w.recs)
    ensures w.committed[id].amount == Sum(w.committed[id].records)
  {
    assert Known(w, id) && w.committed[id] == Fixed(w, id);
    if id.Batch? { assert RecsOk(w.table[id.batch].records, w.table[id.batch].operator, w.recs); }
    CommittedAmount(w, id);
  }

  /** What the chain sent is the sum of the payouts of the requests it covered, each counted once. */
  lemma {:induction false} SentIsPayouts(w: World)
    requires Core(w)
    ensures SumAmounts(w.committed) == Over(w.recs, PaidIds(w), PAYOUT)
    ensures PaidIds(w) <= w.recs.Keys
  {
    hide Core, Matches, Sum, SumIn, SumAmounts, Ids, IdsIn;
    var g := SentGroups(w);
    forall id | id in g
      ensures Matches(g[id], w.recs) && w.committed[id].amount == Sum(g[id])
    {
      SentRecords(w, id);
    }
    forall p, q | p in g && q in g && p != q
      ensures Ids(g[p]) !! Ids(g[q])
    {
      SentApart(w, p, q);
    }
    SumAmountsIs(w.committed, g);
    GroupsSum(g, w.recs);
    MatchedKnown(g, w.recs);
  }

  lemma {:induction false} MatchedKnown<K(!new)>(g: map<K, seq<Rec>>, recs: map<RequestId, Rec>)
    requires forall k | k in g :: Matches(g[k], recs)
    ensures IdsIn(g) <= recs.Keys
  {}

  lemma {:induction false} SentApart(w: World, p: PayoutId, q: PayoutId)
    requires Core(w) && p in w.committed && q in w.committed && p != q
    ensures Ids(w.committed[p].records) !! Ids(w.committed[q].records)
  {
    hide Core;
    forall x | x in Ids(w.committed[p].records)
      ensures x !in Ids(w.committed[q].records)
    {
      if x in Ids(w.committed[q].records) {
        assert Covers(w.committed[p], x) && Covers(w.committed[q], x);
        CommittedOnce(w, p, q, x);
      }
    }
  }

  // ----- what a boot finds -----

  /** The requests a boot would find in open or batch rows. */
  ghost function FoundIds(st: Store): set<RequestId> {
    BatchIds(st)
    + set op, r | op in st.openIndex && op in st.openKeys && r in st.openKeys[op].records :: r.requestId
  }

  lemma {:induction false} FoundIdsAre(st: Store, x: RequestId)
    ensures x in FoundIds(st) <==> Found(st, x)
  {
    if x in FoundIds(st) && x !in BatchIds(st) {
      var op, r :| op in st.openIndex && op in st.openKeys && r in st.openKeys[op].records && r.requestId == x;
      assert x in OpenIds(st, op);
    }
    if Found(st, x) && x !in BatchIds(st) {
      var op :| x in OpenIds(st, op);
      var r :| r in st.openKeys[op].records && r.requestId == x;
    }
  }

  // ----- a boot owes exactly what it finds -----

  ghost function RowIds(rows: seq<Row>): set<RequestId> {
    set row, r | row in rows && r in row.records :: r.requestId
  }

  /** Every job holds requests of recovered rows. */
  ghost predicate JobsWithin(s: Service, ids: set<RequestId>) {
    forall id | id in s.jobs :: Ids(s.jobs[id].records) <= ids
  }

  lemma {:induction false} RecoverRowWithin(r: Recovery, row: Row, newId: BatchId, ids: set<RequestId>)
    requires JobsWithin(r.svc, ids) && Ids(row.records) <= ids
    ensures JobsWithin(RecoverRow(r, row, newId).svc, ids)
  {
    UnhandledKeeps(row.records, r.handled);
    hide Unhandled;
  }

  lemma {:induction false} RecoverRowsWithin(r: Recovery, rows: seq<Row>, newIds: seq<BatchId>, ids: set<RequestId>)
    requires |newIds| == |rows| && JobsWithin(r.svc, ids) && RowIds(rows) <= ids
    ensures JobsWithin(RecoverRows(r, rows, newIds).svc, ids)
    decreases |rows|
  {
    if rows != [] {
      assert rows[0] in rows && forall row | row in rows[1..] :: row in rows;
      assert Ids(rows[0].records) <= RowIds(rows) && RowIds(rows[1..]) <= RowIds(rows);
      RecoverRowWithin(r, rows[0], newIds[0], ids);
      hide RecoverRow, JobsWithin, RowIds;
      RecoverRowsWithin(RecoverRow(r, rows[0], newIds[0]), rows[1..], newIds[1..], ids);
    }
  }

  lemma {:induction false} LoadIsFound(st: Store, open: seq<Row>, batches: seq<Row>)
    requires IsLoad(st, open, batches)
    ensures RowIds(batches + open) <= FoundIds(st)
  {
    var rows := batches + open;
    forall x | x in RowIds(rows)
      ensures x in FoundIds(st)
    {
      var row, r :| row in rows && r in row.records && r.requestId == x;
      if row in batches {
        var i :| 0 <= i < |batches| && batches[i] == row;
        assert LoadedBatches(st)[row.batchId.value] == row;
      } else {
        var i :| 0 <= i < |open| && open[i] == row;
        assert LoadedOpen(st, row.operator) == Some(row);
      }
    }
  }

  lemma {:induction false} ListedWithin(u: World, ids: set<RequestId>)
    requires Core(u) && Recovering(u) && JobsWithin(u.svc, ids)
    ensures OwedIds(u) <= ids
  {
    var g := ListedGroups(u);
    assert AccruingGroups(u.svc) == map[];
    forall x | x in IdsIn(g)
      ensures x in ids
    {
      var b: BatchId, r: Rec :| b in g && r in g[b] && r.requestId == x;
      assert Batch(b) in u.svc.jobs && TransferOf(u.svc.jobs[Batch(b)]) == Fixed(u, Batch(b));
      assert x in Ids(u.svc.jobs[Batch(b)].records);
    }
  }

  lemma {:induction false} ListedIsOwed(u: World, b: BatchId, x: RequestId)
    requires b in u.svc.liabilities && b in u.table && x in Ids(u.table[b].records)
    ensures x in OwedIds(u)
  {
    assert b in ListedGroups(u) && ListedGroups(u)[b] == u.table[b].records;
    var r :| r in u.table[b].records && r.requestId == x;
    assert x in IdsIn(ListedGroups(u));
  }

  lemma {:induction false} FoundIsOwed(u: World, x: RequestId)
    requires Core(u) && Recovering(u) && RowsFit(u, []) && LinesOk(u, []) && Found(u.store, x)
    ensures x in OwedIds(u)
  {
    CoreKnowsBatches(u);
    hide Core, Recovering, OwedIds, QueueOk;
    if x in BatchIds(u.store) {
      BatchIsOwed(u, x);
    } else {
      var op :| x in OpenIds(u.store, op);
      assert RecoveryLine(u, op, Waiting([], op)) && !Waiting([], op);
      PartFinds(u.store, u.table, op, x);
      if x in PaidOf(u, op) {
        PaidOpenIsBatched(u, op, x);
        BatchIsOwed(u, x);
      } else {
        var b := LoadableEndsHeld(u, op, x);
        ListedIsOwed(u, b, x);
      }
    }
  }

  lemma {:induction false} BatchIsOwed(u: World, x: RequestId)
    requires RowsFit(u, []) && BatchesFit(u.store, u.table) && x in BatchIds(u.store)
    ensures x in OwedIds(u)
  {
    var b, r :| b in LoadedBatches(u.store) && r in LoadedBatches(u.store)[b].records && r.requestId == x;
    assert LoadedBatches(u.store)[b] == u.table[b];
    ListedIsOwed(u, b, x);
  }

  lemma {:induction false} PaidOpenIsBatched(u: World, op: Operator, x: RequestId)
    requires BatchesFit(u.store, u.table) && RecoveryLine(u, op, false)
    requires x in OpenIds(u.store, op) && x in PaidOf(u, op)
    ensures x in BatchIds(u.store)
  {
    PartLoads(u.store, u.table, op);
    var part := Part(u.store, u.table, op);
    assert OpenIds(part, op) == OpenIds(u.store, op);
    hide Part, PaidOf, Held;
    assert PaidIsBatched(part, op, PaidOf(u, op));
    assert x in OpenIds(part, op) * PaidOf(u, op);
    assert x in BatchIds(part);
    var b, r :| b in LoadedBatches(part) && r in LoadedBatches(part)[b].records && r.requestId == x;
    assert b in LoadedBatches(u.store) && LoadedBatches(u.store)[b] == u.table[b] == LoadedBatches(part)[b];
  }

  lemma {:induction false} BootOwes(
      w: World, cfg: Config, hydrated: set<RequestId>, open: seq<Row>, batches: seq<Row>,
      ids: seq<BatchId>, w': World)
    requires Inv(w) && Next(w, Recover(cfg, hydrated, open, batches, ids), w')
    ensures OwedIds(w') == FoundIds(w.store)
  {
    hide Inv, Next, Mid, Core, Recovering, RowsFit, LinesOk, BatchesKnown, Minted, IsLoad, RecoverRows, OwedIds,
      FoundIds;
    var u := Recovered(w, cfg, hydrated, open, batches, ids, w');
    MidMeans(u, w.table, [], []);
    RecoverStep(w, cfg, hydrated, open, batches, ids, w');
    LoadIsFound(w.store, open, batches);
    RecoverRowsWithin(Recovery(Boot(cfg, hydrated), {}), batches + open, ids, FoundIds(w.store));
    ListedWithin(u, FoundIds(w.store));
    forall x | x in FoundIds(w.store)
      ensures x in OwedIds(u)
    {
      FoundIdsAre(w.store, x);
      FoundIsOwed(u, x);
    }
    SameOwed(u, w');
  }

  lemma {:induction false} SameOwed(w: World, w': World)
    requires w'.svc.heap == w.svc.heap && w'.svc.accruals == w.svc.accruals
    requires w'.svc.liabilities.Keys == w.svc.liabilities.Keys
    requires forall b | b in w.svc.liabilities ::
               (b in w.table <==> b in w'.table) && (b in w.table ==> w'.table[b] == w.table[b])
    ensures OwedIds(w') == OwedIds(w)
  {
    assert ListedGroups(w') == ListedGroups(w);
    assert AccruingGroups(w'.svc) == AccruingGroups(w.svc);
  }

  /**
   * A process opens owing exactly what the store held: each request a boot finds is owed again,
   * at its accepted payout and once, and nothing else is.
   */
  lemma {:induction false} BootOpensWithTheStore(ws: seq<World>, es: seq<Event>, i: nat)
    requires IsRun(ws, es) && i < |es| && es[i].Recover?
    ensures OwedIds(ws[i + 1]) == FoundIds(ws[i].store)
    ensures ws[i + 1].books.opening == Owed(ws[i + 1].svc) == Over(ws[i + 1].recs, FoundIds(ws[i].store), PAYOUT)
  {
    hide Inv, Next, OwedIds, FoundIds, Core;
    var w, w', e := ws[i], ws[i + 1], es[i];
    RunInv(ws, es, i);
    RunInv(ws, es, i + 1);
    RunStep(ws, es, i);
    BootOwes(w, e.cfg, e.hydrated, e.open, e.batches, e.ids, w');
    InvOwed(w');
    RecoverStep(w, e.cfg, e.hydrated, e.open, e.batches, e.ids, w');
  }

  lemma {:induction false} InvOwed(w: World)
    requires Inv(w)
    ensures Owed(w.svc) == Over(w.recs, OwedIds(w), PAYOUT)
  {
    OwedIsPayouts(w);
  }

  // ----- every charge accounted for -----

  /** Requests still to be paid: owed by the running process, or found by the next one. */
  ghost function Outstanding(w: World): set<RequestId> {
    (if w.up then OwedIds(w) else FoundIds(w.store)) - PaidIds(w)
  }

  /** Requests with something to pay out that nothing will pay any more. */
  ghost function Lost(w: World): set<RequestId> {
    set x | x in w.recs && w.recs[x].payout > 0 && x !in PaidIds(w) && x !in Outstanding(w)
  }

  ghost predicate Splits(recs: map<RequestId, Rec>) {
    forall x | x in recs :: recs[x].inbound == recs[x].margin + recs[x].payout
  }

  lemma {:induction false} OverSplits(recs: map<RequestId, Rec>, ids: set<RequestId>)
    requires Splits(recs)
    ensures Over(recs, ids, INBOUND) == Over(recs, ids, MARGIN) + Over(recs, ids, PAYOUT)
    decreases |ids|
  {
    if ids != {} {
      var x :| x in ids;
      OverAt(recs, ids, INBOUND, x);
      OverAt(recs, ids, MARGIN, x);
      OverAt(recs, ids, PAYOUT, x);
      OverSplits(recs, ids - {x});
    }
  }

  lemma {:induction false} OverNothing(recs: map<RequestId, Rec>, ids: set<RequestId>)
    requires forall x | x in ids && x in recs :: recs[x].payout == 0
    ensures Over(recs, ids, PAYOUT) == 0
    decreases |ids|
  {
    if ids != {} {
      var x :| x in ids;
      OverAt(recs, ids, PAYOUT, x);
      OverNothing(recs, ids - {x});
    }
  }

  lemma {:induction false} StepSplits(w: World, e: Event, w': World)
    requires Splits(w.recs) && Next(w, e, w')
    ensures Splits(w'.recs)
  {
    hide SettleInbound, FlushAccrual, RecoverAccruals, RecordRouting, FinalizeSettled, FinalizeFailed,
      Admitted, Minted, Owed, IsLoad, TransferOf, Exec, Boot, MayCommit, Fresh;
    if e.Settle? {
      var rec := Admitted(w.svc, e.inbound, e.at);
      if rec.Some? { AdmittedFacts(w.svc, e.inbound, e.at, rec.value); }
    }
  }

  lemma {:induction false} RunSplits(ws: seq<World>, es: seq<Event>, i: nat)
    requires IsRun(ws, es) && i < |ws|
    ensures Splits(ws[i].recs)
  {
    hide Next;
    if i > 0 {
      RunSplits(ws, es, i - 1);
      StepSplits(ws[i - 1], es[i - 1], ws[i]);
    }
  }

  lemma {:induction false} OwedIsKnown(w: World)
    requires Core(w)
    ensures OwedIds(w) <= w.recs.Keys && FoundIds(w.store) <= w.recs.Keys
  {
    forall x | x in OwedIds(w)
      ensures x in w.recs
    {
      if x in IdsIn(AccruingGroups(w.svc)) {
        var g := AccruingGroups(w.svc);
        var op: Operator, r: Rec :| op in g && r in g[op] && r.requestId == x;
        AccrualArray(w, op);
      } else {
        var g := ListedGroups(w);
        var b: BatchId, r: Rec :| b in g && r in g[b] && r.requestId == x;
        assert RecsOk(w.table[b].records, w.table[b].operator, w.recs);
      }
    }
    forall x | x in FoundIds(w.store)
      ensures x in w.recs
    {
      if x in BatchIds(w.store) {
        var b, r :| b in LoadedBatches(w.store) && r in LoadedBatches(w.store)[b].records && r.requestId == x;
        assert RecsOk(w.table[b].records, w.table[b].operator, w.recs);
      } else {
        var op, r :| op in w.store.openIndex && op in w.store.openKeys && r in w.store.openKeys[op].records
                     && r.requestId == x;
        assert RecsOk(w.store.openKeys[op].records, op, w.recs);
      }
    }
  }

  lemma {:induction false} FourParts(
      recs: map<RequestId, Rec>, a: set<RequestId>, b: set<RequestId>, c: set<RequestId>)
    requires a !! b && (a + b) !! c && a + b + c <= recs.Keys
    requires forall x | x in recs && x !in a && x !in b && x !in c :: recs[x].payout == 0
    ensures Over(recs, recs.Keys, PAYOUT) == Over(recs, a, PAYOUT) + Over(recs, b, PAYOUT) + Over(recs, c, PAYOUT)
  {
    var rest := recs.Keys - (a + b + c);
    OverNothing(recs, rest);
    OverUnion(recs, a, b, PAYOUT);
    OverUnion(recs, a + b, c, PAYOUT);
    OverUnion(recs, a + b + c, rest, PAYOUT);
    assert a + b + c + rest == recs.Keys;
  }

  lemma {:induction false} LostIsRest(w: World)
    requires PaidIds(w) <= w.recs.Keys && Outstanding(w) <= w.recs.Keys
    ensures PaidIds(w) !! Outstanding(w) && (PaidIds(w) + Outstanding(w)) !! Lost(w)
    ensures PaidIds(w) + Outstanding(w) + Lost(w) <= w.recs.Keys
    ensures forall x | x in w.recs && x !in PaidIds(w) && x !in Outstanding(w) && x !in Lost(w) ::
              w.recs[x].payout == 0
  {
    hide PaidIds, OwedIds, FoundIds;
  }

  lemma {:induction false} OutstandingIsKnown(w: World)
    requires Core(w)
    ensures Outstanding(w) <= w.recs.Keys
  {
    OwedIsKnown(w);
    hide Core, OwedIds, FoundIds, PaidIds;
  }

  lemma {:induction false} BalanceOf(w: World)
    requires Core(w)
    ensures Over(w.recs, w.recs.Keys, PAYOUT)
      == SumAmounts(w.committed) + Over(w.recs, Outstanding(w), PAYOUT) + Over(w.recs, Lost(w), PAYOUT)
  {
    hide Core, Outstanding, Lost, PaidIds, Over, SumAmounts;
    SentIsPayouts(w);
    OutstandingIsKnown(w);
    LostIsRest(w);
    FourParts(w.recs, PaidIds(w), Outstanding(w), Lost(w));
  }

  /**
   * Over any run, crashes included: everything ever accepted is margin kept, or sent by the chain,
   * or still outstanding, or lost.
   */
  lemma {:induction false} WholeRunBalance(ws: seq<World>, es: seq<Event>, i: nat)
    requires IsRun(ws, es) && i < |ws|
    ensures var w := ws[i];
      Over(w.recs, w.recs.Keys, INBOUND)
      == Over(w.recs, w.recs.Keys, MARGIN) + SumAmounts(w.committed)
         + Over(w.recs, Outstanding(w), PAYOUT) + Over(w.recs, Lost(w), PAYOUT)
  {
    RunInv(ws, es, i);
    RunSplits(ws, es, i);
    hide Outstanding, Lost, Over, SumAmounts, IsRun, OperatorOk;
    OverSplits(ws[i].recs, ws[i].recs.Keys);
    BalanceOf(ws[i]);
  }

  // ----- only a crash loses anything, and only what was not stored -----

  /** What is owed now, or what the next process will find to owe. */
  ghost function Base(w: World): set<RequestId> {
    if w.up then OwedIds(w) else FoundIds(w.store)
  }

  lemma {:induction false} LostShrinks(w: World, w': World, gone: set<RequestId>)
    requires forall x | x in w'.recs ::
               || (x in w.recs && w'.recs[x] == w.recs[x])
               || w'.recs[x].payout == 0 || x in Base(w')
    requires PaidIds(w) <= PaidIds(w') && Base(w) <= Base(w') + PaidIds(w') + gone
    ensures Lost(w') <= Lost(w) + gone
  {
    hide PaidIds, OwedIds, FoundIds;
  }

  lemma {:induction false} PaidGrows(w: World, w': World)
    requires forall id | id in w.committed :: id in w'.committed && w'.committed[id] == w.committed[id]
    ensures PaidIds(w) <= PaidIds(w')
  {
    forall x | x in PaidIds(w)
      ensures x in PaidIds(w')
    {
      PaidIdsAre(w, x);
      PaidStaysPaid(w, w', x);
      PaidIdsAre(w', x);
    }
  }

  lemma {:induction false} PushedGroup(w: World, rec: Rec, at: int, w': World, p: Operator)
    requires HeapOk(w.svc, w.recs) && Pushes(w, rec, at, w') && p in w.svc.accruals
    ensures p != rec.operator ==>
      AccruingGroups(w'.svc)[p] == AccruingGroups(w.svc)[p]
    ensures p == rec.operator ==>
      AccruingGroups(w'.svc)[p] == AccruingGroups(w.svc)[p] + [rec]
  {
    var op := rec.operator;
    AccrualArray(w, p);
    if p != op && op in w.svc.accruals {
      AccrualArray(w, op);
      ArraysApart(w, p, op);
    }
    hide HeapOk, RecsOk;
  }

  lemma {:induction false} ArraysApart(w: World, p: Operator, q: Operator)
    requires HeapOk(w.svc, w.recs) && p in w.svc.accruals && q in w.svc.accruals && p != q
    ensures w.svc.accruals[p].arr != w.svc.accruals[q].arr
  {
    hide RecsOk;
  }

  lemma {:induction false} PushedKeys(w: World, rec: Rec, at: int, w': World)
    requires Pushes(w, rec, at, w')
    ensures AccruingGroups(w'.svc).Keys == AccruingGroups(w.svc).Keys + {rec.operator}
    ensures ListedGroups(w') == ListedGroups(w)
    ensures rec.operator !in w.svc.accruals ==> AccruingGroups(w'.svc)[rec.operator] == [rec]
  {}

  lemma {:induction false} PushOwedIds(w: World, rec: Rec, at: int, w': World)
    requires HeapOk(w.svc, w.recs) && Pushes(w, rec, at, w')
    ensures OwedIds(w') == OwedIds(w) + {rec.requestId}
  {
    hide HeapOk, Pushes, ListedGroups, AccruingGroups;
    var op, g, g' := rec.operator, AccruingGroups(w.svc), AccruingGroups(w'.svc);
    var before := if op in g then g[op] else [];
    PushedKeys(w, rec, at, w');
    AccruingKeys(w.svc);
    forall p | p in g'
      ensures g'[p] == if p == op then before + [rec] else g[p]
    {
      if p in g { PushedGroup(w, rec, at, w', p); } else { assert [] + [rec] == [rec]; }
    }
    GrownGroup(g, g', op, before, rec);
  }

  lemma {:induction false} AccruingKeys(s: Service)
    ensures AccruingGroups(s).Keys == s.accruals.Keys
  {}

  lemma {:induction false} GrownGroup(
      g: map<Operator, seq<Rec>>, g': map<Operator, seq<Rec>>, op: Operator, before: seq<Rec>, rec: Rec)
    requires before == if op in g then g[op] else []
    requires g'.Keys == g.Keys + {op}
    requires forall p | p in g' :: g'[p] == if p == op then before + [rec] else g[p]
    ensures IdsIn(g') == IdsIn(g) + {rec.requestId}
  {
    forall x | x in IdsIn(g) + {rec.requestId}
      ensures x in IdsIn(g')
    {
      if x == rec.requestId {
        assert rec in g'[op];
      } else {
        var p: Operator, r: Rec :| p in g && r in g[p] && r.requestId == x;
        assert r in g'[p];
      }
    }
    forall x | x in IdsIn(g')
      ensures x in IdsIn(g) + {rec.requestId}
    {
      var p: Operator, r: Rec :| p in g' && r in g'[p] && r.requestId == x;
      if r != rec { assert p in g && r in g[p]; }
    }
  }

  lemma {:induction false} PromoteOwedIds(w: World, op: Operator, b: BatchId, row: Row, w': World)
    requires Fresh(w, b) && (forall c | c in w.svc.liabilities :: c in w.table) && Promotes(w, op, b, row, w')
    ensures OwedIds(w') == OwedIds(w)
  {
    var g, h := ListedGroups(w), AccruingGroups(w.svc);
    assert h[op] == row.records;
    assert ListedGroups(w') == g[b := row.records];
    assert AccruingGroups(w'.svc) == h - {op};
    hide Promotes, Fresh;
    MovedGroup(g, h, op, b);
  }

  lemma {:induction false} MovedGroup(
      g: map<BatchId, seq<Rec>>, h: map<Operator, seq<Rec>>, op: Operator, b: BatchId)
    requires op in h && b !in g
    ensures IdsIn(g[b := h[op]]) + IdsIn(h - {op}) == IdsIn(g) + IdsIn(h)
  {
    var g', h' := g[b := h[op]], h - {op};
    forall x | x in IdsIn(g) + IdsIn(h)
      ensures x in IdsIn(g') + IdsIn(h')
    {
      if x in IdsIn(g) {
        var c: BatchId, r: Rec :| c in g && r in g[c] && r.requestId == x;
        assert c in g' && g'[c] == g[c];
      } else {
        var p: Operator, r: Rec :| p in h && r in h[p] && r.requestId == x;
        if p == op { assert b in g' && r in g'[b]; } else { assert p in h' && r in h'[p]; }
      }
    }
    forall x | x in IdsIn(g') + IdsIn(h')
      ensures x in IdsIn(g) + IdsIn(h)
    {
      if x in IdsIn(g') {
        var c: BatchId, r: Rec :| c in g' && r in g'[c] && r.requestId == x;
        if c == b { assert r in h[op]; } else { assert c in g && r in g[c]; }
      } else {
        var p: Operator, r: Rec :| p in h' && r in h'[p] && r.requestId == x;
        assert p in h && r in h[p];
      }
    }
  }

  lemma {:induction false} AccrueOwedIds(c: World, rec: Rec, at: int, newId: BatchId, w': World)
    requires Core(c) && c.up && (forall p :: OperatorOk(c, p)) && Unheld(c, rec) && Fresh(c, newId)
    requires w' == WithService(c, Accrue(c.svc, rec, at, newId))
    ensures OwedIds(w') == OwedIds(c) + {rec.requestId}
  {
    assert HeapOk(c.svc, c.recs);
    CoreKnowsBatches(c);
    hide Core, OperatorOk, OwedIds;
    var pushed := c.(svc := PushRecord(WithAccrual(c.svc, rec.operator, at), rec));
    PushIsPushes(c, rec, at);
    PushOwedIds(c, rec, at, pushed);
    PushStep(c, rec, at, pushed);
    var s := Accrue(c.svc, rec, at, newId);
    assert WithService(c, s) == WithService(pushed, s);
    var a := pushed.svc.accruals[rec.operator];
    if a.total >= c.svc.cfg.batchMin || |ArrayAt(pushed.svc.heap, a.arr)| >= c.svc.cfg.maxRequests {
      MidHeap(pushed, rec.operator);
      var row := FlushPromotes(pushed, rec.operator, newId, w');
      PromoteOwedIds(pushed, rec.operator, newId, row, w');
    } else {
      NothingMintedWith(pushed, s);
      SameOwed(pushed, w');
    }
  }

  lemma {:induction false} MidHeap(w: World, op: Operator)
    requires MidState(w, op)
    ensures HeapOk(w.svc, w.recs)
  {}

  lemma {:induction false} PaidOutGroups(w: World, b: BatchId, w': World)
    requires PaidOutStep(w, b, w')
    ensures ListedGroups(w') == ListedGroups(w) - {b} && AccruingGroups(w'.svc) == AccruingGroups(w.svc)
    ensures b in ListedGroups(w) ==> ListedGroups(w)[b] == w.table[b].records
    ensures SentGroups(w') == SentGroups(w)
  {
    hide Chain;
  }

  lemma {:induction false} SentBatch(w: World, b: BatchId)
    requires Core(w) && Batch(b) in w.committed
    ensures b in w.table && SentGroups(w)[Batch(b)] == w.table[b].records
  {
    assert Known(w, Batch(b)) && w.committed[Batch(b)] == Fixed(w, Batch(b));
  }

  lemma {:induction false} WithoutGroup(
      g: map<BatchId, seq<Rec>>, h: map<BatchId, seq<Rec>>, sent: map<PayoutId, seq<Rec>>, b: BatchId)
    requires h == g - {b} && Batch(b) in sent && (b in g ==> g[b] == sent[Batch(b)])
    ensures IdsIn(g) <= IdsIn(h) + IdsIn(sent)
  {
    forall x | x in IdsIn(g)
      ensures x in IdsIn(h) || x in IdsIn(sent)
    {
      var c: BatchId, r: Rec :| c in g && r in g[c] && r.requestId == x;
      if c == b {
        assert r in sent[Batch(b)];
      } else {
        assert c in h && h[c] == g[c];
      }
    }
  }

  lemma {:induction false} PaidOutOwedIds(w: World, b: BatchId, w': World)
    requires Core(w) && PaidOutStep(w, b, w')
    ensures OwedIds(w) <= OwedIds(w') + PaidIds(w')
  {
    PaidOutGroups(w, b, w');
    assert Batch(b) in w.committed && Batch(b) in SentGroups(w);
    SentBatch(w, b);
    hide Core, PaidOutStep, ListedGroups, AccruingGroups, SentGroups, IdsIn;
    WithoutGroup(ListedGroups(w), ListedGroups(w'), SentGroups(w), b);
  }

  lemma {:induction false} PaidOutLoses(w: World, id: PayoutId, w': World)
    requires Inv(w) && Next(w, PaidOut(id), w')
    ensures Lost(w') <= Lost(w)
  {
    PaidOutShape(w, id, w');
    assert TransfersOk(w);
    PaidGrows(w, w');
    hide Lost, OwedIds, PaidIds, FoundIds;
    if id.Batch? {
      PaidOutBatch(w, id.batch, w');
      PaidOutOwedIds(w, id.batch, w');
    } else {
      SameOwed(w, w');
    }
    LostShrinks(w, w', {});
  }

  /** Nothing that counts changes. */
  lemma {:induction false} SameLost(w: World, w': World)
    requires w'.up == w.up && w'.recs == w.recs && (w.up || w'.store == w.store)
    requires forall id | id in w.committed :: id in w'.committed && w'.committed[id] == w.committed[id]
    requires w.up ==> OwedIds(w') == OwedIds(w)
    ensures Lost(w') <= Lost(w)
  {
    PaidGrows(w, w');
    hide PaidIds, OwedIds, FoundIds, Lost;
    LostShrinks(w, w', {});
  }

  lemma {:induction false} SmallStepKeeps(w: World, e: Event, w': World)
    requires Next(w, e, w')
    requires e.Route? || e.Apply? || e.Submit? || e.Commit? || e.GaveUp?
    ensures w'.up == w.up && w'.recs == w.recs && w'.table == w.table && (w.up || w'.store == w.store)
    ensures w'.svc.heap == w.svc.heap && w'.svc.accruals == w.svc.accruals
    ensures w'.svc.liabilities.Keys == w.svc.liabilities.Keys
  {
    hide Exec, MayCommit, TransferOf, Chain, PruneRouting;
  }

  lemma {:induction false} SmallStepLoses(w: World, e: Event, w': World)
    requires Next(w, e, w')
    requires e.Route? || e.Apply? || e.Submit? || e.Commit? || e.GaveUp?
    ensures Lost(w') <= Lost(w)
  {
    hide Next, Lost, OwedIds;
    ChainGrows(w, e, w');
    SmallStepKeeps(w, e, w');
    SameOwed(w, w');
    SameLost(w, w');
  }

  lemma {:induction false} FlushLoses(w: World, op: Operator, b: BatchId, w': World)
    requires Inv(w) && Next(w, Flush(op, b), w')
    ensures Lost(w') <= Lost(w)
  {
    hide Inv, Core, Next, Lost, OwedIds, WithService, FlushAccrual, Fresh, HeapOk, Promotes;
    FlushIsFlush(w, op, b, w');
    FlushFacts(w);
    MintKeepsChain(w, FlushAccrual(w.svc, op, b));
    if op in w.svc.accruals {
      var row := FlushPromotes(w, op, b, w');
      PromoteOwedIds(w, op, b, row, w');
      PromotesFacts(w, op, b, row, w');
    }
    SameLost(w, w');
  }

  lemma {:induction false} FlushFacts(w: World)
    requires Inv(w)
    ensures Core(w) && HeapOk(w.svc, w.recs) && WithService(w, w.svc) == w
    ensures forall b | b in w.svc.liabilities :: b in w.table
  {
    CoreKnowsBatches(w);
    NothingMinted(w);
  }

  lemma {:induction false} PromotesFacts(w: World, op: Operator, b: BatchId, row: Row, w': World)
    requires Promotes(w, op, b, row, w')
    ensures w'.up == w.up && w'.recs == w.recs && w'.store == w.store
  {}

  lemma {:induction false} ClaimedSame(w: World, inbound: Inbound, at: int, rec: Rec)
    requires Admitted(w.svc, inbound, at) == Some(rec)
    ensures var c := Claimed(w, inbound, at);
      && c.svc.heap == w.svc.heap && c.svc.accruals == w.svc.accruals
      && c.svc.liabilities == w.svc.liabilities && c.table == w.table
  {
    hide Admitted;
  }

  lemma {:induction false} FreshStays(w: World, c: World, b: BatchId)
    requires Fresh(w, b) && c.table == w.table
    ensures Fresh(c, b)
  {}

  lemma {:induction false} SettleRecs(w: World, inbound: Inbound, at: int, newId: BatchId, rec: Rec)
    requires Admitted(w.svc, inbound, at) == Some(rec)
    ensures var w' := AfterSettle(w, inbound, at, newId);
      w'.up == w.up && w'.recs == w.recs[rec.requestId := rec]
  {
    hide Admitted, SettleInbound, Minted;
  }

  lemma {:induction false} AdmittedOwedIds(
      w: World, inbound: Inbound, at: int, newId: BatchId, w': World, rec: Rec)
    requires Core(w) && w.up && (forall p :: OperatorOk(w, p)) && w.svc.cfg.batchMin > 0
    requires w' == AfterSettle(w, inbound, at, newId) && Fresh(w, newId)
    requires Admitted(w.svc, inbound, at) == Some(rec)
    ensures OwedIds(w') == if rec.payout == 0 then OwedIds(w) else OwedIds(w) + {rec.requestId}
    ensures w'.up && w'.store == w.store && w'.committed == w.committed
    ensures w'.recs == w.recs[rec.requestId := rec]
  {
    hide Core, OperatorOk, AfterSettle, Admitted, Accrue, Unheld, OwedIds, Claimed, WithService, Owed, Fresh;
    SettleKeepsChain(w, inbound, at, newId);
    AdmittedFacts(w.svc, inbound, at, rec);
    SettleAdmitted(w, inbound, at, newId, rec);
    SettleRecs(w, inbound, at, newId, rec);
    var c := Claimed(w, inbound, at);
    ClaimedSame(w, inbound, at, rec);
    FreshStays(w, c, newId);
    SameOwed(w, c);
    ClaimedStep(w, inbound, at, rec, c);
    if rec.payout == 0 {
      NothingMintedWith(c, c.svc);
    } else {
      assert w' == WithService(c, Accrue(c.svc, rec, at, newId));
      AccrueOwedIds(c, rec, at, newId, w');
    }
  }

  lemma {:induction false} SettleLoses(w: World, inbound: Inbound, at: int, newId: BatchId, w': World)
    requires Inv(w) && Next(w, Settle(inbound, at, newId), w') && w.svc.cfg.batchMin > 0
    ensures Lost(w') <= Lost(w)
  {
    hide Core, Lost, OwedIds, PaidIds, FoundIds, OperatorOk, AfterSettle, Admitted, BooksOk;
    match Admitted(w.svc, inbound, at)
    case None =>
      RefusedCore(w, inbound, at, newId, w');
      SameOwed(w, w');
      SameLost(w, w');
    case Some(rec) =>
      AdmittedOwedIds(w, inbound, at, newId, w', rec);
      PaidGrows(w, w');
      LostShrinks(w, w', {});
  }

  lemma {:induction false} CrashLoses(w: World, w': World)
    requires Next(w, Crash, w')
    ensures Lost(w') <= Lost(w) + (if w.up then OwedIds(w) - FoundIds(w.store) else {})
  {
    PaidGrows(w, w');
    hide PaidIds, OwedIds, FoundIds, Lost;
    LostShrinks(w, w', if w.up then OwedIds(w) - FoundIds(w.store) else {});
  }

  lemma {:induction false} FoundIsOwedNow(w: World, x: RequestId)
    requires Inv(w) && w.up && x in FoundIds(w.store)
    ensures x in OwedIds(w) || x in PaidIds(w)
  {
    FoundIdsAre(w.store, x);
    PaidIdsAre(w, x);
    FoundIsKept(w, x);
    hide Inv, Found, PaidFor, PaidIds, FoundIds;
    if x in Listed(w) {
      var b, r :| b in w.svc.liabilities && b in w.table && r in w.table[b].records && r.requestId == x;
      ListedIsOwed(w, b, x);
    } else if op :| op in w.svc.accruals && x in Ids(ArrayAt(w.svc.heap, w.svc.accruals[op].arr)) {
      var r :| r in ArrayAt(w.svc.heap, w.svc.accruals[op].arr) && r.requestId == x;
      assert op in AccruingGroups(w.svc) && r in AccruingGroups(w.svc)[op];
    }
  }

  lemma {:induction false} OwedIsPositive(w: World)
    requires Core(w)
    ensures forall x | x in OwedIds(w) :: x in w.recs && w.recs[x].payout > 0
  {
    forall x | x in OwedIds(w)
      ensures x in w.recs && w.recs[x].payout > 0
    {
      if x in IdsIn(AccruingGroups(w.svc)) {
        var g := AccruingGroups(w.svc);
        var op: Operator, r: Rec :| op in g && r in g[op] && r.requestId == x;
        AccrualArray(w, op);
      } else {
        var g := ListedGroups(w);
        var b: BatchId, r: Rec :| b in g && r in g[b] && r.requestId == x;
        assert RecsOk(w.table[b].records, w.table[b].operator, w.recs);
      }
    }
  }

  /** What a crash loses, exactly: what was owed, is not paid, and was not in the store yet. */
  lemma {:induction false} CrashLosesExactly(w: World, w': World)
    requires Inv(w) && w.up && Next(w, Crash, w')
    ensures Lost(w') == Lost(w) + (OwedIds(w) - FoundIds(w.store) - PaidIds(w))
  {
    OwedIsPositive(w);
    CrashIs(w, w');
    hide Inv, Next, OwedIds, FoundIds;
    assert PaidIds(w') == PaidIds(w);
    hide PaidIds;
    forall x | x in Lost(w)
      ensures x in Lost(w')
    {
      if x in FoundIds(w.store) { FoundIsOwedNow(w, x); }
    }
  }

  lemma {:induction false} CrashIs(w: World, w': World)
    requires Next(w, Crash, w')
    ensures !w'.up && w'.store == w.store && w'.recs == w.recs && w'.committed == w.committed
  {}

  lemma {:induction false} RecoverLoses(w: World, e: Event, w': World)
    requires Inv(w) && e.Recover? && Next(w, e, w')
    ensures Lost(w') <= Lost(w)
  {
    BootOwes(w, e.cfg, e.hydrated, e.open, e.batches, e.ids, w');
    ChainGrows(w, e, w');
    PaidGrows(w, w');
    RecoverStep(w, e.cfg, e.hydrated, e.open, e.batches, e.ids, w');
    hide Inv, Next, PaidIds, OwedIds, FoundIds, Lost, IsLoad, RecoverRows, Owed, Minted;
    LostShrinks(w, w', {});
  }

  /** In batching mode only a crash loses anything, and then exactly what is owed and not stored. */
  lemma {:induction false} LossOnlyAtCrash(w: World, e: Event, w': World)
    requires Inv(w) && Next(w, e, w') && (e.Settle? ==> w.svc.cfg.batchMin > 0)
    ensures Lost(w') <= Lost(w) + (if e.Crash? && w.up then OwedIds(w) - FoundIds(w.store) else {})
  {
    hide Inv, Next, Lost, OwedIds, FoundIds;
    match e
    case Settle(inbound, at, newId) => SettleLoses(w, inbound, at, newId, w');
    case Flush(op, newId) => FlushLoses(w, op, newId, w');
    case PaidOut(id) => PaidOutLoses(w, id, w');
    case Crash => CrashLoses(w, w');
    case Recover(_, _, _, _, _) => RecoverLoses(w, e, w');
    case _ => SmallStepLoses(w, e, w');
  }

  // ----- a store that has caught up loses nothing -----

  ghost predicate AllQueuesEmpty(w: World) {
    forall op :: Chain(w.svc.chains, op) == []
  }

  lemma {:induction false} QuietOwedIsFound(ws: seq<World>, es: seq<Event>, i: nat)
    requires IsRun(ws, es) && i < |ws| && ws[i].up && AllQueuesEmpty(ws[i])
    ensures OwedIds(ws[i]) <= FoundIds(ws[i].store)
  {
    var w := ws[i];
    QuietStoreIsMemory(ws, es, i);
    RunInv(ws, es, i);
    assert BatchesFit(w.store, w.table);
    hide IsRun, Core, OperatorOk, BooksOk, Chain, AllQueuesEmpty;
    forall x | x in OwedIds(w)
      ensures x in FoundIds(w.store)
    {
      if x in IdsIn(ListedGroups(w)) {
        ListedIsFound(w, x);
      } else {
        AccruingIsFound(w, x);
      }
    }
  }

  lemma {:induction false} ListedIsFound(w: World, x: RequestId)
    requires BatchesFit(w.store, w.table) && LoadedBatches(w.store).Keys == w.svc.liabilities.Keys
    requires x in IdsIn(ListedGroups(w))
    ensures x in FoundIds(w.store)
  {
    var g := ListedGroups(w);
    var b: BatchId, r: Rec :| b in g && r in g[b] && r.requestId == x;
    assert b in LoadedBatches(w.store).Keys;
    assert LoadedBatches(w.store)[b] == w.table[b];
  }

  lemma {:induction false} AccruingIsFound(w: World, x: RequestId)
    requires forall op :: LoadedOpen(w.store, op) == MemoryRow(w, op)
    requires x in IdsIn(AccruingGroups(w.svc))
    ensures x in FoundIds(w.store)
  {
    var h := AccruingGroups(w.svc);
    var op: Operator, r: Rec :| op in h && r in h[op] && r.requestId == x;
    assert LoadedOpen(w.store, op) == MemoryRow(w, op);
    assert r in w.store.openKeys[op].records;
  }

  /**
   * If every process batches, and every crash finds the store caught up, then at every point of
   * the run nothing is lost: what came in is margin kept, sent, or outstanding.
   */
  lemma {:induction false} NothingLost(ws: seq<World>, es: seq<Event>, i: nat)
    requires IsRun(ws, es) && i < |ws|
    requires forall j | 0 <= j < i && es[j].Settle? :: ws[j].svc.cfg.batchMin > 0
    requires forall j | 0 <= j < i && es[j].Crash? && ws[j].up :: AllQueuesEmpty(ws[j])
    ensures Lost(ws[i]) == {}
  {
    hide Init, Next, Inv, OwedIds, FoundIds, AllQueuesEmpty;
    if i == 0 {
      StartsEmpty(ws, es);
    } else {
      NothingLost(ws, es, i - 1);
      RunInv(ws, es, i - 1);
      RunStep(ws, es, i - 1);
      hide Lost;
      if es[i - 1].Crash? && ws[i - 1].up { QuietOwedIsFound(ws, es, i - 1); }
      LossOnlyAtCrash(ws[i - 1], es[i - 1], ws[i]);
    }
  }

  lemma {:induction false} StartsEmpty(ws: seq<World>, es: seq<Event>)
    requires IsRun(ws, es)
    ensures Lost(ws[0]) == {}
  {}
}
