/** The whole of boot recovery, row after row. */
module PayoutBoot {
  import opened Prelude
  import opened AccrualStore
  import opened Settlement
  import opened Owing
  import opened WriteChain
  import opened PayoutLine
  import opened PayoutWorld
  import opened PayoutSteps
  import opened PayoutAccrue
  import opened PayoutRecover

  ghost predicate LinesOk(v: World, rows: seq<Row>) {
    forall op :: RecoveryLine(v, op, Waiting(rows, op)) && QueueOk(v, op)
  }

  /** Recovery has reached `rows`; `first` is the table it started from. */
  ghost predicate Mid(v: World, first: map<BatchId, Row>, rows: seq<Row>, ids: seq<BatchId>) {
    && Core(v) && Recovering(v)
    && RowsFit(v, rows) && |ids| == |rows| && IdsFresh(v, ids)
    && LinesOk(v, rows)
    && (forall b | b in first :: b in v.table)
    && v.table == first + Minted(v.svc, first)
    && (forall b | b in v.svc.liabilities && b in first :: b in LoadedBatches(v.store))
  }

  lemma {:induction false} MidMeans(v: World, first: map<BatchId, Row>, rows: seq<Row>, ids: seq<BatchId>)
    requires Mid(v, first, rows, ids)
    ensures Core(v) && Recovering(v) && RowsFit(v, rows) && |ids| == |rows| && IdsFresh(v, ids)
    ensures LinesOk(v, rows) && BatchesKnown(v)
    ensures (forall b | b in first :: b in v.table) && v.table == first + Minted(v.svc, first)
    ensures forall b | b in v.svc.liabilities && b in first :: b in LoadedBatches(v.store)
    ensures rows != [] ==> RowFits(v, rows[0]) && Fresh(v, ids[0])
    ensures rows != [] && !Resumed(rows[0]) ==>
      RecoveryLine(v, rows[0].operator, true) && RecsOk(rows[0].records, rows[0].operator, v.recs)
  {
    hide Core, Recovering, BatchesKnown, RecoveryLine, RecsOk, Minted, RowFits, Fresh, QueueOk;
    CoreKnowsBatches(v);
    if rows != [] && !Resumed(rows[0]) {
      WaitingTail(v, rows, rows[0].operator);
      HeadRecords(v, rows[0]);
      assert RecoveryLine(v, rows[0].operator, Waiting(rows, rows[0].operator));
    }
  }

  lemma {:induction false} HeadRecords(v: World, row: Row)
    requires Core(v) && RowFits(v, row) && !Resumed(row)
    ensures RecsOk(row.records, row.operator, v.recs)
  {}

  lemma {:induction false} WaitingTail(v: World, rows: seq<Row>, op: Operator)
    requires rows != [] && RowsFit(v, rows)
    ensures Resumed(rows[0]) || rows[0].operator != op ==> Waiting(rows[1..], op) == Waiting(rows, op)
    ensures !Resumed(rows[0]) && rows[0].operator == op ==> Waiting(rows, op) && !Waiting(rows[1..], op)
  {
    var tail := rows[1..];
    if Waiting(tail, op) {
      var i :| 0 <= i < |tail| && !Resumed(tail[i]) && tail[i].operator == op;
      assert rows[i + 1] == tail[i];
    }
    if Waiting(rows, op) && (Resumed(rows[0]) || rows[0].operator != op) {
      var i :| 0 <= i < |rows| && !Resumed(rows[i]) && rows[i].operator == op;
      assert tail[i - 1] == rows[i];
    }
    if !Resumed(rows[0]) && rows[0].operator == op {
      forall i | 0 <= i < |tail| && !Resumed(tail[i])
        ensures tail[i].operator != op
      {
        assert tail[i] == rows[i + 1] && RowFits(v, rows[i + 1]) && RowFits(v, rows[0]);
      }
    }
  }

  lemma {:induction false} IdsFreshTail(v: World, ids: seq<BatchId>, v': World)
    requires ids != [] && IdsFresh(v, ids)
    requires forall b | b in v'.table :: b in v.table || b == ids[0]
    ensures IdsFresh(v', ids[1..])
  {
    forall i | 0 <= i < |ids[1..]|
      ensures Fresh(v', ids[1..][i])
    {
      assert ids[1..][i] == ids[i + 1] && Fresh(v, ids[i + 1]);
    }
  }

  lemma {:induction false} RowsFitTail(v: World, rows: seq<Row>, v': World, listed: set<BatchId>)
    requires rows != [] && RowsFit(v, rows) && v'.store == v.store
    requires forall b | b in v.table :: b in v'.table && v'.table[b] == v.table[b]
    requires v'.svc.liabilities.Keys == v.svc.liabilities.Keys + listed
    requires forall b | b in listed :: b !in v.table || (b in LoadedBatches(v.store) && v.table[b] == rows[0])
    requires Resumed(rows[0]) ==> rows[0].batchId.value in listed
    ensures RowsFit(v', rows[1..])
  {
    var tail := rows[1..];
    forall i | 0 <= i < |tail|
      ensures RowFits(v', tail[i])
    {
      assert tail[i] == rows[i + 1] && RowFits(v, rows[i + 1]) && rows[i + 1] != rows[0];
    }
    assert RowFits(v, rows[0]);
    forall b | b in LoadedBatches(v'.store)
      ensures b in v'.svc.liabilities || v'.table[b] in tail
    {
      if b !in v.svc.liabilities && v.table[b] != rows[0] {
        assert v.table[b] in tail;
      }
    }
  }

  lemma {:induction false} MidFrom(v: World, first: map<BatchId, Row>, rows: seq<Row>, ids: seq<BatchId>)
    requires Core(v) && Recovering(v) && RowsFit(v, rows) && |ids| == |rows| && IdsFresh(v, ids)
    requires LinesOk(v, rows)
    requires (forall b | b in first :: b in v.table) && v.table == first + Minted(v.svc, first)
    requires forall b | b in v.svc.liabilities && b in first :: b in LoadedBatches(v.store)
    ensures Mid(v, first, rows, ids)
  {
    hide Core, Recovering, RowsFit, IdsFresh, LinesOk, Minted;
  }

  // ----- a batch row -----

  lemma {:induction false} ResumeRecords(v: World, row: Row)
    requires Core(v) && RowFits(v, row) && Resumed(row)
    ensures Unhandled(row.records, Listed(v)) == row.records != [] && Sum(row.records) > 0
    ensures row.batchId.value in v.table && v.table[row.batchId.value] == row
    ensures row.batchId.value !in v.svc.liabilities
  {
    ListedApart(v, row.batchId.value);
    assert RecsOk(row.records, row.operator, v.recs);
    hide Core;
    UnhandledKeeps(row.records, Listed(v));
    SumPositive(row.records);
  }

  /** What recovering a batch row does to the service. */
  lemma {:induction false} ResumeRow(s: Service, handled: set<RequestId>, row: Row, newId: BatchId)
    requires Resumed(row) && Unhandled(row.records, handled) == row.records != [] && Sum(row.records) > 0
    ensures var b := row.batchId.value;
      RecoverRow(Recovery(s, handled), row, newId) == Recovery(
        s.(claimed := s.claimed + Ids(row.records),
           liabilities := s.liabilities[b :=
             Liability(row.operator, Sum(row.records), |row.records|, row.firstAt, 0, None, None)],
           chains := s.chains[row.operator := Chain(s.chains, row.operator) + PutBatchCmds(b, row)],
           jobs := s.jobs[Batch(b) := Job(row.operator, Sum(row.records), row.records, Some(b), true)]),
        handled + Ids(row.records))
  {
    hide Unhandled, Ids, Sum, PutBatchCmds;
    var b := row.batchId.value;
    assert row.(records := row.records, batchId := Some(b)) == row;
    assert PutBatchCmds(b, row) + [] == PutBatchCmds(b, row);
  }

  lemma {:induction false} ResumeIsLists(v: World, row: Row, newId: BatchId) returns (v': World)
    requires Core(v) && RowFits(v, row) && Resumed(row)
    ensures var b := row.batchId.value;
      Lists(v, b, row, PutBatchCmds(b, row), true, v')
    ensures RecoverRow(Recovery(v.svc, Listed(v)), row, newId).svc == v'.svc
    ensures RecoverRow(Recovery(v.svc, Listed(v)), row, newId).handled == Listed(v) + Ids(row.records)
    ensures v'.table == v.table
  {
    hide Core, Listed, Unhandled, RowFits, LoadedBatches, Ids, Sum, PutBatchCmds, RecoverRow, Chain;
    ResumeRecords(v, row);
    ResumeRow(v.svc, Listed(v), row, newId);
    v' := v.(svc := RecoverRow(Recovery(v.svc, Listed(v)), row, newId).svc);
    assert v.table[row.batchId.value := row] == v.table;
  }

  lemma {:induction false} ResumeLines(v: World, b: BatchId, row: Row, v': World, rows: seq<Row>)
    requires BatchesKnown(v) && LinesOk(v, rows) && rows != [] && rows[0] == row && RowsFit(v, rows)
    requires Resumed(row) && b in v.table && v.table[b] == row && b in LoadedBatches(v.store)
    requires Listable(v, b, row)
    requires Lists(v, b, row, PutBatchCmds(b, row), true, v')
    ensures LinesOk(v', rows[1..])
  {
    hide RowsFit, RecoveryLine, QueueOk, BatchesKnown, Listable, Lists, LoadedBatches;
    forall op
      ensures RecoveryLine(v', op, Waiting(rows[1..], op)) && QueueOk(v', op)
    {
      WaitingTail(v, rows, op);
      assert RecoveryLine(v, op, Waiting(rows, op)) && QueueOk(v, op);
      if op == row.operator {
        ResumeOwnLine(v, b, v', Waiting(rows, op));
        ListQueue(v, b, row, PutBatchCmds(b, row), true, v');
      } else {
        ListOtherLine(v, b, row, PutBatchCmds(b, row), true, v', op, Waiting(rows, op));
      }
    }
  }

  lemma {:induction false} MintedSame(
      s: Service, s': Service, first: map<BatchId, Row>, b: BatchId, l: Liability, j: Job)
    requires s'.liabilities == s.liabilities[b := l] && s'.jobs == s.jobs[Batch(b) := j] && b in first
    ensures Minted(s', first) == Minted(s, first)
  {}

  lemma {:induction false} MintedGrows(
      s: Service, s': Service, first: map<BatchId, Row>, b: BatchId, l: Liability, j: Job, row: Row)
    requires s'.liabilities == s.liabilities[b := l] && s'.jobs == s.jobs[Batch(b) := j] && b !in first
    requires row == Row(l.operator, j.records, l.oldestAt, Some(b))
    ensures Minted(s', first) == Minted(s, first)[b := row]
  {}

  lemma {:induction false} ResumeMinted(
      v: World, first: map<BatchId, Row>, b: BatchId, row: Row, writes: seq<Cmd>, v': World)
    requires v.table == first + Minted(v.svc, first) && b in v.table && b !in v.svc.liabilities
    requires Lists(v, b, row, writes, true, v') && v'.table == v.table
    ensures v'.table == first + Minted(v'.svc, first)
  {
    assert b in first;
    MintedSame(v.svc, v'.svc, first, b, v'.svc.liabilities[b], v'.svc.jobs[Batch(b)]);
  }

  lemma {:induction false} ResumeMid(
      v: World, first: map<BatchId, Row>, rows: seq<Row>, ids: seq<BatchId>)
      returns (v': World)
    requires Mid(v, first, rows, ids) && rows != [] && Resumed(rows[0])
    ensures Mid(v', first, rows[1..], ids[1..])
    ensures RecoverRow(Recovery(v.svc, Listed(v)), rows[0], ids[0]) == Recovery(v'.svc, Listed(v'))
    ensures v' == v.(svc := v'.svc, table := v'.table)
  {
    hide Mid, Core, RowsFit, LinesOk, IdsFresh, Listable, RecoverRow, Recovering, Minted, Listed, BatchesKnown;
    MidMeans(v, first, rows, ids);
    var row := rows[0];
    var b := row.batchId.value;
    v' := ResumeIsLists(v, row, ids[0]);
    ResumeListable(v, b);
    ListListed(v, b, row, PutBatchCmds(b, row), true, v');
    ListCore(v, b, row, PutBatchCmds(b, row), true, v');
    ResumeMinted(v, first, b, row, PutBatchCmds(b, row), v');
    ResumeLines(v, b, row, v', rows);
    IdsFreshTail(v, ids, v');
    RowsFitTail(v, rows, v', {b});
    MidFrom(v', first, rows[1..], ids[1..]);
  }

  // ----- an open row -----

  lemma {:induction false} NoBatchesLeft(v: World, rows: seq<Row>)
    requires RowsFit(v, rows) && rows != [] && !Resumed(rows[0])
    ensures forall b | b in LoadedBatches(v.store) :: b in v.svc.liabilities
  {
    forall i | 0 <= i < |rows|
      ensures !Resumed(rows[i])
    {}
  }

  lemma {:induction false} OpenPartIsBatched(v: World, op: Operator, waiting: bool)
    requires RecoveryLine(v, op, waiting)
    ensures PaidIsBatched(Part(v.store, v.table, op), op, PaidOf(v, op))
  {}

  lemma {:induction false} DropLines(v: World, row: Row, v': World, rows: seq<Row>)
    requires LinesOk(v, rows) && rows != [] && rows[0] == row && RowsFit(v, rows)
    requires !Resumed(row) && LoadedOpen(v.store, row.operator) == Some(row)
    requires Covered(v, row, []) && Drops(v, row.operator, v')
    ensures LinesOk(v', rows[1..])
  {
    hide RowsFit, RecoveryLine, QueueOk, Covered, Drops;
    forall op
      ensures RecoveryLine(v', op, Waiting(rows[1..], op)) && QueueOk(v', op)
    {
      WaitingTail(v, rows, op);
      assert RecoveryLine(v, op, Waiting(rows, op)) && QueueOk(v, op);
      if op == row.operator {
        DropOwnLine(v, row, v');
        DropQueue(v, op, v');
      } else {
        DropOtherLine(v, row.operator, v', op, Waiting(rows, op));
      }
    }
  }

  lemma {:induction false} DropMinted(v: World, first: map<BatchId, Row>, v': World)
    requires v'.svc.liabilities == v.svc.liabilities && v'.svc.jobs == v.svc.jobs && v'.table == v.table
    ensures Minted(v'.svc, first) == Minted(v.svc, first) && Listed(v') == Listed(v)
  {}

  lemma {:induction false} DropMid(
      v: World, first: map<BatchId, Row>, rows: seq<Row>, ids: seq<BatchId>)
      returns (v': World)
    requires Mid(v, first, rows, ids) && rows != [] && !Resumed(rows[0])
    requires Unhandled(rows[0].records, Listed(v)) == []
    ensures Mid(v', first, rows[1..], ids[1..])
    ensures RecoverRow(Recovery(v.svc, Listed(v)), rows[0], ids[0]) == Recovery(v'.svc, Listed(v'))
    ensures v' == v.(svc := v'.svc, table := v'.table)
  {
    hide Mid, Core, RowsFit, LinesOk, IdsFresh, RecoveryLine, Covered, Recovering, BatchesKnown, RecsOk;
    MidMeans(v, first, rows, ids);
    var row := rows[0];
    OpenIsCovered(v, row);
    v' := v.(svc := Enqueue(v.svc, row.operator, RemoveOpenCmds(row.operator)));
    DropCore(v, row.operator, v');
    DropLines(v, row, v', rows);
    IdsFreshTail(v, ids, v');
    RowsFitTail(v, rows, v', {});
    DropMinted(v, first, v');
    MidFrom(v', first, rows[1..], ids[1..]);
  }

  lemma {:induction false} MintLines(v: World, row: Row, b: BatchId, payable: seq<Rec>, v': World, rows: seq<Row>)
    requires BatchesKnown(v) && LinesOk(v, rows) && rows != [] && rows[0] == row && RowsFit(v, rows)
    requires !Resumed(row) && LoadedOpen(v.store, row.operator) == Some(row) && Fresh(v, b)
    requires Covered(v, row, payable)
    requires var minted := row.(records := payable, batchId := Some(b));
      && Listable(v, b, minted)
      && Lists(v, b, minted, PutBatchCmds(b, minted) + RemoveOpenCmds(row.operator), false, v')
    ensures LinesOk(v', rows[1..])
  {
    var minted := row.(records := payable, batchId := Some(b));
    var writes := PutBatchCmds(b, minted) + RemoveOpenCmds(row.operator);
    hide RowsFit, RecoveryLine, QueueOk, Covered, Lists, Listable, BatchesKnown;
    forall op
      ensures RecoveryLine(v', op, Waiting(rows[1..], op)) && QueueOk(v', op)
    {
      WaitingTail(v, rows, op);
      assert RecoveryLine(v, op, Waiting(rows, op)) && QueueOk(v, op);
      if op == row.operator {
        MintOwnLine(v, row, b, payable, v');
        ListQueue(v, b, minted, writes, false, v');
      } else {
        ListOtherLine(v, b, minted, writes, false, v', op, Waiting(rows, op));
      }
    }
  }

  lemma {:induction false} PlusPut(m: map<BatchId, Row>, n: map<BatchId, Row>, b: BatchId, row: Row)
    ensures m + n[b := row] == (m + n)[b := row]
  {}

  lemma {:induction false} MintMinted(
      v: World, first: map<BatchId, Row>, b: BatchId, minted: Row, writes: seq<Cmd>, v': World)
    requires v.table == first + Minted(v.svc, first) && b !in v.table && minted.batchId == Some(b)
    requires Lists(v, b, minted, writes, false, v')
    ensures v'.table == first + Minted(v'.svc, first)
  {
    hide Minted;
    MintedGrows(v.svc, v'.svc, first, b, v'.svc.liabilities[b], v'.svc.jobs[Batch(b)], minted);
    PlusPut(first, Minted(v.svc, first), b, minted);
  }

  lemma {:induction false} MintIsLists(v: World, row: Row, b: BatchId, payable: seq<Rec>) returns (v': World)
    requires !Resumed(row) && payable == Unhandled(row.records, Listed(v)) && payable != []
    requires Sum(payable) > 0
    ensures var minted := row.(records := payable, batchId := Some(b));
      Lists(v, b, minted, PutBatchCmds(b, minted) + RemoveOpenCmds(row.operator), false, v')
    ensures RecoverRow(Recovery(v.svc, Listed(v)), row, b) == Recovery(v'.svc, Listed(v) + Ids(payable))
  {
    var minted := row.(records := payable, batchId := Some(b));
    v' := v.(svc := RecoverRow(Recovery(v.svc, Listed(v)), row, b).svc, table := v.table[b := minted]);
  }

  /** What is known of an open row about to be handed to the batch `b`. */
  ghost predicate Mints(v: World, row: Row, b: BatchId, payable: seq<Rec>) {
    && !Resumed(row) && LoadedOpen(v.store, row.operator) == Some(row) && Fresh(v, b)
    && payable == Unhandled(row.records, Listed(v)) && payable != [] && Sum(payable) > 0
    && Covered(v, row, payable) && Listable(v, b, row.(records := payable, batchId := Some(b)))
  }

  lemma {:induction false} CanMint(v: World, first: map<BatchId, Row>, rows: seq<Row>, ids: seq<BatchId>)
    requires Mid(v, first, rows, ids) && rows != [] && !Resumed(rows[0])
    requires Unhandled(rows[0].records, Listed(v)) != []
    ensures Mints(v, rows[0], ids[0], Unhandled(rows[0].records, Listed(v)))
  {
    hide Mid, Core, RowsFit, LinesOk, IdsFresh, RecoveryLine, Covered, RecoverRow, RecsOk, Recovering;
    hide Minted, Listed, Listable, BatchesKnown, Part, PaidOf;
    MidMeans(v, first, rows, ids);
    var row, b := rows[0], ids[0];
    var payable := Unhandled(row.records, Listed(v));
    PayableOk(row.records, row.operator, v.recs, Listed(v));
    NoBatchesLeft(v, rows);
    OpenIsCovered(v, row);
    OpenPartIsBatched(v, row.operator, true);
    MintListable(v, row, b, payable);
  }

  lemma {:induction false} MintedPlain(row: Row, b: BatchId, payable: seq<Rec>)
    ensures var writes := PutBatchCmds(b, row.(records := payable, batchId := Some(b)))
                          + RemoveOpenCmds(row.operator);
      forall c | c in writes :: !c.SetOpen?
  {}

  lemma {:induction false} MintKeeps(v: World, b: BatchId, minted: Row, writes: seq<Cmd>, v': World)
    requires Lists(v, b, minted, writes, false, v') && Fresh(v, b)
    ensures v' == v.(svc := v'.svc, table := v'.table) && v'.table == v.table[b := minted] && b !in v.table
    ensures v'.svc.liabilities.Keys == v.svc.liabilities.Keys + {b}
  {}

  lemma {:induction false} MintMid(
      v: World, first: map<BatchId, Row>, rows: seq<Row>, ids: seq<BatchId>)
      returns (v': World)
    requires Mid(v, first, rows, ids) && rows != [] && !Resumed(rows[0])
    requires Unhandled(rows[0].records, Listed(v)) != []
    ensures Mid(v', first, rows[1..], ids[1..])
    ensures RecoverRow(Recovery(v.svc, Listed(v)), rows[0], ids[0]) == Recovery(v'.svc, Listed(v'))
    ensures v' == v.(svc := v'.svc, table := v'.table)
  {
    hide Mid, Core, RowsFit, LinesOk, IdsFresh, RecoveryLine, Covered, RecoverRow, RecsOk, Recovering;
    hide Minted, Listed, Listable, BatchesKnown, LoadedOpen, LoadedBatches;
    CanMint(v, first, rows, ids);
    MidMeans(v, first, rows, ids);
    var row, b := rows[0], ids[0];
    var payable := Unhandled(row.records, Listed(v));
    var minted := row.(records := payable, batchId := Some(b));
    var writes := PutBatchCmds(b, minted) + RemoveOpenCmds(row.operator);
    MintedPlain(row, b, payable);
    v' := MintIsLists(v, row, b, payable);
    MintKeeps(v, b, minted, writes, v');
    hide Lists, Unhandled, PutBatchCmds, RemoveOpenCmds, Fresh, Ids;
    ListListed(v, b, minted, writes, false, v');
    ListCore(v, b, minted, writes, false, v');
    MintLines(v, row, b, payable, v', rows);
    MintMinted(v, first, b, minted, writes, v');
    IdsFreshTail(v, ids, v');
    RowsFitTail(v, rows, v', {b});
    MidFrom(v', first, rows[1..], ids[1..]);
  }

  // ----- all rows -----

  lemma {:induction false} RecoverAll(v: World, first: map<BatchId, Row>, rows: seq<Row>, ids: seq<BatchId>)
      returns (v': World)
    requires Mid(v, first, rows, ids)
    ensures Mid(v', first, [], [])
    ensures v'.svc == RecoverRows(Recovery(v.svc, Listed(v)), rows, ids).svc
    ensures v' == v.(svc := v'.svc, table := v'.table)
    decreases |rows|
  {
    if rows == [] {
      v' := v;
    } else {
      var next;
      hide RecoverRow;
      if Resumed(rows[0]) {
        next := ResumeMid(v, first, rows, ids);
      } else if Unhandled(rows[0].records, Listed(v)) == [] {
        next := DropMid(v, first, rows, ids);
      } else {
        next := MintMid(v, first, rows, ids);
      }
      hide Mid;
      v' := RecoverAll(next, first, rows[1..], ids[1..]);
    }
  }

  // ----- before the first row, and after the last -----

  lemma {:induction false} BootCore(w: World, cfg: Config, hydrated: set<RequestId>, v: World)
    requires Core(w) && !w.up && v == w.(up := true, svc := Boot(cfg, hydrated))
    ensures Core(v) && Recovering(v) && Listed(v) == {}
  {
    NarrowsCore(w, v);
  }

  lemma {:induction false} BootRows(w: World, v: World, open: seq<Row>, batches: seq<Row>)
    requires StoreOk(w.store, w.table, w.recs) && TableOk(w.table, w.recs)
    requires IsLoad(w.store, open, batches)
    requires v.store == w.store && v.table == w.table && v.svc.liabilities == map[]
    ensures RowsFit(v, batches + open)
    ensures forall op :: Waiting(batches + open, op) <==> LoadedOpen(w.store, op).Some?
  {
    var rows := batches + open;
    forall i | 0 <= i < |batches|
      ensures Resumed(batches[i]) && RowFits(v, batches[i])
    {
      assert LoadedBatches(w.store)[batches[i].batchId.value] == batches[i];
    }
    forall i | 0 <= i < |open|
      ensures !Resumed(open[i]) && RowFits(v, open[i])
    {
      assert LoadedOpen(w.store, open[i].operator) == Some(open[i]);
    }
    forall i | 0 <= i < |rows|
      ensures RowFits(v, rows[i])
      ensures Resumed(rows[i]) <==> i < |batches|
    {
      if i >= |batches| { assert rows[i] == open[i - |batches|]; }
    }
    forall i, j | 0 <= i < j < |rows|
      ensures rows[i] != rows[j]
    {
      if i >= |batches| { assert rows[i] == open[i - |batches|] && rows[j] == open[j - |batches|]; }
    }
    forall b | b in LoadedBatches(v.store)
      ensures v.table[b] in rows
    {
      assert LoadedBatches(w.store)[b] in batches;
    }
    BootWaiting(w, open, batches);
  }

  lemma {:induction false} BootWaiting(w: World, open: seq<Row>, batches: seq<Row>)
    requires StoreOk(w.store, w.table, w.recs) && IsLoad(w.store, open, batches)
    requires forall i | 0 <= i < |batches| :: Resumed(batches[i])
    requires forall i | 0 <= i < |open| :: !Resumed(open[i])
    ensures forall op :: Waiting(batches + open, op) <==> LoadedOpen(w.store, op).Some?
  {
    var rows := batches + open;
    forall op
      ensures Waiting(rows, op) <==> LoadedOpen(w.store, op).Some?
    {
      if Waiting(rows, op) {
        var i :| 0 <= i < |rows| && !Resumed(rows[i]) && rows[i].operator == op;
        assert rows[i] == open[i - |batches|];
      }
      if LoadedOpen(w.store, op).Some? {
        assert w.store.openKeys[op] in open;
        var j :| 0 <= j < |open| && open[j] == w.store.openKeys[op];
        assert rows[|batches| + j] == open[j];
      }
    }
  }

  lemma {:induction false} BootLine(w: World, cfg: Config, hydrated: set<RequestId>, v: World, op: Operator)
    requires Core(w) && !w.up && OperatorOk(w, op)
    requires v == w.(up := true, svc := Boot(cfg, hydrated))
    ensures RecoveryLine(v, op, LoadedOpen(w.store, op).Some?) && QueueOk(v, op)
  {
    CoreKnowsBatches(w);
    PartLoads(w.store, w.table, op);
    BootHeld(w, v, op);
    PaidSame(w, v, op);
    hide Core, PaidOf, Part, Held, LoadedBatches, BatchesKnown, PaidIsBatched, LoadedOpen;
  }

  lemma {:induction false} BootHeld(w: World, v: World, op: Operator)
    requires BatchesFit(w.store, w.table)
    requires v.store == w.store && v.table == w.table && v.svc.liabilities == map[]
    ensures LoadedBatches(Part(w.store, w.table, op)) == Held(v, op)
  {
    PartLoads(w.store, w.table, op);
    hide Part;
  }

  lemma {:induction false} BootMid(w: World, cfg: Config, hydrated: set<RequestId>, open: seq<Row>, batches: seq<Row>,
                ids: seq<BatchId>, v: World)
    requires Inv(w) && !w.up && IsLoad(w.store, open, batches)
    requires |ids| == |batches| + |open| && IdsFresh(w, ids)
    requires v == w.(up := true, svc := Boot(cfg, hydrated))
    ensures Mid(v, w.table, batches + open, ids) && Listed(v) == {}
  {
    hide Core, OperatorOk, RowsFit, RecoveryLine, QueueOk, BooksOk, IsLoad, StoreOk, TableOk, Recovering,
      LoadedOpen, LoadedBatches, Waiting, Listed, LinesOk, Mid, IdsFresh;
    CoreTables(w);
    BootRows(w, v, open, batches);
    BootCore(w, cfg, hydrated, v);
    BootLines(w, cfg, hydrated, v, batches + open);
    IdsStayFresh(w, v, ids);
    NothingListed(v, w.table);
    hide Minted, Inv;
    MidFrom(v, w.table, batches + open, ids);
  }

  lemma {:induction false} CoreTables(w: World)
    requires Core(w)
    ensures StoreOk(w.store, w.table, w.recs) && TableOk(w.table, w.recs)
  {}

  lemma {:induction false} NothingListed(v: World, table: map<BatchId, Row>)
    requires v.svc.liabilities == map[]
    ensures table == table + Minted(v.svc, table)
  {
    assert Minted(v.svc, table) == map[];
  }

  lemma {:induction false} IdsStayFresh(w: World, v: World, ids: seq<BatchId>)
    requires IdsFresh(w, ids) && v.table == w.table
    ensures IdsFresh(v, ids)
  {
    forall i | 0 <= i < |ids|
      ensures Fresh(v, ids[i])
    {
      assert Fresh(w, ids[i]);
    }
  }

  lemma {:induction false} BootLines(w: World, cfg: Config, hydrated: set<RequestId>, v: World, rows: seq<Row>)
    requires Core(w) && !w.up && (forall op :: OperatorOk(w, op))
    requires v == w.(up := true, svc := Boot(cfg, hydrated))
    requires forall op :: Waiting(rows, op) <==> LoadedOpen(w.store, op).Some?
    ensures LinesOk(v, rows)
  {
    hide Core, OperatorOk, RecoveryLine, QueueOk, LoadedOpen, Waiting;
    forall op
      ensures RecoveryLine(v, op, Waiting(rows, op)) && QueueOk(v, op)
    {
      BootLine(w, cfg, hydrated, v, op);
    }
  }

  lemma {:induction false} RecoveredLine(v: World, op: Operator)
    requires RowsFit(v, []) && Recovering(v) && BatchesKnown(v)
    requires RecoveryLine(v, op, false) && QueueOk(v, op)
    ensures OperatorOk(v, op)
  {
    assert Held(v, op) == DueTo(v, op);
  }

  lemma {:induction false} RecoverStep(
      w: World, cfg: Config, hydrated: set<RequestId>, open: seq<Row>, batches: seq<Row>,
      ids: seq<BatchId>, w': World)
    requires Next(w, Recover(cfg, hydrated, open, batches, ids), w')
    ensures !w.up && IsLoad(w.store, open, batches) && |ids| == |batches| + |open| && IdsFresh(w, ids)
    ensures var s := RecoverRows(Recovery(Boot(cfg, hydrated), {}), batches + open, ids).svc;
      w' == WithService(w, s).(up := true, books := Books(Owed(s), 0, 0, 0))
  {
    hide IsLoad, RecoverRows, Owed, Minted, Fresh;
  }

  /** The recovered state, before its books are opened. */
  lemma {:induction false} Recovered(
      w: World, cfg: Config, hydrated: set<RequestId>, open: seq<Row>, batches: seq<Row>,
      ids: seq<BatchId>, w': World) returns (u: World)
    requires Inv(w) && Next(w, Recover(cfg, hydrated, open, batches, ids), w')
    ensures Mid(u, w.table, [], []) && w' == u.(books := Books(Owed(u.svc), 0, 0, 0))
    ensures u.store == w.store && u.committed == w.committed
  {
    hide RecoverRows, Mid, Inv, IdsFresh, Minted, Listed, Next, IsLoad, Owed;
    RecoverStep(w, cfg, hydrated, open, batches, ids, w');
    var v := w.(up := true, svc := Boot(cfg, hydrated));
    BootMid(w, cfg, hydrated, open, batches, ids, v);
    u := RecoverAll(v, w.table, batches + open, ids);
    hide Core, RowsFit, Recovering, LinesOk, BatchesKnown;
    MidMeans(u, w.table, [], []);
  }

  lemma {:induction false} RecoverInv(
      w: World, cfg: Config, hydrated: set<RequestId>, open: seq<Row>, batches: seq<Row>,
      ids: seq<BatchId>, w': World)
    requires Inv(w) && Next(w, Recover(cfg, hydrated, open, batches, ids), w')
    ensures Inv(w')
  {
    hide Inv, Next, Mid, Core, Recovering, RowsFit, LinesOk, IdsFresh, BatchesKnown, Minted, Owed;
    var u := Recovered(w, cfg, hydrated, open, batches, ids, w');
    MidMeans(u, w.table, [], []);
    RecoveredInv(u, w');
  }

  lemma {:induction false} RecoveredInv(u: World, w': World)
    requires Core(u) && Recovering(u) && RowsFit(u, []) && LinesOk(u, [])
    requires w' == u.(books := Books(Owed(u.svc), 0, 0, 0))
    ensures Inv(w')
  {
    RebookedCore(u, w');
    CoreKnowsBatches(u);
    hide Core, RowsFit, OperatorOk, BatchesKnown, QueueOk, RecoveryLine;
    forall op
      ensures OperatorOk(w', op)
    {
      assert RecoveryLine(u, op, Waiting([], op)) && QueueOk(u, op);
      RecoveredLine(u, op);
      SameLine(u, w', op);
    }
  }

  lemma {:induction false} RebookedCore(u: World, w': World)
    requires Core(u) && u.up && w' == u.(books := w'.books)
    ensures Core(w')
  {
    NarrowsCore(u, w');
  }
}
