// One operator's line: its part of the store, its queue of writes, its accrual and the
// batches it is owed. Each lemma is one kind of event on the line.
module PayoutLine {
  import opened Prelude
  import opened AccrualStore
  import opened Settlement
  import opened WriteChain

  /** The keys and index entries that belong to `op`. */
  ghost function Part(st: Store, table: map<BatchId, Row>, op: Operator): Store {
    Store(
      map o | o in st.openKeys && o == op :: st.openKeys[o],
      st.openIndex * {op},
      map b | b in st.batchKeys && b in table && table[b].operator == op :: st.batchKeys[b],
      set b | b in st.batchIndex && b in table && table[b].operator == op)
  }

  lemma {:induction false} PartOfExec(st: Store, table: map<BatchId, Row>, heap: Heap, c: Cmd, op: Operator)
    requires CmdFits(c, op, table, |heap|)
    ensures Part(Exec(st, heap, c), table, op) == Exec(Part(st, table, op), heap, c)
  {
    var x, y := Part(Exec(st, heap, c), table, op), Exec(Part(st, table, op), heap, c);
    if c.SetOpen? || c.SaddOpen? || c.DelOpen? || c.SremOpen? {
      assert x.openKeys == y.openKeys && x.openIndex == y.openIndex;
    } else if c.SetBatch? || c.DelBatch? {
      assert x.batchKeys == y.batchKeys;
    } else {
      assert x.batchIndex == y.batchIndex;
    }
  }

  lemma {:induction false} PartOfOthersExec(
      st: Store, table: map<BatchId, Row>, heap: Heap, c: Cmd, op: Operator, other: Operator)
    requires CmdFits(c, op, table, |heap|) && other != op
    ensures Part(Exec(st, heap, c), table, other) == Part(st, table, other)
  {
    var x, y := Part(Exec(st, heap, c), table, other), Part(st, table, other);
    if c.SetOpen? || c.SaddOpen? || c.DelOpen? || c.SremOpen? {
      assert x.openKeys == y.openKeys && x.openIndex == y.openIndex;
    } else if c.SetBatch? || c.DelBatch? {
      assert x.batchKeys == y.batchKeys;
    } else {
      assert x.batchIndex == y.batchIndex;
    }
  }

  lemma {:induction false} PartOfGrownTable(
      st: Store, table: map<BatchId, Row>, more: map<BatchId, Row>, op: Operator)
    requires BatchesFit(st, table)
    requires forall b | b in table :: b in more && more[b] == table[b]
    ensures Part(st, more, op) == Part(st, table, op)
  {
    assert Part(st, more, op).batchKeys == Part(st, table, op).batchKeys;
    assert Part(st, more, op).batchIndex == Part(st, table, op).batchIndex;
  }

  lemma {:induction false} PartLoads(st: Store, table: map<BatchId, Row>, op: Operator)
    requires BatchesFit(st, table)
    ensures BatchesFit(Part(st, table, op), table)
    ensures LoadedOpen(Part(st, table, op), op) == LoadedOpen(st, op)
    ensures forall b :: b in LoadedBatches(Part(st, table, op)) <==>
                          (b in LoadedBatches(st) && table[b].operator == op)
  {}

  /** The queue, run to its end, leaves exactly what memory holds. */
  ghost predicate Drained(
      st: Store, heap: Heap, op: Operator, acc: Option<Accrual>, due: map<BatchId, Row>)
  {
    && LoadedOpen(st, op) == (
        match acc
        case None => None
        case Some(a) => Some(Row(op, ArrayAt(heap, a.arr), a.firstAt, None)))
    && LoadedBatches(st) == due
  }

  ghost predicate LineOk(
      part: Store, heap: Heap, chain: seq<Cmd>, op: Operator, paid: set<RequestId>,
      table: map<BatchId, Row>, acc: Option<Accrual>, due: map<BatchId, Row>)
  {
    && BatchesFit(part, table)
    && ChainFits(chain, op, table, |heap|)
    && Safe(part, heap, chain, op, paid)
    && Drained(ExecAll(part, heap, chain), heap, op, acc, due)
    && (acc.Some? ==> acc.value.arr < |heap| && KeepsOnceWritten(chain, acc.value.arr))
  }

  /** Inside a turn: the accrual's array may be ahead of the open row the queue ends with. */
  ghost predicate MidTurn(
      part: Store, heap: Heap, chain: seq<Cmd>, op: Operator, paid: set<RequestId>,
      table: map<BatchId, Row>, arr: nat, due: map<BatchId, Row>)
  {
    && BatchesFit(part, table)
    && ChainFits(chain, op, table, |heap|)
    && Safe(part, heap, chain, op, paid)
    && arr < |heap| && KeepsOnceWritten(chain, arr)
    && LoadedBatches(ExecAll(part, heap, chain)) == due
    && OpenIds(ExecAll(part, heap, chain), op) <= Ids(heap[arr])
  }

  // ----- a queued command runs -----

  lemma {:induction false} LineExec(
      part: Store, heap: Heap, chain: seq<Cmd>, op: Operator, paid: set<RequestId>,
      table: map<BatchId, Row>, acc: Option<Accrual>, due: map<BatchId, Row>)
    requires LineOk(part, heap, chain, op, paid, table, acc, due) && chain != []
    ensures LineOk(Exec(part, heap, chain[0]), heap, chain[1..], op, paid, table, acc, due)
    ensures Loadable(part, op) <= Loadable(Exec(part, heap, chain[0]), op) + paid
  {
    assert CmdFits(chain[0], op, table, |heap|);
    if acc.Some? && chain[0].SetOpen? && chain[0].arr == acc.value.arr {
      KeepsIsKeepsOnceWritten(chain[1..], acc.value.arr);
    }
  }

  // ----- a record is accrued -----

  lemma {:induction false} LineToMidTurn(
      part: Store, heap: Heap, chain: seq<Cmd>, op: Operator, paid: set<RequestId>,
      table: map<BatchId, Row>, acc: Option<Accrual>, due: map<BatchId, Row>)
    requires LineOk(part, heap, chain, op, paid, table, acc, due)
    ensures acc.Some? ==> MidTurn(part, heap, chain, op, paid, table, acc.value.arr, due)
    ensures acc.None? ==> MidTurn(part, heap + [[]], chain, op, paid, table, |heap|, due)
  {
    if acc.None? {
      var heap' := heap + [[]];
      forall c | c in chain && c.SetOpen?
        ensures ArrayAt(heap, c.arr) == ArrayAt(heap', c.arr) && c.arr != |heap|
      {
        var i :| 0 <= i < |chain| && chain[i] == c;
        assert CmdFits(chain[i], op, table, |heap|);
      }
      ExecHeapFrame(part, heap, heap', chain);
      UnwrittenKeepsOnceWritten(chain, |heap|);
      ChainFitsMore(chain, op, table, |heap|, table, |heap'|);
    }
  }

  lemma {:induction false} ChainFitsMore(
      chain: seq<Cmd>, op: Operator, table: map<BatchId, Row>, n: nat,
      table': map<BatchId, Row>, n': nat)
    requires ChainFits(chain, op, table, n) && n <= n'
    requires forall b | b in table :: b in table' && table'[b] == table[b]
    ensures ChainFits(chain, op, table', n')
  {
    forall i | 0 <= i < |chain|
      ensures CmdFits(chain[i], op, table', n')
    {
      assert CmdFits(chain[i], op, table, n);
    }
  }

  lemma {:induction false} MidTurnPush(
      part: Store, heap: Heap, chain: seq<Cmd>, op: Operator, paid: set<RequestId>,
      table: map<BatchId, Row>, arr: nat, due: map<BatchId, Row>, rec: Rec)
    requires MidTurn(part, heap, chain, op, paid, table, arr, due)
    requires rec.requestId !in paid
    ensures MidTurn(part, heap[arr := heap[arr] + [rec]], chain, op, paid, table, arr, due)
  {
    var heap' := heap[arr := heap[arr] + [rec]];
    SafeGrown(part, part, heap, heap', chain, op, paid, table, arr, rec, false);
    var f, f' := ExecAll(part, heap, chain), ExecAll(part, heap', chain);
    var g :| SameButGrown(f, f', op, rec, g);
    GrownOpenIds(f, f', op, rec, g);
    IdsAppend(heap[arr], rec);
    assert LoadedBatches(f') == LoadedBatches(f);
  }

  /** The line of an operator whose arrays the push does not touch. */
  lemma {:induction false} LineUntouched(
      part: Store, heap: Heap, heap': Heap, chain: seq<Cmd>, op: Operator, paid: set<RequestId>,
      table: map<BatchId, Row>, table': map<BatchId, Row>, acc: Option<Accrual>, due: map<BatchId, Row>)
    requires LineOk(part, heap, chain, op, paid, table, acc, due)
    requires |heap| <= |heap'|
    requires forall c | c in chain && c.SetOpen? :: ArrayAt(heap, c.arr) == ArrayAt(heap', c.arr)
    requires acc.Some? ==> ArrayAt(heap, acc.value.arr) == ArrayAt(heap', acc.value.arr)
    requires forall b | b in table :: b in table' && table'[b] == table[b]
    ensures LineOk(part, heap', chain, op, paid, table', acc, due)
  {
    ExecHeapFrame(part, heap, heap', chain);
    ChainFitsMore(chain, op, table, |heap|, table', |heap'|);
  }

  /** The accrual stays open: its row is queued. */
  lemma {:induction false} MidTurnPutOpen(
      part: Store, heap: Heap, chain: seq<Cmd>, op: Operator, paid: set<RequestId>,
      table: map<BatchId, Row>, a: Accrual, due: map<BatchId, Row>)
    requires MidTurn(part, heap, chain, op, paid, table, a.arr, due)
    requires Ids(heap[a.arr]) !! paid
    ensures LineOk(part, heap, chain + PutOpenCmds(op, a.arr, a.firstAt), op, paid, table, Some(a), due)
  {
    var f := ExecAll(part, heap, chain);
    var c1, c2 := SetOpen(op, a.arr, a.firstAt), SaddOpen(op);
    var f1 := Exec(f, heap, c1);
    var f2 := Exec(f1, heap, c2);
    SafeAtEnd(part, heap, chain, op, paid);
    assert LoadedBatches(f1) == LoadedBatches(f) && LoadedBatches(f2) == LoadedBatches(f);
    assert OpenIds(f1, op) <= Ids(heap[a.arr]);
    SafePair(f, heap, c1, c2, op, paid);
    SafeAppend(part, heap, chain, [c1, c2], op, paid);
    ExecAllAppend(part, heap, chain, [c1, c2]);
    ExecPair(f, heap, c1, c2);
    KeepsOnceWrittenAppend(chain, [c1, c2], a.arr);
  }

  lemma {:induction false} SafeQuad(
      st: Store, heap: Heap, a: Cmd, b: Cmd, c: Cmd, d: Cmd, op: Operator, paid: set<RequestId>)
    requires Safe(st, heap, [a, b], op, paid)
    requires Safe(Exec(Exec(st, heap, a), heap, b), heap, [c, d], op, paid)
    ensures Safe(st, heap, [a, b] + [c, d], op, paid)
    ensures ExecAll(st, heap, [a, b] + [c, d])
      == Exec(Exec(Exec(Exec(st, heap, a), heap, b), heap, c), heap, d)
  {
    ExecPair(st, heap, a, b);
    SafeAppend(st, heap, [a, b], [c, d], op, paid);
    ExecAllAppend(st, heap, [a, b], [c, d]);
    ExecPair(Exec(Exec(st, heap, a), heap, b), heap, c, d);
  }

  /**
   * From an open row to a batch row: the batch is loadable before the open row is touched, so
   * no record is uncovered in between.
   */
  lemma {:induction false} PromoteIsSafe(
      f: Store, heap: Heap, op: Operator, paid: set<RequestId>, b: BatchId, row: Row)
    requires PaidIsBatched(f, op, paid)
    requires b !in f.batchKeys && b !in f.batchIndex
    requires OpenIds(f, op) <= Ids(row.records) + BatchIds(f)
    ensures Safe(f, heap, PutBatchCmds(b, row) + RemoveOpenCmds(op), op, paid)
    ensures var g := ExecAll(f, heap, PutBatchCmds(b, row) + RemoveOpenCmds(op));
      LoadedOpen(g, op) == None && LoadedBatches(g) == LoadedBatches(f)[b := row]
  {
    var f1 := Exec(f, heap, SetBatch(b, row));
    var f2 := Exec(f1, heap, SaddBatch(b));
    var f3 := Exec(f2, heap, DelOpen(op));
    var f4 := Exec(f3, heap, SremOpen(op));
    assert LoadedBatches(f1) == LoadedBatches(f);
    assert LoadedBatches(f2) == LoadedBatches(f)[b := row];
    assert LoadedBatches(f3) == LoadedBatches(f2) == LoadedBatches(f4);
    BatchIdsPlus(f, f2, b, row);
    SafePair(f, heap, SetBatch(b, row), SaddBatch(b), op, paid);
    SafePair(f2, heap, DelOpen(op), SremOpen(op), op, paid);
    SafeQuad(f, heap, SetBatch(b, row), SaddBatch(b), DelOpen(op), SremOpen(op), op, paid);
  }

  lemma {:induction false} BatchIdsPlus(f: Store, g: Store, b: BatchId, row: Row)
    requires LoadedBatches(g) == LoadedBatches(f)[b := row]
    requires b in LoadedBatches(f) ==> LoadedBatches(f)[b] == row
    ensures BatchIds(g) == BatchIds(f) + Ids(row.records)
  {
    forall x | x in BatchIds(f) + Ids(row.records)
      ensures x in BatchIds(g)
    {
      if x in Ids(row.records) {
        var r :| r in row.records && r.requestId == x;
        assert LoadedBatches(g)[b] == row;
      } else {
        var c, r :| c in LoadedBatches(f) && r in LoadedBatches(f)[c].records && r.requestId == x;
        assert c in LoadedBatches(g) && LoadedBatches(g)[c] == LoadedBatches(f)[c];
      }
    }
    forall x | x in BatchIds(g)
      ensures x in BatchIds(f) + Ids(row.records)
    {
      var c, r :| c in LoadedBatches(g) && r in LoadedBatches(g)[c].records && r.requestId == x;
      if c != b { assert c in LoadedBatches(f) && r in LoadedBatches(f)[c].records; }
    }
  }

  lemma {:induction false} PromoteFits(
      chain: seq<Cmd>, op: Operator, table: map<BatchId, Row>, arrays: nat, b: BatchId, row: Row)
    requires ChainFits(chain, op, table, arrays) && b !in table && row.operator == op
    ensures ChainFits(chain + (PutBatchCmds(b, row) + RemoveOpenCmds(op)), op, table[b := row], arrays)
  {
    ChainFitsMore(chain, op, table, arrays, table[b := row], arrays);
  }

  lemma {:induction false} MidTurnPromote(
      part: Store, heap: Heap, chain: seq<Cmd>, op: Operator, paid: set<RequestId>,
      table: map<BatchId, Row>, arr: nat, due: map<BatchId, Row>, b: BatchId, row: Row)
    requires MidTurn(part, heap, chain, op, paid, table, arr, due)
    requires b !in table && row.operator == op && row.records == heap[arr]
    ensures LineOk(part, heap, chain + (PutBatchCmds(b, row) + RemoveOpenCmds(op)), op, paid,
                   table[b := row], None, due[b := row])
  {
    var f := ExecAll(part, heap, chain);
    var more := PutBatchCmds(b, row) + RemoveOpenCmds(op);
    FitsThroughout(part, heap, chain, op, table);
    SafeAtEnd(part, heap, chain, op, paid);
    PromoteIsSafe(f, heap, op, paid, b, row);
    SafeAppend(part, heap, chain, more, op, paid);
    ExecAllAppend(part, heap, chain, more);
    PromoteFits(chain, op, table, |heap|, b, row);
  }

  // ----- a batch settles -----

  /** Removing a paid batch's row uncovers only paid requests. */
  lemma {:induction false} RemovePaid(
      f: Store, heap: Heap, op: Operator, paid: set<RequestId>, b: BatchId, records: seq<Rec>)
    requires OpenIds(f, op) !! paid && Ids(records) <= paid
    requires b in LoadedBatches(f) ==> LoadedBatches(f)[b].records == records
    ensures Safe(f, heap, RemoveBatchCmds(b), op, paid)
    ensures var g := ExecAll(f, heap, RemoveBatchCmds(b));
      LoadedOpen(g, op) == LoadedOpen(f, op) && LoadedBatches(g) == LoadedBatches(f) - {b}
  {
    var f1 := Exec(f, heap, DelBatch(b));
    var f2 := Exec(f1, heap, SremBatch(b));
    assert LoadedOpen(f1, op) == LoadedOpen(f, op) == LoadedOpen(f2, op);
    assert LoadedBatches(f1) == LoadedBatches(f) - {b};
    assert LoadedBatches(f2) == LoadedBatches(f1);
    hide LoadedOpen;
    RemovedIds(f, f1, b, records);
    RemovedIds(f1, f2, b, records);
    hide BatchIds, LoadedBatches;
    SafePair(f, heap, DelBatch(b), SremBatch(b), op, paid);
    ExecPair(f, heap, DelBatch(b), SremBatch(b));
  }

  lemma {:induction false} RemovedIds(f: Store, g: Store, b: BatchId, records: seq<Rec>)
    requires LoadedBatches(g) == LoadedBatches(f) - {b}
    requires b in LoadedBatches(f) ==> LoadedBatches(f)[b].records == records
    ensures BatchIds(f) <= BatchIds(g) + Ids(records)
  {
    hide LoadedBatches;
    forall x | x in BatchIds(f)
      ensures x in BatchIds(g) + Ids(records)
    {
      var c, r :| c in LoadedBatches(f) && r in LoadedBatches(f)[c].records && r.requestId == x;
      if c != b { assert c in LoadedBatches(g) && r in LoadedBatches(g)[c].records; }
    }
  }

  lemma {:induction false} LineSettled(
      part: Store, heap: Heap, chain: seq<Cmd>, op: Operator, paid: set<RequestId>,
      table: map<BatchId, Row>, acc: Option<Accrual>, due: map<BatchId, Row>, b: BatchId)
    requires LineOk(part, heap, chain, op, paid, table, acc, due)
    requires b in table && table[b].operator == op && Ids(table[b].records) <= paid
    requires acc.Some? ==> Ids(ArrayAt(heap, acc.value.arr)) !! paid
    ensures LineOk(part, heap, chain + RemoveBatchCmds(b), op, paid, table, acc, due - {b})
  {
    var f, more := ExecAll(part, heap, chain), RemoveBatchCmds(b);
    FitsThroughout(part, heap, chain, op, table);
    assert OpenIds(f, op) !! paid;
    RemovePaid(f, heap, op, paid, b, table[b].records);
    SafeAppend(part, heap, chain, more, op, paid);
    ExecAllAppend(part, heap, chain, more);
    if acc.Some? { KeepsOnceWrittenAppend(chain, more, acc.value.arr); }
    hide Safe, ExecAll, KeepsOnceWritten, LoadedOpen, LoadedBatches, OpenIds;
  }

  // ----- boot recovery -----

  /** A loaded batch is written again under its own id. */
  lemma {:induction false} ResumeIsSafe(
      part: Store, heap: Heap, chain: seq<Cmd>, op: Operator, paid: set<RequestId>,
      table: map<BatchId, Row>, b: BatchId)
    requires BatchesFit(part, table) && ChainFits(chain, op, table, |heap|)
    requires Safe(part, heap, chain, op, paid)
    requires b in LoadedBatches(ExecAll(part, heap, chain)) && b in table && table[b].operator == op
    ensures var more := chain + PutBatchCmds(b, table[b]);
      && ChainFits(more, op, table, |heap|)
      && Safe(part, heap, more, op, paid)
      && ExecAll(part, heap, more) == ExecAll(part, heap, chain)
  {
    var f := ExecAll(part, heap, chain);
    FitsThroughout(part, heap, chain, op, table);
    SafeAtEnd(part, heap, chain, op, paid);
    assert Exec(f, heap, SetBatch(b, table[b])) == f && Exec(f, heap, SaddBatch(b)) == f;
    SafePair(f, heap, SetBatch(b, table[b]), SaddBatch(b), op, paid);
    SafeAppend(part, heap, chain, PutBatchCmds(b, table[b]), op, paid);
    ExecAllAppend(part, heap, chain, PutBatchCmds(b, table[b]));
    ExecPair(f, heap, SetBatch(b, table[b]), SaddBatch(b));
  }

  /** An open row all of whose requests are in batch rows is dropped. */
  lemma {:induction false} DropOpenIsSafe(
      part: Store, heap: Heap, chain: seq<Cmd>, op: Operator, paid: set<RequestId>)
    requires Safe(part, heap, chain, op, paid)
    requires OpenIds(ExecAll(part, heap, chain), op) <= BatchIds(ExecAll(part, heap, chain))
    ensures var more := chain + RemoveOpenCmds(op); var g := ExecAll(part, heap, more);
      && Safe(part, heap, more, op, paid)
      && LoadedOpen(g, op) == None
      && LoadedBatches(g) == LoadedBatches(ExecAll(part, heap, chain))
  {
    var f := ExecAll(part, heap, chain);
    var f1 := Exec(f, heap, DelOpen(op));
    var f2 := Exec(f1, heap, SremOpen(op));
    assert LoadedBatches(f1) == LoadedBatches(f) == LoadedBatches(f2);
    SafeAtEnd(part, heap, chain, op, paid);
    SafePair(f, heap, DelOpen(op), SremOpen(op), op, paid);
    SafeAppend(part, heap, chain, RemoveOpenCmds(op), op, paid);
    ExecAllAppend(part, heap, chain, RemoveOpenCmds(op));
    ExecPair(f, heap, DelOpen(op), SremOpen(op));
  }

  /** An open row is handed to a batch minted for what is left of it. */
  lemma {:induction false} RecoverOpenIsSafe(
      part: Store, heap: Heap, chain: seq<Cmd>, op: Operator, paid: set<RequestId>,
      table: map<BatchId, Row>, b: BatchId, row: Row)
    requires BatchesFit(part, table) && ChainFits(chain, op, table, |heap|)
    requires Safe(part, heap, chain, op, paid)
    requires b !in table && row.operator == op
    requires var f := ExecAll(part, heap, chain);
      OpenIds(f, op) <= Ids(row.records) + BatchIds(f)
    ensures
      var more := chain + (PutBatchCmds(b, row) + RemoveOpenCmds(op));
      var g := ExecAll(part, heap, more);
      && ChainFits(more, op, table[b := row], |heap|)
      && Safe(part, heap, more, op, paid)
      && LoadedOpen(g, op) == None
      && LoadedBatches(g) == LoadedBatches(ExecAll(part, heap, chain))[b := row]
  {
    var f := ExecAll(part, heap, chain);
    var more := PutBatchCmds(b, row) + RemoveOpenCmds(op);
    FitsThroughout(part, heap, chain, op, table);
    SafeAtEnd(part, heap, chain, op, paid);
    PromoteIsSafe(f, heap, op, paid, b, row);
    SafeAppend(part, heap, chain, more, op, paid);
    ExecAllAppend(part, heap, chain, more);
    PromoteFits(chain, op, table, |heap|, b, row);
  }
}
