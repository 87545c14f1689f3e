// One operator's queued writes against that operator's part of the store. The central notion
// is Safe: run the queue from the present store, command by command, and at every point in
// between no loadable request disappears unless it has been paid, and no paid request is
// loadable from an open row without also being loadable from a batch row.
module WriteChain {
  import opened AccrualStore

  ghost function Loadable(st: Store, op: Operator): set<RequestId> {
    OpenIds(st, op) + BatchIds(st)
  }

  /** A request paid by a batch and still in the open row is also in a batch row. */
  ghost predicate PaidIsBatched(st: Store, op: Operator, paid: set<RequestId>) {
    OpenIds(st, op) * paid <= BatchIds(st)
  }

  ghost predicate Safe(st: Store, heap: Heap, chain: seq<Cmd>, op: Operator, paid: set<RequestId>)
    decreases |chain|
  {
    && PaidIsBatched(st, op, paid)
    && (chain != [] ==>
          var next := Exec(st, heap, chain[0]);
          && Loadable(st, op) <= Loadable(next, op) + paid
          && Safe(next, heap, chain[1..], op, paid))
  }

  lemma {:induction false} SafeAppend(
      st: Store, heap: Heap, a: seq<Cmd>, b: seq<Cmd>, op: Operator, paid: set<RequestId>)
    requires Safe(st, heap, a, op, paid)
    requires Safe(ExecAll(st, heap, a), heap, b, op, paid)
    ensures Safe(st, heap, a + b, op, paid)
    decreases |a|
  {
    if a == [] {
      assert a + b == b;
    } else {
      assert (a + b)[1..] == a[1..] + b;
      SafeAppend(Exec(st, heap, a[0]), heap, a[1..], b, op, paid);
    }
  }

  lemma {:induction false} SafeAtEnd(
      st: Store, heap: Heap, chain: seq<Cmd>, op: Operator, paid: set<RequestId>)
    requires Safe(st, heap, chain, op, paid)
    ensures PaidIsBatched(ExecAll(st, heap, chain), op, paid)
    decreases |chain|
  {
    if chain != [] {
      SafeAtEnd(Exec(st, heap, chain[0]), heap, chain[1..], op, paid);
    }
  }

  /** A two-command write keeps the queue safe when both of its steps do. */
  lemma {:induction false} SafePair(st: Store, heap: Heap, a: Cmd, b: Cmd, op: Operator, paid: set<RequestId>)
    requires PaidIsBatched(st, op, paid)
    requires PaidIsBatched(Exec(st, heap, a), op, paid)
    requires PaidIsBatched(Exec(Exec(st, heap, a), heap, b), op, paid)
    requires Loadable(st, op) <= Loadable(Exec(st, heap, a), op) + paid
    requires Loadable(Exec(st, heap, a), op) <= Loadable(Exec(Exec(st, heap, a), heap, b), op) + paid
    ensures Safe(st, heap, [a, b], op, paid)
  {
    var s1 := Exec(st, heap, a);
    var s2 := Exec(s1, heap, b);
    assert [a, b][1..] == [b] && [b][1..] == [];
    assert Safe(s2, heap, [], op, paid);
    assert Safe(s1, heap, [b], op, paid);
  }

  // ----- what each command refers to -----

  /** The batches a command writes, and the rows it writes under them, are those of `table`. */
  ghost predicate CmdFits(c: Cmd, op: Operator, table: map<BatchId, Row>, arrays: nat) {
    match c
    case SetOpen(o, arr, _) => o == op && arr < arrays
    case SaddOpen(o) => o == op
    case DelOpen(o) => o == op
    case SremOpen(o) => o == op
    case SetBatch(b, row) => b in table && row == table[b] && row.operator == op
    case SaddBatch(b) => b in table && table[b].operator == op
    case DelBatch(b) => b in table && table[b].operator == op
    case SremBatch(b) => b in table && table[b].operator == op
  }

  ghost predicate ChainFits(chain: seq<Cmd>, op: Operator, table: map<BatchId, Row>, arrays: nat) {
    forall i | 0 <= i < |chain| :: CmdFits(chain[i], op, table, arrays)
  }

  ghost predicate BatchesFit(st: Store, table: map<BatchId, Row>) {
    && (forall b | b in st.batchKeys :: b in table && st.batchKeys[b] == table[b])
    && (forall b | b in st.batchIndex :: b in table)
  }

  lemma {:induction false} FitsThroughout(
      st: Store, heap: Heap, chain: seq<Cmd>, op: Operator, table: map<BatchId, Row>)
    requires BatchesFit(st, table)
    requires ChainFits(chain, op, table, |heap|)
    ensures BatchesFit(ExecAll(st, heap, chain), table)
    decreases |chain|
  {
    if chain != [] {
      FitsThroughout(Exec(st, heap, chain[0]), heap, chain[1..], op, table);
    }
  }

  /** Removal of `b` is queued. */
  ghost predicate Removes(chain: seq<Cmd>, b: BatchId) {
    DelBatch(b) in chain || SremBatch(b) in chain
  }

  lemma {:induction false} StaysLoaded(
      st: Store, heap: Heap, c: Cmd, op: Operator, table: map<BatchId, Row>, b: BatchId)
    requires BatchesFit(st, table) && CmdFits(c, op, table, |heap|)
    requires b in LoadedBatches(st) && c != DelBatch(b) && c != SremBatch(b)
    ensures BatchesFit(Exec(st, heap, c), table)
    ensures b in LoadedBatches(Exec(st, heap, c))
  {}

  lemma {:induction false} LoadedIds(st: Store, table: map<BatchId, Row>, b: BatchId)
    requires BatchesFit(st, table) && b in LoadedBatches(st)
    ensures Ids(table[b].records) <= BatchIds(st)
  {
    assert LoadedBatches(st)[b] == table[b];
  }

  /** A commit: the requests of a loadable batch that nothing queued removes become paid. */
  lemma {:induction false} SafeAfterCommit(
      st: Store, heap: Heap, chain: seq<Cmd>, op: Operator, paid: set<RequestId>,
      table: map<BatchId, Row>, b: BatchId)
    requires Safe(st, heap, chain, op, paid)
    requires BatchesFit(st, table) && ChainFits(chain, op, table, |heap|)
    requires b in LoadedBatches(st) && !Removes(chain, b)
    ensures Safe(st, heap, chain, op, paid + Ids(table[b].records))
    decreases |chain|
  {
    LoadedIds(st, table, b);
    var more := paid + Ids(table[b].records);
    assert PaidIsBatched(st, op, more);
    if chain != [] {
      assert chain[0] in chain && chain[0] != DelBatch(b) && chain[0] != SremBatch(b);
      StaysLoaded(st, heap, chain[0], op, table, b);
      assert !Removes(chain[1..], b) by {
        assert forall c | c in chain[1..] :: c in chain;
      }
      var next := Exec(st, heap, chain[0]);
      SafeAfterCommit(next, heap, chain[1..], op, paid, table, b);
      assert Loadable(st, op) <= Loadable(next, op) + more;
    }
  }

  // ----- growing a record array that queued writes share -----

  /** Nothing in the queue replaces or drops an open row written from `arr`. */
  ghost predicate Keeps(chain: seq<Cmd>, arr: nat) {
    forall c | c in chain :: !c.DelOpen? && !c.SremOpen? && (c.SetOpen? ==> c.arr == arr)
  }

  /** From the first write of `arr` on, the queue keeps it. */
  ghost predicate KeepsOnceWritten(chain: seq<Cmd>, arr: nat)
    decreases |chain|
  {
    chain != [] ==>
      if chain[0].SetOpen? && chain[0].arr == arr then Keeps(chain[1..], arr)
      else KeepsOnceWritten(chain[1..], arr)
  }

  lemma {:induction false} KeepsOnceWrittenAppend(a: seq<Cmd>, b: seq<Cmd>, arr: nat)
    requires KeepsOnceWritten(a, arr) && Keeps(b, arr)
    ensures KeepsOnceWritten(a + b, arr)
    decreases |a|
  {
    if a == [] {
      assert a + b == b;
      KeepsIsKeepsOnceWritten(b, arr);
    } else {
      assert (a + b)[1..] == a[1..] + b;
      if !(a[0].SetOpen? && a[0].arr == arr) {
        KeepsOnceWrittenAppend(a[1..], b, arr);
      }
    }
  }

  lemma {:induction false} KeepsIsKeepsOnceWritten(chain: seq<Cmd>, arr: nat)
    requires Keeps(chain, arr)
    ensures KeepsOnceWritten(chain, arr)
    decreases |chain|
  {
    if chain != [] {
      assert forall c | c in chain[1..] :: c in chain;
      KeepsIsKeepsOnceWritten(chain[1..], arr);
    }
  }

  lemma {:induction false} UnwrittenKeepsOnceWritten(chain: seq<Cmd>, arr: nat)
    requires forall c | c in chain && c.SetOpen? :: c.arr != arr
    ensures KeepsOnceWritten(chain, arr)
    decreases |chain|
  {
    if chain != [] {
      assert forall c | c in chain[1..] :: c in chain;
      assert chain[0] in chain;
      UnwrittenKeepsOnceWritten(chain[1..], arr);
    }
  }

  /** `grown` is `st`, or `st` with one record appended to `op`'s open row. */
  ghost predicate SameButGrown(st: Store, grown: Store, op: Operator, rec: Rec, didGrow: bool) {
    && grown.openIndex == st.openIndex
    && grown.batchKeys == st.batchKeys
    && grown.batchIndex == st.batchIndex
    && (if didGrow then
          && op in st.openKeys
          && grown.openKeys == st.openKeys[op := st.openKeys[op].(records := st.openKeys[op].records + [rec])]
        else grown.openKeys == st.openKeys)
  }

  lemma {:induction false} GrownOpenIds(st: Store, grown: Store, op: Operator, rec: Rec, didGrow: bool)
    requires SameButGrown(st, grown, op, rec, didGrow)
    ensures BatchIds(grown) == BatchIds(st)
    ensures !didGrow ==> OpenIds(grown, op) == OpenIds(st, op)
    ensures didGrow && op in st.openIndex ==> OpenIds(grown, op) == OpenIds(st, op) + {rec.requestId}
    ensures op !in st.openIndex ==> OpenIds(grown, op) == OpenIds(st, op) == {}
  {
    assert LoadedBatches(grown) == LoadedBatches(st);
    if didGrow && op in st.openIndex {
      IdsAppend(st.openKeys[op].records, rec);
    }
  }

  lemma {:induction false} IdsAppend(rs: seq<Rec>, rec: Rec)
    ensures Ids(rs + [rec]) == Ids(rs) + {rec.requestId}
  {
    assert forall r :: r in rs + [rec] <==> r in rs || r == rec;
  }

  /** One command carries the relation from before an append to after it. */
  lemma {:induction false} ExecGrown(
      st: Store, grown: Store, heap: Heap, grownHeap: Heap, c: Cmd, op: Operator,
      arr: nat, rec: Rec, didGrow: bool) returns (nowGrew: bool)
    requires SameButGrown(st, grown, op, rec, didGrow)
    requires arr < |heap| && grownHeap == heap[arr := heap[arr] + [rec]]
    requires c.SetOpen? ==> c.op == op && c.arr < |heap|
    requires didGrow ==> !c.DelOpen? && (c.SetOpen? ==> c.arr == arr)
    requires c.DelOpen? ==> c.op == op
    ensures nowGrew == (didGrow || (c.SetOpen? && c.arr == arr))
    ensures SameButGrown(Exec(st, heap, c), Exec(grown, grownHeap, c), op, rec, nowGrew)
  {
    nowGrew := didGrow || (c.SetOpen? && c.arr == arr);
  }

  /** What a command keeps loadable it keeps loadable after an append. */
  lemma {:induction false} GrownStep(
      st: Store, next: Store, grown: Store, grownNext: Store, op: Operator, rec: Rec,
      didGrow: bool, nowGrew: bool, paid: set<RequestId>)
    requires SameButGrown(st, grown, op, rec, didGrow) && SameButGrown(next, grownNext, op, rec, nowGrew)
    requires rec.requestId !in paid && (didGrow ==> nowGrew && (op in st.openIndex ==> op in next.openIndex))
    requires Loadable(st, op) <= Loadable(next, op) + paid
    ensures Loadable(grown, op) <= Loadable(grownNext, op) + paid
  {
    GrownOpenIds(st, grown, op, rec, didGrow);
    GrownOpenIds(next, grownNext, op, rec, nowGrew);
    hide OpenIds, BatchIds, SameButGrown;
  }

  lemma {:induction false} GrownStart(
      st: Store, grown: Store, op: Operator, rec: Rec, didGrow: bool, paid: set<RequestId>)
    requires SameButGrown(st, grown, op, rec, didGrow) && rec.requestId !in paid && PaidIsBatched(st, op, paid)
    ensures PaidIsBatched(grown, op, paid)
  {
    GrownOpenIds(st, grown, op, rec, didGrow);
    hide OpenIds, BatchIds, SameButGrown;
  }

  lemma {:induction false} KeepsTail(chain: seq<Cmd>, arr: nat, didGrow: bool)
    requires chain != [] && if didGrow then Keeps(chain, arr) else KeepsOnceWritten(chain, arr)
    ensures var nowGrew := didGrow || (chain[0].SetOpen? && chain[0].arr == arr);
      if nowGrew then Keeps(chain[1..], arr) else KeepsOnceWritten(chain[1..], arr)
    ensures didGrow ==> !chain[0].DelOpen? && !chain[0].SremOpen? && (chain[0].SetOpen? ==> chain[0].arr == arr)
  {
    assert chain[0] in chain && forall d | d in chain[1..] :: d in chain;
  }

  /** Appending a fresh record to a live accrual leaves its queue safe. */
  lemma {:induction false} SafeGrown(
      st: Store, grown: Store, heap: Heap, grownHeap: Heap, chain: seq<Cmd>, op: Operator,
      paid: set<RequestId>, table: map<BatchId, Row>, arr: nat, rec: Rec, didGrow: bool)
    requires Safe(st, heap, chain, op, paid)
    requires ChainFits(chain, op, table, |heap|)
    requires SameButGrown(st, grown, op, rec, didGrow)
    requires arr < |heap| && grownHeap == heap[arr := heap[arr] + [rec]]
    requires rec.requestId !in paid
    requires if didGrow then Keeps(chain, arr) else KeepsOnceWritten(chain, arr)
    ensures Safe(grown, grownHeap, chain, op, paid)
    ensures exists g :: SameButGrown(
              ExecAll(st, heap, chain), ExecAll(grown, grownHeap, chain), op, rec, g)
    decreases |chain|
  {
    hide PaidIsBatched, Loadable, SameButGrown, Keeps, KeepsOnceWritten;
    GrownStart(st, grown, op, rec, didGrow, paid);
    if chain == [] {
      assert SameButGrown(ExecAll(st, heap, chain), ExecAll(grown, grownHeap, chain), op, rec, didGrow);
    } else {
      var c := chain[0];
      assert CmdFits(c, op, table, |heap|) && ChainFits(chain[1..], op, table, |heap|);
      KeepsTail(chain, arr, didGrow);
      var next, grownNext := Exec(st, heap, c), Exec(grown, grownHeap, c);
      assert didGrow && op in st.openIndex ==> op in next.openIndex;
      var nowGrew := ExecGrown(st, grown, heap, grownHeap, c, op, arr, rec, didGrow);
      hide CmdFits, ChainFits, Exec;
      GrownStep(st, next, grown, grownNext, op, rec, didGrow, nowGrew, paid);
      SafeGrown(next, grownNext, heap, grownHeap, chain[1..], op, paid, table, arr, rec, nowGrew);
      var g :| SameButGrown(ExecAll(next, heap, chain[1..]), ExecAll(grownNext, grownHeap, chain[1..]), op, rec, g);
      assert SameButGrown(ExecAll(st, heap, chain), ExecAll(grown, grownHeap, chain), op, rec, g);
    }
  }

  /** Queued writes only reach the arrays they name. */
  lemma {:induction false} ExecHeapFrame(st: Store, heap: Heap, heap': Heap, chain: seq<Cmd>)
    requires forall c | c in chain && c.SetOpen? :: ArrayAt(heap, c.arr) == ArrayAt(heap', c.arr)
    ensures ExecAll(st, heap, chain) == ExecAll(st, heap', chain)
    ensures forall op, paid :: Safe(st, heap, chain, op, paid) ==> Safe(st, heap', chain, op, paid)
    decreases |chain|
  {
    if chain != [] {
      assert chain[0] in chain;
      assert Exec(st, heap, chain[0]) == Exec(st, heap', chain[0]);
      assert forall c | c in chain[1..] :: c in chain;
      ExecHeapFrame(Exec(st, heap, chain[0]), heap, heap', chain[1..]);
    }
  }
}
