// Durable accrual storage: what one Redis command does to the four structures the store
// owns, the writes the settlement service queues, and the store object that issues them.
module AccrualStore {
  import opened Prelude

  type RequestId = string
  type Operator = string
  type BatchId = string

  /** One accepted, unpaid request. Amounts are atomic USDC units. */
  datatype Rec = Rec(
    requestId: RequestId, nodeId: string, operator: Operator,
    inbound: nat, payout: nat, margin: nat, createdAt: int)

  /** A stored accrual; `batchId` is present once it has been handed to a payout. */
  datatype Row = Row(operator: Operator, records: seq<Rec>, firstAt: int, batchId: Option<BatchId>)

  function Sum(rs: seq<Rec>): nat {
    if rs == [] then 0 else rs[0].payout + Sum(rs[1..])
  }

  lemma {:induction false} SumAppend(a: seq<Rec>, b: seq<Rec>)
    ensures Sum(a + b) == Sum(a) + Sum(b)
  {
    if a == [] {
      assert a + b == b;
    } else {
      assert (a + b)[1..] == a[1..] + b;
      SumAppend(a[1..], b);
    }
  }

  function Ids(rs: seq<Rec>): set<RequestId> {
    set r | r in rs :: r.requestId
  }

  ghost predicate Distinct(rs: seq<Rec>) {
    forall i, j | 0 <= i < j < |rs| :: rs[i].requestId != rs[j].requestId
  }

  /** The two key spaces and their index sets. A row is only found again through its index. */
  datatype Store = Store(
    openKeys: map<Operator, Row>, openIndex: set<Operator>,
    batchKeys: map<BatchId, Row>, batchIndex: set<BatchId>)

  const EMPTY_STORE := Store(map[], {}, map[], {})

  /**
   * The record arrays of the running process. An open row is queued by reference to its
   * accrual's array, so what is written is what the array holds when the command runs.
   */
  type Heap = seq<seq<Rec>>

  /** One Redis command, as queued on an operator's write chain. */
  datatype Cmd =
    | SetOpen(op: Operator, arr: nat, firstAt: int)
    | SaddOpen(op: Operator)
    | DelOpen(op: Operator)
    | SremOpen(op: Operator)
    | SetBatch(b: BatchId, row: Row)
    | SaddBatch(b: BatchId)
    | DelBatch(b: BatchId)
    | SremBatch(b: BatchId)

  function ArrayAt(heap: Heap, arr: nat): seq<Rec> {
    if arr < |heap| then heap[arr] else []
  }

  function SetOpenKey(st: Store, row: Row): Store {
    st.(openKeys := st.openKeys[row.operator := row])
  }

  function Exec(st: Store, heap: Heap, c: Cmd): Store {
    match c
    case SetOpen(op, arr, firstAt) => SetOpenKey(st, Row(op, ArrayAt(heap, arr), firstAt, None))
    case SaddOpen(op) => st.(openIndex := st.openIndex + {op})
    case DelOpen(op) => st.(openKeys := st.openKeys - {op})
    case SremOpen(op) => st.(openIndex := st.openIndex - {op})
    case SetBatch(b, row) => st.(batchKeys := st.batchKeys[b := row])
    case SaddBatch(b) => st.(batchIndex := st.batchIndex + {b})
    case DelBatch(b) => st.(batchKeys := st.batchKeys - {b})
    case SremBatch(b) => st.(batchIndex := st.batchIndex - {b})
  }

  function ExecAll(st: Store, heap: Heap, cs: seq<Cmd>): Store
    decreases |cs|
  {
    if cs == [] then st else ExecAll(Exec(st, heap, cs[0]), heap, cs[1..])
  }

  lemma {:induction false} ExecAllAppend(st: Store, heap: Heap, a: seq<Cmd>, b: seq<Cmd>)
    ensures ExecAll(st, heap, a + b) == ExecAll(ExecAll(st, heap, a), heap, b)
    decreases |a|
  {
    if a == [] {
      assert a + b == b;
    } else {
      assert (a + b)[1..] == a[1..] + b;
      ExecAllAppend(Exec(st, heap, a[0]), heap, a[1..], b);
    }
  }

  lemma {:induction false} ExecPair(st: Store, heap: Heap, a: Cmd, b: Cmd)
    ensures ExecAll(st, heap, [a, b]) == Exec(Exec(st, heap, a), heap, b)
  {
    assert [a, b][1..] == [b] && [b][1..] == [];
    assert ExecAll(Exec(st, heap, a), heap, [b]) == ExecAll(Exec(Exec(st, heap, a), heap, b), heap, []);
  }

  function PutOpenCmds(op: Operator, arr: nat, firstAt: int): seq<Cmd> {
    [SetOpen(op, arr, firstAt), SaddOpen(op)]
  }

  function RemoveOpenCmds(op: Operator): seq<Cmd> {
    [DelOpen(op), SremOpen(op)]
  }

  function PutBatchCmds(b: BatchId, row: Row): seq<Cmd> {
    [SetBatch(b, row), SaddBatch(b)]
  }

  function RemoveBatchCmds(b: BatchId): seq<Cmd> {
    [DelBatch(b), SremBatch(b)]
  }

  function LoadedOpen(st: Store, op: Operator): Option<Row> {
    if op in st.openIndex && op in st.openKeys then Some(st.openKeys[op]) else None
  }

  function LoadedBatches(st: Store): map<BatchId, Row> {
    map b | b in st.batchIndex && b in st.batchKeys :: st.batchKeys[b]
  }

  /** The request ids a boot would find in `op`'s open row. */
  ghost function OpenIds(st: Store, op: Operator): set<RequestId> {
    match LoadedOpen(st, op)
    case None => {}
    case Some(row) => Ids(row.records)
  }

  /** The request ids a boot would find in batch rows. */
  ghost function BatchIds(st: Store): set<RequestId> {
    set b, r | b in LoadedBatches(st) && r in LoadedBatches(st)[b].records :: r.requestId
  }

  /** What `loadAll` may return: every indexed row that still has its key, once each, in any order. */
  ghost predicate IsLoad(st: Store, open: seq<Row>, batches: seq<Row>) {
    && (forall i | 0 <= i < |open| ::
          LoadedOpen(st, open[i].operator) == Some(open[i]))
    && (forall i, j | 0 <= i < j < |open| :: open[i].operator != open[j].operator)
    && (forall op | op in st.openIndex && op in st.openKeys :: st.openKeys[op] in open)
    && (forall i | 0 <= i < |batches| ::
          && batches[i].batchId.Some?
          && batches[i].batchId.value in LoadedBatches(st)
          && LoadedBatches(st)[batches[i].batchId.value] == batches[i])
    && (forall i, j | 0 <= i < j < |batches| :: batches[i].batchId != batches[j].batchId)
    && (forall b | b in LoadedBatches(st) :: LoadedBatches(st)[b] in batches)
  }

  predicate NamesABatch(row: Row) {
    row.batchId.Some? && |row.batchId.value| > 0
  }

  /**
   * What a load returns from any store: the row of every indexed operator whose key is there, and
   * of every indexed batch whose key holds a row that names a batch, each once.
   */
  ghost predicate LoadedFrom(
      st: Store, ops: seq<Operator>, ids: seq<BatchId>, open: seq<Row>, batches: seq<Row>)
  {
    && |ops| == |open| && |ids| == |batches|
    && (forall i | 0 <= i < |ops| :: LoadedOpen(st, ops[i]) == Some(open[i]))
    && (forall i, j | 0 <= i < j < |ops| :: ops[i] != ops[j])
    && (forall op | op in st.openIndex && op in st.openKeys :: op in ops)
    && (forall i | 0 <= i < |ids| ::
          ids[i] in LoadedBatches(st) && LoadedBatches(st)[ids[i]] == batches[i] && NamesABatch(batches[i]))
    && (forall i, j | 0 <= i < j < |ids| :: ids[i] != ids[j])
    && (forall b | b in LoadedBatches(st) && NamesABatch(LoadedBatches(st)[b]) :: b in ids)
  }

  /** Every row sits under the key its own fields name. */
  ghost predicate RowsNameTheirKeys(st: Store) {
    && (forall op | op in st.openKeys :: st.openKeys[op].operator == op)
    && (forall b | b in st.batchKeys :: b != "" && st.batchKeys[b].batchId == Some(b))
  }

  /** The Redis-backed store: each operation issues its commands one after the other. */
  class RedisAccrualStore {
    var openKeys: map<Operator, Row>
    var openIndex: set<Operator>
    var batchKeys: map<BatchId, Row>
    var batchIndex: set<BatchId>

    function Contents(): Store
      reads this
    {
      Store(openKeys, openIndex, batchKeys, batchIndex)
    }

    constructor ()
      ensures Contents() == EMPTY_STORE
    {
      openKeys, openIndex, batchKeys, batchIndex := map[], {}, map[], {};
    }

    /** `heap[arr]` is the live array of the accrual being written. */
    method PutOpen(op: Operator, heap: Heap, arr: nat, firstAt: int)
      modifies this
      ensures Contents() == ExecAll(old(Contents()), heap, PutOpenCmds(op, arr, firstAt))
      ensures LoadedOpen(Contents(), op) == Some(Row(op, ArrayAt(heap, arr), firstAt, None))
      ensures LoadedBatches(Contents()) == LoadedBatches(old(Contents()))
    {
      ExecPair(Contents(), heap, SetOpen(op, arr, firstAt), SaddOpen(op));
      openKeys := openKeys[op := Row(op, ArrayAt(heap, arr), firstAt, None)];
      openIndex := openIndex + {op};
    }

    method RemoveOpen(op: Operator)
      modifies this
      ensures Contents() == ExecAll(old(Contents()), [], RemoveOpenCmds(op))
      ensures LoadedOpen(Contents(), op) == None
      ensures LoadedBatches(Contents()) == LoadedBatches(old(Contents()))
    {
      ExecPair(Contents(), [], DelOpen(op), SremOpen(op));
      openKeys := openKeys - {op};
      openIndex := openIndex - {op};
    }

    method PutBatch(b: BatchId, row: Row)
      modifies this
      ensures Contents() == ExecAll(old(Contents()), [], PutBatchCmds(b, row))
      ensures LoadedBatches(Contents()) == LoadedBatches(old(Contents()))[b := row]
      ensures forall op :: LoadedOpen(Contents(), op) == LoadedOpen(old(Contents()), op)
    {
      ExecPair(Contents(), [], SetBatch(b, row), SaddBatch(b));
      batchKeys := batchKeys[b := row];
      batchIndex := batchIndex + {b};
    }

    method RemoveBatch(b: BatchId)
      modifies this
      ensures Contents() == ExecAll(old(Contents()), [], RemoveBatchCmds(b))
      ensures LoadedBatches(Contents()) == LoadedBatches(old(Contents())) - {b}
      ensures forall op :: LoadedOpen(Contents(), op) == LoadedOpen(old(Contents()), op)
    {
      ExecPair(Contents(), [], DelBatch(b), SremBatch(b));
      batchKeys := batchKeys - {b};
      batchIndex := batchIndex - {b};
    }

    /** Reads both indexes, then the keys they name; a key that is gone is skipped. */
    method LoadAll() returns (open: seq<Row>, batches: seq<Row>)
      ensures exists ops, ids :: LoadedFrom(Contents(), ops, ids, open, batches)
    {
      open, batches := [], [];
      ghost var named: seq<Operator> := [];
      var ops := openIndex;
      while ops != {}
        invariant ops <= openIndex
        invariant |named| == |open| && forall i | 0 <= i < |named| ::
            named[i] !in ops && LoadedOpen(Contents(), named[i]) == Some(open[i])
        invariant forall i, j | 0 <= i < j < |named| :: named[i] != named[j]
        invariant forall op | op in openIndex && op in openKeys && op !in ops :: op in named
        decreases |ops|
      {
        var op :| op in ops;
        ops := ops - {op};
        if op in openKeys {
          open := open + [openKeys[op]];
          named := named + [op];
        }
      }
      ghost var read: seq<BatchId> := [];
      var ids := batchIndex;
      while ids != {}
        invariant ids <= batchIndex
        invariant |read| == |batches| && forall i | 0 <= i < |read| ::
            && read[i] !in ids && read[i] in LoadedBatches(Contents())
            && LoadedBatches(Contents())[read[i]] == batches[i] && NamesABatch(batches[i])
        invariant forall i, j | 0 <= i < j < |read| :: read[i] != read[j]
        invariant forall b | b in LoadedBatches(Contents()) && b !in ids
                             && NamesABatch(LoadedBatches(Contents())[b]) :: b in read
        decreases |ids|
      {
        var b :| b in ids;
        ids := ids - {b};
        if b in batchKeys && batchKeys[b].batchId.Some? && |batchKeys[b].batchId.value| > 0 {
          batches := batches + [batchKeys[b]];
          read := read + [b];
        }
      }
      assert LoadedFrom(Contents(), named, read, open, batches);
    }
  }

  /** When every row sits under the key its own fields name, that is the load a boot relies on. */
  lemma {:induction false} LoadedIsLoad(
      st: Store, ops: seq<Operator>, ids: seq<BatchId>, open: seq<Row>, batches: seq<Row>)
    requires RowsNameTheirKeys(st) && LoadedFrom(st, ops, ids, open, batches)
    ensures IsLoad(st, open, batches)
  {
    forall op | op in st.openIndex && op in st.openKeys
      ensures st.openKeys[op] in open
    {
      var i :| 0 <= i < |ops| && ops[i] == op;
      assert open[i] == st.openKeys[op];
    }
    forall b | b in LoadedBatches(st)
      ensures LoadedBatches(st)[b] in batches
    {
      assert NamesABatch(LoadedBatches(st)[b]);
      var i :| 0 <= i < |ids| && ids[i] == b;
      assert batches[i] == LoadedBatches(st)[b];
    }
  }
}
