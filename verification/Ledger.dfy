// The settlement audit ledger: a bounded in-memory map, oldest first, and the Redis rows and
// newest-first order list that outlive the process.
module Ledger {
  import opened Prelude
  import opened InsertionMap

  datatype Row = Row(requestId: string, status: string, payoutTxId: Option<string>, batchId: Option<string>)

  // ----- in memory -----

  function Evict(m: seq<(string, Row)>, cap: nat): seq<(string, Row)> {
    if |m| > cap then Evict(m[1..], cap) else m
  }

  function Remembered(m: seq<(string, Row)>, row: Row, cap: nat): seq<(string, Row)> {
    Evict(Put(m, row.requestId, row), cap)
  }

  /** A row that was evicted stays gone. */
  function Updated(m: seq<(string, Row)>, row: Row): seq<(string, Row)> {
    if row.requestId in KeySet(m) then Put(m, row.requestId, row) else m
  }

  // ----- in Redis -----

  datatype Stored = Stored(rows: map<string, Row>, order: seq<string>)

  const NOTHING_STORED := Stored(map[], [])

  /** A list position as Redis reads it: negative positions count from the end. */
  function Position(length: nat, i: int): int {
    if i < 0 then length + i else i
  }

  /** LRANGE and LTRIM: both ends inclusive, positions out of range cut off. */
  function Range(s: seq<string>, start: int, stop: int): seq<string> {
    var from, last := Position(|s|, start), Position(|s|, stop);
    var lo := if from < 0 then 0 else from;
    var hi := if last + 1 > |s| then |s| else last + 1;
    if lo < hi then s[lo..hi] else []
  }

  function StorePut(st: Stored, row: Row, cap: nat): Stored {
    var written := st.rows[row.requestId := row];
    if row.requestId in st.rows then st.(rows := written)
    else
      var pushed := [row.requestId] + st.order;
      var overflow := Range(pushed, cap, -1);
      if overflow == [] then Stored(written, pushed)
      else Stored(written - (set id | id in overflow), Range(pushed, 0, cap - 1))
  }

  /** Newest first; an id whose row is gone is skipped. */
  function Rows(ids: seq<string>, rows: map<string, Row>): seq<Row> {
    if ids == [] then []
    else (if ids[0] in rows then [rows[ids[0]]] else []) + Rows(ids[1..], rows)
  }

  function LoadRecent(st: Stored, limit: nat): seq<Row> {
    Rows(Range(st.order, 0, limit - 1), st.rows)
  }

  /** Rows arrive newest first and are inserted oldest first. */
  function Hydrate(m: seq<(string, Row)>, recent: seq<Row>): seq<(string, Row)>
    decreases |recent|
  {
    if recent == [] then m
    else
      var last := recent[|recent| - 1];
      Hydrate(Put(m, last.requestId, last), recent[..|recent| - 1])
  }

  class RedisLedgerStore {
    var rows: map<string, Row>
    var order: seq<string>

    function Contents(): Stored
      reads this
    {
      Stored(rows, order)
    }

    constructor ()
      ensures Contents() == NOTHING_STORED
    {
      rows, order := map[], [];
    }

    method Put(row: Row, maxEntries: nat)
      modifies this
      ensures Contents() == StorePut(old(Contents()), row, maxEntries)
    {
      var existed := row.requestId in rows;
      rows := rows[row.requestId := row];
      if existed { return; }
      order := [row.requestId] + order;
      var overflow := Range(order, maxEntries, -1);
      if |overflow| > 0 {
        order := Range(order, 0, maxEntries - 1);
        rows := rows - (set id | id in overflow);
      }
    }

    method Recent(limit: nat) returns (recent: seq<Row>)
      ensures recent == LoadRecent(Contents(), limit)
    {
      var ids := Range(order, 0, limit - 1);
      recent := [];
      for i := 0 to |ids|
        invariant recent + Rows(ids[i..], rows) == Rows(ids, rows)
      {
        assert ids[i..][1..] == ids[i + 1..];
        if ids[i] in rows { recent := recent + [rows[ids[i]]]; }
      }
    }
  }

  /** The part of the settlement service that keeps the ledger, with its writes in order. */
  class AuditLedger {
    const cap: nat
    const store: RedisLedgerStore
    var ledger: seq<(string, Row)>
    var claimed: set<string>

    constructor (store: RedisLedgerStore, cap: nat)
      ensures this.store == store && this.cap == cap && ledger == [] && claimed == {}
    {
      this.store, this.cap, ledger, claimed := store, cap, [], {};
    }

    method Remember(row: Row)
      modifies this, store
      ensures ledger == Remembered(old(ledger), row, cap) && claimed == old(claimed)
      ensures store.Contents() == StorePut(old(store.Contents()), row, cap)
    {
      ledger := Put(ledger, row.requestId, row);
      store.Put(row, cap);
      while |ledger| > cap
        invariant Evict(ledger, cap) == Remembered(old(ledger), row, cap)
        invariant claimed == old(claimed) && store.Contents() == StorePut(old(store.Contents()), row, cap)
        decreases |ledger|
      {
        ledger := ledger[1..];
      }
    }

    method Update(row: Row)
      modifies this, store
      ensures ledger == Updated(old(ledger), row) && claimed == old(claimed)
      ensures store.Contents()
        == if row.requestId in KeySet(old(ledger)) then StorePut(old(store.Contents()), row, cap)
           else old(store.Contents())
    {
      if row.requestId !in KeySet(ledger) { return; }
      ledger := Put(ledger, row.requestId, row);
      store.Put(row, cap);
    }

    /** A restored request is claimed: it must never be paid again. */
    method HydrateLedger()
      modifies this
      ensures var recent := LoadRecent(store.Contents(), cap);
        ledger == Hydrate(old(ledger), recent) && claimed == old(claimed) + IdsOf(recent)
    {
      hide Hydrate, IdsOf, LoadRecent;
      var recent := store.Recent(cap);
      HydrateEnds(ledger, recent);
      var i := |recent|;
      while i > 0
        invariant 0 <= i <= |recent|
        invariant Hydrate(ledger, recent[..i]) == Hydrate(old(ledger), recent)
        invariant claimed == old(claimed) + IdsOf(recent[i..])
      {
        HydrateStep(ledger, recent, i);
        ledger := Put(ledger, recent[i - 1].requestId, recent[i - 1]);
        claimed := claimed + {recent[i - 1].requestId};
        i := i - 1;
      }
      HydrateEnds(ledger, recent);
    }
  }

  function IdsOf(rows: seq<Row>): set<string> {
    set r | r in rows :: r.requestId
  }

  lemma {:induction false} HydrateStep(m: seq<(string, Row)>, recent: seq<Row>, i: nat)
    requires 0 < i <= |recent|
    ensures Hydrate(m, recent[..i])
      == Hydrate(Put(m, recent[i - 1].requestId, recent[i - 1]), recent[..i - 1])
    ensures IdsOf(recent[i - 1..]) == IdsOf(recent[i..]) + {recent[i - 1].requestId}
  {
    assert recent[..i][..i - 1] == recent[..i - 1];
    assert recent[i - 1..] == [recent[i - 1]] + recent[i..];
    assert forall r :: r in recent[i - 1..] <==> r == recent[i - 1] || r in recent[i..];
  }

  lemma {:induction false} HydrateEnds(m: seq<(string, Row)>, recent: seq<Row>)
    ensures recent[..|recent|] == recent == recent[0..]
    ensures Hydrate(m, recent[..0]) == m && IdsOf(recent[|recent|..]) == {}
  {}

  // ----- the two agree -----

  function Reversed(s: seq<string>): (r: seq<string>)
    ensures |r| == |s|
    ensures forall i | 0 <= i < |s| :: r[i] == s[|s| - 1 - i]
  {
    seq(|s|, i requires 0 <= i < |s| => s[|s| - 1 - i])
  }

  /** The stored row of every key is the one memory holds. */
  ghost predicate SameRows(m: seq<(string, Row)>, rows: map<string, Row>) {
    && rows.Keys == KeySet(m)
    && (forall id | id in rows :: Find(m, id) == Some(rows[id]) && rows[id].requestId == id)
  }

  /** Redis holds exactly the rows memory holds, and lists them in reverse. */
  ghost predicate Agree(m: seq<(string, Row)>, st: Stored) {
    Unique(m) && st.order == Reversed(Keys(m)) && SameRows(m, st.rows)
  }

  lemma {:induction false} KeysAreKeySet(m: seq<(string, Row)>)
    ensures forall k :: k in Keys(m) <==> k in KeySet(m)
  {
    if m != [] { KeysAreKeySet(m[1..]); }
  }

  lemma {:induction false} KeysAt(m: seq<(string, Row)>)
    ensures forall i | 0 <= i < |m| :: Keys(m)[i] == m[i].0
  {
    if m != [] { KeysAt(m[1..]); }
  }

  lemma {:induction false} PutAgrees(m: seq<(string, Row)>, st: Stored, row: Row)
    requires Agree(m, st)
    ensures var m' := Put(m, row.requestId, row); var rows := st.rows[row.requestId := row];
      Agree(m', Stored(rows, if row.requestId in st.rows then st.order else [row.requestId] + st.order))
  {
    hide SameRows, Unique, Keys, Reversed;
    PutOrder(m, row);
    PutRows(m, st.rows, row);
    SameKeys(m, st.rows);
    hide Put;
  }

  lemma {:induction false} SameKeys(m: seq<(string, Row)>, rows: map<string, Row>)
    requires SameRows(m, rows)
    ensures rows.Keys == KeySet(m)
  {}

  lemma {:induction false} PutRows(m: seq<(string, Row)>, rows: map<string, Row>, row: Row)
    requires SameRows(m, rows)
    ensures SameRows(Put(m, row.requestId, row), rows[row.requestId := row])
  {
    var id, rows' := row.requestId, rows[row.requestId := row];
    assert rows'.Keys == rows.Keys + {id};
    forall j | j in rows' && j != id
      ensures Find(Put(m, id, row), j) == Find(m, j)
    {
      PutElsewhere(m, id, row, j);
    }
    hide Put, Find, KeySet;
  }

  lemma {:induction false} PutOrder(m: seq<(string, Row)>, row: Row)
    ensures var id := row.requestId;
      Reversed(Keys(Put(m, id, row))) == if id in KeySet(m) then Reversed(Keys(m)) else [id] + Reversed(Keys(m))
  {
    PutElsewhere(m, row.requestId, row, row.requestId);
    hide Put, KeySet, Keys;
    assert Reversed(Keys(m) + [row.requestId]) == [row.requestId] + Reversed(Keys(m));
  }

  lemma {:induction false} OldestGoes(m: seq<(string, Row)>, st: Stored)
    requires Agree(m, st) && m != []
    ensures st.order != [] && st.order[|st.order| - 1] == m[0].0
    ensures Agree(m[1..], Stored(st.rows - {m[0].0}, st.order[..|st.order| - 1]))
  {
    KeysAt(m);
    assert Reversed(Keys(m[1..])) == Reversed(Keys(m))[..|m| - 1];
    forall id | id in KeySet(m[1..])
      ensures Find(m[1..], id) == Find(m, id)
    {}
  }

  lemma {:induction false} StorePutFits(st: Stored, row: Row, cap: nat)
    requires row.requestId !in st.rows && |st.order| < cap
    ensures StorePut(st, row, cap) == Stored(st.rows[row.requestId := row], [row.requestId] + st.order)
  {
    assert Range([row.requestId] + st.order, cap, -1) == [];
  }

  lemma {:induction false} StorePutTrims(st: Stored, row: Row, cap: nat)
    requires row.requestId !in st.rows && |st.order| == cap && cap >= 1
    ensures var pushed := [row.requestId] + st.order;
      StorePut(st, row, cap) == Stored(st.rows[row.requestId := row] - {pushed[cap]}, pushed[..cap])
  {
    var pushed := [row.requestId] + st.order;
    assert Range(pushed, cap, -1) == [pushed[cap]];
    assert Range(pushed, 0, cap - 1) == pushed[..cap];
    assert (set x | x in [pushed[cap]]) == {pushed[cap]};
    hide Range;
  }

  /** One remembered row: bounded, and still in agreement, exactly when the cap is at least one. */
  lemma {:induction false} RememberAgreesIff(m: seq<(string, Row)>, st: Stored, row: Row, cap: nat)
    requires Agree(m, st) && |m| <= cap
    ensures |Remembered(m, row, cap)| <= cap
    ensures Agree(Remembered(m, row, cap), StorePut(st, row, cap)) <==> cap >= 1
  {
    var id := row.requestId;
    var m' := Put(m, id, row);
    PutAgrees(m, st, row);
    PutElsewhere(m, id, row, id);
    assert |m'| == |Keys(m')| && |st.order| == |m|;
    if id in KeySet(m) {
      assert Evict(m', cap) == m' && cap >= 1;
      hide Agree, Put, Evict;
    } else {
      RememberNew(m, st, row, cap);
    }
  }

  lemma {:induction false} RememberNew(m: seq<(string, Row)>, st: Stored, row: Row, cap: nat)
    requires Agree(m, st) && |m| == |st.order| <= cap && row.requestId !in KeySet(m)
    requires var m' := Put(m, row.requestId, row);
      && |m'| == |m| + 1
      && Agree(m', Stored(st.rows[row.requestId := row], [row.requestId] + st.order))
    ensures |Remembered(m, row, cap)| <= cap
    ensures Agree(Remembered(m, row, cap), StorePut(st, row, cap)) <==> cap >= 1
  {
    var m' := Put(m, row.requestId, row);
    assert row.requestId !in st.rows;
    hide Put, Range;
    if |m| < cap {
      assert Evict(m', cap) == m';
      hide Agree, StorePut;
      StorePutFits(st, row, cap);
    } else {
      assert Evict(m', cap) == m'[1..];
      if cap >= 1 {
        OldestGoes(m', Stored(st.rows[row.requestId := row], [row.requestId] + st.order));
        hide Agree, StorePut;
        StorePutTrims(st, row, cap);
      } else {
        CapZero(st, row);
        assert m'[1..] == [];
      }
    }
  }

  /** With a cap of zero the trim keeps the whole list: the id stays listed, its row is deleted. */
  lemma {:induction false} CapZero(st: Stored, row: Row)
    requires row.requestId !in st.rows && st.order == []
    ensures StorePut(st, row, 0).order == [row.requestId] && row.requestId !in StorePut(st, row, 0).rows
  {
    var pushed := [row.requestId] + st.order;
    assert Range(pushed, 0, -1) == pushed;
    assert row.requestId in pushed;
  }

  lemma {:induction false} UpdateAgrees(m: seq<(string, Row)>, st: Stored, row: Row, cap: nat)
    requires Agree(m, st)
    ensures |Updated(m, row)| == |m|
    ensures Agree(Updated(m, row),
                  if row.requestId in KeySet(m) then StorePut(st, row, cap) else st)
  {
    if row.requestId in KeySet(m) {
      PutAgrees(m, st, row);
      PutElsewhere(m, row.requestId, row, row.requestId);
      assert |Put(m, row.requestId, row)| == |Keys(m)|;
    }
  }

  // ----- whole runs -----

  datatype Event = Opened(row: Row) | Resolved(row: Row)

  function RunMemory(m: seq<(string, Row)>, es: seq<Event>, cap: nat): seq<(string, Row)>
    decreases |es|
  {
    if es == [] then m
    else if es[0].Opened? then RunMemory(Remembered(m, es[0].row, cap), es[1..], cap)
    else RunMemory(Updated(m, es[0].row), es[1..], cap)
  }

  function RunStored(m: seq<(string, Row)>, st: Stored, es: seq<Event>, cap: nat): Stored
    decreases |es|
  {
    if es == [] then st
    else if es[0].Opened? then
      RunStored(Remembered(m, es[0].row, cap), StorePut(st, es[0].row, cap), es[1..], cap)
    else
      RunStored(Updated(m, es[0].row),
                if es[0].row.requestId in KeySet(m) then StorePut(st, es[0].row, cap) else st,
                es[1..], cap)
  }

  /** Over every run the two hold the same rows in reverse order; nothing leaks, nothing comes back. */
  lemma {:induction false} RunsAgree(m: seq<(string, Row)>, st: Stored, es: seq<Event>, cap: nat)
    requires Agree(m, st) && |m| <= cap && cap >= 1
    ensures Agree(RunMemory(m, es, cap), RunStored(m, st, es, cap))
    ensures |RunMemory(m, es, cap)| <= cap
    decreases |es|
  {
    if es != [] {
      hide Agree, Remembered, Updated, StorePut;
      if es[0].Opened? {
        RememberAgreesIff(m, st, es[0].row, cap);
        RunsAgree(Remembered(m, es[0].row, cap), StorePut(st, es[0].row, cap), es[1..], cap);
      } else {
        UpdateAgrees(m, st, es[0].row, cap);
        RunsAgree(Updated(m, es[0].row),
                  if es[0].row.requestId in KeySet(m) then StorePut(st, es[0].row, cap) else st, es[1..], cap);
      }
    }
  }

  // ----- restart -----

  lemma {:induction false} HydrateAppends(m: seq<(string, Row)>, rest: seq<(string, Row)>, recent: seq<Row>)
    requires Unique(m + rest) && |recent| == |rest|
    requires forall i | 0 <= i < |rest| ::
      rest[i] == (recent[|rest| - 1 - i].requestId, recent[|rest| - 1 - i])
    ensures Hydrate(m, recent) == m + rest
    decreases |rest|
  {
    if rest == [] {
      assert m + rest == m;
    } else {
      var last := recent[|recent| - 1];
      assert rest[0] == (last.requestId, last);
      NextIsNew(m, rest);
      PutAbsent(m, last.requestId, last);
      assert m + rest == (m + [rest[0]]) + rest[1..];
      HydrateAppends(m + [rest[0]], rest[1..], recent[..|recent| - 1]);
    }
  }

  lemma {:induction false} NextIsNew(m: seq<(string, Row)>, rest: seq<(string, Row)>)
    requires Unique(m + rest) && rest != []
    ensures rest[0].0 !in KeySet(m)
  {
    if m == [] {
      assert m + rest == rest;
    } else {
      assert (m + rest)[1..] == m[1..] + rest;
      NextIsNew(m[1..], rest);
      InTail(m[1..], rest);
    }
  }

  lemma {:induction false} InTail(m: seq<(string, Row)>, rest: seq<(string, Row)>)
    requires rest != []
    ensures rest[0].0 in KeySet(m + rest)
  {
    if m == [] {
      assert m + rest == rest;
    } else {
      assert (m + rest)[1..] == m[1..] + rest;
      InTail(m[1..], rest);
    }
  }

  lemma {:induction false} RowsAll(ids: seq<string>, rows: map<string, Row>)
    requires forall i | 0 <= i < |ids| :: ids[i] in rows
    ensures |Rows(ids, rows)| == |ids|
    ensures forall i | 0 <= i < |ids| :: Rows(ids, rows)[i] == rows[ids[i]]
  {
    if ids != [] {
      assert ids[0] in rows;
      RowsAll(ids[1..], rows);
    }
  }

  lemma {:induction false} FindAt(m: seq<(string, Row)>, i: nat)
    requires Unique(m) && i < |m|
    ensures m[i].0 in KeySet(m) && Find(m, m[i].0) == Some(m[i].1)
  {
    if i > 0 { FindAt(m[1..], i - 1); }
  }

  lemma {:induction false} RecentMatches(m: seq<(string, Row)>, st: Stored, cap: nat)
    requires Agree(m, st) && |m| <= cap && cap >= 1
    ensures var recent := LoadRecent(st, cap);
      && |recent| == |m|
      && forall i | 0 <= i < |m| :: m[i] == (recent[|m| - 1 - i].requestId, recent[|m| - 1 - i])
  {
    KeysAt(m);
    assert Range(st.order, 0, cap - 1) == st.order;
    forall i | 0 <= i < |m|
      ensures st.order[|m| - 1 - i] == m[i].0 && m[i].0 in st.rows
      ensures st.rows[m[i].0] == m[i].1 && m[i].1.requestId == m[i].0
    {
      FindAt(m, i);
    }
    hide Agree, KeySet, Unique, Range, Keys;
    forall i | 0 <= i < |st.order|
      ensures st.order[i] in st.rows
    {
      assert st.order[|m| - 1 - (|m| - 1 - i)] == m[|m| - 1 - i].0;
    }
    RowsAll(st.order, st.rows);
    hide Rows;
  }

  /** A restart rebuilds the identical map: same rows, same order. */
  lemma {:induction false} HydrateRestores(m: seq<(string, Row)>, st: Stored, cap: nat)
    requires Agree(m, st) && |m| <= cap && cap >= 1
    ensures Hydrate([], LoadRecent(st, cap)) == m
  {
    RecentMatches(m, st, cap);
    assert [] + m == m && Unique(m);
    hide Agree, LoadRecent, Hydrate, Unique;
    HydrateAppends([], m, LoadRecent(st, cap));
  }

  /** Whatever the run, killing the process and restoring the ledger loses and reorders nothing. */
  lemma {:induction false} RestartIsInvisible(es: seq<Event>, cap: nat)
    requires cap >= 1
    ensures var m := RunMemory([], es, cap);
      Hydrate([], LoadRecent(RunStored([], NOTHING_STORED, es, cap), cap)) == m
  {
    assert Agree([], NOTHING_STORED);
    RunsAgree([], NOTHING_STORED, es, cap);
    HydrateRestores(RunMemory([], es, cap), RunStored([], NOTHING_STORED, es, cap), cap);
  }

  // ----- what the ledger says of a request -----

  /** The last row written for `id`. */
  function LastRow(es: seq<Event>, id: string): Option<Row> {
    if es == [] then None
    else if es[|es| - 1].row.requestId == id then Some(es[|es| - 1].row)
    else LastRow(es[..|es| - 1], id)
  }

  lemma {:induction false} RunMemoryAppend(m: seq<(string, Row)>, es: seq<Event>, e: Event, cap: nat)
    ensures var before := RunMemory(m, es, cap);
      RunMemory(m, es + [e], cap) == if e.Opened? then Remembered(before, e.row, cap) else Updated(before, e.row)
    decreases |es|
  {
    hide Remembered, Updated;
    if es == [] {
      assert [] + [e] == [e] && [e][1..] == [];
    } else {
      assert (es + [e])[1..] == es[1..] + [e];
      var next := if es[0].Opened? then Remembered(m, es[0].row, cap) else Updated(m, es[0].row);
      RunMemoryAppend(next, es[1..], e, cap);
    }
  }

  lemma {:induction false} EvictDrops(m: seq<(string, Row)>, cap: nat, id: string)
    requires Unique(m)
    ensures Unique(Evict(m, cap)) && Find(Evict(m, cap), id) in {None, Find(m, id)}
    ensures |Evict(m, cap)| == if |m| > cap then cap else |m|
    ensures Evict(m, cap) == m[|m| - |Evict(m, cap)|..]
  {
    if |m| > cap { EvictDrops(m[1..], cap, id); }
  }

  /** Over every run, a request's row is the last one written for it, or it has been evicted. */
  lemma {:induction false} RowsAreLatest(es: seq<Event>, cap: nat, id: string)
    ensures var m := RunMemory([], es, cap);
      Unique(m) && (Find(m, id).Some? ==> Find(m, id) == LastRow(es, id))
  {
    if es != [] {
      var front, e := es[..|es| - 1], es[|es| - 1];
      assert es == front + [e];
      RowsAreLatest(front, cap, id);
      RunMemoryAppend([], front, e, cap);
      var m := RunMemory([], front, cap);
      PutElsewhere(m, e.row.requestId, e.row, id);
      EvictDrops(Put(m, e.row.requestId, e.row), cap, id);
      hide RunMemory, Evict, Put, Find, Unique;
    }
  }

  /** The newest row is always kept: opening one evicts the oldest rows beyond the cap, and only those. */
  lemma {:induction false} OldestEvicted(m: seq<(string, Row)>, row: Row, cap: nat)
    requires Unique(m) && |m| <= cap && cap >= 1
    ensures var r := Remembered(m, row, cap);
      && Find(r, row.requestId) == Some(row)
      && (row.requestId in KeySet(m) ==> Keys(r) == Keys(m))
      && (row.requestId !in KeySet(m) ==>
            r == (if |m| < cap then m else m[1..]) + [(row.requestId, row)])
  {
    var id := row.requestId;
    PutElsewhere(m, id, row, id);
    assert |Put(m, id, row)| == |Keys(Put(m, id, row))|;
    EvictDrops(Put(m, id, row), cap, id);
    if id !in KeySet(m) {
      PutAbsent(m, id, row);
      assert |m| == cap ==> (m + [(id, row)])[1..] == m[1..] + [(id, row)];
      if |m| == cap { FoundLast(m[1..], id, row); TailKeys(m); }
    }
    hide Evict, Put;
  }

  lemma {:induction false} TailKeys(m: seq<(string, Row)>)
    requires m != []
    ensures KeySet(m[1..]) <= KeySet(m)
  {}

  lemma {:induction false} FoundLast(m: seq<(string, Row)>, id: string, row: Row)
    requires id !in KeySet(m)
    ensures Find(m + [(id, row)], id) == Some(row)
  {
    if m == [] {
      assert m + [(id, row)] == [(id, row)];
    } else {
      assert (m + [(id, row)])[1..] == m[1..] + [(id, row)];
      FoundLast(m[1..], id, row);
    }
  }
}
