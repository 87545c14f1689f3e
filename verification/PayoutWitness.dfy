/** Concrete runs: a transfer that must not commit yet, and a flush that leaves something accruing. */
module PayoutWitness {
  import opened Prelude
  import opened AccrualStore
  import opened InsertionMap
  import opened Settlement
  import opened Owing
  import opened WriteChain
  import opened PayoutLine
  import opened PayoutWorld
  import opened PayoutSettle
  import opened PayoutTheorems
  import opened PayoutExact
  import opened FlushTheorems
  import Pricing

  const CFG := Config(100, 10, 0)
  const NOTE := Note("n", "op", 0)
  const REC := Rec("r", "n", "op", 5, 5, 0, 0)
  const OPEN_ROW := Row("op", [REC], 0, None)
  const BATCH_ROW := Row("op", [REC], 0, Some("b"))
  const JOB := Job("op", 5, [REC], Some("b"), false)
  const PROMOTION: seq<Cmd> := PutBatchCmds("b", BATCH_ROW) + RemoveOpenCmds("op")

  ghost function Begin(): World {
    World(false, Boot(CFG, {}), EMPTY_STORE, map[], map[], {}, {}, map[], map[], Books(0, 0, 0, 0))
  }

  ghost function Up(): World {
    Begin().(up := true)
  }

  ghost function Routed(): World {
    Up().(svc := Up().svc.(routing := [("r", NOTE)]), routed := {"r"})
  }

  ghost function Accrued(): World {
    Up().(
      svc := Up().svc.(claimed := {"r"}, heap := [[REC]], accruals := map["op" := Accrual(0, 5, 0)],
                       chains := map["op" := PutOpenCmds("op", 0, 0)]),
      recs := map["r" := REC], routed := {"r"}, books := Books(0, 5, 0, 0))
  }

  ghost function HalfStored(): World {
    Accrued().(store := Store(map["op" := OPEN_ROW], {}, map[], {}),
               svc := Accrued().svc.(chains := map["op" := [SaddOpen("op")]]))
  }

  ghost function Stored(): World {
    Accrued().(store := Store(map["op" := OPEN_ROW], {"op"}, map[], {}),
               svc := Accrued().svc.(chains := map["op" := []]))
  }

  ghost function Flushed(): World {
    Stored().(
      svc := Stored().svc.(accruals := map[], liabilities := map["b" := Liability("op", 5, 1, 0, 0, None, None)],
                           chains := map["op" := PROMOTION], jobs := map[Batch("b") := JOB]),
      table := map["b" := BATCH_ROW])
  }

  ghost function Submitted(): World {
    Flushed().(submitted := map[Batch("b") := Transfer("op", 5, [REC])])
  }

  lemma {:induction false} StepUp()
    ensures Init(Begin()) && Next(Begin(), Recover(CFG, {}, [], [], []), Up())
  {
    NothingRecovered();
    hide RecoverAccruals, Owed, WithService, IsLoad, Boot;
    assert Begin().svc == Boot(CFG, {});
  }

  lemma {:induction false} NothingRecovered()
    ensures RecoverAccruals(Boot(CFG, {}), [], [], []) == Boot(CFG, {}) && Owed(Boot(CFG, {})) == 0
    ensures WithService(Begin(), Boot(CFG, {})) == Begin() && IsLoad(EMPTY_STORE, [], [])
    ensures Begin().store == EMPTY_STORE && Begin().svc == Boot(CFG, {})
  {
    NothingListed(Begin(), Boot(CFG, {}));
    NothingOwed();
    NoRowsRecovered(Boot(CFG, {}));
    hide WithService, Owed, RecoverAccruals;
  }

  lemma {:induction false} NothingOwed()
    ensures Owed(Boot(CFG, {})) == 0
  {}

  lemma {:induction false} NoRowsRecovered(s: Service)
    ensures RecoverAccruals(s, [], [], []) == s
  {}

  lemma {:induction false} StepRouted()
    ensures Next(Up(), Route("r", "n", "op", 0), Routed())
  {
    assert Put([], "r", NOTE) == [("r", NOTE)];
  }

  lemma {:induction false} AdmitsRec()
    ensures Admitted(Routed().svc, Inbound("r", 5), 0) == Some(REC)
    ensures Find(Routed().svc.routing, "r") == Some(NOTE) && Remove(Routed().svc.routing, "r") == []
  {
    NoteConsumed();
    assert Pricing.ComputeSplit(5, 0) == Ok(Pricing.PriceSplit(5, 5, 0));
    hide Find, Pricing.ComputeSplit;
  }

  lemma {:induction false} NoteConsumed()
    ensures Find([("r", NOTE)], "r") == Some(NOTE) && Remove([("r", NOTE)], "r") == []
  {
    assert [("r", NOTE)][1..] == [];
  }

  lemma {:induction false} AccruesRec(c: Service)
    requires c == Up().svc.(claimed := {"r"})
    ensures Accrue(c, REC, 0, "z") == Accrued().svc
  {
    var started := WithAccrual(c, "op", 0);
    assert started.heap == [] + [[]];
    PushOnNew([], REC);
    var pushed := PushRecord(started, REC);
    assert pushed.heap == [[REC]];
    assert map["op" := Accrual(0, 0, 0)]["op" := Accrual(0, 5, 0)] == map["op" := Accrual(0, 5, 0)];
    assert pushed.accruals == map["op" := Accrual(0, 5, 0)];
    assert [] + PutOpenCmds("op", 0, 0) == PutOpenCmds("op", 0, 0);
  }

  lemma {:induction false} NothingListed(w: World, s: Service)
    requires s.liabilities == map[]
    ensures WithService(w, s) == w.(svc := s)
  {
    assert Minted(s, w.table) == map[];
  }

  lemma {:induction false} SettlesRec()
    ensures SettleInbound(Routed().svc, Inbound("r", 5), 0, "z") == Accrued().svc
  {
    AdmitsRec();
    AccruesRec(Up().svc.(claimed := {"r"}));
    hide Admitted, Accrue, Remove, Find;
    var s := Routed().svc;
    assert s.(routing := []) == Up().svc;
    assert s.claimed == {} && s.(routing := []).(claimed := {} + {"r"}) == Up().svc.(claimed := {"r"});
    assert s.cfg == CFG;
  }

  lemma {:induction false} RoutedUp()
    ensures Routed().up && Fresh(Routed(), "z")
    ensures Accrued() == Routed().(svc := Accrued().svc, recs := Routed().recs["r" := REC],
                                   books := Routed().books.(accepted := Routed().books.accepted + REC.inbound,
                                                            margins := Routed().books.margins + REC.margin))
    ensures Accrued().svc.liabilities == map[]
  {}

  lemma {:induction false} StepAccrued()
    ensures Next(Routed(), Settle(Inbound("r", 5), 0, "z"), Accrued())
  {
    hide Admitted, SettleInbound, Routed, Accrued, WithService, Fresh;
    AdmitsRec();
    SettlesRec();
    RoutedUp();
    NothingListed(Routed(), Accrued().svc);
    assert AfterSettle(Routed(), Inbound("r", 5), 0, "z") == Accrued();
  }

  lemma {:induction false} StepsStored()
    ensures Next(Accrued(), Apply("op"), HalfStored()) && Next(HalfStored(), Apply("op"), Stored())
  {
    assert PutOpenCmds("op", 0, 0)[1..] == [SaddOpen("op")] && [SaddOpen("op")][1..] == [];
  }

  lemma {:induction false} StepFlushed()
    ensures Next(Stored(), Flush("op", "b"), Flushed())
  {
    FlushesRec();
    MintsRow();
    hide FlushAccrual, Minted, Flushed, Stored;
    StoredUp();
  }

  lemma {:induction false} StoredUp()
    ensures Stored().up && Stored().table == map[]
    ensures Flushed() == Stored().(svc := Flushed().svc, table := map["b" := BATCH_ROW])
  {}

  lemma {:induction false} FlushesRec()
    ensures FlushAccrual(Stored().svc, "op", "b") == Flushed().svc
  {
    var s := Stored().svc;
    assert Sum([REC]) == 5 by { assert [REC][1..] == []; }
    assert s.accruals - {"op"} == map[] && [] + PROMOTION == PROMOTION;
    assert map["op" := []]["op" := PROMOTION] == map["op" := PROMOTION];
  }

  lemma {:induction false} MintsRow()
    ensures map[] + Minted(Flushed().svc, map[]) == map["b" := BATCH_ROW]
  {
    assert Minted(Flushed().svc, map[]) == map["b" := BATCH_ROW];
  }

  lemma {:induction false} StepSubmitted()
    ensures Next(Flushed(), Submit(Batch("b")), Submitted())
  {}

  lemma {:induction false} NotYet()
    ensures !MayCommit(Submitted(), "b")
  {
    var w := Submitted();
    var part := Part(w.store, w.table, "op");
    assert LoadedOpen(part, "op") == Some(OPEN_ROW) && LoadedBatches(part) == map[];
    assert REC in OPEN_ROW.records;
    assert "r" in OpenIds(part, "op") && "r" !in BatchIds(part);
    assert "r" in Ids(BATCH_ROW.records);
    hide Part, OpenIds, BatchIds, Ids;
    assert !PaidIsBatched(part, "op", PaidOf(w, "op") + Ids(BATCH_ROW.records));
  }

  lemma {:induction false} TheRun() returns (ws: seq<World>, es: seq<Event>)
    ensures IsRun(ws, es) && |es| == 7 && ws[7] == Submitted()
  {
    hide Next, Init, Begin, Up, Routed, Accrued, HalfStored, Stored, Flushed, Submitted;
    StepUp();
    StepRouted();
    StepAccrued();
    StepsStored();
    StepFlushed();
    StepSubmitted();
    ws := [Begin(), Up(), Routed(), Accrued(), HalfStored(), Stored(), Flushed(), Submitted()];
    es := [Recover(CFG, {}, [], [], []), Route("r", "n", "op", 0), Settle(Inbound("r", 5), 0, "z"),
           Apply("op"), Apply("op"), Flush("op", "b"), Submit(Batch("b"))];
  }

  lemma {:induction false} SubmittedB()
    ensures Batch("b") in Submitted().submitted && Batch("b") !in Submitted().committed
  {}

  /**
   * The guard on `Commit` is needed: a run reaches a submitted batch that may not commit, and if
   * its transfer does commit there, steps the process may take lead to a second transfer that
   * covers the same request.
   */
  lemma {:induction false} EarlyCommitPaysTwice()
      returns (ws: seq<World>, es: seq<Event>, b: BatchId, more: seq<Event>, end: World)
    ensures IsRun(ws, es) && |es| == 7
    ensures Batch(b) in ws[7].submitted && Batch(b) !in ws[7].committed && !MayCommit(ws[7], b)
    ensures Goes(AfterCommit(ws[7], b), more, end) && PaysTwice(end)
  {
    hide IsRun, Inv, MayCommit, Goes, PaysTwice, Submitted;
    b := "b";
    ws, es := TheRun();
    RunLength(ws, es);
    RunInv(ws, es, 7);
    NotYet();
    SubmittedB();
    more, end := UnsafeIsPaidTwice(ws[7], b);
  }

  lemma {:induction false} RunLength(ws: seq<World>, es: seq<Event>)
    requires IsRun(ws, es)
    ensures |ws| == |es| + 1
  {}

  // ----- a flush that returns with something accruing -----

  ghost function SecondRouted(): World {
    Submitted().(svc := Submitted().svc.(routing := [("q", NOTE)]), routed := {"r", "q"})
  }

  lemma {:induction false} StepSecondRouted()
    ensures Next(Submitted(), Route("q", "n", "op", 0), SecondRouted())
  {
    assert Put([], "q", NOTE) == [("q", NOTE)];
    assert {"r"} + {"q"} == {"r", "q"};
  }

  lemma {:induction false} InFlight()
    ensures var s := SecondRouted().svc;
      && s.accruals == map[] && !Idle(s) && CanAccrue(s.cfg)
      && Find(s.routing, "q") == Some(NOTE) && "q" !in s.claimed
  {
    assert Batch("b") in SecondRouted().svc.jobs;
  }

  /**
   * A flush may return with something accruing: after a run that leaves one payout in flight, one
   * request routed and nothing accruing, a flush is called, and a charge of one unit for that
   * request settles while it waits.
   */
  lemma {:induction false} FlushReturnsAccruing(mint: nat -> BatchId)
      returns (ws: seq<World>, es: seq<Event>, turns: seq<Turn>, end: Service)
    ensures IsRun(ws, es) && |es| == 8 && ws[8].svc.accruals == map[] && ws[8].svc.cfg == CFG
    ensures turns != [] && turns[0] == Settles(Inbound("q", 1), 0, "")
    ensures FlushedIn(0, ws[8].svc, turns, mint, 0, end, true) && "op" in end.accruals
  {
    hide IsRun, Next, FlushedIn, SecondRouted, Submitted, Idle, CanAccrue;
    ws, es := TheRun();
    StepSecondRouted();
    ws, es := OneMore(ws, es, Route("q", "n", "op", 0), SecondRouted());
    SecondConfig();
    InFlight();
    turns, end := LeavesAccrual(SecondRouted().svc, "q", NOTE, mint, 0);
  }

  lemma {:induction false} SecondConfig()
    ensures SecondRouted().svc.cfg == CFG
  {}

  lemma {:induction false} OneMore(ws: seq<World>, es: seq<Event>, e: Event, w: World)
      returns (ws': seq<World>, es': seq<Event>)
    requires IsRun(ws, es) && Next(ws[|es|], e, w)
    ensures IsRun(ws', es') && |es'| == |es| + 1 && ws'[|es'|] == w
  {
    hide Next, Init;
    ws', es' := ws + [w], es + [e];
  }
}
