/** When nothing is accruing any more as a flush returns. */
module FlushTheorems {
  import opened Prelude
  import opened AccrualStore
  import opened InsertionMap
  import opened Settlement
  import Pricing

  /** Some charge is owed to its operator without filling a batch at once. */
  predicate CanAccrue(cfg: Config) {
    cfg.batchMin > 1 && cfg.maxRequests > 1 && 0 <= cfg.marginBps < Pricing.BPS_DENOMINATOR
  }

  // ----- what keeps accruals empty -----

  lemma {:induction false} FlushEmpties(s: Service, op: Operator, newId: BatchId)
    ensures FlushAccrual(s, op, newId).cfg == s.cfg
    ensures forall p | p in FlushAccrual(s, op, newId).accruals :: p in s.accruals
    ensures op in s.accruals && ArrayAt(s.heap, s.accruals[op].arr) != [] ==>
      op !in FlushAccrual(s, op, newId).accruals
  {}

  /** A first record that fills its batch leaves nothing accruing. */
  lemma {:induction false} FirstFills(s: Service, rec: Rec, at: int, newId: BatchId)
    requires s.accruals == map[]
    requires rec.payout >= s.cfg.batchMin || s.cfg.maxRequests <= 1
    ensures Accrue(s, rec, at, newId).accruals == map[] && Accrue(s, rec, at, newId).cfg == s.cfg
  {
    var op := rec.operator;
    var pushed := PushRecord(WithAccrual(s, op, at), rec);
    assert ArrayAt(pushed.heap, pushed.accruals[op].arr) == [rec];
    assert pushed.cfg == s.cfg && pushed.accruals.Keys == {op} && pushed.accruals[op].total == rec.payout;
    hide PushRecord, WithAccrual;
    FlushEmpties(pushed, op, newId);
  }

  lemma {:induction false} FullMargin(inbound: int)
    ensures var r := Pricing.ComputeSplit(inbound, Pricing.BPS_DENOMINATOR); r.Ok? ==> r.value.payout == 0
  {}

  lemma {:induction false} SettleKeepsEmpty(s: Service, inbound: Inbound, at: int, newId: BatchId)
    requires s.accruals == map[] && !CanAccrue(s.cfg)
    ensures var s' := SettleInbound(s, inbound, at, newId); s'.accruals == map[] && s'.cfg == s.cfg
  {
    hide Accrue, Find, Remove, Pricing.ComputeSplit;
    var rec := Admitted(s, inbound, at);
    if rec.Some? && rec.value.payout > 0 && s.cfg.batchMin > 0 {
      FullMargin(inbound.amount);
      var claimed := s.(routing := Remove(s.routing, inbound.requestId),
                        claimed := s.claimed + {inbound.requestId});
      FirstFills(claimed, rec.value, at, newId);
    }
  }

  lemma {:induction false} TurnKeepsEmpty(s: Service, turn: Turn)
    ensures AfterTurn(s, turn).cfg == s.cfg
    ensures s.accruals == map[] && !CanAccrue(s.cfg) ==> AfterTurn(s, turn).accruals == map[]
  {
    match turn
    case Routes(id, nodeId, op, at) =>
    case Settles(inbound, at, newId) =>
      SettleKeepsConfig(s, inbound, at, newId);
      if s.accruals == map[] && !CanAccrue(s.cfg) { SettleKeepsEmpty(s, inbound, at, newId); }
    case Flushes(op, newId) => FlushEmpties(s, op, newId);
    case Succeeds(id) =>
    case Fails(id, reason, at) =>
    case Written(op) =>
  }

  lemma {:induction false} SettleKeepsConfig(s: Service, inbound: Inbound, at: int, newId: BatchId)
    ensures SettleInbound(s, inbound, at, newId).cfg == s.cfg
  {
    hide Find, Remove, Admitted, Accrue;
    var rec := Admitted(s, inbound, at);
    if rec.Some? {
      var claimed := s.(routing := Remove(s.routing, inbound.requestId),
                        claimed := s.claimed + {inbound.requestId});
      AccrueKeepsConfig(claimed, rec.value, at, newId);
    }
  }

  lemma {:induction false} AccrueKeepsConfig(s: Service, rec: Rec, at: int, newId: BatchId)
    ensures Accrue(s, rec, at, newId).cfg == s.cfg
  {
    var pushed := PushRecord(WithAccrual(s, rec.operator, at), rec);
    assert pushed.cfg == s.cfg;
    hide PushRecord, WithAccrual, FlushAccrual, Chain;
    FlushEmpties(pushed, rec.operator, newId);
  }

  lemma {:induction false} TurnsKeepEmpty(s: Service, turns: seq<Turn>)
    requires s.accruals == map[] && !CanAccrue(s.cfg)
    ensures AfterTurns(s, turns).accruals == map[]
    decreases |turns|
  {
    hide AfterTurn;
    if turns != [] {
      TurnKeepsEmpty(s, turns[0]);
      TurnsKeepEmpty(AfterTurn(s, turns[0]), turns[1..]);
    }
  }

  lemma {:induction false} WaitKeepsEmpty(s: Service, turns: seq<Turn>)
    requires s.accruals == map[] && !CanAccrue(s.cfg)
    ensures Waited(s, turns).0.accruals == map[]
    decreases |turns|
  {
    hide AfterTurn, Idle;
    if !Idle(s) && turns != [] {
      TurnKeepsEmpty(s, turns[0]);
      WaitKeepsEmpty(AfterTurn(s, turns[0]), turns[1..]);
    }
  }

  /** A flush that returns, having found something to flush, or nothing in flight, leaves nothing. */
  lemma {:induction false} ReturnsEmpty(
      rounds: nat, s: Service, turns: seq<Turn>, mint: nat -> BatchId, first: nat, s': Service)
    requires FlushedIn(rounds, s, turns, mint, first, s', true)
    requires s.accruals != map[] || Idle(s) || !CanAccrue(s.cfg)
    ensures s'.accruals == map[]
    decreases rounds
  {
    hide Idle, FlushedOnce;
    if rounds == 0 {
      if !Idle(s) { WaitKeepsEmpty(s, turns); }
    } else {
      var flushed :| FlushedOnce(s, mint, first, flushed)
        && var (next, rest) := Waited(flushed, turns);
           if Idle(next) then FlushedIn(rounds - 1, next, rest, mint, first + |s.accruals|, s', true)
           else s' == next && !true;
      var (next, rest) := Waited(flushed, turns);
      hide Waited;
      ReturnsEmpty(rounds - 1, next, rest, mint, first + |s.accruals|, s');
    }
  }

  // ----- a wait that leaves something accruing -----

  lemma {:induction false} OneTurn(s: Service, turn: Turn, more: seq<Turn>)
    requires !Idle(s)
    ensures Waited(s, [turn] + more) == Waited(AfterTurn(s, turn), more)
  {
    hide AfterTurn;
    assert ([turn] + more)[0] == turn && ([turn] + more)[1..] == more;
  }

  /** One operator's queue is written to its end. */
  lemma {:induction false} QueueEnds(s: Service, op: Operator, more: seq<Turn>) returns (turns: seq<Turn>)
    requires op in s.chains
    ensures Waited(s, turns) == Waited(s.(chains := s.chains[op := []]), more)
    decreases |s.chains[op]|
  {
    if s.chains[op] == [] {
      assert s.chains[op := []] == s.chains;
      turns := more;
    } else {
      var next := AfterTurn(s, Written(op));
      assert next.chains[op := []] == s.chains[op := []];
      var rest := QueueEnds(next, op, more);
      OneTurn(s, Written(op), rest);
      turns := [Written(op)] + rest;
    }
  }

  ghost function Busy(s: Service): set<Operator> {
    set op | op in s.chains && s.chains[op] != []
  }

  lemma {:induction false} WritesEnd(s: Service) returns (turns: seq<Turn>)
    requires s.jobs == map[]
    ensures Idle(Waited(s, turns).0) && Waited(s, turns).0.accruals == s.accruals
    decreases |Busy(s)|
  {
    if Busy(s) == {} {
      forall op | op in s.chains
        ensures s.chains[op] == []
      {
        assert op !in Busy(s);
      }
      turns := [];
    } else {
      var op :| op in Busy(s);
      var next := s.(chains := s.chains[op := []]);
      assert Busy(next) == Busy(s) - {op};
      var rest := WritesEnd(next);
      turns := QueueEnds(s, op, rest);
    }
  }

  /** Everything in flight can come to an end without touching what is accruing. */
  lemma {:induction false} EverythingEnds(s: Service) returns (turns: seq<Turn>)
    ensures Idle(Waited(s, turns).0) && Waited(s, turns).0.accruals == s.accruals
    decreases |s.jobs|
  {
    if s.jobs == map[] {
      turns := WritesEnd(s);
    } else {
      var id :| id in s.jobs;
      var next := AfterTurn(s, Fails(id, "", 0));
      assert next.jobs == s.jobs - {id} && next.accruals == s.accruals;
      var rest := EverythingEnds(next);
      OneTurn(s, Fails(id, "", 0), rest);
      turns := [Fails(id, "", 0)] + rest;
    }
  }

  lemma {:induction false} OneUnit(marginBps: int)
    requires 0 <= marginBps < Pricing.BPS_DENOMINATOR
    ensures Pricing.ComputeSplit(1, marginBps) == Result.Ok(Pricing.PriceSplit(1, 1, 0))
  {}

  /** A charge of one unit, routed and not claimed, starts an accrual. */
  lemma {:induction false} UnitAccrues(s: Service, x: RequestId, note: Note)
    requires s.accruals == map[] && CanAccrue(s.cfg)
    requires Find(s.routing, x) == Some(note) && x !in s.claimed
    ensures var s' := SettleInbound(s, Inbound(x, 1), 0, "");
      s'.accruals == map[note.operator := Accrual(|s.heap|, 1, 0)] && s'.jobs == s.jobs
  {
    OneUnit(s.cfg.marginBps);
    var rec := Rec(x, note.nodeId, note.operator, 1, 1, 0, 0);
    assert Admitted(s, Inbound(x, 1), 0) == Some(rec);
    var claimed := s.(routing := Remove(s.routing, x), claimed := s.claimed + {x});
    UnitStays(claimed, rec);
    hide Admitted, Accrue, Find, Remove;
  }

  lemma {:induction false} UnitStays(s: Service, rec: Rec)
    requires s.accruals == map[] && CanAccrue(s.cfg) && rec.payout == 1
    ensures var s' := Accrue(s, rec, 0, "");
      s'.accruals == map[rec.operator := Accrual(|s.heap|, 1, 0)] && s'.jobs == s.jobs
  {
    var op := rec.operator;
    var pushed := PushRecord(WithAccrual(s, op, 0), rec);
    assert ArrayAt(pushed.heap, pushed.accruals[op].arr) == [rec];
    assert pushed.accruals == map[op := Accrual(|s.heap|, 1, 0)];
  }

  /**
   * A flush called with something in flight and nothing accruing may return with an accrual: a
   * small charge for a routed request settles while it waits.
   */
  lemma {:induction false} LeavesAccrual(s: Service, x: RequestId, note: Note, mint: nat -> BatchId, first: nat)
      returns (turns: seq<Turn>, s': Service)
    requires s.accruals == map[] && !Idle(s) && CanAccrue(s.cfg)
    requires Find(s.routing, x) == Some(note) && x !in s.claimed
    ensures turns != [] && turns[0] == Settles(Inbound(x, 1), 0, "")
    ensures FlushedIn(0, s, turns, mint, first, s', true) && note.operator in s'.accruals
  {
    var settle := Settles(Inbound(x, 1), 0, "");
    UnitAccrues(s, x, note);
    var next := AfterTurn(s, settle);
    var rest := EverythingEnds(next);
    hide Idle, AfterTurn, Waited;
    OneTurn(s, settle, rest);
    turns := [settle] + rest;
    s' := Waited(s, turns).0;
  }

  lemma {:induction false} RoutedFirst(s: Service, mint: nat -> BatchId, first: nat)
      returns (turns: seq<Turn>, s': Service)
    requires s.accruals == map[] && !Idle(s) && CanAccrue(s.cfg)
    ensures FlushedIn(0, s, turns, mint, first, s', true) && s'.accruals != map[]
  {
    var n := LongerThanAll(s.claimed);
    var x := seq(n, _ => 'x');
    assert |x| == n && x !in s.claimed;
    var route := Routes(x, "", "", 0);
    var next := AfterTurn(s, route);
    assert next == s.(routing := next.routing) && Find(next.routing, x) == Some(Note("", "", 0));
    var rest;
    rest, s' := LeavesAccrual(next, x, Note("", "", 0), mint, first);
    hide Waited, AfterTurn, PruneRouting;
    OneTurn(s, route, rest);
    turns := [route] + rest;
  }

  // ----- exactly when -----

  /**
   * A flush from `s` that returns never leaves anything accruing, whatever lands while it waits,
   * exactly when it finds something to flush, or nothing in flight, or no charge can accrue.
   */
  lemma {:induction false} ReturnsEmptyIff(s: Service)
    ensures (s.accruals != map[] || Idle(s) || !CanAccrue(s.cfg)) <==>
      forall rounds, turns, mint, first, s' | FlushedIn(rounds, s, turns, mint, first, s', true) ::
        s'.accruals == map[]
  {
    if s.accruals != map[] || Idle(s) || !CanAccrue(s.cfg) {
      forall rounds, turns, mint, first, s' | FlushedIn(rounds, s, turns, mint, first, s', true)
        ensures s'.accruals == map[]
      {
        ReturnsEmpty(rounds, s, turns, mint, first, s');
      }
    } else {
      hide Idle, FlushedIn;
      var turns, s' := RoutedFirst(s, _ => "", 0);
    }
  }

  /** Where nothing is accruing, no turns start anything, exactly when no charge can accrue. */
  lemma {:induction false} TurnsKeepEmptyIff(cfg: Config)
    ensures !CanAccrue(cfg) <==>
      forall s: Service, turns | s.cfg == cfg && s.accruals == map[] :: AfterTurns(s, turns).accruals == map[]
  {
    if CanAccrue(cfg) {
      var s := Boot(cfg, {}).(routing := [("x", Note("", "", 0))]);
      UnitAccrues(s, "x", Note("", "", 0));
      var turns := [Settles(Inbound("x", 1), 0, "")];
      assert turns[1..] == [] && AfterTurns(s, turns) == AfterTurns(AfterTurn(s, turns[0]), turns[1..]);
      assert s.cfg == cfg && s.accruals == map[];
      assert "" in AfterTurns(s, turns).accruals;
    } else {
      forall s: Service, turns | s.cfg == cfg && s.accruals == map[]
        ensures AfterTurns(s, turns).accruals == map[]
      {
        TurnsKeepEmpty(s, turns);
      }
    }
  }
}
