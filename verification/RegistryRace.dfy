/** Two reports of outcomes for one node, their Redis commands interleaved in any way. */
module RegistryRace {
  import opened Prelude
  import opened MeshTypes
  import opened NodeHealth
  import opened Registry

  datatype Who = A | B

  function Other(who: Who): Who {
    if who == A then B else A
  }

  // The commands of one report, in order. Reading the record is its first.
  const READ := 1
  const PUSH := 2
  const TRIM := 3
  const RANGE := 4
  const WRITE := 5

  /** A report that has run `done` of its commands. */
  datatype Report = Report(done: nat, outcome: Reported, record: Option<NodeRecord>, window: seq<Outcome>)

  datatype Race = Race(keys: Keyspace, a: Report, b: Report)

  function Of(r: Race, who: Who): Report {
    if who == A then r.a else r.b
  }

  function With(r: Race, who: Who, report: Report): Race {
    if who == A then r.(a := report) else r.(b := report)
  }

  function WithWindow(k: Keyspace, id: NodeId, raw: seq<Outcome>): Keyspace {
    k.(windows := k.windows[id := raw])
  }

  /** `who` runs its next command; a report that found no record runs no more. */
  function Step(r: Race, id: NodeId, who: Who): Race {
    var me, k := Of(r, who), r.keys;
    var next := me.done + 1;
    var moved := With(r, who, me.(done := next));
    if next == READ then With(r, who, me.(done := next, record := ReadRecord(k, id)))
    else if me.record.None? then moved
    else if next == PUSH then
      moved.(keys := WithWindow(k, id, [NormalizeOutcome(me.outcome)] + RawWindow(k, id)))
    else if next == TRIM then moved.(keys := WithWindow(k, id, Head(RawWindow(k, id))))
    else if next == RANGE then With(r, who, me.(done := next, window := ReadWindow(k, id)))
    else if next == WRITE then
      moved.(keys := k.(records := k.records[id := Scored(me.record.value, me.window)]))
    else moved
  }

  function Start(k: Keyspace, a: Reported, b: Reported): Race {
    Race(k, Report(0, a, None, []), Report(0, b, None, []))
  }

  function Play(r: Race, id: NodeId, order: seq<Who>): Race {
    if order == [] then r else Step(Play(r, id, order[..|order| - 1]), id, order[|order| - 1])
  }

  // ----- when a command runs -----

  function Turns(order: seq<Who>, who: Who): nat {
    if order == [] then 0
    else Turns(order[..|order| - 1], who) + (if order[|order| - 1] == who then 1 else 0)
  }

  /** The place of `who`'s `n`-th command, counting from one; past the end if it has not run. */
  function Moment(order: seq<Who>, who: Who, n: nat): nat {
    if order == [] then 1
    else
      var front := order[..|order| - 1];
      if Turns(front, who) >= n then Moment(front, who, n)
      else if Turns(order, who) >= n then |order|
      else |order| + 1
  }

  lemma {:induction false} MomentIs(order: seq<Who>, who: Who, n: nat)
    requires n > 0
    ensures 0 < Moment(order, who, n) <= |order| + 1
    ensures Moment(order, who, n) <= |order| <==> Turns(order, who) >= n
  {
    if order != [] {
      MomentIs(order[..|order| - 1], who, n);
    }
  }

  /** Two commands do not run at the same moment. */
  lemma {:induction false} MomentsApart(order: seq<Who>, n: nat, m: nat)
    requires n > 0 && m > 0 && Turns(order, A) >= n
    ensures Moment(order, A, n) != Moment(order, B, m)
  {
    MomentIs(order, A, n);
    MomentIs(order, B, m);
    if order != [] {
      var front := order[..|order| - 1];
      MomentIs(front, A, n);
      MomentIs(front, B, m);
      if Turns(front, A) >= n { MomentsApart(front, n, m); }
    }
  }

  /** What one more command does to the moments. */
  lemma {:induction false} MomentStep(front: seq<Who>, last: Who, who: Who, n: nat)
    requires n > 0
    ensures var order := front + [last];
      && Turns(order, who) == Turns(front, who) + (if last == who then 1 else 0)
      && Moment(order, who, n) ==
           (if Turns(front, who) >= n then Moment(front, who, n)
            else if Turns(order, who) >= n then |order| else |order| + 1)
  {
    assert (front + [last])[..|front|] == front;
  }

  // ----- what is in the window -----

  /** The reports that have pushed their outcome, the latest first. */
  function Pushed(order: seq<Who>): seq<Who> {
    if order == [] then []
    else
      var front, last := order[..|order| - 1], order[|order| - 1];
      (if Turns(order, last) == PUSH then [last] else []) + Pushed(front)
  }

  function Outcomes(who: seq<Who>, a: Reported, b: Reported): (r: seq<Outcome>)
    ensures |r| == |who|
  {
    seq(|who|, i requires 0 <= i < |who| => NormalizeOutcome(if who[i] == A then a else b))
  }

  /** The window as it reads once the outcomes of `who` were pushed in front of `raw`. */
  function Seen(who: seq<Who>, raw: seq<Outcome>, a: Reported, b: Reported): seq<Outcome> {
    Reversed(ParseWindow(Head(Outcomes(who, a, b) + raw)))
  }

  lemma {:induction false} HeadAgain(x: Outcome, s: seq<Outcome>, t: seq<Outcome>)
    requires Head(s) == Head(t)
    ensures Head([x] + s) == Head([x] + t)
    ensures Head(Head(s)) == Head(t)
  {
    if |s| > HEALTH_WINDOW_SIZE || |t| > HEALTH_WINDOW_SIZE {
      assert |s| >= HEALTH_WINDOW_SIZE && |t| >= HEALTH_WINDOW_SIZE;
      var h := HEALTH_WINDOW_SIZE - 1;
      assert s[..h] == Head(s)[..h] == Head(t)[..h] == t[..h];
      assert ([x] + s)[..h + 1] == [x] + s[..h] && ([x] + t)[..h + 1] == [x] + t[..h];
    }
  }

  // ----- where the race stands -----

  function OutcomeOf(who: Who, a: Reported, b: Reported): Reported {
    if who == A then a else b
  }

  /** Whether `who` read the record after the other report had written it. */
  predicate ReadLate(order: seq<Who>, who: Who) {
    Moment(order, Other(who), WRITE) < Moment(order, who, READ)
  }

  function LastWriter(order: seq<Who>): Who {
    if Turns(order, A) >= WRITE && (Turns(order, B) < WRITE || Moment(order, B, WRITE) < Moment(order, A, WRITE))
    then A else B
  }

  /** The record `who` read, if it has: late, it counts the other report. */
  ghost predicate ReadFits(k: Keyspace, id: NodeId, order: seq<Who>, who: Who, me: Report)
    requires id in k.records
  {
    me.done >= READ ==>
      me.record.Some? && me.record.value.totalRequests
        == k.records[id].totalRequests + (if ReadLate(order, who) then 1 else 0)
  }

  /** The window `who` read, if it has: what had been pushed by then. */
  ghost predicate RangeFits(
      k: Keyspace, id: NodeId, a: Reported, b: Reported, order: seq<Who>, who: Who, me: Report)
  {
    me.done >= RANGE ==>
      && Moment(order, who, RANGE) <= |order|
      && me.window == Seen(Pushed(order[..Moment(order, who, RANGE)]), RawWindow(k, id), a, b)
  }

  ghost predicate ReportFits(k: Keyspace, id: NodeId, a: Reported, b: Reported, order: seq<Who>, who: Who)
    requires id in k.records
  {
    var me := Of(Play(Start(k, a, b), id, order), who);
    && me.done == Turns(order, who) && me.outcome == OutcomeOf(who, a, b)
    && ReadFits(k, id, order, who, me) && RangeFits(k, id, a, b, order, who, me)
  }

  ghost predicate WindowFits(k: Keyspace, id: NodeId, a: Reported, b: Reported, order: seq<Who>) {
    Head(RawWindow(Play(Start(k, a, b), id, order).keys, id))
      == Head(Outcomes(Pushed(order), a, b) + RawWindow(k, id))
  }

  ghost predicate RecordFits(k: Keyspace, id: NodeId, a: Reported, b: Reported, order: seq<Who>)
    requires id in k.records
  {
    var r := Play(Start(k, a, b), id, order);
    && id in r.keys.records
    && (if Turns(order, A) < WRITE && Turns(order, B) < WRITE then r.keys.records[id] == k.records[id]
        else
          var last := Of(r, LastWriter(order));
          last.record.Some? && r.keys.records[id] == Scored(last.record.value, last.window))
  }

  lemma {:induction false} StepOther(r: Race, id: NodeId, who: Who)
    ensures Of(Step(r, id, who), Other(who)) == Of(r, Other(who))
  {
    hide Head, NormalizeOutcome, ReadRecord, ReadWindow, Scored, RawWindow;
  }

  /** The next command leaves the other report alone. */
  lemma {:induction false} OtherStays(
      k: Keyspace, id: NodeId, a: Reported, b: Reported, front: seq<Who>, last: Who)
    requires id in k.records && ReportFits(k, id, a, b, front, Other(last))
    ensures ReportFits(k, id, a, b, front + [last], Other(last))
  {
    var order, who := front + [last], Other(last);
    assert order[..|front|] == front;
    MomentStep(front, last, who, READ);
    MomentStep(front, last, who, RANGE);
    MomentStep(front, last, last, WRITE);
    MomentIs(front, who, READ);
    MomentIs(front, who, RANGE);
    MomentIs(front, last, WRITE);
    StepOther(Play(Start(k, a, b), id, front), id, last);
    hide Turns, Moment, Pushed, Seen, Step;
    if Turns(front, who) >= RANGE {
      var m := Moment(front, who, RANGE);
      assert order[..m] == front[..m];
    }
  }

  lemma {:induction false} StepRaw(r: Race, id: NodeId, who: Who)
    requires Of(r, who).done >= READ ==> Of(r, who).record.Some?
    ensures var raw, next := RawWindow(r.keys, id), Of(r, who).done + 1;
      RawWindow(Step(r, id, who).keys, id) ==
        if next == PUSH then [NormalizeOutcome(Of(r, who).outcome)] + raw
        else if next == TRIM then Head(raw)
        else raw
  {
    hide Head, NormalizeOutcome, ReadRecord, ReadWindow, Scored;
  }

  lemma {:induction false} PushedStep(front: seq<Who>, last: Who, a: Reported, b: Reported, base: seq<Outcome>)
    ensures var order := front + [last];
      Outcomes(Pushed(order), a, b) + base ==
        if Turns(front, last) + 1 == PUSH then
          [NormalizeOutcome(OutcomeOf(last, a, b))] + (Outcomes(Pushed(front), a, b) + base)
        else Outcomes(Pushed(front), a, b) + base
  {
    var order := front + [last];
    assert order[..|front|] == front;
    MomentStep(front, last, last, PUSH);
    hide Turns, NormalizeOutcome;
    if Turns(order, last) == PUSH {
      assert Pushed(order) == [last] + Pushed(front);
    } else {
      assert Pushed(order) == [] + Pushed(front) == Pushed(front);
    }
  }

  lemma {:induction false} WindowStep(
      k: Keyspace, id: NodeId, a: Reported, b: Reported, front: seq<Who>, last: Who)
    requires id in k.records && ReportFits(k, id, a, b, front, last) && WindowFits(k, id, a, b, front)
    ensures WindowFits(k, id, a, b, front + [last])
  {
    var r := Play(Start(k, a, b), id, front);
    assert (front + [last])[..|front|] == front;
    StepRaw(r, id, last);
    PushedStep(front, last, a, b, RawWindow(k, id));
    HeadAgain(NormalizeOutcome(OutcomeOf(last, a, b)), RawWindow(r.keys, id),
              Outcomes(Pushed(front), a, b) + RawWindow(k, id));
    hide Turns, Head, Moment, NormalizeOutcome, Step, Pushed, Outcomes, RawWindow, Seen;
  }

  /** What a command does to the report that runs it. */
  lemma {:induction false} StepOwn(r: Race, id: NodeId, who: Who)
    ensures var me, me' := Of(r, who), Of(Step(r, id, who), who);
      && me'.done == me.done + 1 && me'.outcome == me.outcome
      && me'.record == (if me.done + 1 == READ then ReadRecord(r.keys, id) else me.record)
      && (me'.window == if me.done + 1 == RANGE && me.record.Some? then ReadWindow(r.keys, id) else me.window)
  {
    hide Head, NormalizeOutcome, ReadRecord, ReadWindow, Scored, RawWindow;
  }

  /** The record as the next command would read it. */
  lemma {:induction false} CountNow(
      k: Keyspace, id: NodeId, a: Reported, b: Reported, order: seq<Who>, who: Who)
    requires id in k.records && ReportFits(k, id, a, b, order, Other(who)) && RecordFits(k, id, a, b, order)
    requires Turns(order, who) == 0
    ensures var read := ReadRecord(Play(Start(k, a, b), id, order).keys, id);
      read.Some? && read.value.totalRequests
        == k.records[id].totalRequests + (if Turns(order, Other(who)) >= WRITE then 1 else 0)
  {
    MomentIs(order, who, WRITE);
    MomentIs(order, Other(who), READ);
    MomentIs(order, Other(who), WRITE);
    hide Turns, Moment, Play, Seen, Pushed, RangeFits, DeriveHealth, RawWindow, NormalizeOutcome;
  }

  lemma {:induction false} ReadStep(
      k: Keyspace, id: NodeId, a: Reported, b: Reported, front: seq<Who>, last: Who, me: Report)
    requires id in k.records && ReportFits(k, id, a, b, front, last) && ReportFits(k, id, a, b, front, Other(last))
    requires RecordFits(k, id, a, b, front)
    requires me == Of(Step(Play(Start(k, a, b), id, front), id, last), last)
    ensures ReadFits(k, id, front + [last], last, me)
  {
    var order, other := front + [last], Other(last);
    StepOwn(Play(Start(k, a, b), id, front), id, last);
    MomentStep(front, last, last, READ);
    MomentStep(front, last, other, WRITE);
    MomentIs(front, last, READ);
    MomentIs(front, other, WRITE);
    if Turns(front, last) == 0 { CountNow(k, id, a, b, front, last); }
    hide Turns, Moment, Play, Step, Seen, Pushed, RangeFits, RecordFits, ReadRecord, ReadWindow;
  }

  lemma {:induction false} RangeStep(
      k: Keyspace, id: NodeId, a: Reported, b: Reported, front: seq<Who>, last: Who, me: Report)
    requires id in k.records && ReportFits(k, id, a, b, front, last) && WindowFits(k, id, a, b, front)
    requires me == Of(Step(Play(Start(k, a, b), id, front), id, last), last)
    ensures RangeFits(k, id, a, b, front + [last], last, me)
  {
    var order := front + [last];
    assert order[..|front|] == front && order[..|order|] == order;
    StepOwn(Play(Start(k, a, b), id, front), id, last);
    MomentStep(front, last, last, RANGE);
    MomentStep(front, last, last, PUSH);
    MomentIs(front, last, RANGE);
    SeenNow(k, id, a, b, front);
    if Turns(order, last) == RANGE { assert Pushed(order) == [] + Pushed(front) == Pushed(front); }
    hide Turns, Moment, Play, Step, Seen, Pushed, ReadRecord, ReadWindow, WindowFits;
    if Turns(order, last) > RANGE {
      var m := Moment(front, last, RANGE);
      assert order[..m] == front[..m];
    }
  }

  lemma {:induction false} OwnStep(
      k: Keyspace, id: NodeId, a: Reported, b: Reported, front: seq<Who>, last: Who)
    requires id in k.records && ReportFits(k, id, a, b, front, last) && ReportFits(k, id, a, b, front, Other(last))
    requires WindowFits(k, id, a, b, front) && RecordFits(k, id, a, b, front)
    ensures ReportFits(k, id, a, b, front + [last], last)
  {
    var r := Play(Start(k, a, b), id, front);
    assert (front + [last])[..|front|] == front;
    MomentStep(front, last, last, READ);
    StepOwn(r, id, last);
    ReadStep(k, id, a, b, front, last, Of(Step(r, id, last), last));
    RangeStep(k, id, a, b, front, last, Of(Step(r, id, last), last));
    hide Turns, Moment, Step, ReadFits, RangeFits, WindowFits, RecordFits, ReadRecord, ReadWindow;
  }

  lemma {:induction false} SeenNow(k: Keyspace, id: NodeId, a: Reported, b: Reported, order: seq<Who>)
    requires WindowFits(k, id, a, b, order)
    ensures ReadWindow(Play(Start(k, a, b), id, order).keys, id) == Seen(Pushed(order), RawWindow(k, id), a, b)
  {
    hide Head, Play, Pushed;
  }

  lemma {:induction false} RecordStep(
      k: Keyspace, id: NodeId, a: Reported, b: Reported, front: seq<Who>, last: Who)
    requires id in k.records && ReportFits(k, id, a, b, front, last) && RecordFits(k, id, a, b, front)
    ensures RecordFits(k, id, a, b, front + [last])
  {
    var order, other := front + [last], Other(last);
    assert order[..|front|] == front;
    MomentStep(front, last, A, WRITE);
    MomentStep(front, last, B, WRITE);
    MomentIs(front, A, WRITE);
    MomentIs(front, B, WRITE);
    hide Turns, Moment, Seen, Head, ReadRecord, ReadWindow, NormalizeOutcome, Pushed, Scored;
  }

  lemma {:induction false} RaceFits(k: Keyspace, id: NodeId, a: Reported, b: Reported, order: seq<Who>)
    requires id in k.records
    ensures ReportFits(k, id, a, b, order, A) && ReportFits(k, id, a, b, order, B)
    ensures WindowFits(k, id, a, b, order) && RecordFits(k, id, a, b, order)
    decreases |order|
  {
    if order == [] {
      assert Outcomes([], a, b) + RawWindow(k, id) == RawWindow(k, id);
    } else {
      hide ReportFits, WindowFits, RecordFits;
      var front, last := order[..|order| - 1], order[|order| - 1];
      assert order == front + [last];
      RaceFits(k, id, a, b, front);
      OtherStays(k, id, a, b, front, last);
      OwnStep(k, id, a, b, front, last);
      WindowStep(k, id, a, b, front, last);
      RecordStep(k, id, a, b, front, last);
    }
  }

  // ----- when both reports are through -----

  /** Every command of both reports has run, and nothing else. */
  ghost predicate Through(order: seq<Who>) {
    Turns(order, A) == WRITE && Turns(order, B) == WRITE
  }

  /** One report read the record after the other had written it. */
  predicate Apart(order: seq<Who>) {
    ReadLate(order, A) || ReadLate(order, B)
  }

  /** A report reads before it writes. */
  lemma {:induction false} MomentsInOrder(order: seq<Who>, who: Who, n: nat, m: nat)
    requires 0 < n < m && Turns(order, who) >= m
    ensures Moment(order, who, n) < Moment(order, who, m)
  {
    var front := order[..|order| - 1];
    MomentIs(front, who, n);
    MomentIs(front, who, m);
    if Turns(front, who) >= m { MomentsInOrder(front, who, n, m); }
  }

  /** Of two reports at most one reads late, and it is the one that writes last. */
  lemma {:induction false} LateWritesLast(order: seq<Who>, who: Who)
    requires Through(order) && ReadLate(order, who)
    ensures !ReadLate(order, Other(who)) && LastWriter(order) == who
  {
    MomentsInOrder(order, A, READ, WRITE);
    MomentsInOrder(order, B, READ, WRITE);
    hide Turns, Moment;
  }

  lemma {:induction false} LastIsLast(order: seq<Who>)
    requires Through(order)
    ensures order != [] && LastWriter(order) == order[|order| - 1]
  {
    var front, last := order[..|order| - 1], order[|order| - 1];
    assert order == front + [last];
    MomentStep(front, last, A, WRITE);
    MomentStep(front, last, B, WRITE);
    MomentIs(front, A, WRITE);
    MomentIs(front, B, WRITE);
  }

  /**
   * Under any schedule both requests are counted if and only if one report reads the record after
   * the other has written it; otherwise exactly one is lost. An in-memory store counts both.
   */
  lemma {:induction false} BothCountedIff(k: Keyspace, m: Nodes, id: NodeId, a: Reported, b: Reported, order: seq<Who>)
    requires AgreeAt(k, m, id) && id in m.records && Through(order)
    ensures var raced := ReadRecord(Play(Start(k, a, b), id, order).keys, id);
      var both := RecordOf(Apply(Apply(m, RecordOutcome(id, a)), RecordOutcome(id, b)), id);
      && raced.Some? && both.Some?
      && (raced.value.totalRequests == both.value.totalRequests <==> Apart(order))
      && (!Apart(order) ==> raced.value.totalRequests == both.value.totalRequests - 1)
  {
    RaceFits(k, id, a, b, order);
    if ReadLate(order, A) { LateWritesLast(order, A); }
    if ReadLate(order, B) { LateWritesLast(order, B); }
    hide Turns, Moment, Play, Seen, Pushed, Head, ReadWindow, DeriveHealth, Slide, NormalizeOutcome, RawWindow,
      LastWriter;
    assert LastWriter(order) == A || LastWriter(order) == B;
  }

  /** What the two outcomes look like in the window, and in which order. */
  lemma {:induction false} BothPushed(order: seq<Who>)
    requires Turns(order, A) >= PUSH && Turns(order, B) >= PUSH
    ensures Pushed(order) == if Moment(order, A, PUSH) < Moment(order, B, PUSH) then [B, A] else [A, B]
  {
    var front, last := order[..|order| - 1], order[|order| - 1];
    assert order == front + [last];
    MomentStep(front, last, A, PUSH);
    MomentStep(front, last, B, PUSH);
    MomentIs(front, A, PUSH);
    MomentIs(front, B, PUSH);
    if Turns(front, A) >= PUSH && Turns(front, B) >= PUSH {
      BothPushed(front);
      assert Pushed(order) == [] + Pushed(front);
    } else {
      OnePushed(front, Other(last));
    }
  }

  lemma {:induction false} OnePushed(order: seq<Who>, who: Who)
    requires Turns(order, who) >= PUSH && Turns(order, Other(who)) < PUSH
    ensures Pushed(order) == [who]
  {
    var front, last := order[..|order| - 1], order[|order| - 1];
    if Turns(front, who) >= PUSH {
      OnePushed(front, who);
      assert Pushed(order) == [] + Pushed(front);
    } else {
      NonePushed(front);
      assert Pushed(order) == [who] + [];
    }
  }

  lemma {:induction false} NonePushed(order: seq<Who>)
    requires Turns(order, A) < PUSH && Turns(order, B) < PUSH
    ensures Pushed(order) == []
  {
    if order != [] { NonePushed(order[..|order| - 1]); }
  }

  // ----- what the stored health was derived from -----

  /** A moment, seen from a prefix of the schedule. */
  lemma {:induction false} MomentInPrefix(order: seq<Who>, i: nat, who: Who, n: nat)
    requires i <= |order| && n > 0
    ensures Turns(order[..i], who) >= n <==> Moment(order, who, n) <= i
    ensures Turns(order[..i], who) >= n ==> Moment(order[..i], who, n) == Moment(order, who, n)
    decreases |order|
  {
    MomentIs(order, who, n);
    if i == |order| {
      assert order[..i] == order;
    } else {
      var front := order[..|order| - 1];
      assert front[..i] == order[..i];
      MomentInPrefix(front, i, who, n);
      MomentIs(front, who, n);
    }
  }

  /** The report that writes last reads the window after the other has pushed its outcome. */
  predicate SeesBoth(order: seq<Who>, last: Who) {
    Moment(order, Other(last), PUSH) < Moment(order, last, RANGE)
  }

  lemma {:induction false} PushedBeforeRange(order: seq<Who>, last: Who)
    requires Through(order)
    ensures var m := Moment(order, last, RANGE);
      m <= |order| && Pushed(order[..m]) == if SeesBoth(order, last) then Pushed(order) else [last]
  {
    var m, other := Moment(order, last, RANGE), Other(last);
    MomentIs(order, last, RANGE);
    MomentsInOrder(order, last, PUSH, RANGE);
    MomentInPrefix(order, m, A, PUSH);
    MomentInPrefix(order, m, B, PUSH);
    RangeIsNoPush(order, last);
    hide Turns, Moment, Pushed;
    if SeesBoth(order, last) {
      BothPushed(order);
      BothPushed(order[..m]);
    } else {
      OnePushed(order[..m], last);
    }
  }

  lemma {:induction false} RangeIsNoPush(order: seq<Who>, last: Who)
    requires Through(order)
    ensures Moment(order, last, RANGE) != Moment(order, Other(last), PUSH)
  {
    if last == A { MomentsApart(order, RANGE, PUSH); } else { MomentsApart(order, PUSH, RANGE); }
  }

  /** A report that reads late sees both outcomes. */
  lemma {:induction false} ApartSeesBoth(order: seq<Who>)
    requires Through(order) && Apart(order)
    ensures SeesBoth(order, LastWriter(order))
  {
    var last := if ReadLate(order, A) then A else B;
    LateWritesLast(order, last);
    MomentsInOrder(order, last, READ, RANGE);
    MomentsInOrder(order, Other(last), PUSH, WRITE);
    hide Turns, Moment, LastWriter;
  }

  /**
   * Under any schedule the window ends with both outcomes, the one pushed last being the newest.
   * The stored record was scored by the report that wrote last, on that window if it read the
   * window after the other's push, and otherwise on a window that lacks the other's outcome.
   */
  lemma {:induction false} ScoredOnWhatItSaw(
      k: Keyspace, id: NodeId, a: Reported, b: Reported, order: seq<Who>) returns (read: NodeRecord)
    requires id in k.records && Through(order)
    ensures var keys, raw := Play(Start(k, a, b), id, order).keys, RawWindow(k, id);
      var last := order[|order| - 1];
      && ReadWindow(keys, id) == Seen(
           if Moment(order, A, PUSH) < Moment(order, B, PUSH) then [B, A] else [A, B], raw, a, b)
      && id in keys.records && keys.records[id] == Scored(
           read, if SeesBoth(order, last) then ReadWindow(keys, id) else Seen([last], raw, a, b))
    ensures read.totalRequests == k.records[id].totalRequests + (if Apart(order) then 1 else 0)
    ensures Apart(order) ==> SeesBoth(order, order[|order| - 1])
  {
    RaceFits(k, id, a, b, order);
    LastIsLast(order);
    if ReadLate(order, A) { LateWritesLast(order, A); }
    if ReadLate(order, B) { LateWritesLast(order, B); }
    BothPushed(order);
    SeenNow(k, id, a, b, order);
    if Apart(order) { ApartSeesBoth(order); }
    var last := order[|order| - 1];
    PushedBeforeRange(order, last);
    hide Moment, Play, Seen, Pushed, Head, ReadWindow, Scored, RawWindow, LastWriter;
    read := Of(Play(Start(k, a, b), id, order), last).record.value;
  }

  // ----- a schedule that goes wrong both ways -----

  /** Where every command of a schedule stands: how many each report has run, and when. */
  datatype Table = Table(a: nat, b: nat, readA: nat, readB: nat, pushB: nat, rangeA: nat, writeA: nat, writeB: nat)

  ghost predicate Tabled(order: seq<Who>, t: Table) {
    && Turns(order, A) == t.a && Turns(order, B) == t.b
    && Moment(order, A, READ) == t.readA && Moment(order, B, READ) == t.readB
    && Moment(order, B, PUSH) == t.pushB && Moment(order, A, RANGE) == t.rangeA
    && Moment(order, A, WRITE) == t.writeA && Moment(order, B, WRITE) == t.writeB
  }

  function NextMoment(n: nat, had: nat, has: nat, was: nat, length: nat): nat {
    if had >= n then was else if has >= n then length else length + 1
  }

  lemma {:induction false} TableStep(front: seq<Who>, last: Who, t: Table) returns (t': Table)
    requires Tabled(front, t)
    ensures Tabled(front + [last], t')
    ensures var a, b := t.a + (if last == A then 1 else 0), t.b + (if last == B then 1 else 0);
      var n := |front| + 1;
      t' == Table(a, b, NextMoment(READ, t.a, a, t.readA, n), NextMoment(READ, t.b, b, t.readB, n),
                  NextMoment(PUSH, t.b, b, t.pushB, n), NextMoment(RANGE, t.a, a, t.rangeA, n),
                  NextMoment(WRITE, t.a, a, t.writeA, n), NextMoment(WRITE, t.b, b, t.writeB, n))
  {
    var a, b := t.a + (if last == A then 1 else 0), t.b + (if last == B then 1 else 0);
    var n := |front| + 1;
    MomentStep(front, last, A, READ);
    MomentStep(front, last, B, READ);
    MomentStep(front, last, B, PUSH);
    MomentStep(front, last, A, RANGE);
    MomentStep(front, last, A, WRITE);
    MomentStep(front, last, B, WRITE);
    hide Turns, Moment;
    t' := Table(a, b, NextMoment(READ, t.a, a, t.readA, n), NextMoment(READ, t.b, b, t.readB, n),
                NextMoment(PUSH, t.b, b, t.pushB, n), NextMoment(RANGE, t.a, a, t.rangeA, n),
                NextMoment(WRITE, t.a, a, t.writeA, n), NextMoment(WRITE, t.b, b, t.writeB, n));
  }

  /** Both read; A pushes, trims and ranges; B does the rest; A writes. */
  lemma {:induction false} LateWriteForgets() returns (order: seq<Who>)
    ensures order == [A, B, A, A, A, B, B, B, B, A] && Through(order)
    ensures !Apart(order) && order[|order| - 1] == A && !SeesBoth(order, A)
  {
    var steps := [A, B, A, A, A, B, B, B, B, A];
    order := [];
    var t := Table(0, 0, 1, 1, 1, 1, 1, 1);
    hide Turns, Moment;
    EmptyTable();
    t := TableStep([], A, t);
    t := TableStep([] + [A], B, t);
    t := TableStep([] + [A] + [B], A, t);
    t := TableStep([] + [A] + [B] + [A], A, t);
    t := TableStep([] + [A] + [B] + [A] + [A], A, t);
    order := [] + [A] + [B] + [A] + [A] + [A];
    t := TableStep(order, B, t);
    t := TableStep(order + [B], B, t);
    t := TableStep(order + [B] + [B], B, t);
    t := TableStep(order + [B] + [B] + [B], B, t);
    t := TableStep(order + [B] + [B] + [B] + [B], A, t);
    order := order + [B] + [B] + [B] + [B] + [A];
    assert order == steps;
  }

  /** What that schedule does: one request is not counted, and the health ignores the second outcome. */
  lemma {:induction false} BothGoWrong(k: Keyspace, m: Nodes, id: NodeId, a: Reported, b: Reported)
      returns (order: seq<Who>, read: NodeRecord)
    requires AgreeAt(k, m, id) && id in m.records
    ensures order == [A, B, A, A, A, B, B, B, B, A]
    ensures var keys := Play(Start(k, a, b), id, order).keys;
      var both := RecordOf(Apply(Apply(m, RecordOutcome(id, a)), RecordOutcome(id, b)), id);
      && ReadRecord(keys, id).Some? && both.Some?
      && ReadRecord(keys, id).value.totalRequests == both.value.totalRequests - 1
      && id in keys.records && keys.records[id] == Scored(read, Seen([A], RawWindow(k, id), a, b))
      && ReadWindow(keys, id) == Seen([B, A], RawWindow(k, id), a, b)
  {
    order := LateWriteForgets();
    BothCountedIff(k, m, id, a, b, order);
    read := ScoredOnWhatItSaw(k, id, a, b, order);
    MomentsInOrder(order, A, PUSH, RANGE);
    RangeIsNoPush(order, A);
    hide Play, Moment, Turns, Seen, Apply, ReadWindow, Scored;
  }

  lemma {:induction false} EmptyTable()
    ensures Tabled([], Table(0, 0, 1, 1, 1, 1, 1, 1))
  {}
}
