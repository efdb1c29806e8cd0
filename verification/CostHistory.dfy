/** Cost history (app/cost_history.py): past reservations rebuilt from operations' final records,
    and the proof that they are what the ledger held at every past moment. Amounts are exact. */
module CostHistory {
  import opened LedgerModel
  import opened LedgerRuns
  import opened LedgerSafety

  datatype Delta = Delta(at: Time, amount: int)

  /** The loop variables of `replay`. */
  datatype Meter = Meter(cost: Cost, destroyed: bool, last: Cost, steps: seq<Delta>)

  // ----- The replay rules -----

  function Value(cost: Cost, destroyed: bool): Cost { if destroyed then 0 else cost }

  /** `move`: set the cost and the destroyed flag, and record the difference if there is one. */
  function MoveTo(m: Meter, at: Time, cost: Cost, destroyed: bool): Meter {
    var value := Value(cost, destroyed);
    Meter(cost, destroyed, value,
          m.steps + if value != m.last then [Delta(at, value as int - m.last as int)] else [])
  }

  function AmountOf(previous: Option<Cost>): Cost { if previous.Some? then previous.value else 0 }

  function ReplayOp(m: Meter, op: Op): Meter {
    var deploy := !op.Action().Destroy?;
    var m := if deploy
             then MoveTo(m, op.terms.createdAt, Max(AmountOf(op.terms.previousCost), op.terms.cost), m.destroyed)
             else m;
    if op.state.Succeeded? then MoveTo(m, op.updatedAt, op.terms.cost, !deploy)
    else if op.state.Failed? && deploy then
      MoveTo(m, op.updatedAt, AmountOf(op.terms.previousCost), m.destroyed)
    else m
  }

  function InitialCost(first: Op): Cost {
    if first.Action().Destroy? then first.terms.cost else AmountOf(first.terms.previousCost)
  }

  function ReplayAll(ops: seq<Op>): Meter
    requires ops != []
  {
    var earlier := ops[..|ops| - 1];
    ReplayOp(if earlier == [] then Meter(InitialCost(ops[0]), false, InitialCost(ops[0]), [])
             else ReplayAll(earlier), ops[|ops| - 1])
  }

  function MeterAfter(ops: seq<Op>, i: nat): Meter
    requires ops != [] && i <= |ops|
  {
    if i == 0 then Meter(InitialCost(ops[0]), false, InitialCost(ops[0]), []) else ReplayAll(ops[..i])
  }

  lemma MeterStep(ops: seq<Op>, i: nat)
    requires i < |ops|
    ensures MeterAfter(ops, i + 1) == ReplayOp(MeterAfter(ops, i), ops[i])
  {
    assert ops[..i + 1][..i] == ops[..i];
  }

  /** (value before the first operation, every later change), ending at what the row holds now. */
  function History(ops: seq<Op>, row: Row, stop: Time): (int, seq<Delta>) {
    if ops == [] then (Held(row), [])
    else
      var m := ReplayAll(ops);
      (InitialCost(ops[0]),
       if m.last == Held(row) then m.steps
       else m.steps + [Delta(stop, Held(row) as int - m.last as int)])
  }

  function NotChecks(ops: seq<Op>): seq<Op> {
    if ops == [] then []
    else
      var last := ops[|ops| - 1];
      NotChecks(ops[..|ops| - 1]) + if last.Action().DriftCheck? then [] else [last]
  }

  /** `replay` as it is written: one pass over the operations that are not drift checks. */
  method Replay(all: seq<Op>, row: Row, stop: Time) returns (initial: int, steps: seq<Delta>)
    ensures (initial, steps) == History(NotChecks(all), row, stop)
  {
    hide ReplayAll, ReplayOp;
    var ops := NotChecks(all);
    var target := Held(row);
    if ops == [] {
      return target, [];
    }
    var first := ops[0];
    var cost: Cost :=
      if first.Action().Destroy? then first.terms.cost else AmountOf(first.terms.previousCost);
    initial := cost;
    var last: Cost, destroyed := cost, false;
    steps := [];
    for i := 0 to |ops|
      invariant initial == InitialCost(first)
      invariant Meter(cost, destroyed, last, steps) == MeterAfter(ops, i)
    {
      MeterStep(ops, i);
      cost, destroyed, last, steps := ReplayOne(ops[i], cost, destroyed, last, steps);
    }
    assert ops[..|ops|] == ops;
    if last != target {
      steps := steps + [Delta(stop, target as int - last as int)];
    }
  }

  /** The body of the loop: an accepted deploy reserves at once; its end settles the amount. */
  method ReplayOne(op: Op, cost0: Cost, destroyed0: bool, last0: Cost, steps0: seq<Delta>)
    returns (cost: Cost, destroyed: bool, last: Cost, steps: seq<Delta>)
    ensures Meter(cost, destroyed, last, steps)
            == ReplayOp(Meter(cost0, destroyed0, last0, steps0), op)
  {
    cost, destroyed, last, steps := cost0, destroyed0, last0, steps0;
    var deploy := !op.Action().Destroy?;
    if deploy {
      cost := Max(AmountOf(op.terms.previousCost), op.terms.cost);
      last, steps := Note(op.terms.createdAt, cost, destroyed, last, steps);
    }
    if op.state.Succeeded? {
      cost, destroyed := op.terms.cost, !deploy;
      last, steps := Note(op.updatedAt, cost, destroyed, last, steps);
    } else if op.state.Failed? && deploy {
      cost := AmountOf(op.terms.previousCost);
      last, steps := Note(op.updatedAt, cost, destroyed, last, steps);
    }
  }

  method Note(at: Time, cost: Cost, destroyed: bool, last: Cost, steps: seq<Delta>)
    returns (value: Cost, noted: seq<Delta>)
    ensures value == Value(cost, destroyed)
    ensures noted == steps + if value != last then [Delta(at, value as int - last as int)] else []
  {
    value := if destroyed then 0 else cost;
    noted := steps;
    if value != last {
      noted := noted + [Delta(at, value as int - last as int)];
    }
  }

  // ----- Reading a replay at a moment -----

  function SumUpTo(steps: seq<Delta>, moment: Time): int {
    if steps == [] then 0
    else
      var d := steps[|steps| - 1];
      SumUpTo(steps[..|steps| - 1], moment) + if d.at <= moment then d.amount else 0
  }

  lemma {:induction false} SumUpToConcat(a: seq<Delta>, b: seq<Delta>, moment: Time)
    ensures SumUpTo(a + b, moment) == SumUpTo(a, moment) + SumUpTo(b, moment)
  {
    if b == [] {
      assert a + b == a;
    } else {
      SumUpToConcat(a, b[..|b| - 1], moment);
      assert (a + b)[..|a + b| - 1] == a + b[..|b| - 1];
    }
  }

  lemma {:induction false} LaterCountsNothing(steps: seq<Delta>, moment: Time)
    requires forall i :: 0 <= i < |steps| ==> steps[i].at > moment
    ensures SumUpTo(steps, moment) == 0
  {
    if steps != [] { LaterCountsNothing(steps[..|steps| - 1], moment); }
  }

  // ----- The operations of one resource, in ledger order -----

  predicate Counts(ops: map<OpId, Op>, id: OpId, r: ResId) {
    id in ops && ops[id].resource == r && !ops[id].Action().DriftCheck?
  }

  function RealOf(order: seq<OpId>, ops: map<OpId, Op>, r: ResId): seq<Op> {
    if order == [] then []
    else
      var last := order[|order| - 1];
      RealOf(order[..|order| - 1], ops, r) + if Counts(ops, last, r) then [ops[last]] else []
  }

  function AllOf(order: seq<OpId>, ops: map<OpId, Op>, r: ResId): seq<Op> {
    if order == [] then []
    else
      var last := order[|order| - 1];
      AllOf(order[..|order| - 1], ops, r)
      + if last in ops && ops[last].resource == r then [ops[last]] else []
  }

  /** What `build` reads for a resource, with the checks left out, is `RealOf`. */
  lemma {:induction false} RealOfIsFiltered(order: seq<OpId>, ops: map<OpId, Op>, r: ResId)
    ensures NotChecks(AllOf(order, ops, r)) == RealOf(order, ops, r)
  {
    if order != [] {
      var prefix, last := order[..|order| - 1], order[|order| - 1];
      RealOfIsFiltered(prefix, ops, r);
      if last in ops && ops[last].resource == r {
        var all := AllOf(prefix, ops, r) + [ops[last]];
        assert all[..|all| - 1] == AllOf(prefix, ops, r);
      } else {
        assert AllOf(order, ops, r) == AllOf(prefix, ops, r);
      }
    }
  }

  lemma {:induction false} RealOfSame(order: seq<OpId>, a: map<OpId, Op>, b: map<OpId, Op>, r: ResId)
    requires forall id :: id in order ==>
      (Counts(a, id, r) <==> Counts(b, id, r)) && (Counts(a, id, r) ==> a[id] == b[id])
    ensures RealOf(order, a, r) == RealOf(order, b, r)
  {
    if order != [] { RealOfSame(order[..|order| - 1], a, b, r); }
  }

  lemma {:induction false} RealOfAppend(order: seq<OpId>, ops: map<OpId, Op>, id: OpId, r: ResId)
    ensures RealOf(order + [id], ops, r) == RealOf(order, ops, r) + if Counts(ops, id, r) then [ops[id]] else []
  {
    assert (order + [id])[..|order|] == order;
  }

  lemma {:induction false} RealOfNone(order: seq<OpId>, ops: map<OpId, Op>, r: ResId)
    requires forall id :: id in order ==> !Counts(ops, id, r)
    ensures RealOf(order, ops, r) == []
  {
    if order != [] { RealOfNone(order[..|order| - 1], ops, r); }
  }

  /** Replacing the latest operation's record replaces the last element. */
  lemma {:induction false} RealOfReplace(order: seq<OpId>, ops: map<OpId, Op>, op: Op, r: ResId)
    requires forall i, j :: 0 <= i < j < |order| ==> order[i] != order[j]
    requires op.id in order && Counts(ops, op.id, r) && op.resource == r && !op.Action().DriftCheck?
    requires forall id :: id in ops ==> ops[id].id == id
    requires var changes := RealOf(order, ops, r); changes != [] && changes[|changes| - 1].id == op.id
    ensures var changes := RealOf(order, ops, r);
            RealOf(order, ops[op.id := op], r) == changes[..|changes| - 1] + [op]
  {
    var prefix, last := order[..|order| - 1], order[|order| - 1];
    if last == op.id {
      RealOfSame(prefix, ops, ops[op.id := op], r);
    } else {
      assert op.id in prefix;
      assert !Counts(ops, last, r);
      RealOfReplace(prefix, ops, op, r);
    }
  }

  // ----- The replay agrees with the row -----

  ghost predicate Metered(db: Db, r: ResId) {
    r in db.rows ==>
      var changes := RealOf(db.order, db.ops, r);
      && changes != [] && changes[|changes| - 1].id == db.rows[r].latest
      && InitialCost(changes[0]) == 0
      && ReplayAll(changes).cost == db.rows[r].cost
      && ReplayAll(changes).destroyed == db.rows[r].state.Destroyed?
  }

  function StepsOf(db: Db, r: ResId): seq<Delta> {
    var changes := RealOf(db.order, db.ops, r);
    if changes == [] then [] else ReplayAll(changes).steps
  }

  /** `after` is `before` with changes at time `t` added. */
  ghost predicate Grows(before: seq<Delta>, after: seq<Delta>, t: Time) {
    && |before| <= |after| && after[..|before|] == before
    && forall i :: |before| <= i < |after| ==> after[i].at == t
  }

  lemma {:induction false} LastIsValue(ops: seq<Op>)
    requires ops != []
    ensures var m := ReplayAll(ops); m.last == Value(m.cost, m.destroyed)
    ensures SumUpToAll(ReplayAll(ops).steps) == ReplayAll(ops).last as int - InitialCost(ops[0]) as int
  {
    var earlier := ops[..|ops| - 1];
    var m := MeterAfter(ops, |ops| - 1);
    if earlier != [] { LastIsValue(earlier); }
    ReplayKeepsBalance(m, ops[|ops| - 1], InitialCost(ops[0]));
  }

  function SumUpToAll(steps: seq<Delta>): int {
    if steps == [] then 0 else SumUpToAll(steps[..|steps| - 1]) + steps[|steps| - 1].amount
  }

  ghost predicate Balanced(m: Meter, initial: Cost) {
    m.last == Value(m.cost, m.destroyed) && SumUpToAll(m.steps) == m.last as int - initial as int
  }

  lemma MoveKeepsBalance(m: Meter, at: Time, cost: Cost, destroyed: bool, initial: Cost)
    requires Balanced(m, initial)
    ensures Balanced(MoveTo(m, at, cost, destroyed), initial)
  {
    var d := Delta(at, Value(cost, destroyed) as int - m.last as int);
    assert (m.steps + [d])[..|m.steps|] == m.steps;
    assert m.steps + [] == m.steps;
  }

  lemma ReplayKeepsBalance(m: Meter, op: Op, initial: Cost)
    requires Balanced(m, initial)
    ensures Balanced(ReplayOp(m, op), initial)
  {
    hide MoveTo;
    var deploy := !op.Action().Destroy?;
    var reserved := Max(AmountOf(op.terms.previousCost), op.terms.cost);
    MoveKeepsBalance(m, op.terms.createdAt, reserved, m.destroyed, initial);
    var m1 := if deploy then MoveTo(m, op.terms.createdAt, reserved, m.destroyed) else m;
    MoveKeepsBalance(m1, op.updatedAt, op.terms.cost, !deploy, initial);
    MoveKeepsBalance(m1, op.updatedAt, AmountOf(op.terms.previousCost), m1.destroyed, initial);
  }

  // ----- Every change keeps the agreement and only adds to the past -----

  /** The meter just before the last operation. */
  function MeterBefore(changes: seq<Op>): Meter
    requires changes != []
  {
    if |changes| == 1 then Meter(InitialCost(changes[0]), false, InitialCost(changes[0]), [])
    else ReplayAll(changes[..|changes| - 1])
  }

  lemma SameBefore(changes: seq<Op>, op: Op)
    requires changes != [] && SameTerms(changes[|changes| - 1], op)
    ensures var after := changes[..|changes| - 1] + [op];
            && MeterBefore(after) == MeterBefore(changes)
            && InitialCost(after[0]) == InitialCost(changes[0])
            && ReplayAll(after) == ReplayOp(MeterBefore(changes), op)
            && ReplayAll(changes) == ReplayOp(MeterBefore(changes), changes[|changes| - 1])
  {
    var after := changes[..|changes| - 1] + [op];
    assert after[..|after| - 1] == changes[..|changes| - 1];
  }

  /** Only the end of an operation differs, and only at the time it is saved. */
  lemma EndReplaces(m: Meter, before: Op, op: Op, t: Time)
    requires SameTerms(before, op) && !before.Finished() && op.updatedAt == t
    requires op.Action().Deploy? <==> op.terms.previousCost.Some?
    requires !op.Action().DriftCheck?
    ensures var x, y := ReplayOp(m, before), ReplayOp(m, op);
            && (op.Action().Deploy? ==> x.cost == Max(op.terms.previousCost.value, op.terms.cost))
            && y.cost == SettledCost(op, x.cost)
            && (y.destroyed <==> if op.state.Succeeded? then op.Action().Destroy? else x.destroyed)
            && Grows(x.steps, y.steps, t)
  {
  }

  /** Replacing an unfinished last operation by its next record. */
  lemma ReplayReplace(changes: seq<Op>, op: Op, t: Time)
    requires changes != [] && SameTerms(changes[|changes| - 1], op) && op.updatedAt == t
    requires !changes[|changes| - 1].Finished() && !op.Action().DriftCheck?
    requires op.Action().Deploy? <==> op.terms.previousCost.Some?
    ensures var after := changes[..|changes| - 1] + [op];
            && InitialCost(after[0]) == InitialCost(changes[0])
            && ReplayAll(after).cost == SettledCost(op, ReplayAll(changes).cost)
            && (ReplayAll(after).destroyed <==>
                  if op.state.Succeeded? then op.Action().Destroy? else ReplayAll(changes).destroyed)
            && Grows(ReplayAll(changes).steps, ReplayAll(after).steps, t)
  {
    hide ReplayAll, ReplayOp, MeterBefore, SettledCost, Grows;
    SameBefore(changes, op);
    EndReplaces(MeterBefore(changes), changes[|changes| - 1], op, t);
  }

  /** The latest operation of a resource moves: its row and its replay move together. */
  lemma LatestMeters(db: Db, after: Db, op: Op, t: Time, clean: DriftStatus)
    requires Ordered(db) && OpsSound(db) && RowsSound(db) && Metered(db, op.resource)
    requires LegalMove(db, op) && op.updatedAt == t && Counts(db.ops, op.id, op.resource)
    requires after.order == db.order && after.ops == db.ops[op.id := op]
    requires op.resource in db.rows && op.resource in after.rows
    requires after.rows[op.resource] == Settled(op, db.rows[op.resource], t, clean)
    ensures Metered(after, op.resource)
    ensures Grows(StepsOf(db, op.resource), StepsOf(after, op.resource), t)
  {
    hide ReplayAll, RealOf, Settled;
    var r := op.resource;
    assert OpSound(db, op.id) && RowSound(db, r);
    forall id | id in db.ops ensures db.ops[id].id == id { assert OpSound(db, id); }
    var changes := RealOf(db.order, db.ops, r);
    RealOfMember(db.order, db.ops, r);
    RealOfReplace(db.order, db.ops, op, r);
    ReplayReplace(changes, op, t);
    SettledMeters(op, db.rows[r], t, clean);
  }

  lemma OthersMeter(db: Db, after: Db, op: Op, t: Time, clean: DriftStatus, r: ResId)
    requires OpsSound(db) && Metered(db, r)
    requires LegalMove(db, op) && !Counts(db.ops, op.id, r)
    requires after.order == db.order && after.ops == db.ops[op.id := op]
    requires after.rows.Keys == db.rows.Keys
    requires r in db.rows ==> after.rows[r] == if r == op.resource then Settled(op, db.rows[r], t, clean)
                                               else db.rows[r]
    ensures Metered(after, r) && StepsOf(after, r) == StepsOf(db, r)
  {
    hide ReplayAll, RealOf, Settled;
    assert OpSound(db, op.id);
    RealOfSame(db.order, db.ops, after.ops, r);
    if r in db.rows && op.resource == r { SettledMeters(op, db.rows[r], t, clean); }
  }

  lemma MoveMeters(db: Db, op: Op, events: seq<Event>, clean: DriftStatus, t: Time, r: ResId)
    requires Sound(db) && Metered(db, r) && Legal(db, Moves(op, events, clean), t)
    ensures var after := Move(db, op, events, t, clean);
            Metered(after, r) && Grows(StepsOf(db, r), StepsOf(after, r), t)
  {
    hide ReplayAll, RealOf, Settled, Metered, Tells, Audited, AllApart, StepsOf;
    var after := Move(db, op, events, t, clean);
    assert OpSound(db, op.id);
    if Counts(db.ops, op.id, r) {
      LatestMeters(db, after, op, t, clean);
    } else {
      OthersMeter(db, after, op, t, clean, r);
    }
  }

  lemma SettledMeters(op: Op, row: Row, t: Time, clean: DriftStatus)
    ensures var after := Settled(op, row, t, clean);
            && after.cost == (if op.Action().DriftCheck? then row.cost
                              else if op.state.Succeeded? then op.terms.cost
                              else if op.state.Failed? && op.Action().Deploy? && op.terms.previousCost.Some?
                              then op.terms.previousCost.value else row.cost)
            && (after.state.Destroyed? <==>
                  if !op.Action().DriftCheck? && op.state.Succeeded? then op.Action().Destroy?
                  else row.state.Destroyed?)
            && after.latest == (if !op.Action().DriftCheck? && op.state.Succeeded? then op.id else row.latest)
  {
  }

  lemma {:induction false} RealOfMember(order: seq<OpId>, ops: map<OpId, Op>, r: ResId)
    requires forall id :: id in ops ==> ops[id].id == id
    ensures forall op :: op in RealOf(order, ops, r) ==> op.id in ops && ops[op.id] == op && op.resource == r
  {
    if order != [] { RealOfMember(order[..|order| - 1], ops, r); }
  }

  lemma {:induction false} ReplayAppend(changes: seq<Op>, op: Op)
    ensures var m := MeterAfter(changes + [op], |changes|);
            && ReplayAll(changes + [op]) == ReplayOp(m, op)
            && (changes != [] ==> m == ReplayAll(changes))
            && (changes == [] ==> m == Meter(InitialCost(op), false, InitialCost(op), []))
  {
    assert (changes + [op])[..|changes|] == changes;
  }

  lemma EnterMeters(db: Db, req: Request, t: Time, r: ResId)
    requires Sound(db) && Metered(db, r) && Enterable(db, req)
    ensures var after := Enter(db, req, t);
            Metered(after, r) && Grows(StepsOf(db, r), StepsOf(after, r), t)
  {
    hide ReplayAll, RealOf, Admission, Metered, AllApart, Audited, NewRow, Grows, StepsOf, RowsSound;
    var after := Enter(db, req, t);
    RealOfSame(db.order, db.ops, after.ops, r);
    RealOfAppend(db.order, after.ops, req.newOp, r);
    if Counts(after.ops, req.newOp, r) {
      NewestMeters(db, after, req, t);
    } else {
      assert RealOf(after.order, after.ops, r) == RealOf(db.order, db.ops, r);
      UntouchedMeters(db, after, r, t);
    }
  }

  lemma {:induction false} UntouchedMeters(db: Db, after: Db, r: ResId, t: Time)
    requires Metered(db, r) && RealOf(after.order, after.ops, r) == RealOf(db.order, db.ops, r)
    requires r in after.rows <==> r in db.rows
    requires r in db.rows ==> after.rows[r] == db.rows[r]
    ensures Metered(after, r) && Grows(StepsOf(db, r), StepsOf(after, r), t)
  {
    hide ReplayAll, RealOf;
  }

  lemma NewestMeters(db: Db, after: Db, req: Request, t: Time)
    requires OpsSound(db) && Metered(db, Target(req)) && Validated(db, req)
    requires !req.intent.action.DriftCheck?
    requires Target(req) in after.rows && after.rows[Target(req)] == NewRow(db, req, t)
    requires RealOf(after.order, after.ops, Target(req))
             == RealOf(db.order, db.ops, Target(req)) + [NewOp(db, req, t)]
    ensures Metered(after, Target(req))
    ensures Grows(StepsOf(db, Target(req)), StepsOf(after, Target(req)), t)
  {
    hide ReplayAll, RealOf;
    var r, op := Target(req), NewOp(db, req, t);
    var changes := RealOf(db.order, db.ops, r);
    ReplayAppend(changes, op);
    if r !in db.rows {
      forall id | id in db.order ensures !Counts(db.ops, id, r) {
        assert id in db.ops ==> OpSound(db, id);
      }
      RealOfNone(db.order, db.ops, r);
    }
  }

  lemma ChangeMeters(db: Db, change: Change, t: Time, r: ResId)
    requires Sound(db) && Metered(db, r) && Legal(db, change, t)
    ensures var after := Apply(db, change, t);
            Metered(after, r) && Grows(StepsOf(db, r), StepsOf(after, r), t)
  {
    hide ReplayAll, RealOf, Move, Enter;
    match change
    case Moves(op, events, clean) => MoveMeters(db, op, events, clean, t, r);
    case Enters(req) => EnterMeters(db, req, t, r);
    case _ =>
  }

  // ----- Over whole runs -----

  function HeldBy(db: Db, r: ResId): Cost { if r in db.rows then Held(db.rows[r]) else 0 }

  /** What had happened by a moment. */
  function Past(run: seq<Timed>, moment: Time): seq<Timed> {
    if run == [] then []
    else if run[|run| - 1].at <= moment then run
    else Past(run[..|run| - 1], moment)
  }

  ghost predicate NoLater(steps: seq<Delta>, moment: Time) {
    forall i :: 0 <= i < |steps| ==> steps[i].at <= moment
  }

  lemma NextMeters(w: World, step: Step, t: Time, r: ResId)
    requires SoundWorld(w) && Metered(w.db, r)
    ensures var after := Next(w, step, t).db;
            Metered(after, r) && Grows(StepsOf(w.db, r), StepsOf(after, r), t)
  {
    hide Metered, StepsOf, FirstChange, SecondChange, Legal, Next, Apply, Sound, ClaimsSound;
    NextMakes(w, step, t);
    var first, second := FirstChange(w, step, t), SecondChange(w, step, t);
    assert SoundWorld(w);
    ChangeMeters(w.db, first, t, r);
    ChangeMeters(Apply(w.db, first, t), second, t, r);
  }

  lemma {:induction false} GrowsSum(before: seq<Delta>, after: seq<Delta>, t: Time, moment: Time)
    requires Grows(before, after, t)
    ensures t > moment ==> SumUpTo(after, moment) == SumUpTo(before, moment)
    ensures t <= moment && NoLater(before, moment) ==> NoLater(after, moment)
  {
    if t > moment {
      assert after == before + after[|before|..];
      SumUpToConcat(before, after[|before|..], moment);
      LaterCountsNothing(after[|before|..], moment);
    } else if NoLater(before, moment) {
      forall i | 0 <= i < |after| ensures after[i].at <= moment {
        if i < |before| { assert after[i] == after[..|before|][i]; }
      }
    }
  }

  lemma {:induction false} RunMeters(run: seq<Timed>, r: ResId)
    ensures Metered(Run(START, run).db, r)
  {
    if run != [] {
      var earlier, last := run[..|run| - 1], run[|run| - 1];
      RunMeters(earlier, r);
      EveryRunIsSound(earlier);
      NextMeters(Run(START, earlier), last.step, last.at, r);
    }
  }

  lemma {:induction false} StepsInThePast(run: seq<Timed>, r: ResId, moment: Time)
    requires forall i :: 0 <= i < |run| ==> run[i].at <= moment
    ensures NoLater(StepsOf(Run(START, run).db, r), moment)
  {
    if run != [] {
      var earlier, last := run[..|run| - 1], run[|run| - 1];
      StepsInThePast(earlier, r, moment);
      RunMeters(earlier, r);
      EveryRunIsSound(earlier);
      NextMeters(Run(START, earlier), last.step, last.at, r);
      GrowsSum(StepsOf(Run(START, earlier).db, r), StepsOf(Run(START, run).db, r), last.at, moment);
    }
  }

  lemma {:induction false} AllCount(steps: seq<Delta>, moment: Time)
    requires NoLater(steps, moment)
    ensures SumUpTo(steps, moment) == SumUpToAll(steps)
  {
    if steps != [] { AllCount(steps[..|steps| - 1], moment); }
  }

  lemma {:induction false} StepsReachTheRow(db: Db, r: ResId)
    requires OpsSound(db) && Ordered(db) && Metered(db, r)
    ensures SumUpToAll(StepsOf(db, r)) == HeldBy(db, r)
    ensures r in db.rows ==>
      History(RealOf(db.order, db.ops, r), db.rows[r], 0) == (0, StepsOf(db, r))
  {
    hide ReplayAll;
    var changes := RealOf(db.order, db.ops, r);
    if r in db.rows {
      LastIsValue(changes);
    } else {
      forall id | id in db.order ensures !Counts(db.ops, id, r) { assert OpSound(db, id); }
      RealOfNone(db.order, db.ops, r);
    }
  }

  /** For every run and every moment: the replayed changes up to that moment add up to exactly what
      the ledger counted for the resource then. */
  lemma {:induction false} HistoryAgrees(run: seq<Timed>, r: ResId, moment: Time)
    requires Chronological(run)
    ensures SumUpTo(StepsOf(Run(START, run).db, r), moment) == HeldBy(Run(START, Past(run, moment)).db, r)
  {
    hide StepsOf, Metered;
    if run != [] && run[|run| - 1].at > moment {
      var earlier, last := run[..|run| - 1], run[|run| - 1];
      HistoryAgrees(earlier, r, moment);
      RunMeters(earlier, r);
      EveryRunIsSound(earlier);
      NextMeters(Run(START, earlier), last.step, last.at, r);
      GrowsSum(StepsOf(Run(START, earlier).db, r), StepsOf(Run(START, run).db, r), last.at, moment);
    } else {
      StepsInThePast(run, r, moment);
      AllCount(StepsOf(Run(START, run).db, r), moment);
      RunMeters(run, r);
      EveryRunIsSound(run);
      StepsReachTheRow(Run(START, run).db, r);
    }
  }

  /** The last, correcting step of `replay` never fires for a resource the ledger created, and
      nothing was held before its first operation. */
  lemma {:induction false} NoCorrectionIsNeeded(run: seq<Timed>, r: ResId, stop: Time)
    ensures var db := Run(START, run).db;
            r in db.rows ==>
              History(NotChecks(AllOf(db.order, db.ops, r)), db.rows[r], stop) == (0, StepsOf(db, r))
  {
    hide ReplayAll;
    var db := Run(START, run).db;
    RunMeters(run, r);
    EveryRunIsSound(run);
    RealOfIsFiltered(db.order, db.ops, r);
    StepsReachTheRow(db, r);
  }
}
