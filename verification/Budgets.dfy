/** The monthly budget over whole runs. */
module Budgets {
  import opened LedgerModel
  import opened LedgerRuns
  import opened LedgerSafety
  import opened Lifecycles

  // ----- Sums over rows -----

  lemma {:induction false} SumWithout(rows: map<ResId, Row>, ids: set<ResId>, id: ResId)
    requires ids <= rows.Keys && id in ids
    ensures SumHeld(rows, ids) == Held(rows[id]) + SumHeld(rows, ids - {id})
  {
    var first :| first in ids && SumHeld(rows, ids) == Held(rows[first]) + SumHeld(rows, ids - {first});
    if first != id {
      SumWithout(rows, ids - {first}, id);
      SumWithout(rows, ids - {id}, first);
      assert ids - {first} - {id} == ids - {id} - {first};
    }
  }

  lemma {:induction false} SumAgrees(a: map<ResId, Row>, b: map<ResId, Row>, ids: set<ResId>)
    requires ids <= a.Keys && ids <= b.Keys
    requires forall id :: id in ids ==> Held(a[id]) == Held(b[id])
    ensures SumHeld(a, ids) == SumHeld(b, ids)
  {
    if ids != {} {
      var id :| id in ids;
      SumWithout(a, ids, id);
      SumWithout(b, ids, id);
      SumAgrees(a, b, ids - {id});
    }
  }

  function Share(rows: map<ResId, Row>, zone: Zone, id: ResId): Cost {
    if id in rows && rows[id].zone == zone then Held(rows[id]) else 0
  }

  lemma ReservedSplit(rows: map<ResId, Row>, zone: Zone, id: ResId)
    ensures Reserved(rows, zone, None) == Reserved(rows, zone, Some(id)) + Share(rows, zone, id)
  {
    var ids := InZone(rows, zone);
    assert ids - {} == ids;
    if id in ids {
      SumWithout(rows, ids, id);
    } else {
      assert ids - {id} == ids;
    }
  }

  /** Everything but row `id` counts the same. */
  lemma OthersReserve(a: map<ResId, Row>, b: map<ResId, Row>, zone: Zone, id: ResId)
    requires forall r :: r != id ==> (r in a <==> r in b) && (r in a ==> a[r] == b[r])
    ensures Reserved(a, zone, Some(id)) == Reserved(b, zone, Some(id))
  {
    assert InZone(a, zone) - {id} == InZone(b, zone) - {id};
    SumAgrees(a, b, InZone(a, zone) - {id});
  }

  // ----- What each change does to a zone's total -----

  /** No deploy of the zone that costs anything is under way on a destroyed row. */
  ghost predicate NoneOnDestroyed(db: Db, zone: Zone) {
    forall id {:trigger OnDestroyed(db, id, zone)} :: !OnDestroyed(db, id, zone)
  }

  predicate OnDestroyed(db: Db, id: OpId, zone: Zone) {
    && id in db.ops && !db.ops[id].Finished() && db.ops[id].Action().Deploy?
    && db.ops[id].terms.zone == zone && db.ops[id].terms.cost > 0
    && db.ops[id].resource in db.rows && db.rows[db.ops[id].resource].state.Destroyed?
  }

  ghost predicate Within(db: Db, zone: Zone, limit: Cost, legacy: Cost) {
    && NoneOnDestroyed(db, zone)
    && Reserved(db.rows, zone, None) + legacy <= Max(limit, legacy)
  }

  /** What the deploy reserves is counted: its row is not destroyed, or it costs nothing. */
  predicate Counted(db: Db, req: Request) {
    Target(req) in db.rows && db.rows[Target(req)].state.Destroyed? ==> req.resolved.cost == 0
  }

  /** A deploy entering the zone was admitted under the budget, and what it reserves is counted. */
  ghost predicate Admitted(db: Db, req: Request, zone: Zone, limit: Cost, legacy: Cost) {
    req.intent.action.Deploy? && req.resolved.zone == zone ==>
      req.budget == Some(Budget(limit, legacy)) && Counted(db, req)
  }

  lemma MoveReservesNoMore(db: Db, op: Op, events: seq<Event>, t: Time, clean: DriftStatus, zone: Zone)
    requires OpsSound(db) && LegalMove(db, op) && NoneOnDestroyed(db, zone)
    ensures var after := Move(db, op, events, t, clean);
            && Share(after.rows, zone, op.resource) <= Share(db.rows, zone, op.resource)
            && NoneOnDestroyed(after, zone)
  {
    var after := Move(db, op, events, t, clean);
    assert OpSound(db, op.id);
    assert !OnDestroyed(db, op.id, zone);
    forall id ensures !OnDestroyed(after, id, zone) {
      assert !OnDestroyed(db, id, zone);
      assert id in db.ops ==> OpSound(db, id);
    }
  }

  lemma MoveKeepsWithin(db: Db, op: Op, events: seq<Event>, t: Time, clean: DriftStatus,
                        zone: Zone, limit: Cost, legacy: Cost)
    requires OpsSound(db) && LegalMove(db, op) && Within(db, zone, limit, legacy)
    ensures Within(Move(db, op, events, t, clean), zone, limit, legacy)
  {
    var after := Move(db, op, events, t, clean);
    MoveReservesNoMore(db, op, events, t, clean, zone);
    ReservedSplit(db.rows, zone, op.resource);
    ReservedSplit(after.rows, zone, op.resource);
    OthersReserve(db.rows, after.rows, zone, op.resource);
  }

  /** Acceptance counts a deploy's reservation if and only if its row is not destroyed. `_accept`
      does not check that itself: only the earlier `validate` does. */
  lemma AcceptanceIsCounted(db: Db, req: Request, t: Time)
    requires Validated(db, req) && req.intent.action.Deploy?
    ensures var reservation := Max(CostBefore(db, Target(req)), req.resolved.cost);
            Reserved(Enter(db, req, t).rows, req.resolved.zone, None)
            == Reserved(db.rows, req.resolved.zone, Some(Target(req)))
               + if Target(req) in db.rows && db.rows[Target(req)].state.Destroyed? then 0
                 else reservation
  {
    var after := Enter(db, req, t);
    ReservedSplit(after.rows, req.resolved.zone, Target(req));
    OthersReserve(db.rows, after.rows, req.resolved.zone, Target(req));
  }

  lemma EnterKeepsWithin(db: Db, req: Request, t: Time, zone: Zone, limit: Cost, legacy: Cost)
    requires OpsSound(db) && Enterable(db, req) && Within(db, zone, limit, legacy)
    requires Admitted(db, req, zone, limit, legacy)
    ensures Within(Enter(db, req, t), zone, limit, legacy)
  {
    var after := Enter(db, req, t);
    forall id ensures !OnDestroyed(after, id, zone) {
      assert !OnDestroyed(db, id, zone);
      assert id in db.ops ==> OpSound(db, id);
    }
    if req.intent.action.Deploy? && req.resolved.zone == zone {
      AcceptanceIsCounted(db, req, t);
    } else {
      ReservedSplit(db.rows, zone, Target(req));
      ReservedSplit(after.rows, zone, Target(req));
      OthersReserve(db.rows, after.rows, zone, Target(req));
    }
  }

  lemma ChangeKeepsWithin(db: Db, change: Change, t: Time, zone: Zone, limit: Cost, legacy: Cost)
    requires OpsSound(db) && Legal(db, change, t) && Within(db, zone, limit, legacy)
    requires change.Enters? ==> Admitted(db, change.req, zone, limit, legacy)
    ensures Within(Apply(db, change, t), zone, limit, legacy)
  {
    match change
    case Moves(op, events, clean) => MoveKeepsWithin(db, op, events, t, clean, zone, limit, legacy);
    case Enters(req) => EnterKeepsWithin(db, req, t, zone, limit, legacy);
    case Stamps(resource, unknown) =>
      var after := Stamp(db, resource, unknown, t);
      forall id ensures !OnDestroyed(after, id, zone) { assert !OnDestroyed(db, id, zone); }
      ReservedSplit(db.rows, zone, resource);
      ReservedSplit(after.rows, zone, resource);
      OthersReserve(db.rows, after.rows, zone, resource);
    case Remarks(event) =>
      var after := Apply(db, change, t);
      forall id ensures !OnDestroyed(after, id, zone) { assert !OnDestroyed(db, id, zone); }
    case Nothing =>
  }

  // ----- Whole runs -----

  ghost predicate AdmittedStep(db: Db, step: Step, t: Time, zone: Zone, limit: Cost, legacy: Cost) {
    step.Submit? && Accepts(db, step.req, step.age, t) ==> Admitted(db, step.req, zone, limit, legacy)
  }

  /** From `w` on, every deploy accepted into the zone was budget-checked against the same limit
      and legacy amount, and none that costs anything was accepted onto a destroyed row. */
  ghost predicate AdmittedFrom(w: World, run: seq<Timed>, zone: Zone, limit: Cost, legacy: Cost) {
    forall k {:trigger run[..k]} :: 0 <= k < |run| ==>
      AdmittedStep(Run(w, run[..k]).db, run[k].step, run[k].at, zone, limit, legacy)
  }

  lemma SoundMeans(db: Db)
    requires Sound(db)
    ensures OpsSound(db) && RowsSound(db)
  {
  }

  lemma OnlySecondEnters(w: World, step: Step, t: Time)
    ensures !FirstChange(w, step, t).Enters?
    ensures SecondChange(w, step, t).Enters? ==>
      step.Submit? && Accepts(w.db, step.req, step.age, t) && SecondChange(w, step, t).req == step.req
  {
    hide Accepts;
  }

  lemma ReleaseLeavesState(db: Db, op: Op, actor: Actor, t: Time, r: ResId)
    ensures var after := Release(db, op, actor, Expired, t);
            && (r in after.rows <==> r in db.rows)
            && (r in db.rows ==> after.rows[r].state == db.rows[r].state)
  {
  }

  lemma ExpiryLeavesStates(db: Db, req: Request, age: Option<nat>, t: Time)
    ensures Counted(Unblocked(db, req, age, t), req) <==> Counted(db, req)
  {
    hide Release, FindBusy;
    var busy := FindBusy(db, Target(req));
    if busy.Some? { ReleaseLeavesState(db, db.ops[busy.value], req.actor, t, Target(req)); }
  }

  /** Expiring a plan does not change whether the deploy was admitted. */
  lemma StillAdmitted(w: World, step: Step, t: Time, zone: Zone, limit: Cost, legacy: Cost)
    requires SoundWorld(w) && AdmittedStep(w.db, step, t, zone, limit, legacy)
    ensures SecondChange(w, step, t).Enters? ==>
      Admitted(Apply(w.db, FirstChange(w, step, t), t), step.req, zone, limit, legacy)
  {
    hide Next, Unblocked, Counted, Accept, Sound, ClaimsSound, Apply;
    if step.Submit? && Accepts(w.db, step.req, step.age, t) {
      SoundMeans(w.db);
      UnblockMakes(w.db, step.req, step.age, t);
      ExpiryLeavesStates(w.db, step.req, step.age, t);
    }
  }

  lemma StepKeepsWithin(w: World, step: Step, t: Time, zone: Zone, limit: Cost, legacy: Cost)
    requires SoundWorld(w) && Within(w.db, zone, limit, legacy)
    requires AdmittedStep(w.db, step, t, zone, limit, legacy)
    ensures Within(Next(w, step, t).db, zone, limit, legacy)
  {
    hide Next, Sound, ClaimsSound, Within, Admitted, Accept;
    NextMakes(w, step, t);
    var first, second := FirstChange(w, step, t), SecondChange(w, step, t);
    OnlySecondEnters(w, step, t);
    StillAdmitted(w, step, t, zone, limit, legacy);
    var mid := Apply(w.db, first, t);
    assert OpsSound(w.db) && OpsSound(mid) by { SoundMeans(w.db); SoundMeans(mid); }
    ChangeKeepsWithin(w.db, first, t, zone, limit, legacy);
    ChangeKeepsWithin(mid, second, t, zone, limit, legacy);
  }

  lemma {:induction false} StaysWithin(w: World, run: seq<Timed>, zone: Zone, limit: Cost, legacy: Cost)
    requires SoundWorld(w) && Within(w.db, zone, limit, legacy) && AdmittedFrom(w, run, zone, limit, legacy)
    ensures Within(Run(w, run).db, zone, limit, legacy)
  {
    hide Next, SoundWorld, Within, AdmittedStep;
    if run == [] {
      NoSteps(w);
    } else {
      var prefix := run[..|run| - 1];
      forall k {:trigger prefix[..k]} | 0 <= k < |prefix|
        ensures AdmittedStep(Run(w, prefix[..k]).db, prefix[k].step, prefix[k].at, zone, limit, legacy)
      {
        assert prefix[..k] == run[..k];
      }
      StaysWithin(w, prefix, zone, limit, legacy);
      RunKeepsSound(w, prefix);
      var last := run[|run| - 1];
      StepKeepsWithin(Run(w, prefix), last.step, last.at, zone, limit, legacy);
    }
  }

  /** In every such run, at every moment, reserved plus legacy cost stays within the limit (or
      within the legacy amount, when that alone is over the limit from the start). */
  lemma {:induction false} BudgetHolds(run: seq<Timed>, zone: Zone, limit: Cost, legacy: Cost)
    requires AdmittedFrom(START, run, zone, limit, legacy)
    ensures Within(Run(START, run).db, zone, limit, legacy)
  {
    hide Run;
    StartIsSound();
    forall id ensures !OnDestroyed(EMPTY, id, zone) { }
    assert InZone(EMPTY.rows, zone) == {};
    StaysWithin(START, run, zone, limit, legacy);
  }

  // ----- A run over the limit -----

  const TEN := Budget(10, 0)

  function DeployOf(number: nat, resource: Option<ResId>, previous: Option<OpId>): Request {
    Request(1, CallerKey(number), Intent(Deploy, resource, 0),
            Resolved(0, 10, map[], 0, None, previous, None), Some(TEN), true, number, number)
  }

  /** The validated destroy of a row, submitted as operation 1. */
  function DestroyOf(row: Row): Request {
    Request(1, CallerKey(1), Intent(Destroy, Some(row.id), 0), ResolvedForDestroy(row), None, true, 1, 1)
  }

  ghost predicate OnlyTen(run: seq<Timed>) {
    forall k :: 0 <= k < |run| ==>
      run[k].at == 0 && (run[k].step.Submit? && run[k].step.req.intent.action.Deploy? ==>
                           run[k].step.req.budget == Some(TEN))
  }

  /** The zone holds exactly the resource 0, at cost 10, with nothing under way. */
  ghost predicate One(w: World, state: RowState, latest: OpId) {
    && SoundWorld(w) && w.db.rows.Keys == {0} && ResourceFree(w.db, 0)
    && (var row := w.db.rows[0];
        && row.id == 0 && row.state == state && row.cost == 10 && row.zone == 0
        && row.refs == map[] && row.reconciliation.None? && row.latest == latest)
  }

  /** Operations 0 to n-1 exist, each under its own key. */
  ghost predicate Numbered(w: World, n: nat) {
    && (forall id {:trigger w.db.ops[id]} :: id in w.db.ops ==> id < n && w.db.ops[id].terms.key == CallerKey(id))
  }

  lemma EmptyReserves()
    ensures Reserved(EMPTY.rows, 0, Some(0)) == 0
  {
    assert InZone(EMPTY.rows, 0) - {0} == {};
  }

  lemma DeployFirst() returns (run: seq<Timed>)
    ensures One(Run(START, run), Ready, 0) && Numbered(Run(START, run), 1) && OnlyTen(run)
  {
    var req := DeployOf(0, None, None);
    StartIsSound();
    EmptyReserves();
    assert Enterable(EMPTY, req);
    run := AcceptAndCarry(START, req, 0);
  }

  lemma AcceptDestroy(w: World)
    requires One(w, Ready, 0) && Numbered(w, 1)
    ensures var req := DestroyOf(w.db.rows[0]); Enterable(w.db, req)
    ensures var after := Next(w, Submit(DestroyOf(w.db.rows[0]), None), 0);
            0 in after.db.rows && after.db.rows[0].state.Ready? && after.db.rows[0].latest == 1
  {
    var req := DestroyOf(w.db.rows[0]);
    SubmitFree(w, req, None, 0);
  }

  lemma DestroyedOne(w: World, after: World)
    requires One(w, Ready, 0) && Numbered(w, 1)
    requires CarriedOut(w, after, DestroyOf(w.db.rows[0]), 0)
    ensures One(after, Destroyed, 1) && Numbered(after, 2)
  {
  }

  lemma DestroyIt(w: World) returns (run: seq<Timed>)
    requires One(w, Ready, 0) && Numbered(w, 1)
    ensures One(Run(w, run), Destroyed, 1) && Numbered(Run(w, run), 2) && OnlyTen(run)
    ensures run != [] && run[0] == Timed(Submit(DestroyOf(w.db.rows[0]), None), 0)
  {
    hide Next;
    var req := DestroyOf(w.db.rows[0]);
    AcceptDestroy(w);
    run := AcceptAndCarry(w, req, 0);
    DestroyedOne(w, Run(w, run));
    assert forall k :: 0 < k < |run| ==> run[k] == run[1..][k - 1];
  }

  /** The update that was validated before the destroy finished still passes the budget check. */
  lemma UpdateEnters(w: World)
    requires One(w, Destroyed, 1) && Numbered(w, 2)
    ensures Enterable(w.db, DeployOf(2, Some(0), Some(1)))
  {
    assert InZone(w.db.rows, 0) - {0} == {};
    assert RowSound(w.db, 0);
  }

  /** Resource 0 is destroyed and has an update queued that its zone's total does not count. */
  ghost predicate Uncounted(w: World) {
    && SoundWorld(w) && Numbered(w, 3) && w.db.rows.Keys == {0}
    && w.db.rows[0].state.Destroyed? && w.db.rows[0].zone == 0
    && QueuedUpdate(w)
  }

  ghost predicate QueuedUpdate(w: World) {
    && 2 in w.db.ops && w.db.ops[2].state.Queued? && w.db.ops[2].resource == 0
    && w.db.ops[2].Action().Deploy? && w.db.ops[2].terms.refs == map[]
    && w.db.ops[2].terms.cost == 10 && w.db.ops[2].terms.zone == 0
  }

  lemma UpdateIsUncounted(w: World)
    requires One(w, Destroyed, 1) && Numbered(w, 2)
    ensures Uncounted(Next(w, Submit(DeployOf(2, Some(0), Some(1)), None), 0))
  {
    UpdateEnters(w);
    SubmitFree(w, DeployOf(2, Some(0), Some(1)), None, 0);
  }

  lemma OtherEnters(w: World)
    requires Uncounted(w)
    ensures Enterable(w.db, DeployOf(3, None, None))
  {
    assert InZone(w.db.rows, 0) - {3} == {0};
    SumWithout(w.db.rows, {0}, 0);
    assert {0} - {0} == {};
    forall id | id in w.db.ops ensures w.db.ops[id].resource != 3 { assert OpSound(w.db, id); }
  }

  /** Both resources of the zone hold 10, one of them only once its update succeeds. */
  ghost predicate Both(w: World) {
    && SoundWorld(w) && w.db.rows.Keys == {0, 3} && QueuedUpdate(w)
    && Held(w.db.rows[3]) == 10 && w.db.rows[3].zone == 0
  }

  lemma OtherIsAccepted(w: World)
    requires Uncounted(w)
    ensures Both(Next(w, Submit(DeployOf(3, None, None), None), 0))
  {
    OtherEnters(w);
    SubmitFree(w, DeployOf(3, None, None), None, 0);
  }

  lemma TwoHold(rows: map<ResId, Row>)
    requires rows.Keys == {0, 3} && rows[0].zone == 0 && rows[3].zone == 0
    ensures Reserved(rows, 0, None) == Held(rows[0]) + Held(rows[3])
  {
    assert InZone(rows, 0) - {} == {0, 3};
    SumWithout(rows, {0, 3}, 0);
    assert {0, 3} - {0} == {3};
    SumWithout(rows, {3}, 3);
    assert {3} - {3} == {};
  }

  lemma UpdateLands(w: World) returns (run: seq<Timed>)
    requires Both(w)
    ensures Reserved(Run(w, run).db.rows, 0, None) == 20 && OnlyTen(run)
  {
    run := CarryThrough(w, 2, Sha256(PlanFile(0, 0)), 0);
    TwoHold(Run(w, run).db.rows);
  }

  /** Without the guard the budget is not kept. Every deploy of this run was checked against the
      limit of 10, and the one that breaks it named a row that was ready, with this very latest
      operation, at the moment `validated`; the row was destroyed before the deploy was accepted. */
  lemma BudgetBrokenExample() returns (run: seq<Timed>, validated: nat, submitted: nat)
    ensures OnlyTen(run) && Reserved(Run(START, run).db.rows, 0, None) == 20
    ensures validated <= submitted < |run| && run[submitted].step.Submit?
    ensures var seen := Run(START, run[..validated]).db;
            var req := run[submitted].step.req;
            Target(req) in seen.rows && seen.rows[Target(req)].state.Ready?
            && req.resolved.previousOp == Some(seen.rows[Target(req)].latest)
  {
    hide Next, Run;
    var update, other := Submit(DeployOf(2, Some(0), Some(1)), None), Submit(DeployOf(3, None, None), None);
    var first := DeployFirst();
    var ready := Run(START, first);
    AcceptDestroy(ready);
    var second := DestroyIt(ready);
    var gone := Run(ready, second);
    UpdateIsUncounted(gone);
    OtherIsAccepted(Next(gone, update, 0));
    var last := UpdateLands(Next(Next(gone, update, 0), other, 0));
    run, validated, submitted := Assemble(first, second, update, other, last);
  }

  /** Putting the pieces of the example together. */
  lemma Assemble(first: seq<Timed>, second: seq<Timed>, update: Step, other: Step, last: seq<Timed>)
    returns (run: seq<Timed>, validated: nat, submitted: nat)
    requires second != []
    ensures run == first + second + [Timed(update, 0)] + [Timed(other, 0)] + last
    ensures Run(START, run)
            == Run(Next(Next(Run(Run(START, first), second), update, 0), other, 0), last)
    ensures validated <= submitted < |run| && run[submitted].step == update
    ensures Run(START, run[..validated]) == Next(Run(START, first), second[0].step, second[0].at)
  {
    hide Next, Run;
    RunConcat(START, first, second);
    RunAppend(START, first + second, update, 0);
    RunAppend(START, first + second + [Timed(update, 0)], other, 0);
    RunConcat(START, first + second + [Timed(update, 0)] + [Timed(other, 0)], last);
    run := first + second + [Timed(update, 0)] + [Timed(other, 0)] + last;
    validated, submitted := |first| + 1, |first| + |second|;
    assert run[..validated] == first + [second[0]];
    RunAppend(START, first, second[0].step, second[0].at);
  }
}
