/** The ledger as app/ledger.py writes it: rows changed in place, step by step, inside a
    transaction that is rolled back when a step raises. Every method is proved to do exactly what
    the value model says, so everything proved about runs holds of these methods. */
module LedgerStore {
  import opened LedgerModel
  import opened LedgerRuns
  import opened LedgerSafety
  import opened Budgets
  import opened Approvals
  import opened AppModel
  import opened AppRuns
  import opened StoreSteps

  datatype Accepting = Refused(why: Refusal) | Existing(op: Op) | New(op: Op, expired: Option<OpId>)

  /** What `_accept` answers, in the words of the value model. */
  ghost predicate Answers(verdict: Verdict, accepting: Accepting) {
    match verdict
    case Rejected(why) => accepting == Refused(why)
    case Replayed(op) => accepting == Existing(op)
    case Accepted(_, op, expired) => accepting == New(op, expired)
  }

  lemma {:induction false} CountNext(rows: map<ResId, Row>, wanted: set<ResId>, left: set<ResId>, id: ResId)
    requires id in left && left <= rows.Keys && wanted <= rows.Keys
    ensures SumHeld(rows, wanted - (left - {id}))
            == SumHeld(rows, wanted - left) + if id in wanted then Held(rows[id]) else 0
  {
    hide SumHeld;
    if id in wanted {
      SumWithout(rows, wanted - (left - {id}), id);
      assert wanted - (left - {id}) - {id} == wanted - left;
    } else {
      assert wanted - (left - {id}) == wanted - left;
    }
  }

  /** No planned operation is a drift check: true of every reachable ledger. */
  ghost predicate Orderly(db: Db) {
    forall id :: id in db.ops && db.ops[id].state.Planned? ==> !db.ops[id].Action().DriftCheck?
  }

  /** Every reachable ledger meets the precondition of the methods below. */
  lemma {:induction false} ReachableIsOrderly(run: seq<Timed>)
    ensures Orderly(Run(START, run).db)
  {
    hide Run;
    EveryRunIsSound(run);
    SoundIsOrderly(Run(START, run).db);
  }

  lemma SoundIsOrderly(db: Db)
    requires OpsSound(db)
    ensures Orderly(db)
  {
    forall id | id in db.ops && db.ops[id].state.Planned? ensures !db.ops[id].Action().DriftCheck? {
      assert OpSound(db, id);
    }
  }

  class Ledger {
    var ops: map<OpId, Op>
    var order: seq<OpId>
    var rows: map<ResId, Row>
    var events: seq<Event>
    var apps: map<AppId, App>

    ghost function Tables(): Db
      reads this
    {
      Db(ops, order, rows, events)
    }

    /** `s` is a state of the app model with these tables and these apps. */
    ghost predicate Shows(s: AppSys)
      reads this
    {
      s.w.db == Tables() && s.apps == apps
    }

    constructor ()
      ensures Tables() == EMPTY && apps == map[]
    {
      ops, order, rows, events, apps := map[], [], map[], [], map[];
    }

    // ----- The pieces -----

    /** `_save`. */
    method Save(op: Op)
      modifies this`ops
      ensures ops == old(ops)[op.id := op]
    {
      ops := ops[op.id := op];
    }

    method Record(id: OpId, actor: Actor, kind: EventKind, t: Time)
      modifies this`events
      ensures events == old(events) + [About(id, actor, kind, t)]
    {
      events := events + [About(id, actor, kind, t)];
    }

    /** `_reserved`: one pass over the rows, in any order. */
    method SumReserved(zone: Zone, exclude: Option<ResId>) returns (total: Cost)
      ensures total == Reserved(rows, zone, exclude)
    {
      total := 0;
      var left := rows.Keys;
      ghost var wanted := InZone(rows, zone) - (if exclude.Some? then {exclude.value} else {});
      assert wanted - left == {};
      while left != {}
        invariant left <= rows.Keys && total == SumHeld(rows, wanted - left)
        decreases |left|
      {
        var id :| id in left;
        CountNext(rows, wanted, left, id);
        left := left - {id};
        if rows[id].zone == zone && exclude != Some(id) && !rows[id].state.Destroyed? {
          total := total + rows[id].cost;
        }
      }
      assert wanted - {} == wanted;
    }

    /** `_restore_reservation`. */
    method RestoreReservation(op: Op)
      modifies this`rows
      ensures rows == if op.resource in old(rows)
                      then old(rows)[op.resource := Restored(op, old(rows)[op.resource])] else old(rows)
    {
      if !op.Action().Deploy? || op.terms.previousCost.None? {
        if op.resource in rows { assert rows[op.resource := rows[op.resource]] == rows; }
        return;
      }
      if op.resource in rows {
        var row := rows[op.resource];
        rows := rows[op.resource := row.(cost := op.terms.previousCost.value)];
      }
    }

    /** `_record_drift_check`. */
    method RecordDriftCheck(op: Op, state: OpState, t: Time)
      requires op.state == state && op.Finished()
      modifies this`rows
      ensures rows == if op.resource in old(rows)
                      then old(rows)[op.resource := old(rows)[op.resource].(
                             drift := CheckVerdict(old(rows)[op.resource].drift, op, t))] else old(rows)
    {
      if op.resource !in rows { return; }
      var row := rows[op.resource];
      var view := row.drift;
      if state.Succeeded? {
        view := view.(status := Some(if op.drift != [] then Drifted else InSync), found := Some(op.drift));
        view := view.(refused := false);
      } else {
        view := view.(status := Some(Unknown), found := None);
      }
      view := view.(checkedAt := Some(t));
      rows := rows[op.resource := row.(drift := view)];
    }

    /** `_mark_succeeded_resource`. */
    method MarkSucceeded(op: Op, clean: DriftStatus, t: Time)
      modifies this`rows
      ensures rows == if op.resource in old(rows)
                      then old(rows)[op.resource := Landed(op, old(rows)[op.resource], t, clean)] else old(rows)
    {
      if op.resource !in rows { return; }
      var previous := rows[op.resource];
      var destroyed := op.Action().Destroy?;
      var row := Row(
        op.resource, op.terms.actor, op.terms.zone, op.id, if destroyed then Destroyed else Ready,
        op.terms.cost, op.terms.refs, op.terms.spec, op.terms.promotedFrom, previous.createdAt, op.outputs,
        if destroyed then Some(0) else op.objects,
        if destroyed then DriftView(None, None, None, false) else DriftView(Some(clean), Some(t), Some([]), false),
        op.reconciliation);
      if row.promotedFrom.None? && previous.promotedFrom.Some? {
        row := row.(promotedFrom := previous.promotedFrom);
      }
      rows := rows[op.resource := row];
    }

    /** `_release_plan`. */
    method ReleasePlan(op0: Op, actor: Actor, kind: EventKind, t: Time)
      requires kind.Expired? || kind.Discarded?
      requires !op0.Action().DriftCheck?
      modifies this`ops, this`order, this`rows, this`events
      ensures Tables() == Release(old(Tables()), op0, actor, kind, t)
    {
      Record(op0.id, actor, kind, t);
      var op := op0.(state := Failed, updatedAt := t);
      if kind.Expired? { op := op.(expired := true); } else { op := op.(discarded := true); }
      Save(op);
      RestoreReservation(op);
    }

    // ----- The worker's side -----

    method Claim(id: OpId, phase: Phase, t: Time) returns (snapshot: Option<Op>)
      modifies this`ops, this`order, this`rows, this`events
      ensures Tables() == LedgerModel.Claim(old(Tables()), id, phase, t)
      ensures snapshot == if Claimable(old(Tables()), id, phase)
                          then Some(Claimed(old(Tables()), id, phase, t)) else None
    {
      if id !in ops || ops[id].state != PhaseExpects(phase) { return None; }
      var op := ops[id].(state := PhaseRuns(phase), updatedAt := t);
      Save(op);
      Record(id, WORKER, Entered(op.state), t);
      snapshot := Some(op);
      if op.resource in rows { assert rows[op.resource := rows[op.resource]] == rows; }
    }

    /** The record `finish` writes: the snapshot with its result. */
    method WithResult(snapshot: Op, state: OpState, report: Report, t: Time) returns (op: Op)
      ensures op == Reported(snapshot, state, report, t)
    {
      op := snapshot.(state := state, updatedAt := t);
      match report {
        case PlanReport(planDigest, changes, drift, objects) =>
          op := op.(planDigest := Some(planDigest), changes := Some(changes), drift := drift,
                    objects := Some(objects));
          op := op.(plannedAt := Some(t));
        case ApplyReport(outputs) => op := op.(outputs := Some(outputs));
        case CheckReport(drift) => op := op.(drift := drift);
        case ErrorReport =>
      }
    }

    /** What the operation just saved does to its row. */
    method SettleRow(op: Op, t: Time)
      modifies this`rows
      ensures rows == if op.resource in old(rows)
                      then old(rows)[op.resource := Settled(op, old(rows)[op.resource], t, InSync)] else old(rows)
    {
      SameRow(op.resource);
      if op.Action().DriftCheck? {
        if op.state.Succeeded? || op.state.Failed? { RecordDriftCheck(op, op.state, t); }
      } else if op.state.Succeeded? {
        MarkSucceeded(op, InSync, t);
      } else if op.state.Failed? {
        RestoreReservation(op);
      }
    }

    /** `finish`: compare the stored state, then write the whole snapshot back. */
    method Finish(snapshot: Op, state: OpState, report: Report, t: Time)
      modifies this`ops, this`order, this`rows, this`events
      ensures Tables() == LedgerModel.Finish(old(Tables()), snapshot, state, report, t)
    {
      hide Reported, Settled;
      if snapshot.id !in ops || ops[snapshot.id].state != snapshot.state { return; }
      var op := WithResult(snapshot, state, report, t);
      Save(op);
      SameId(snapshot, state, report, t);
      Record(op.id, WORKER, Entered(state), t);
      SettleRow(op, t);
    }

    /** Writing a row back as it is changes nothing. */
    lemma SameRow(r: ResId)
      ensures r in rows ==> rows[r := rows[r]] == rows
    {
    }

    method Interrupted(id: OpId, phase: Phase, t: Time)
      modifies this`ops, this`order, this`rows, this`events
      ensures Tables() == LedgerModel.Interrupted(old(Tables()), id, phase, t)
    {
      if id !in ops || (ops[id].state != PhaseExpects(phase) && ops[id].state != PhaseRuns(phase)) { return; }
      var op := ops[id];
      if op.Action().DriftCheck? {
        op := op.(state := Failed, updatedAt := t);
        Save(op);
        Record(id, WORKER, Entered(Failed), t);
        RecordDriftCheck(op, Failed, t);
        return;
      }
      op := op.(state := Uncertain, updatedAt := t);
      Save(op);
      Record(id, WORKER, Entered(Uncertain), t);
      SameRow(op.resource);
    }

    // ----- The people's side -----

    /** `_execute`. */
    method ExecuteOne(id: OpId, digest: Digest, actor: Actor, age: Option<nat>, t: Time) returns (answer: Answer)
      requires Orderly(Tables())
      modifies this`ops, this`order, this`rows, this`events
      ensures answer == ExecuteAnswer(old(Tables()), id, digest, age, t)
      ensures Tables() == LedgerModel.Execute(old(Tables()), id, digest, actor, age, t)
    {
      if id !in ops { return Refuse(Missing); }
      var op := ops[id];
      if op.planDigest != Some(digest) { return Refuse(DigestMismatch); }
      if op.state.ApplyQueued? || op.state.Applying? || op.state.Succeeded? { return Unchanged; }
      if PlanExpired(op, age, t) {
        ReleasePlan(op, actor, Expired, t);
        return Refuse(PlanTooOld);
      }
      if !op.state.Planned? { return Refuse(NotPlanned); }
      if !op.Action().Destroy? {
        var bad := AnyBadReference(op.terms.refs);
        if bad { return Refuse(ReferenceNotReady); }
      }
      Record(id, actor, Executed, t);
      Save(op.(state := ApplyQueued, updatedAt := t));
      SameRow(op.resource);
      answer := Changed;
    }

    /** The loop over `input_refs`. */
    method AnyBadReference(refs: Refs) returns (bad: bool)
      ensures bad == BadReference(Tables(), refs)
    {
      var left := refs.Keys;
      while left != {}
        invariant left <= refs.Keys
        invariant forall name :: name in refs && name !in left ==>
          ReferenceError(Tables(), refs[name].resource).None?
        decreases |left|
      {
        var name :| name in left;
        var source := refs[name].resource;
        if source !in rows || !rows[source].state.Ready? { return true; }
        var latest := rows[source].latest;
        if latest in ops && ops[latest].Action().Destroy? && !ops[latest].Finished() { return true; }
        left := left - {name};
      }
      bad := false;
    }

    /** The transaction of `execute_many`, rolled back at the first refusal. */
    method ExecuteTogether(items: seq<Item>, actor: Actor, age: Option<nat>, t: Time) returns (stop: Option<Stop>)
      requires Orderly(Tables())
      modifies this`ops, this`order, this`rows, this`events
      ensures Batch(Tables(), stop) == Approvals.ExecuteTogether(old(Tables()), items, actor, age, t)
      ensures stop.Some? ==> stop.value.index < |items|
    {
      var ops0, order0, rows0, events0 := ops, order, rows, events;
      assert items[..0] == [];
      for i := 0 to |items|
        invariant Orderly(Tables())
        invariant Batch(Tables(), None) == ExecuteAll(old(Tables()), items[..i], actor, age, t)
      {
        assert items[..i + 1][..i] == items[..i];
        ghost var before := Tables();
        var answer := ExecuteOne(items[i].op, items[i].digest, actor, age, t);
        if answer.Refuse? {
          StopsThere(old(Tables()), items, i, actor, age, t, answer.why);
          ops, order, rows, events := ops0, order0, rows0, events0;
          return Some(Stop(i, answer.why));
        }
        ExecuteIsOrderly(before, items[i].op, items[i].digest, actor, age, t);
      }
      assert items[..|items|] == items;
      stop := None;
    }

    /** `execute_many`: the transaction, and, when it found a plan too old, a second one that fails
        that plan. Other steps may come between the two: see Approvals.ThenOnlyFailsIt. */
    method ExecuteMany(items: seq<Item>, actor: Actor, age: Option<nat>, t: Time) returns (stop: Option<Stop>)
      requires Orderly(Tables())
      modifies this`ops, this`order, this`rows, this`events
      ensures var batch := Approvals.ExecuteTogether(old(Tables()), items, actor, age, t);
              && stop == batch.stop
              && Tables() == if stop.Some? && stop.value.why.PlanTooOld? && stop.value.index < |items|
                             then var item := items[stop.value.index];
                                  LedgerModel.Execute(old(Tables()), item.op, item.digest, actor, age, t)
                             else batch.db
    {
      stop := ExecuteTogether(items, actor, age, t);
      if stop.Some? && stop.value.why.PlanTooOld? {
        var item := items[stop.value.index];
        var again := ExecuteOne(item.op, item.digest, actor, age, t);
      }
    }

    method Discard(id: OpId, actor: Actor, t: Time) returns (answer: Answer)
      requires Orderly(Tables())
      modifies this`ops, this`order, this`rows, this`events
      ensures answer == DiscardAnswer(old(Tables()), id)
      ensures Tables() == LedgerModel.Discard(old(Tables()), id, actor, t)
    {
      if id !in ops { return Refuse(Missing); }
      var op := ops[id];
      if op.discarded { return Unchanged; }
      if !op.state.Planned? { return Refuse(NotPlanned); }
      ReleasePlan(op, actor, Discarded, t);
      answer := Changed;
    }

    method Reconcile(id: OpId, actor: Actor, outcome: Outcome, t: Time) returns (answer: Answer)
      requires id in ops && ops[id].state.Uncertain? ==> !ops[id].Action().DriftCheck?
      modifies this`ops, this`order, this`rows, this`events
      ensures answer == ReconcileAnswer(old(Tables()), id, outcome)
      ensures Tables() == LedgerModel.Reconcile(old(Tables()), id, actor, outcome, t)
    {
      if id !in ops { return Refuse(Missing); }
      var op := ops[id];
      if op.reconciliation.Some? {
        return if op.reconciliation.value == outcome then Unchanged else Refuse(OtherOutcome);
      }
      if !op.state.Uncertain? { return Refuse(NotUncertain); }
      if outcome.FoundSucceeded? && op.planDigest.None? { return Refuse(NeverExecuted); }
      Record(id, actor, Reconciled, t);
      var state := if outcome.FoundSucceeded? then Succeeded else Failed;
      op := op.(state := state, updatedAt := t, reconciliation := Some(outcome));
      Save(op);
      Record(id, actor, Entered(state), t);
      if state.Succeeded? { MarkSucceeded(op, Unknown, t); } else { RestoreReservation(op); }
      answer := Changed;
    }

    /** `stamp_drift_refusal`. */
    method StampDriftRefusal(resource: ResId, unknown: bool, t: Time)
      modifies this`rows
      ensures Tables() == Stamp(old(Tables()), resource, unknown, t)
    {
      if resource !in rows { return; }
      var view := rows[resource].drift;
      if unknown { view := view.(status := Some(Unknown), found := None); }
      view := view.(checkedAt := Some(t));
      view := view.(refused := true);
      rows := rows[resource := rows[resource].(drift := view)];
    }

    // ----- Acceptance -----

    /** The checks of `_accept` once nothing holds the resource. */
    method Check(req: Request) returns (problem: Option<Refusal>)
      ensures problem == Admission(Tables(), req)
    {
      var id := Target(req);
      if id in rows && Some(rows[id].latest) != req.resolved.previousOp { return Some(ResourceChanged); }
      if req.intent.action.DriftCheck? && (id !in rows || !rows[id].state.Ready?) { return Some(NotReady); }
      if req.budget.Some? {
        var used := SumReserved(req.resolved.zone, Some(id));
        var before := if id in rows then rows[id].cost else 0;
        var reservation := if before < req.resolved.cost then req.resolved.cost else before;
        if used + req.budget.value.legacy + reservation > req.budget.value.limit { return Some(BudgetExceeded); }
      }
      if req.intent.action.Destroy? && Referenced(Db(ops, order, rows, events), id) { return Some(ResourceReferenced); }
      var bad := AnyBadReference(req.resolved.refs);
      problem := if bad then Some(ReferenceNotReady) else None;
    }

    /** The writes at the end of `_accept`. */
    method Insert(req: Request, t: Time) returns (op: Op)
      modifies this`ops, this`order, this`rows, this`events
      ensures Tables() == Enter(old(Tables()), req, t) && op == NewOp(old(Tables()), req, t)
    {
      var id := Target(req);
      var deploy, check := req.intent.action.Deploy?, req.intent.action.DriftCheck?;
      var before := if id in rows then rows[id].cost else 0;
      op := Op(req.newOp, id,
               Terms(req.actor, req.key, req.intent, req.resolved.zone, req.resolved.cost, req.resolved.refs,
                     req.resolved.spec, req.resolved.promotedFrom, if deploy then Some(before) else None, t),
               Queued, t, None, None, None, None, [], None, false, false, req.resolved.reconciliation);
      Record(op.id, req.actor, Created, t);
      ops, order := ops[op.id := op], order + [op.id];
      if check { return; }
      var row := if id in rows then rows[id]
                 else Row(id, req.actor, req.resolved.zone, op.id, Pending, req.resolved.cost, req.resolved.refs,
                          req.resolved.spec, req.resolved.promotedFrom, t, None, None,
                          DriftView(None, None, None, false), req.resolved.reconciliation);
      if deploy { row := row.(cost := if before < req.resolved.cost then req.resolved.cost else before); }
      rows := rows[id := row.(latest := op.id)];
    }

    /** `_accept`. It may have expired a blocking plan before it refuses: its callers roll back. */
    method AcceptInside(req: Request, age: Option<nat>, t: Time) returns (answer: Accepting)
      requires Orderly(Tables())
      modifies this`ops, this`order, this`rows, this`events
      ensures Answers(LedgerModel.Accept(old(Tables()), req, age, t), answer)
      ensures answer.New? || answer.Existing? ==> Tables() == AcceptDb(old(Tables()), req, age, t)
    {
      var existing := FindKey(Db(ops, order, rows, events), req.actor, req.key);
      if existing.Some? {
        var op := ops[existing.value];
        return if op.terms.intent != req.intent then Refused(KeyReused) else Existing(op);
      }
      if !req.placed { return Refused(PlacementStale); }
      var busy := FindBusy(Db(ops, order, rows, events), Target(req));
      var expired: Option<OpId> := None;
      if busy.Some? && PlanExpired(ops[busy.value], age, t) {
        ReleasePlan(ops[busy.value], req.actor, Expired, t);
        expired, busy := busy, None;
      }
      if busy.Some? { return Refused(ResourceBusy(busy.value)); }
      var problem := Check(req);
      if problem.Some? { return Refused(problem.value); }
      var op := Insert(req, t);
      answer := New(op, expired);
    }

    /** `accept`: `_accept` in a transaction of its own; a refusal leaves no trace. */
    method Accept(req: Request, age: Option<nat>, t: Time) returns (answer: Accepting)
      requires Orderly(Tables())
      modifies this`ops, this`order, this`rows, this`events
      ensures Answers(LedgerModel.Accept(old(Tables()), req, age, t), answer)
      ensures Tables() == AcceptDb(old(Tables()), req, age, t)
    {
      var ops0, order0, rows0, events0 := ops, order, rows, events;
      answer := AcceptInside(req, age, t);
      if answer.Refused? { ops, order, rows, events := ops0, order0, rows0, events0; }
    }

    // ----- Apps -----

    /** Several acceptances in one transaction, as `accept_app` and `accept_teardown_replicas` make
        them: all, or none and no trace. */
    method AcceptTogether(reqs: seq<Request>, age: Option<nat>, t: Time) returns (ids: Option<seq<OpId>>)
      requires Orderly(Tables())
      modifies this`ops, this`order, this`rows, this`events
      ensures var all := Together(old(Tables()), reqs, age, t);
              && (all.None? ==> ids.None? && Tables() == old(Tables()))
              && (all.Some? ==> ids == Some(all.value.1) && Tables() == all.value.0)
    {
      hide LedgerModel.Accept, Orderly;
      var ops0, order0, rows0, events0 := ops, order, rows, events;
      var linked: seq<OpId> := [];
      assert reqs[..0] == [];
      for i := 0 to |reqs|
        invariant Orderly(Tables())
        invariant Together(old(Tables()), reqs[..i], age, t) == Some((Tables(), linked))
      {
        assert reqs[..i + 1][..i] == reqs[..i];
        AcceptIsOrderly(Tables(), reqs[i], age, t);
        var answer := AcceptInside(reqs[i], age, t);
        match answer {
          case Refused(why) =>
            RefusedThere(old(Tables()), reqs, i, |reqs|, age, t);
            assert reqs[..|reqs|] == reqs;
            ops, order, rows, events := ops0, order0, rows0, events0;
            return None;
          case Existing(op) => linked := linked + [op.id];
          case New(op, _) => linked := linked + [op.id];
        }
      }
      assert reqs[..|reqs|] == reqs;
      ids := Some(linked);
    }

    /** `accept_app`: a caller's key names one app, which the same request returns and another does
        not; under a new key every replica and the app are accepted, or nothing is. */
    method AcceptApp(app: AppId, actor: Actor, key: nat, material: nat, wiring: seq<Wire>,
                     reqs: seq<Request>, age: Option<nat>, t: Time) returns (id: Option<AppId>)
      requires Orderly(Tables()) && app !in apps && OneAppPerKey(apps)
      modifies this
      ensures forall a :: a in old(apps) && old(apps)[a].actor == actor && old(apps)[a].key == key ==>
        Tables() == old(Tables()) && apps == old(apps)
        && id == if old(apps)[a].material == material then Some(a) else None
      ensures AppKeyFree(old(apps), actor, key) ==>
        var all := Together(old(Tables()), reqs, age, t);
        if all.None? then id.None? && Tables() == old(Tables()) && apps == old(apps)
        else
          id == Some(app) && Tables() == all.value.0 && |all.value.1| == |reqs|
          && apps == old(apps)[app := NewApp(app, actor, key, material, wiring, reqs, all.value.1, t)]
      ensures forall s {:trigger old(Shows(s))} ::
        old(Shows(s)) && CanAcceptApp(s, app, actor, key, wiring, reqs)
        && ValidatedEach(s.w.db, reqs, age, t) ==>
          Shows(NextApps(s, AppRuns.AcceptApp(app, actor, key, material, wiring, reqs, age), t))
      ensures OneAppPerKey(apps)
    {
      hide Orderly, LedgerModel.Accept, NextApps, ValidatedEach, Together;
      var left := apps.Keys;
      while left != {}
        invariant left <= apps.Keys
        invariant forall a :: a in apps && a !in left ==> !(apps[a].actor == actor && apps[a].key == key)
        decreases |left|
      {
        var a :| a in left;
        if apps[a].actor == actor && apps[a].key == key {
          return if apps[a].material == material then Some(a) else None;
        }
        left := left - {a};
      }
      TogetherCounts(Tables(), reqs, age, t);
      var ids := AcceptTogether(reqs, age, t);
      if ids.Some? {
        apps := apps[app := NewApp(app, actor, key, material, wiring, reqs, ids.value, t)];
        id := Some(app);
      } else {
        id := None;
      }
      forall s {:trigger old(Shows(s))} | old(Shows(s)) && CanAcceptApp(s, app, actor, key, wiring, reqs)
                                          && ValidatedEach(s.w.db, reqs, age, t)
        ensures Shows(NextApps(s, AppRuns.AcceptApp(app, actor, key, material, wiring, reqs, age), t))
      {
        AppIsStep(s, app, actor, key, material, wiring, reqs, age, t);
      }
    }

    /** `accept_router`. A router already there, or an error, and nothing happens. */
    method AcceptRouter(a: AppId, req: Request, age: Option<nat>, t: Time)
      requires Orderly(Tables()) && a in apps
      modifies this
      ensures var app := old(apps)[a];
              if app.routers != [] || app.error then Tables() == old(Tables()) && apps == old(apps)
              else
                var id := StandsFor(LedgerModel.Accept(old(Tables()), req, age, t));
                && Tables() == AcceptDb(old(Tables()), req, age, t)
                && apps == if id.None? then old(apps)
                           else old(apps)[a := WithRouter(app, id.value, Target(req), t)]
      ensures forall s, seen {:trigger CanAcceptRouter(s, a, seen, req)} ::
        old(Shows(s)) && CanAcceptRouter(s, a, seen, req) && Validated(s.w.db, req) ==>
          Shows(NextApps(s, AppRuns.AcceptRouter(a, seen, req, age), t))
    {
      hide LedgerModel.Accept, Orderly, NextApps, CanAcceptRouter;
      var app := apps[a];
      var id: Option<OpId> := None;
      if app.routers == [] && !app.error {
        id := AcceptOne(req, age, t);
        if id.Some? {
          app := app.(routers := [id.value], routerResource := Some(Target(req)));
          apps := apps[a := app.(updatedAt := t)];
        }
      }
      forall s, seen {:trigger CanAcceptRouter(s, a, seen, req)}
        | old(Shows(s)) && CanAcceptRouter(s, a, seen, req) && Validated(s.w.db, req)
        ensures Shows(NextApps(s, AppRuns.AcceptRouter(a, seen, req, age), t))
      {
        RouterIsStep(s, a, seen, req, age, t);
      }
    }

    /** One acceptance in a transaction of its own: the operation it stands for, or None. */
    method AcceptOne(req: Request, age: Option<nat>, t: Time) returns (id: Option<OpId>)
      requires Orderly(Tables())
      modifies this`ops, this`order, this`rows, this`events
      ensures id == StandsFor(LedgerModel.Accept(old(Tables()), req, age, t))
      ensures Tables() == AcceptDb(old(Tables()), req, age, t)
    {
      hide LedgerModel.Accept, Orderly;
      var answer := Accept(req, age, t);
      id := match answer case Refused(_) => None case Existing(op) => Some(op.id) case New(op, _) => Some(op.id);
    }

    /** `fail_app`: the first reason stays; never once the rollout's router succeeded or a teardown
        began. Afterwards the app has an error, a teardown or a deployed router, and it is the step of
        the app model. */
    method FailApp(a: AppId, t: Time)
      requires a in apps
      modifies this`apps
      ensures forall s {:trigger old(Shows(s))} :: old(Shows(s)) ==> Shows(NextApps(s, AppRuns.FailApp(a), t))
      ensures a in apps && apps == old(apps)[a := apps[a]]
              && (apps[a] == old(apps)[a] || apps[a] == old(apps)[a].(error := true, updatedAt := t))
      ensures apps[a].error || apps[a].teardown.Some?
              || (apps[a].routers != [] && StateOf(ops, apps[a].routers[0]).Succeeded?)
    {
      hide NextApps;
      var app := apps[a];
      if !app.error && app.teardown.None?
         && !(app.routers != [] && app.routers[0] in ops && ops[app.routers[0]].state.Succeeded?) {
        apps := apps[a := app.(error := true).(updatedAt := t)];
      }
      forall s {:trigger old(Shows(s))} | old(Shows(s)) ensures Shows(NextApps(s, AppRuns.FailApp(a), t)) {
        FailAppIsStep(s, a, t);
      }
    }

    /** `accept_failover`: a known key answers with its own entry's operation, or refuses another
        target; an app that changed since it was read is refused. */
    method AcceptFailover(a: AppId, caller: Actor, key: nat, target: nat, req: Request, read: Time,
                          age: Option<nat>, t: Time) returns (op: Option<OpId>)
      requires Orderly(Tables()) && a in apps
      modifies this
      ensures KnownFailover(old(apps)[a], caller, key) || old(apps)[a].updatedAt != read ==>
        Tables() == old(Tables()) && apps == old(apps)
      ensures var entry := FailoverUnder(old(apps)[a].failovers, caller, key);
              if entry.Some? then op == if entry.value.primary == target then Some(entry.value.op) else None
              else old(apps)[a].updatedAt != read ==> op.None?
      ensures !KnownFailover(old(apps)[a], caller, key) && old(apps)[a].updatedAt == read ==>
        && op == StandsFor(LedgerModel.Accept(old(Tables()), req, age, t))
        && Tables() == AcceptDb(old(Tables()), req, age, t)
        && apps == if op.None? then old(apps)
                   else old(apps)[a := WithFailover(old(apps)[a], op.value, target, caller, key, t)]
      ensures forall s, seen {:trigger CanFailover(s, a, seen, caller, key, target, req)} ::
        old(Shows(s)) && CanFailover(s, a, seen, caller, key, target, req) && Validated(s.w.db, req)
        && read == s.apps[a].updatedAt ==>
          Shows(NextApps(s, AppRuns.AcceptFailover(a, seen, caller, key, target, req, age), t))
    {
      hide LedgerModel.Accept, Orderly, NextApps, FailoverChecked, SawApp;
      var app := apps[a];
      assert app.failovers[0..] == app.failovers;
      UnderIsKnown(app, caller, key, 0);
      for i := 0 to |app.failovers|
        invariant forall j :: 0 <= j < i ==> !(app.failovers[j].caller == caller && app.failovers[j].key == key)
        invariant FailoverUnder(app.failovers, caller, key) == FailoverUnder(app.failovers[i..], caller, key)
      {
        assert app.failovers[i..][1..] == app.failovers[i + 1..];
        var entry := app.failovers[i];
        if entry.caller == caller && entry.key == key {
          return if entry.primary == target then Some(entry.op) else None;
        }
      }
      assert app.failovers[|app.failovers|..] == [];
      if app.updatedAt != read { return None; }
      op := AcceptOne(req, age, t);
      if op.Some? {
        app := app.(routers := app.routers + [op.value]);
        app := app.(failovers := app.failovers + [Failover(op.value, target, caller, key)]);
        apps := apps[a := app.(updatedAt := t)];
      }
      forall s, seen {:trigger CanFailover(s, a, seen, caller, key, target, req)}
        | old(Shows(s)) && CanFailover(s, a, seen, caller, key, target, req) && Validated(s.w.db, req)
        ensures Shows(NextApps(s, AppRuns.AcceptFailover(a, seen, caller, key, target, req, age), t))
      {
        FailoverIsStep(s, a, seen, caller, key, target, req, age, t);
      }
    }

    /** `accept_teardown`: a known key answers with its own entry's router destroy; otherwise the
        router's destroy, when there is one to destroy, and the teardown are accepted together. */
    method AcceptTeardown(a: AppId, caller: Actor, key: nat, router: Option<Request>, read: Time,
                          age: Option<nat>, t: Time) returns (answer: TeardownAnswer)
      requires Orderly(Tables()) && a in apps
      modifies this
      ensures KnownTeardown(old(apps)[a], caller, key) || old(apps)[a].updatedAt != read ==>
        Tables() == old(Tables()) && apps == old(apps)
      ensures var entry := TeardownUnder(old(apps)[a].history, caller, key);
              if entry.Some? then answer == TeardownIs(entry.value.router)
              else old(apps)[a].updatedAt != read ==> answer.TeardownRefused?
      ensures !KnownTeardown(old(apps)[a], caller, key) && old(apps)[a].updatedAt == read ==>
        && answer == RouterAnswer(if router.None? then None
                                  else Some(LedgerModel.Accept(old(Tables()), router.value, age, t)))
        && Tables() == (if router.Some? then AcceptDb(old(Tables()), router.value, age, t) else old(Tables()))
        && apps == if answer.TeardownRefused? then old(apps)
                   else old(apps)[a := WithTeardown(old(apps)[a], answer.router, caller, key, t)]
      ensures forall s, seen {:trigger CanTeardown(s, a, seen, caller, key, router)} ::
        old(Shows(s)) && CanTeardown(s, a, seen, caller, key, router)
        && (router.Some? ==> Validated(s.w.db, router.value)) && read == s.apps[a].updatedAt ==>
          Shows(NextApps(s, AppRuns.AcceptTeardown(a, seen, caller, key, router, age), t))
    {
      hide LedgerModel.Accept, Orderly, NextApps, TeardownChecked, SawApp;
      var app := apps[a];
      assert app.history[0..] == app.history;
      TeardownUnderIsKnown(app, caller, key, 0);
      for i := 0 to |app.history|
        invariant forall j :: 0 <= j < i ==> !(app.history[j].caller == caller && app.history[j].key == key)
        invariant TeardownUnder(app.history, caller, key) == TeardownUnder(app.history[i..], caller, key)
      {
        assert app.history[i..][1..] == app.history[i + 1..];
        if app.history[i].caller == caller && app.history[i].key == key { return TeardownIs(app.history[i].router); }
      }
      assert app.history[|app.history|..] == [];
      if app.updatedAt != read { return TeardownRefused; }
      var id: Option<OpId> := None;
      if router.Some? { id := AcceptOne(router.value, age, t); }
      if router.Some? && id.None? {
        answer := TeardownRefused;
      } else {
        app := app.(teardowns := app.teardowns + 1);
        app := app.(teardown := Some(Teardown(caller, id, None, false)));
        app := app.(history := app.history + [TeardownEntry(caller, key, id)]);
        apps := apps[a := app.(updatedAt := t)];
        answer := TeardownIs(id);
      }
      forall s, seen {:trigger CanTeardown(s, a, seen, caller, key, router)}
        | old(Shows(s)) && CanTeardown(s, a, seen, caller, key, router)
          && (router.Some? ==> Validated(s.w.db, router.value))
        ensures Shows(NextApps(s, AppRuns.AcceptTeardown(a, seen, caller, key, router, age), t))
      {
        TeardownIsStep(s, a, seen, caller, key, router, age, t);
      }
    }

    /** `accept_teardown_replicas`: all or none; once linked, or failed, nothing happens. */
    method AcceptTeardownReplicas(a: AppId, reqs: seq<Request>, age: Option<nat>, t: Time)
      requires Orderly(Tables()) && a in apps && apps[a].teardown.Some?
      modifies this
      ensures var app := old(apps)[a]; var all := Together(old(Tables()), reqs, age, t);
              if app.teardown.value.replicas.Some? || app.teardown.value.error || all.None?
              then Tables() == old(Tables()) && apps == old(apps)
              else Tables() == all.value.0 && apps == old(apps)[a := WithReplicas(app, all.value.1, t)]
      ensures forall s, checked, seen {:trigger CanTeardownReplicas(s, a, checked, seen, reqs)} ::
        old(Shows(s)) && CanTeardownReplicas(s, a, checked, seen, reqs)
        && ValidatedEach(s.w.db, reqs, age, t) ==>
          Shows(NextApps(s, AppRuns.AcceptTeardownReplicas(a, checked, seen, reqs, age), t))
    {
      hide NextApps, CanTeardownReplicas, Orderly;
      var app := apps[a];
      var teardown := app.teardown.value;
      if teardown.replicas.None? && !teardown.error {
        var ids := AcceptTogether(reqs, age, t);
        if ids.Some? {
          teardown := teardown.(replicas := ids);
          apps := apps[a := app.(teardown := Some(teardown), updatedAt := t)];
        }
      }
      forall s, checked, seen {:trigger CanTeardownReplicas(s, a, checked, seen, reqs)}
        | old(Shows(s)) && CanTeardownReplicas(s, a, checked, seen, reqs) && ValidatedEach(s.w.db, reqs, age, t)
        ensures Shows(NextApps(s, AppRuns.AcceptTeardownReplicas(a, checked, seen, reqs, age), t))
      {
        ReplicasAreStep(s, a, checked, seen, reqs, age, t);
      }
    }

    /** `fail_teardown`: the first reason stays. Afterwards there is no teardown or it has an error,
        and it is the step of the app model. */
    method FailTeardown(a: AppId, t: Time)
      requires a in apps
      modifies this`apps
      ensures forall s {:trigger old(Shows(s))} :: old(Shows(s)) ==> Shows(NextApps(s, AppRuns.FailTeardown(a), t))
      ensures a in apps && apps == old(apps)[a := apps[a]]
              && apps[a].teardown.Some? == old(apps)[a].teardown.Some?
              && apps[a].(teardown := None, updatedAt := 0) == old(apps)[a].(teardown := None, updatedAt := 0)
      ensures apps[a].teardown.Some? ==>
        apps[a].teardown.value == old(apps)[a].teardown.value.(error := true)
        && (old(apps)[a].teardown.value.error ==> apps[a] == old(apps)[a])
    {
      hide NextApps;
      var app := apps[a];
      if app.teardown.Some? && !app.teardown.value.error {
        var teardown := app.teardown.value.(error := true);
        apps := apps[a := app.(teardown := Some(teardown)).(updatedAt := t)];
      }
      forall s {:trigger old(Shows(s))} | old(Shows(s)) ensures Shows(NextApps(s, AppRuns.FailTeardown(a), t)) {
        FailTeardownIsStep(s, a, t);
      }
    }
  }

  lemma SameId(snapshot: Op, state: OpState, report: Report, t: Time)
    ensures Reported(snapshot, state, report, t).id == snapshot.id
  {
  }

  lemma {:induction false} RefusedThere(db: Db, reqs: seq<Request>, i: nat, n: nat, age: Option<nat>, t: Time)
    requires i < n <= |reqs|
    requires var earlier := Together(db, reqs[..i], age, t);
             earlier.Some? && LedgerModel.Accept(earlier.value.0, reqs[i], age, t).Rejected?
    ensures Together(db, reqs[..n], age, t).None?
  {
    hide LedgerModel.Accept;
    assert reqs[..n][..n - 1] == reqs[..n - 1];
    if n > i + 1 { RefusedThere(db, reqs, i, n - 1, age, t); }
  }

  lemma AcceptIsOrderly(db: Db, req: Request, age: Option<nat>, t: Time)
    requires Orderly(db)
    ensures Orderly(AcceptDb(db, req, age, t))
  {
  }

  lemma ExecuteIsOrderly(db: Db, id: OpId, digest: Digest, actor: Actor, age: Option<nat>, t: Time)
    requires Orderly(db)
    ensures Orderly(LedgerModel.Execute(db, id, digest, actor, age, t))
  {
  }

  lemma {:induction false} StopsThere(db: Db, items: seq<Item>, i: nat, actor: Actor,
                                      age: Option<nat>, t: Time, why: Refusal)
    requires i < |items|
    requires var earlier := ExecuteAll(db, items[..i], actor, age, t);
             earlier.stop.None? && ExecuteAnswer(earlier.db, items[i].op, items[i].digest, age, t) == Refuse(why)
    ensures ExecuteAll(db, items, actor, age, t).stop == Some(Stop(i, why))
  {
    StopsEarly(db, items, i, |items|, actor, age, t, why);
    assert items[..|items|] == items;
  }

  lemma {:induction false} StopsEarly(db: Db, items: seq<Item>, i: nat, n: nat, actor: Actor,
                                      age: Option<nat>, t: Time, why: Refusal)
    requires i < n <= |items|
    requires var earlier := ExecuteAll(db, items[..i], actor, age, t);
             earlier.stop.None? && ExecuteAnswer(earlier.db, items[i].op, items[i].digest, age, t) == Refuse(why)
    ensures ExecuteAll(db, items[..n], actor, age, t).stop == Some(Stop(i, why))
  {
    hide ExecuteAnswer, LedgerModel.Execute;
    assert items[..n][..n - 1] == items[..n - 1];
    if n > i + 1 { StopsEarly(db, items, i, n - 1, actor, age, t, why); }
  }
}
