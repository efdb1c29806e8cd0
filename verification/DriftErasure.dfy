/** Drift checks and sweep stamps leave no trace but the drift fields: erasing them from any run
    gives a run of the same ledger without them. */
module DriftErasure {
  import opened LedgerModel
  import opened LedgerRuns
  import opened LedgerSafety
  import opened Lifecycles
  import opened Budgets

  predicate IsCheck(op: Op) { op.Action().DriftCheck? }

  /** A row, drift fields aside. */
  function Plain(row: Row): Row { row.(drift := DriftView(None, None, None, false)) }

  /** The insertion order of the operations that are not drift checks. */
  function Kept(order: seq<OpId>, ops: map<OpId, Op>): seq<OpId> {
    if order == [] then []
    else
      var last := order[|order| - 1];
      Kept(order[..|order| - 1], ops) + if last in ops && IsCheck(ops[last]) then [] else [last]
  }

  ghost predicate TwinOps(db: Db, lean: Db) {
    && (forall id :: id in lean.ops <==> id in db.ops && !IsCheck(db.ops[id]))
    && (forall id :: id in lean.ops ==> lean.ops[id] == db.ops[id])
  }

  ghost predicate TwinRows(db: Db, lean: Db) {
    && lean.rows.Keys == db.rows.Keys
    && (forall r {:trigger lean.rows[r]} {:trigger db.rows[r]} ::
          r in db.rows ==> Plain(lean.rows[r]) == Plain(db.rows[r]))
  }

  ghost predicate SameTrail(db: Db, lean: Db, id: OpId) {
    id in lean.ops ==> Trail(lean.events, id) == Trail(db.events, id)
  }

  ghost predicate TwinTrails(db: Db, lean: Db) {
    forall id {:trigger SameTrail(db, lean, id)} :: SameTrail(db, lean, id)
  }

  /** `lean` is `db` without its drift checks: the same other operations in the same order with
      the same audit trails, and the same resources but for their drift fields. */
  ghost predicate Twin(db: Db, lean: Db) {
    && TwinOps(db, lean) && TwinRows(db, lean) && TwinTrails(db, lean)
    && lean.order == Kept(db.order, db.ops)
  }

  ghost predicate TwinWorld(w: World, lean: World) {
    && Twin(w.db, lean.db)
    && (forall h :: h in lean.held <==> h in w.held && !IsCheck(h))
  }

  // ----- Each change on both sides, or on the full side only -----

  predicate AboutCheck(db: Db, change: Change) {
    || (change.Moves? && IsCheck(change.op))
    || (change.Enters? && change.req.intent.action.DriftCheck?)
    || change.Stamps?
  }

  lemma {:induction false} KeptAgrees(order: seq<OpId>, a: map<OpId, Op>, b: map<OpId, Op>)
    requires forall id :: id in order ==>
      id in a && id in b && (IsCheck(a[id]) <==> IsCheck(b[id]))
    ensures Kept(order, a) == Kept(order, b)
  {
    if order != [] { KeptAgrees(order[..|order| - 1], a, b); }
  }

  lemma {:induction false} KeptAppend(order: seq<OpId>, ops: map<OpId, Op>, id: OpId)
    ensures Kept(order + [id], ops) == Kept(order, ops) + if id in ops && IsCheck(ops[id]) then [] else [id]
  {
    assert (order + [id])[..|order|] == order;
  }

  lemma {:induction false} TrailsOf(change: Change, db: Db, t: Time, id: OpId)
    requires Legal(db, change, t)
    ensures var after := Apply(db, change, t);
            Trail(after.events, id) == Trail(db.events, id) +
              if change.Moves? && change.op.id == id then change.events
              else if change.Enters? && change.req.newOp == id
              then [About(id, change.req.actor, Created, t)] else []
  {
    match change
    case Moves(op, events, clean) =>
      TrailAppend(db.events, events, id);
      TrailOfOne(events, op.id, id);
    case Enters(req) =>
      var e := About(req.newOp, req.actor, Created, t);
      TrailAppend(db.events, [e], id);
      TrailOfOne([e], req.newOp, id);
    case Remarks(event) =>
      TrailAppend(db.events, [event], id);
      TrailOfNone(event, id);
    case _ =>
  }

  lemma CheckMoved(db: Db, after: Db, lean: Db, op: Op)
    requires Ordered(db) && TwinOps(db, lean) && lean.order == Kept(db.order, db.ops)
    requires op.id in db.ops && IsCheck(op) && IsCheck(db.ops[op.id])
    requires after.order == db.order && after.ops == db.ops[op.id := op]
    ensures TwinOps(after, lean) && lean.order == Kept(after.order, after.ops)
  {
    KeptAgrees(db.order, db.ops, after.ops);
  }

  lemma Joined(db: Db, after: Db, op: Op)
    requires Ordered(db) && op.id !in db.ops
    requires after.order == db.order + [op.id] && after.ops == db.ops[op.id := op]
    ensures Kept(after.order, after.ops) == Kept(db.order, db.ops) + if IsCheck(op) then [] else [op.id]
  {
    KeptAgrees(db.order, db.ops, after.ops);
    KeptAppend(db.order, after.ops, op.id);
  }

  /** The full side changes about a check, the lean side stays. */
  lemma ChecksLeaveOps(db: Db, lean: Db, change: Change, t: Time)
    requires Ordered(db) && OpsSound(db) && TwinOps(db, lean) && lean.order == Kept(db.order, db.ops)
    requires Legal(db, change, t) && AboutCheck(db, change)
    ensures var after := Apply(db, change, t);
            TwinOps(after, lean) && lean.order == Kept(after.order, after.ops)
  {
    hide Kept, OpsSound, Ordered, Tells, Admission, Settled, NewRow;
    var after := Apply(db, change, t);
    if change.Moves? {
      CheckMoved(db, after, lean, change.op);
    } else if change.Enters? {
      Joined(db, after, NewOp(db, change.req, t));
    }
  }

  lemma ChecksLeaveRows(db: Db, lean: Db, change: Change, t: Time)
    requires OpsSound(db) && TwinRows(db, lean)
    requires Legal(db, change, t) && AboutCheck(db, change)
    ensures TwinRows(Apply(db, change, t), lean)
  {
    if change.Moves? { assert OpSound(db, change.op.id); }
  }

  lemma ChecksLeaveTwin(db: Db, lean: Db, change: Change, t: Time)
    requires Sound(db) && Twin(db, lean)
    requires Legal(db, change, t) && AboutCheck(db, change)
    ensures Twin(Apply(db, change, t), lean)
  {
    var after := Apply(db, change, t);
    ChecksLeaveOps(db, lean, change, t);
    ChecksLeaveRows(db, lean, change, t);
    forall id ensures SameTrail(after, lean, id) {
      assert SameTrail(db, lean, id);
      TrailsOf(change, db, t, id);
    }
  }

  lemma SettledAlike(op: Op, a: Row, b: Row, t: Time, clean: DriftStatus)
    requires Plain(a) == Plain(b) && !IsCheck(op)
    ensures Plain(Settled(op, a, t, clean)) == Plain(Settled(op, b, t, clean))
  {
    assert a.(drift := b.drift) == Plain(a).(drift := b.drift) == Plain(b).(drift := b.drift) == b;
  }

  lemma MovesKeepRows(db: Db, lean: Db, op: Op, events: seq<Event>, clean: DriftStatus, t: Time)
    requires TwinRows(db, lean) && !IsCheck(op)
    ensures TwinRows(Move(db, op, events, t, clean), Move(lean, op, events, t, clean))
  {
    hide Settled;
    if op.resource in db.rows {
      SettledAlike(op, db.rows[op.resource], lean.rows[op.resource], t, clean);
    }
  }

  lemma MovesKeepTwin(db: Db, lean: Db, op: Op, events: seq<Event>, clean: DriftStatus, t: Time)
    requires Ordered(db) && Twin(db, lean) && !IsCheck(op)
    requires Legal(db, Moves(op, events, clean), t) && Legal(lean, Moves(op, events, clean), t)
    ensures Twin(Move(db, op, events, t, clean), Move(lean, op, events, t, clean))
  {
    var change := Moves(op, events, clean);
    var after, leaner := Move(db, op, events, t, clean), Move(lean, op, events, t, clean);
    MovesKeepRows(db, lean, op, events, clean, t);
    forall id ensures SameTrail(after, leaner, id) {
      assert SameTrail(db, lean, id);
      TrailsOf(change, db, t, id);
      TrailsOf(change, lean, t, id);
    }
    KeptAgrees(db.order, db.ops, after.ops);
  }

  lemma NewRowsAgree(db: Db, lean: Db, req: Request, t: Time)
    requires TwinRows(db, lean)
    ensures NewOp(db, req, t) == NewOp(lean, req, t)
    ensures Plain(NewRow(db, req, t)) == Plain(NewRow(lean, req, t))
  {
    var r := Target(req);
    if r in db.rows { assert Plain(lean.rows[r]) == Plain(db.rows[r]); }
  }

  lemma EnterKeepsOrder(db: Db, lean: Db, req: Request, t: Time)
    requires Ordered(db) && TwinOps(db, lean) && lean.order == Kept(db.order, db.ops)
    requires !req.intent.action.DriftCheck? && req.newOp !in db.ops
    requires NewOp(db, req, t) == NewOp(lean, req, t)
    ensures var after, leaner := Enter(db, req, t), Enter(lean, req, t);
            TwinOps(after, leaner) && leaner.order == Kept(after.order, after.ops)
  {
    hide NewRow, Kept, Ordered, NewOp;
    NewOpId(db, req, t);
    Joined(db, Enter(db, req, t), NewOp(db, req, t));
  }

  lemma NewOpId(db: Db, req: Request, t: Time)
    ensures NewOp(db, req, t).id == req.newOp
    ensures IsCheck(NewOp(db, req, t)) <==> req.intent.action.DriftCheck?
  {
  }

  lemma EnterKeepsTrails(db: Db, lean: Db, req: Request, t: Time)
    requires Audited(db) && Audited(lean) && TwinTrails(db, lean)
    requires Enterable(db, req) && Enterable(lean, req)
    ensures TwinTrails(Enter(db, req, t), Enter(lean, req, t))
  {
    hide NewRow, NewOp, Admission;
    var after, leaner := Enter(db, req, t), Enter(lean, req, t);
    forall id ensures SameTrail(after, leaner, id) {
      assert SameTrail(db, lean, id);
      TrailsOf(Enters(req), db, t, id);
      TrailsOf(Enters(req), lean, t, id);
      assert Told(db, req.newOp) && Told(lean, req.newOp);
    }
  }

  lemma EnterKeepsTwin(db: Db, lean: Db, req: Request, t: Time)
    requires Ordered(db) && Audited(db) && Audited(lean) && Twin(db, lean)
    requires !req.intent.action.DriftCheck? && Enterable(db, req) && Enterable(lean, req)
    ensures Twin(Enter(db, req, t), Enter(lean, req, t))
  {
    hide NewRow, NewOp, Admission, TwinOps, TwinTrails, Kept, Audited, Ordered, Enterable, TwinRows, Enter;
    NewRowsAgree(db, lean, req, t);
    FreshKey(db, req);
    EnterKeepsOrder(db, lean, req, t);
    EnterKeepsTrails(db, lean, req, t);
    EnterKeepsRows(db, lean, req, t);
  }

  lemma FreshKey(db: Db, req: Request)
    requires Enterable(db, req)
    ensures req.newOp !in db.ops
  {
  }

  lemma EnterKeepsRows(db: Db, lean: Db, req: Request, t: Time)
    requires TwinRows(db, lean) && !req.intent.action.DriftCheck?
    requires Plain(NewRow(db, req, t)) == Plain(NewRow(lean, req, t))
    ensures TwinRows(Enter(db, req, t), Enter(lean, req, t))
  {
    hide NewRow, NewOp;
  }

  lemma RemarkKeepsTwin(db: Db, lean: Db, event: Event, t: Time)
    requires Twin(db, lean) && !event.subject.OfOperation?
    ensures Twin(Apply(db, Remarks(event), t), Apply(lean, Remarks(event), t))
  {
    forall id ensures SameTrail(Apply(db, Remarks(event), t), Apply(lean, Remarks(event), t), id) {
      assert SameTrail(db, lean, id);
      TrailsOf(Remarks(event), db, t, id);
      TrailsOf(Remarks(event), lean, t, id);
    }
  }

  // ----- Decisions agree -----

  lemma SourceAgrees(db: Db, lean: Db, source: ResId)
    requires RowsSound(db) && TwinOps(db, lean) && TwinRows(db, lean)
    ensures ReferenceError(lean, source) == ReferenceError(db, source)
  {
    if source in db.rows {
      assert RowSound(db, source);
      assert Plain(lean.rows[source]) == Plain(db.rows[source]);
    }
  }

  lemma ReferencesAgree(db: Db, lean: Db, refs: Refs, r: ResId)
    requires RowsSound(db) && TwinOps(db, lean) && TwinRows(db, lean)
    ensures BadReference(lean, refs) <==> BadReference(db, refs)
    ensures Referenced(lean, r) <==> Referenced(db, r)
  {
    forall name | name in refs
      ensures ReferenceError(lean, refs[name].resource) == ReferenceError(db, refs[name].resource)
    {
      SourceAgrees(db, lean, refs[name].resource);
    }
    forall id | id in db.rows ensures Plain(lean.rows[id]) == Plain(db.rows[id]) { }
  }

  lemma ReservedAgrees(db: Db, lean: Db, zone: Zone, exclude: Option<ResId>)
    requires TwinRows(db, lean)
    ensures Reserved(lean.rows, zone, exclude) == Reserved(db.rows, zone, exclude)
  {
    forall id | id in db.rows ensures Plain(lean.rows[id]) == Plain(db.rows[id]) { }
    assert InZone(lean.rows, zone) == InZone(db.rows, zone);
    SumAgrees(db.rows, lean.rows, InZone(db.rows, zone) - (if exclude.Some? then {exclude.value} else {}));
  }

  lemma EnterableAgrees(db: Db, lean: Db, req: Request)
    requires RowsSound(db) && TwinOps(db, lean) && TwinRows(db, lean) && Enterable(db, req)
    requires !req.intent.action.DriftCheck?
    ensures Enterable(lean, req)
  {
    hide Reserved, BadReference, Referenced;
    ReferencesAgree(db, lean, req.resolved.refs, Target(req));
    ReservedAgrees(db, lean, req.resolved.zone, Some(Target(req)));
    if Target(req) in db.rows { assert Plain(lean.rows[Target(req)]) == Plain(db.rows[Target(req)]); }
  }

  lemma BusyAgrees(db: Db, lean: Db, r: ResId)
    requires Sound(db) && Sound(lean) && TwinOps(db, lean)
    ensures FindBusy(db, r).None? ==> FindBusy(lean, r).None?
    ensures FindBusy(db, r).Some? && !IsCheck(db.ops[FindBusy(db, r).value]) ==>
              FindBusy(lean, r) == FindBusy(db, r)
  {
    FindBusyNone(db, r);
    FindBusyNone(lean, r);
    var full, few := FindBusy(db, r), FindBusy(lean, r);
    assert full.Some? && few.Some? && full != few ==> Apart(db.ops[full.value], db.ops[few.value]);
  }

  // ----- The lean step -----

  predicate CheckId(db: Db, id: OpId) { id in db.ops && IsCheck(db.ops[id]) }

  /** What remains of a step. An accepted check whose resource was blocked by an expired plan
      leaves that plan's expiry, which executing the plan records in exactly the same way. */
  ghost function Lean(w: World, step: Step, t: Time): Option<Step> {
    match step
    case Submit(req, age) =>
      if !Accepts(w.db, req, age, t) then None
      else if !req.intent.action.DriftCheck? then Some(step)
      else
        var busy := FindBusy(w.db, Target(req));
        if busy.Some? && w.db.ops[busy.value].planDigest.Some?
        then Some(Approve(busy.value, w.db.ops[busy.value].planDigest.value, req.actor, age)) else None
    case Take(id, phase) => if CheckId(w.db, id) then None else Some(step)
    case Deliver(snapshot, state, report) => if IsCheck(snapshot) then None else Some(step)
    case Interrupt(id, phase) => if CheckId(w.db, id) then None else Some(step)
    case Approve(id, digest, actor, age) => if CheckId(w.db, id) then None else Some(step)
    case Drop(id, actor) => if CheckId(w.db, id) then None else Some(step)
    case Resolve(id, actor, outcome) => if CheckId(w.db, id) then None else Some(step)
    case StampRefusal(resource, unknown) => None
    case Remark(subject, actor, text) => Some(step)
  }

  ghost function LeanNext(w: World, lean: World, step: Step, t: Time): World {
    var kept := Lean(w, step, t);
    if kept.Some? then Next(lean, kept.value, t) else lean
  }

  /** The same legal change on both sides, or one about a check on the full side only. */
  lemma ChangeOnBoth(db: Db, lean: Db, change: Change, leaner: Change, t: Time)
    requires Sound(db) && Sound(lean) && Twin(db, lean)
    requires Legal(db, change, t) && Legal(lean, leaner, t)
    requires if AboutCheck(db, change) then leaner.Nothing? else leaner == change
    ensures Twin(Apply(db, change, t), Apply(lean, leaner, t))
  {
    hide Legal, Move, Enter;
    if AboutCheck(db, change) {
      ChecksLeaveTwin(db, lean, change, t);
    } else {
      match change
      case Moves(op, events, clean) => MovesKeepTwin(db, lean, op, events, clean, t);
      case Enters(req) => EnterOnBoth(db, lean, req, t);
      case Remarks(event) => RemarkOnBoth(db, lean, event, t);
      case Nothing =>
      case Stamps(resource, unknown) =>
    }
  }

  lemma EnterOnBoth(db: Db, lean: Db, req: Request, t: Time)
    requires Sound(db) && Sound(lean) && Twin(db, lean) && !req.intent.action.DriftCheck?
    requires Legal(db, Enters(req), t) && Legal(lean, Enters(req), t)
    ensures Twin(Apply(db, Enters(req), t), Apply(lean, Enters(req), t))
  {
    EnterKeepsTwin(db, lean, req, t);
  }

  lemma RemarkOnBoth(db: Db, lean: Db, event: Event, t: Time)
    requires Twin(db, lean) && Legal(db, Remarks(event), t)
    ensures Twin(Apply(db, Remarks(event), t), Apply(lean, Remarks(event), t))
  {
    RemarkKeepsTwin(db, lean, event, t);
  }

  // ----- The first change of a step is the same on both sides, or about a check -----

  predicate Mirrors(db: Db, full: Change, lean: Change) {
    if AboutCheck(db, full) then lean.Nothing? else lean == full
  }

  lemma TakeMirrors(db: Db, lean: Db, id: OpId, phase: Phase, t: Time)
    requires OpsSound(db) && TwinOps(db, lean)
    ensures Mirrors(db, TakeChange(db, id, phase, t),
                    if CheckId(db, id) then Nothing else TakeChange(lean, id, phase, t))
  {
  }

  lemma InterruptMirrors(db: Db, lean: Db, id: OpId, phase: Phase, t: Time)
    requires OpsSound(db) && TwinOps(db, lean)
    ensures Mirrors(db, InterruptChange(db, id, phase, t),
                    if CheckId(db, id) then Nothing else InterruptChange(lean, id, phase, t))
  {
  }

  lemma ReportKeepsTerms(op: Op, state: OpState, report: Report, t: Time)
    ensures SameTerms(op, Reported(op, state, report, t))
  {
  }

  lemma DeliverMirrors(db: Db, lean: Db, snapshot: Op, state: OpState, report: Report, t: Time)
    requires TwinOps(db, lean) && Current(db, snapshot)
    ensures Mirrors(db, DeliverChange(db, snapshot, state, report, t),
                    if IsCheck(snapshot) then Nothing
                    else DeliverChange(lean, snapshot, state, report, t))
  {
    hide Reported;
    ReportKeepsTerms(snapshot, state, report, t);
  }

  lemma ExecuteMirrors(db: Db, lean: Db, id: OpId, digest: Digest, actor: Actor, age: Option<nat>, t: Time)
    requires OpsSound(db) && RowsSound(db) && TwinOps(db, lean) && TwinRows(db, lean)
    ensures Mirrors(db, ExecuteChange(db, id, digest, actor, age, t),
                    if CheckId(db, id) then Nothing else ExecuteChange(lean, id, digest, actor, age, t))
  {
    hide BadReference;
    if id in db.ops {
      ReferencesAgree(db, lean, db.ops[id].terms.refs, db.ops[id].resource);
    }
  }

  lemma DiscardMirrors(db: Db, lean: Db, id: OpId, actor: Actor, t: Time)
    requires OpsSound(db) && TwinOps(db, lean)
    ensures Mirrors(db, DiscardChange(db, id, actor, t),
                    if CheckId(db, id) then Nothing else DiscardChange(lean, id, actor, t))
  {
  }

  lemma ReconcileMirrors(db: Db, lean: Db, id: OpId, actor: Actor, outcome: Outcome, t: Time)
    requires OpsSound(db) && TwinOps(db, lean)
    ensures Mirrors(db, ReconcileChange(db, id, actor, outcome, t),
                    if CheckId(db, id) then Nothing else ReconcileChange(lean, id, actor, outcome, t))
  {
  }

  // ----- Acceptance on both sides -----

  lemma BusyIsPlanned(db: Db, lean: Db, req: Request, age: Option<nat>, t: Time)
    requires Sound(db) && Sound(lean) && Twin(db, lean) && Accept(db, req, age, t).Accepted?
    ensures var busy := FindBusy(db, Target(req));
            && FindBusy(lean, Target(req)) == busy
            && (busy.Some? ==> busy.value in lean.ops && lean.ops[busy.value] == db.ops[busy.value]
                               && !IsCheck(db.ops[busy.value]) && db.ops[busy.value].state.Planned?
                               && PlanExpired(db.ops[busy.value], age, t))
  {
    hide Admission, NewRow, NewOp;
    var busy := FindBusy(db, Target(req));
    AcceptedMeans(db, req, age, t);
    if busy.Some? { assert OpSound(db, busy.value); }
    BusyAgrees(db, lean, Target(req));
  }

  lemma ReleaseOnBoth(db: Db, lean: Db, id: OpId, actor: Actor, t: Time)
    requires Sound(db) && Sound(lean) && Twin(db, lean) && id in lean.ops && lean.ops[id].state.Planned?
    ensures var after, leaner := Release(db, db.ops[id], actor, Expired, t),
                                 Release(lean, lean.ops[id], actor, Expired, t);
            Sound(after) && Sound(leaner) && Twin(after, leaner)
  {
    hide Move;
    var change := Release1(db.ops[id], actor, Expired, t);
    ReleaseMakes(db, id, actor, Expired, t);
    ReleaseMakes(lean, id, actor, Expired, t);
    LegalKeepsSound(db, change, t);
    LegalKeepsSound(lean, change, t);
    ChangeOnBoth(db, lean, change, change, t);
  }

  lemma UnblockedIs(db: Db, req: Request, age: Option<nat>, t: Time)
    ensures var busy := FindBusy(db, Target(req));
            Unblocked(db, req, age, t)
            == if busy.Some? && PlanExpired(db.ops[busy.value], age, t)
               then Release(db, db.ops[busy.value], req.actor, Expired, t) else db
  {
  }

  /** The lazy expiry happens on both sides alike. */
  lemma LeanUnblocks(db: Db, lean: Db, req: Request, age: Option<nat>, t: Time)
    requires Sound(db) && Sound(lean) && Twin(db, lean) && Accept(db, req, age, t).Accepted?
    ensures Sound(Unblocked(db, req, age, t)) && Sound(Unblocked(lean, req, age, t))
    ensures Twin(Unblocked(db, req, age, t), Unblocked(lean, req, age, t))
    ensures UnblockChange(lean, req, t) == UnblockChange(db, req, t)
    ensures Mirrors(db, UnblockChange(db, req, t), UnblockChange(lean, req, t))
  {
    hide Accept, Release, PlanExpired, FindBusy, Unblocked, Sound, Twin;
    BusyIsPlanned(db, lean, req, age, t);
    var busy := FindBusy(db, Target(req));
    UnblockedIs(db, req, age, t);
    UnblockedIs(lean, req, age, t);
    if busy.Some? {
      ReleaseOnBoth(db, lean, busy.value, req.actor, t);
    }
  }

  lemma AcceptFrom(db: Db, req: Request, age: Option<nat>, t: Time)
    requires Validated(db, req) && req.placed && FindKey(db, req.actor, req.key).None?
    requires var busy := FindBusy(db, Target(req));
             busy.Some? ==> PlanExpired(db.ops[busy.value], age, t)
    requires Admission(Unblocked(db, req, age, t), req).None?
    ensures Accepts(db, req, age, t)
  {
  }

  lemma AcceptsMeans(db: Db, req: Request, age: Option<nat>, t: Time)
    requires Accepts(db, req, age, t)
    ensures Validated(db, req) && req.placed && FindKey(db, req.actor, req.key).None?
    ensures var busy := FindBusy(db, Target(req));
            busy.Some? ==> PlanExpired(db.ops[busy.value], age, t)
  {
  }

  lemma AcceptMirrors(db: Db, lean: Db, req: Request, age: Option<nat>, t: Time)
    requires Sound(db) && Sound(lean) && Twin(db, lean)
    requires Accepts(db, req, age, t) && !req.intent.action.DriftCheck?
    ensures Accepts(lean, req, age, t)
  {
    hide Accept, Admission, Unblocked, FindBusy, FindKey, PlanExpired;
    AcceptsMeans(db, req, age, t);
    FindKeyNone(db, req.actor, req.key);
    FindKeyNone(lean, req.actor, req.key);
    BusyIsPlanned(db, lean, req, age, t);
    LeanUnblocks(db, lean, req, age, t);
    UnblockedIsEnterable(db, req, age, t);
    EnterableAgrees(Unblocked(db, req, age, t), Unblocked(lean, req, age, t), req);
    if Target(req) in db.rows { assert Plain(lean.rows[Target(req)]) == Plain(db.rows[Target(req)]); }
    AcceptFrom(lean, req, age, t);
  }

  /** An accepted check leaves the expiry of the plan it displaced, told as an execute would. */
  lemma CheckLeavesExpiry(db: Db, lean: Db, req: Request, age: Option<nat>, t: Time)
    requires Sound(db) && Sound(lean) && Twin(db, lean) && Accepts(db, req, age, t)
    ensures var busy := FindBusy(db, Target(req));
            busy.Some? ==>
              && db.ops[busy.value].planDigest.Some?
              && Execute(lean, busy.value, db.ops[busy.value].planDigest.value, req.actor, age, t)
                 == Unblocked(lean, req, age, t)
    ensures FindBusy(db, Target(req)).None? ==> Unblocked(lean, req, age, t) == lean
  {
    hide Accept, Release, FindBusy, Unblocked, BadReference;
    BusyIsPlanned(db, lean, req, age, t);
    UnblockedIs(lean, req, age, t);
    var busy := FindBusy(db, Target(req));
    if busy.Some? { assert OpSound(db, busy.value); }
  }

  // ----- One step, and whole runs -----

  lemma ApproveIs(w: World, id: OpId, digest: Digest, actor: Actor, age: Option<nat>, t: Time)
    ensures Next(w, Approve(id, digest, actor, age), t).db == Execute(w.db, id, digest, actor, age, t)
  {
  }

  lemma CheckSubmitted(w: World, lean: World, req: Request, age: Option<nat>, t: Time)
    requires SoundWorld(w) && SoundWorld(lean) && Twin(w.db, lean.db)
    requires Accepts(w.db, req, age, t) && req.intent.action.DriftCheck?
    ensures Twin(Next(w, Submit(req, age), t).db, LeanNext(w, lean, Submit(req, age), t).db)
  {
    hide Next, Accept, Release, FindBusy, Unblocked, Execute, Enter, Twin;
    SubmitEnters(w, req, age, t);
    AcceptedMeans(w.db, req, age, t);
    var busy := FindBusy(w.db, Target(req));
    if busy.Some? && w.db.ops[busy.value].planDigest.Some? {
      ApproveIs(lean, busy.value, w.db.ops[busy.value].planDigest.value, req.actor, age, t);
    }
    LeanUnblocks(w.db, lean.db, req, age, t);
    ChecksLeaveTwin(Unblocked(w.db, req, age, t), Unblocked(lean.db, req, age, t), Enters(req), t);
    CheckLeavesExpiry(w.db, lean.db, req, age, t);
  }

  lemma OtherSubmitted(w: World, lean: World, req: Request, age: Option<nat>, t: Time)
    requires SoundWorld(w) && SoundWorld(lean) && Twin(w.db, lean.db)
    requires Accepts(w.db, req, age, t) && !req.intent.action.DriftCheck?
    ensures Twin(Next(w, Submit(req, age), t).db, Next(lean, Submit(req, age), t).db)
  {
    hide Next, Accept, Release, FindBusy, Unblocked, Execute, Enter, Twin;
    SubmitEnters(w, req, age, t);
    LeanUnblocks(w.db, lean.db, req, age, t);
    AcceptMirrors(w.db, lean.db, req, age, t);
    SubmitEnters(lean, req, age, t);
    EnterOnBoth(Unblocked(w.db, req, age, t), Unblocked(lean.db, req, age, t), req, t);
  }

  lemma SubmitOnBoth(w: World, lean: World, req: Request, age: Option<nat>, t: Time)
    requires SoundWorld(w) && SoundWorld(lean) && Twin(w.db, lean.db)
    ensures Twin(Next(w, Submit(req, age), t).db, LeanNext(w, lean, Submit(req, age), t).db)
  {
    hide Accept, FindBusy, Twin;
    if Accepts(w.db, req, age, t) {
      if req.intent.action.DriftCheck? {
        CheckSubmitted(w, lean, req, age, t);
      } else {
        OtherSubmitted(w, lean, req, age, t);
      }
    }
  }

  lemma OtherOnBoth(w: World, lean: World, step: Step, t: Time)
    requires SoundWorld(w) && SoundWorld(lean) && TwinWorld(w, lean) && !step.Submit?
    ensures Mirrors(w.db, FirstChange(w, step, t),
                    if Lean(w, step, t).Some? then FirstChange(lean, step, t) else Nothing)
  {
    hide TakeChange, InterruptChange, DeliverChange, ExecuteChange, DiscardChange, ReconcileChange;
    var db, leaner := w.db, lean.db;
    match step
    case Take(id, phase) => TakeMirrors(db, leaner, id, phase, t);
    case Deliver(snapshot, state, report) =>
      if snapshot in w.held {
        assert Current(db, snapshot);
        DeliverMirrors(db, leaner, snapshot, state, report, t);
      }
    case Interrupt(id, phase) => InterruptMirrors(db, leaner, id, phase, t);
    case Approve(id, digest, actor, age) => ExecuteMirrors(db, leaner, id, digest, actor, age, t);
    case Drop(id, actor) => DiscardMirrors(db, leaner, id, actor, t);
    case Resolve(id, actor, outcome) => ReconcileMirrors(db, leaner, id, actor, outcome, t);
    case StampRefusal(resource, unknown) =>
    case Remark(subject, actor, text) =>
  }

  lemma StepOnBoth(w: World, lean: World, step: Step, t: Time)
    requires SoundWorld(w) && SoundWorld(lean) && TwinWorld(w, lean)
    ensures Twin(Next(w, step, t).db, LeanNext(w, lean, step, t).db)
  {
    hide Next, FirstChange, Legal, Twin, Sound, ClaimsSound;
    if step.Submit? {
      SubmitOnBoth(w, lean, step.req, step.age, t);
    } else {
      NextMakes(w, step, t);
      NextMakes(lean, step, t);
      OtherOnBoth(w, lean, step, t);
      var change := FirstChange(w, step, t);
      var leaner := if Lean(w, step, t).Some? then FirstChange(lean, step, t) else Nothing;
      NothingIsLegal(lean.db, t);
      ChangeOnBoth(w.db, lean.db, change, leaner, t);
    }
  }

  lemma NothingIsLegal(db: Db, t: Time) ensures Legal(db, Nothing, t) { }

  lemma TakenOnBoth(w: World, lean: World, id: OpId, phase: Phase, t: Time)
    requires TwinWorld(w, lean)
    ensures var after, leaner := Next(w, Take(id, phase), t), LeanNext(w, lean, Take(id, phase), t);
            forall h :: h in leaner.held <==> h in after.held && !IsCheck(h)
  {
    hide Move;
  }

  lemma HeldOnBoth(w: World, lean: World, step: Step, t: Time)
    requires TwinWorld(w, lean)
    ensures var after, leaner := Next(w, step, t), LeanNext(w, lean, step, t);
            forall h :: h in leaner.held <==> h in after.held && !IsCheck(h)
  {
    hide Next, Twin, Accepts;
    if step.Take? {
      TakenOnBoth(w, lean, step.id, step.phase, t);
    } else {
      OnlyTakeStarts(w, step, t);
      if Lean(w, step, t).Some? { OnlyTakeStarts(lean, Lean(w, step, t).value, t); }
    }
  }

  /** The run without its drift checks. */
  ghost function LeanRun(run: seq<Timed>): seq<Timed> {
    if run == [] then [] else
    var earlier, last := run[..|run| - 1], run[|run| - 1];
    var kept := Lean(Run(START, earlier), last.step, last.at);
    LeanRun(earlier) + if kept.Some? then [Timed(kept.value, last.at)] else []
  }

  /** Erase every drift check and sweep stamp from a run, keeping only the expiry of a plan that a
      check displaced: what remains is a run, in the same order of time and with no acceptance of
      a check and no stamp in it, and it ends with the same resources (drift fields aside), the
      same other operations in the same order, and the same audit trail for each of them. */
  lemma {:induction false} ChecksAreInvisible(run: seq<Timed>)
    ensures TwinWorld(Run(START, run), Run(START, LeanRun(run)))
    ensures forall i :: 0 <= i < |LeanRun(run)| ==>
      !LeanRun(run)[i].step.StampRefusal?
      && (LeanRun(run)[i].step.Submit? ==> !LeanRun(run)[i].step.req.intent.action.DriftCheck?)
  {
    hide Next, Twin, Lean, SoundWorld;
    if run == [] {
      StartsAsTwins();
    } else {
      var earlier, last := run[..|run| - 1], run[|run| - 1];
      ChecksAreInvisible(earlier);
      EveryRunIsSound(earlier);
      EveryRunIsSound(LeanRun(earlier));
      var w, lean := Run(START, earlier), Run(START, LeanRun(earlier));
      StepOnBoth(w, lean, last.step, last.at);
      HeldOnBoth(w, lean, last.step, last.at);
      var kept := Lean(w, last.step, last.at);
      LeanIsLean(w, last.step, last.at);
      if kept.Some? {
        RunAppend(START, LeanRun(earlier), kept.value, last.at);
        assert LeanRun(run) == LeanRun(earlier) + [Timed(kept.value, last.at)];
      } else {
        assert LeanRun(run) == LeanRun(earlier);
      }
    }
  }

  lemma LeanIsLean(w: World, step: Step, t: Time)
    ensures var kept := Lean(w, step, t);
            kept.Some? ==> !kept.value.StampRefusal?
                           && (kept.value.Submit? ==> !kept.value.req.intent.action.DriftCheck?)
  {
    hide Accepts;
  }

  lemma StartsAsTwins()
    ensures TwinWorld(START, START)
  {
    forall id ensures SameTrail(EMPTY, EMPTY, id) { }
  }

  lemma {:induction false} LeanRunKeepsTime(run: seq<Timed>)
    requires Chronological(run)
    ensures Chronological(LeanRun(run))
    ensures forall i :: 0 <= i < |LeanRun(run)| ==> LeanRun(run)[i].at <= run[|run| - 1].at
  {
    hide Next, Lean;
    if run != [] {
      LeanRunKeepsTime(run[..|run| - 1]);
    }
  }

  /** A check only ever waits, plans, and ends: it is never planned, applied or uncertain. */
  lemma {:induction false} ChecksOnlyLook(run: seq<Timed>, id: OpId)
    requires id in Run(START, run).db.ops && IsCheck(Run(START, run).db.ops[id])
    ensures var state := Run(START, run).db.ops[id].state;
            state.Queued? || state.Planning? || state.Succeeded? || state.Failed?
  {
    hide Next, Run;
    EveryRunIsSound(run);
    assert OpSound(Run(START, run).db, id);
  }
}
