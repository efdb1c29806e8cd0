/** Value model of the operation ledger (app/ledger.py): its tables, and what each public
    function does to them in one transaction.

    IDs are numbers (UUIDs are only ever compared), a timestamp is a natural number, and one
    transaction has one timestamp. A plan digest is SHA-256 taken as injective, so it is modelled
    as a box around the plan file it was computed from. */
module LedgerModel {
  datatype Option<+T> = None | Some(value: T)

  type OpId = nat
  type ResId = nat
  type AppId = nat
  type Actor = nat
  type Zone = nat
  type Cost = nat
  type Time = nat
  type Findings = seq<nat>

  /** The plan file on disk: what `terraform show` reports of it, and the rest of its bytes. */
  datatype PlanFile = PlanFile(changes: nat, body: nat)
  datatype Digest = Sha256(file: PlanFile)

  datatype Action = Deploy | Destroy | DriftCheck
  datatype Phase = PlanPhase | ApplyPhase
  datatype OpState =
    Queued | Planning | Planned | ApplyQueued | Applying | Succeeded | Failed | Uncertain
  datatype Outcome = FoundSucceeded | FoundFailed

  /** An idempotency key: a caller's own, or one the platform derives for an app's member. The
      `|` of `system_key` is refused in callers' keys, so the two kinds never meet. */
  datatype Key =
    | CallerKey(text: nat)
    | ReplicaKey(app: AppId, index: nat)
    | RouterKey(app: AppId, attempt: nat)
    | TeardownRouterKey(app: AppId, attempt: nat)
    | TeardownReplicaKey(app: AppId, attempt: nat, index: nat)

  datatype Ref = Ref(resource: ResId, output: nat)
  type Refs = map<string, Ref>

  datatype Intent = Intent(action: Action, resource: Option<ResId>, body: nat)

  /** What `policy.validate` or `drift.resolved` hands to acceptance. A destroy carries a copy of
      the resource row, so it may carry a reconciliation record as well. */
  datatype Resolved = Resolved(
    zone: Zone, cost: Cost, refs: Refs, spec: nat, promotedFrom: Option<ResId>,
    previousOp: Option<OpId>, reconciliation: Option<Outcome>)

  datatype Budget = Budget(limit: Cost, legacy: Cost)

  /** One acceptance attempt. `newOp` and `newResource` are the UUIDs it draws; `placed` is the
      verdict of the placement re-check. */
  datatype Request = Request(
    actor: Actor, key: Key, intent: Intent, resolved: Resolved, budget: Option<Budget>,
    placed: bool, newOp: OpId, newResource: ResId)

  /** The part of an operation that never changes after acceptance. */
  datatype Terms = Terms(
    actor: Actor, key: Key, intent: Intent, zone: Zone, cost: Cost, refs: Refs, spec: nat,
    promotedFrom: Option<ResId>, previousCost: Option<Cost>, createdAt: Time)

  datatype Op = Op(
    id: OpId, resource: ResId, terms: Terms, state: OpState, updatedAt: Time,
    plannedAt: Option<Time>, planDigest: Option<Digest>, changes: Option<nat>,
    outputs: Option<nat>, drift: Findings, objects: Option<nat>, expired: bool, discarded: bool,
    reconciliation: Option<Outcome>)
  {
    function Action(): Action { terms.intent.action }
    predicate Finished() { state.Succeeded? || state.Failed? }
  }

  datatype RowState = Pending | Ready | Destroyed
  datatype DriftStatus = InSync | Drifted | Unknown
  datatype DriftView = DriftView(
    status: Option<DriftStatus>, checkedAt: Option<Time>, found: Option<Findings>, refused: bool)

  /** A row of `resources`: the deployed definition, the reserved cost and the latest operation. */
  datatype Row = Row(
    id: ResId, actor: Actor, zone: Zone, latest: OpId, state: RowState, cost: Cost, refs: Refs,
    spec: nat, promotedFrom: Option<ResId>, createdAt: Time, outputs: Option<nat>,
    managed: Option<nat>, drift: DriftView, reconciliation: Option<Outcome>)

  datatype Subject = OfOperation(id: OpId) | OfApp(app: AppId) | OfNobody
  datatype EventKind =
    | Created | Executed | Discarded | Expired | Reconciled | Entered(state: OpState)
    | Note(text: nat)
  datatype Event = Event(subject: Subject, actor: Actor, kind: EventKind, at: Time)

  /** `operations` (with its insertion order), `resources` and the append-only `events`. */
  datatype Db = Db(ops: map<OpId, Op>, order: seq<OpId>, rows: map<ResId, Row>, events: seq<Event>)

  const EMPTY := Db(map[], [], map[], [])
  const WORKER: Actor := 0

  // ----- Reading the tables -----

  /** The first operation, in insertion order, that satisfies `p`. */
  function First(order: seq<OpId>, p: OpId -> bool): (r: Option<OpId>)
    ensures r.Some? ==> r.value in order && p(r.value)
    ensures r.None? ==> forall i :: i in order ==> !p(i)
  {
    if order == [] then None
    else if p(order[0]) then Some(order[0])
    else First(order[1..], p)
  }

  function FindKey(db: Db, actor: Actor, key: Key): (r: Option<OpId>)
    ensures r.Some? ==> r.value in db.ops && db.ops[r.value].terms.actor == actor
                        && db.ops[r.value].terms.key == key
  {
    First(db.order, (i: OpId) =>
      i in db.ops && db.ops[i].terms.actor == actor && db.ops[i].terms.key == key)
  }

  function FindBusy(db: Db, resource: ResId): (r: Option<OpId>)
    ensures r.Some? ==> r.value in db.ops && db.ops[r.value].resource == resource
                        && !db.ops[r.value].Finished()
  {
    First(db.order, (i: OpId) =>
      i in db.ops && db.ops[i].resource == resource && !db.ops[i].Finished())
  }

  /** What one row counts towards its zone's budget. */
  function Held(row: Row): Cost { if row.state.Destroyed? then 0 else row.cost }

  ghost function SumHeld(rows: map<ResId, Row>, ids: set<ResId>): Cost
    requires ids <= rows.Keys
  {
    if ids == {} then 0 else
    var id :| id in ids;
    Held(rows[id]) + SumHeld(rows, ids - {id})
  }

  function InZone(rows: map<ResId, Row>, zone: Zone): set<ResId> {
    set id | id in rows && rows[id].zone == zone
  }

  /** `_reserved`: what the zone's resources hold, one resource left out when asked. */
  ghost function Reserved(rows: map<ResId, Row>, zone: Zone, exclude: Option<ResId>): Cost {
    SumHeld(rows, InZone(rows, zone) - (if exclude.Some? then {exclude.value} else {}))
  }

  /** `_expired`: a planned operation past its maximum age (`age` is None when expiry is off). */
  predicate PlanExpired(op: Op, age: Option<nat>, t: Time) {
    age.Some? && op.state.Planned?
    && t > (if op.plannedAt.Some? then op.plannedAt.value else op.updatedAt) + age.value
  }

  datatype Problem = SourceNotReady | SourceBeingDestroyed

  /** `reference_error`. */
  function ReferenceError(db: Db, source: ResId): Option<Problem> {
    if source !in db.rows || !db.rows[source].state.Ready? then Some(SourceNotReady)
    else
      var latest := db.rows[source].latest;
      if latest in db.ops && db.ops[latest].Action().Destroy? && !db.ops[latest].Finished()
      then Some(SourceBeingDestroyed) else None
  }

  predicate RefersTo(refs: Refs, resource: ResId) {
    exists name :: name in refs && refs[name].resource == resource
  }

  /** `_referenced`: another ready resource was built from this one's outputs. */
  predicate Referenced(db: Db, resource: ResId) {
    exists id :: id in db.rows && id != resource && db.rows[id].state.Ready?
                 && RefersTo(db.rows[id].refs, resource)
  }

  predicate BadReference(db: Db, refs: Refs) {
    exists name :: name in refs && ReferenceError(db, refs[name].resource).Some?
  }

  // ----- Moving one operation -----

  function Max(a: nat, b: nat): nat { if a < b then b else a }

  /** `_record_drift_check`. */
  function CheckVerdict(view: DriftView, op: Op, t: Time): DriftView {
    if op.state.Succeeded? then
      DriftView(Some(if op.drift != [] then Drifted else InSync), Some(t), Some(op.drift), false)
    else
      view.(status := Some(Unknown), found := None, checkedAt := Some(t))
  }

  /** `_mark_succeeded_resource`. */
  function Landed(op: Op, row: Row, t: Time, clean: DriftStatus): Row {
    var gone := op.Action().Destroy?;
    Row(op.resource, op.terms.actor, op.terms.zone, op.id, if gone then Destroyed else Ready,
        op.terms.cost, op.terms.refs, op.terms.spec,
        if op.terms.promotedFrom.None? then row.promotedFrom else op.terms.promotedFrom,
        row.createdAt, op.outputs, if gone then Some(0) else op.objects,
        if gone then DriftView(None, None, None, false)
        else DriftView(Some(clean), Some(t), Some([]), false),
        op.reconciliation)
  }

  /** `_restore_reservation`. */
  function Restored(op: Op, row: Row): Row {
    if op.Action().Deploy? && op.terms.previousCost.Some?
    then row.(cost := op.terms.previousCost.value) else row
  }

  /** What an operation that has just been saved does to its resource row. */
  function Settled(op: Op, row: Row, t: Time, clean: DriftStatus): Row {
    if op.Action().DriftCheck? then
      if op.Finished() then row.(drift := CheckVerdict(row.drift, op, t)) else row
    else if op.state.Succeeded? then Landed(op, row, t, clean)
    else if op.state.Failed? then Restored(op, row)
    else row
  }

  /** Save `op`, append `events` about it, and let it settle its row. */
  function Move(db: Db, op: Op, events: seq<Event>, t: Time, clean: DriftStatus): Db {
    Db(db.ops[op.id := op], db.order,
       if op.resource in db.rows
       then db.rows[op.resource := Settled(op, db.rows[op.resource], t, clean)] else db.rows,
       db.events + events)
  }

  function About(op: OpId, actor: Actor, kind: EventKind, t: Time): Event {
    Event(OfOperation(op), actor, kind, t)
  }

  // ----- The worker's side: claim, finish, interrupted -----

  function PhaseExpects(phase: Phase): OpState { if phase.PlanPhase? then Queued else ApplyQueued }
  function PhaseRuns(phase: Phase): OpState { if phase.PlanPhase? then Planning else Applying }

  predicate Claimable(db: Db, id: OpId, phase: Phase) {
    id in db.ops && db.ops[id].state == PhaseExpects(phase)
  }

  /** The snapshot `claim` saves and returns. */
  function Claimed(db: Db, id: OpId, phase: Phase, t: Time): Op
    requires id in db.ops
  {
    db.ops[id].(state := PhaseRuns(phase), updatedAt := t)
  }

  function Claim(db: Db, id: OpId, phase: Phase, t: Time): Db {
    if !Claimable(db, id, phase) then db else
    Move(db, Claimed(db, id, phase, t), [About(id, WORKER, Entered(PhaseRuns(phase)), t)], t, InSync)
  }

  /** What an activity reports with its result. */
  datatype Report =
    | PlanReport(planDigest: Digest, changes: nat, drift: Findings, objects: nat)
    | ApplyReport(outputs: nat)
    | CheckReport(drift: Findings)
    | ErrorReport

  /** The results an activity holding `op` may report. */
  predicate Reportable(op: Op, state: OpState, report: Report) {
    if op.Action().DriftCheck? then
      op.state.Planning? && ((state.Succeeded? && report.CheckReport?)
                             || (state.Failed? && report.ErrorReport?))
    else if op.state.Planning? then
      (state.Planned? && report.PlanReport?) || (state.Failed? && report.ErrorReport?)
    else
      op.state.Applying? && ((state.Succeeded? && report.ApplyReport?)
                             || ((state.Failed? || state.Uncertain?) && report.ErrorReport?))
  }

  function Reported(op: Op, state: OpState, report: Report, t: Time): Op {
    var op := op.(state := state, updatedAt := t);
    match report
    case PlanReport(planDigest, changes, drift, objects) =>
      op.(planDigest := Some(planDigest), changes := Some(changes), drift := drift,
          objects := Some(objects), plannedAt := Some(t))
    case ApplyReport(outputs) => op.(outputs := Some(outputs))
    case CheckReport(drift) => op.(drift := drift)
    case ErrorReport => op
  }

  /** The fence: the stored state is still the one the activity's snapshot carries. */
  predicate Fenced(db: Db, snapshot: Op) {
    snapshot.id !in db.ops || db.ops[snapshot.id].state != snapshot.state
  }

  function Finish(db: Db, snapshot: Op, state: OpState, report: Report, t: Time): Db {
    if Fenced(db, snapshot) then db else
    Move(db, Reported(snapshot, state, report, t),
         [About(snapshot.id, WORKER, Entered(state), t)], t, InSync)
  }

  predicate Interruptible(db: Db, id: OpId, phase: Phase) {
    id in db.ops && (db.ops[id].state == PhaseExpects(phase) || db.ops[id].state == PhaseRuns(phase))
  }

  function Interrupted(db: Db, id: OpId, phase: Phase, t: Time): Db {
    if !Interruptible(db, id, phase) then db else
    var state := if db.ops[id].Action().DriftCheck? then Failed else Uncertain;
    Move(db, db.ops[id].(state := state, updatedAt := t), [About(id, WORKER, Entered(state), t)],
         t, InSync)
  }

  // ----- The people's side: execute, discard, reconcile -----

  function Released(op: Op, kind: EventKind, t: Time): Op {
    op.(state := Failed, updatedAt := t, expired := op.expired || kind.Expired?,
        discarded := op.discarded || kind.Discarded?)
  }

  /** `_release_plan`, shared by discard and expiry. */
  function Release(db: Db, op: Op, actor: Actor, kind: EventKind, t: Time): Db {
    Move(db, Released(op, kind, t), [About(op.id, actor, kind, t)], t, InSync)
  }

  datatype Refusal =
    | KeyReused | PlacementStale | ResourceBusy(op: OpId) | ResourceChanged | NotReady
    | BudgetExceeded | ResourceReferenced | ReferenceNotReady | DigestMismatch | NotPlanned
    | PlanTooOld | NotUncertain | OtherOutcome | NeverExecuted | Missing

  /** The answer of a step on one existing operation. `PlanTooOld` is the one refusal that still
      commits: the expired plan is failed. */
  datatype Answer = Refuse(why: Refusal) | Unchanged | Changed

  function ExecuteAnswer(db: Db, id: OpId, digest: Digest, age: Option<nat>, t: Time): Answer {
    if id !in db.ops then Refuse(Missing) else
    var op := db.ops[id];
    if op.planDigest != Some(digest) then Refuse(DigestMismatch)
    else if op.state.ApplyQueued? || op.state.Applying? || op.state.Succeeded? then Unchanged
    else if PlanExpired(op, age, t) then Refuse(PlanTooOld)
    else if !op.state.Planned? then Refuse(NotPlanned)
    else if !op.Action().Destroy? && BadReference(db, op.terms.refs) then Refuse(ReferenceNotReady)
    else Changed
  }

  function Execute(db: Db, id: OpId, digest: Digest, actor: Actor, age: Option<nat>, t: Time): Db {
    match ExecuteAnswer(db, id, digest, age, t)
    case Changed =>
      Move(db, db.ops[id].(state := ApplyQueued, updatedAt := t), [About(id, actor, Executed, t)],
           t, InSync)
    case Refuse(why) =>
      if why.PlanTooOld? then Release(db, db.ops[id], actor, Expired, t) else db
    case Unchanged => db
  }

  function DiscardAnswer(db: Db, id: OpId): Answer {
    if id !in db.ops then Refuse(Missing)
    else if db.ops[id].discarded then Unchanged
    else if !db.ops[id].state.Planned? then Refuse(NotPlanned)
    else Changed
  }

  function Discard(db: Db, id: OpId, actor: Actor, t: Time): Db {
    if DiscardAnswer(db, id).Changed? then Release(db, db.ops[id], actor, Discarded, t) else db
  }

  function ReconcileAnswer(db: Db, id: OpId, outcome: Outcome): Answer {
    if id !in db.ops then Refuse(Missing) else
    var op := db.ops[id];
    if op.reconciliation.Some? then
      if op.reconciliation.value == outcome then Unchanged else Refuse(OtherOutcome)
    else if !op.state.Uncertain? then Refuse(NotUncertain)
    else if outcome.FoundSucceeded? && op.planDigest.None? then Refuse(NeverExecuted)
    else Changed
  }

  function Reconcile(db: Db, id: OpId, actor: Actor, outcome: Outcome, t: Time): Db {
    if !ReconcileAnswer(db, id, outcome).Changed? then db else
    var state := if outcome.FoundSucceeded? then Succeeded else Failed;
    Move(db, db.ops[id].(state := state, updatedAt := t, reconciliation := Some(outcome)),
         [About(id, actor, Reconciled, t), About(id, actor, Entered(state), t)], t, Unknown)
  }

  /** `stamp_drift_refusal`. */
  function Stamp(db: Db, resource: ResId, unknown: bool, t: Time): Db {
    if resource !in db.rows then db else
    var view := db.rows[resource].drift;
    var view := if unknown then view.(status := Some(Unknown), found := None) else view;
    db.(rows := db.rows[resource := db.rows[resource].(
          drift := view.(checkedAt := Some(t), refused := true))])
  }

  // ----- Acceptance -----

  /** What `policy.validate` resolves a destroy to: the whole row as it then is, including any
      reconciliation record (app/policy.py:369-370). */
  function ResolvedForDestroy(row: Row): Resolved {
    Resolved(row.zone, row.cost, row.refs, row.spec, row.promotedFrom, Some(row.latest),
             row.reconciliation)
  }

  function Target(req: Request): ResId {
    if req.intent.resource.Some? then req.intent.resource.value else req.newResource
  }

  function CostBefore(db: Db, resource: ResId): Cost {
    if resource in db.rows then db.rows[resource].cost else 0
  }

  /** Why acceptance refuses once no operation holds the resource, or None. */
  ghost function Admission(db: Db, req: Request): Option<Refusal> {
    var id := Target(req);
    var action := req.intent.action;
    if id in db.rows && req.resolved.previousOp != Some(db.rows[id].latest) then Some(ResourceChanged)
    else if action.DriftCheck? && (id !in db.rows || !db.rows[id].state.Ready?) then Some(NotReady)
    else if req.budget.Some?
            && Reserved(db.rows, req.resolved.zone, Some(id)) + req.budget.value.legacy
               + Max(CostBefore(db, id), req.resolved.cost) > req.budget.value.limit
    then Some(BudgetExceeded)
    else if action.Destroy? && Referenced(db, id) then Some(ResourceReferenced)
    else if BadReference(db, req.resolved.refs) then Some(ReferenceNotReady)
    else None
  }

  function NewOp(db: Db, req: Request, t: Time): Op {
    var id := Target(req);
    var previous := if req.intent.action.Deploy? then Some(CostBefore(db, id)) else None;
    Op(req.newOp, id,
       Terms(req.actor, req.key, req.intent, req.resolved.zone, req.resolved.cost,
             req.resolved.refs, req.resolved.spec, req.resolved.promotedFrom, previous, t),
       Queued, t, None, None, None, None, [], None, false, false, req.resolved.reconciliation)
  }

  /** The row after acceptance: the known definition stays, the cost of a deploy is reserved. */
  function NewRow(db: Db, req: Request, t: Time): Row {
    var id := Target(req);
    var row := if id in db.rows then db.rows[id]
               else Row(id, req.actor, req.resolved.zone, req.newOp, Pending, req.resolved.cost,
                        req.resolved.refs, req.resolved.spec, req.resolved.promotedFrom, t, None,
                        None, DriftView(None, None, None, false), req.resolved.reconciliation);
    var row := if req.intent.action.Deploy?
               then row.(cost := Max(CostBefore(db, id), req.resolved.cost)) else row;
    row.(latest := req.newOp)
  }

  function Enter(db: Db, req: Request, t: Time): Db {
    Db(db.ops[req.newOp := NewOp(db, req, t)], db.order + [req.newOp],
       if req.intent.action.DriftCheck? then db.rows
       else db.rows[Target(req) := NewRow(db, req, t)],
       db.events + [About(req.newOp, req.actor, Created, t)])
  }

  datatype Verdict = Rejected(why: Refusal) | Replayed(op: Op)
                   | Accepted(db: Db, op: Op, expired: Option<OpId>)

  /** The tables after the lazy expiry of whatever plan blocks the resource. */
  function Unblocked(db: Db, req: Request, age: Option<nat>, t: Time): Db {
    var busy := FindBusy(db, Target(req));
    if busy.Some? && PlanExpired(db.ops[busy.value], age, t)
    then Release(db, db.ops[busy.value], req.actor, Expired, t) else db
  }

  /** `_accept`: one intent inside the caller's transaction. */
  ghost function Accept(db: Db, req: Request, age: Option<nat>, t: Time): Verdict {
    var existing := FindKey(db, req.actor, req.key);
    if existing.Some? then
      if db.ops[existing.value].terms.intent != req.intent then Rejected(KeyReused)
      else Replayed(db.ops[existing.value])
    else if !req.placed then Rejected(PlacementStale)
    else
      var busy := FindBusy(db, Target(req));
      if busy.Some? && !PlanExpired(db.ops[busy.value], age, t) then
        Rejected(ResourceBusy(busy.value))
      else
        var db' := Unblocked(db, req, age, t);
        var problem := Admission(db', req);
        if problem.Some? then Rejected(problem.value)
        else Accepted(Enter(db', req, t), NewOp(db', req, t), busy)
  }

  ghost function AcceptDb(db: Db, req: Request, age: Option<nat>, t: Time): Db {
    var verdict := Accept(db, req, age, t);
    if verdict.Accepted? then verdict.db else db
  }
}
