/** Runs of the ledger: every public function of app/ledger.py as one atomic step over the tables
    and the snapshots that `claim` has handed to activities, and what every step keeps. */
module LedgerRuns {
  import opened LedgerModel

  /** The tables, and every snapshot `claim` returned, oldest first. An activity may go on using
      its snapshot long after `interrupted` recorded its timeout. */
  datatype World = World(db: Db, held: seq<Op>)

  datatype Step =
    | Submit(req: Request, age: Option<nat>)
    | Take(id: OpId, phase: Phase)
    | Deliver(snapshot: Op, state: OpState, report: Report)
    | Interrupt(id: OpId, phase: Phase)
    | Approve(id: OpId, digest: Digest, actor: Actor, age: Option<nat>)
    | Drop(id: OpId, actor: Actor)
    | Resolve(id: OpId, actor: Actor, outcome: Outcome)
    | StampRefusal(resource: ResId, unknown: bool)
    | Remark(subject: Subject, actor: Actor, text: nat)

  /** What the callers of `_accept` guarantee: UUIDs are new, and `policy.validate` or
      `drift.resolved` named an existing resource and kept its placement. Nothing here says the
      resource still is as it was when it was validated. */
  ghost predicate Validated(db: Db, req: Request) {
    && req.newOp !in db.ops
    && (req.intent.resource.None? ==> req.newResource !in db.rows && req.intent.action.Deploy?)
    && (req.intent.resource.Some? ==>
          Target(req) in db.rows && req.resolved.zone == db.rows[Target(req)].zone)
    && (req.budget.Some? ==> req.intent.action.Deploy?)
    && (req.resolved.reconciliation.Some? ==> req.intent.action.Destroy?)
  }

  ghost function Next(w: World, step: Step, t: Time): World {
    match step
    case Submit(req, age) =>
      if Validated(w.db, req) then w.(db := AcceptDb(w.db, req, age, t)) else w
    case Take(id, phase) =>
      if Claimable(w.db, id, phase)
      then World(Claim(w.db, id, phase, t), w.held + [Claimed(w.db, id, phase, t)]) else w
    case Deliver(snapshot, state, report) =>
      if snapshot in w.held && Reportable(snapshot, state, report)
      then w.(db := Finish(w.db, snapshot, state, report, t)) else w
    case Interrupt(id, phase) => w.(db := Interrupted(w.db, id, phase, t))
    case Approve(id, digest, actor, age) => w.(db := Execute(w.db, id, digest, actor, age, t))
    case Drop(id, actor) => w.(db := Discard(w.db, id, actor, t))
    case Resolve(id, actor, outcome) => w.(db := Reconcile(w.db, id, actor, outcome, t))
    case StampRefusal(resource, unknown) => w.(db := Stamp(w.db, resource, unknown, t))
    case Remark(subject, actor, text) =>
      if subject.OfOperation? then w
      else w.(db := w.db.(events := w.db.events + [Event(subject, actor, Note(text), t)]))
  }

  /** A run is a list of timed steps; `now()` never goes back. */
  datatype Timed = Timed(step: Step, at: Time)

  ghost predicate Chronological(run: seq<Timed>) {
    forall i, j :: 0 <= i < j < |run| ==> run[i].at <= run[j].at
  }

  ghost function Run(w: World, run: seq<Timed>): World {
    if run == [] then w
    else Next(Run(w, run[..|run| - 1]), run[|run| - 1].step, run[|run| - 1].at)
  }

  const START := World(EMPTY, [])

  // ----- The state machine of one operation -----

  predicate Edge(action: Action, before: OpState, after: OpState) {
    match before
    case Queued => after.Planning? || after == (if action.DriftCheck? then Failed else Uncertain)
    case Planning =>
      if action.DriftCheck? then after.Succeeded? || after.Failed?
      else after.Planned? || after.Failed? || after.Uncertain?
    case Planned => after.ApplyQueued? || after.Failed?
    case ApplyQueued => after.Applying? || after.Uncertain?
    case Applying => after.Succeeded? || after.Failed? || after.Uncertain?
    case Uncertain => after.Succeeded? || after.Failed?
    case Succeeded => false
    case Failed => false
  }

  /** Strictly decreases on every edge. */
  function Rank(state: OpState): nat {
    match state
    case Queued => 7 case Planning => 6 case Planned => 5 case ApplyQueued => 4
    case Applying => 3 case Uncertain => 2 case Succeeded => 0 case Failed => 0
  }

  ghost predicate SameTerms(a: Op, b: Op) { a.id == b.id && a.resource == b.resource && a.terms == b.terms }

  ghost predicate WellShaped(op: Op) {
    && (op.Action().DriftCheck? ==>
          (op.state.Queued? || op.state.Planning? || op.Finished()) && op.planDigest.None?)
    && (op.Action().Deploy? <==> op.terms.previousCost.Some?)
    && (op.state.Queued? || op.state.Planning? ==> op.planDigest.None?)
    && (op.state.Planned? || op.state.ApplyQueued? || op.state.Applying? ==>
          op.planDigest.Some? && op.changes.Some?)
    && (op.state.Succeeded? && !op.Action().DriftCheck? ==> op.planDigest.Some?)
    && (op.discarded || op.expired ==> op.state.Failed?)
    && (op.reconciliation.Some? ==> op.Finished() || op.Action().Destroy?)
  }

  // ----- The audit trail -----

  predicate IsAbout(e: Event, id: OpId) { e.subject == OfOperation(id) }

  function Trail(events: seq<Event>, id: OpId): seq<Event> {
    if events == [] then []
    else
      var last := events[|events| - 1];
      Trail(events[..|events| - 1], id) + if IsAbout(last, id) then [last] else []
  }

  /** One event read against the state so far; None when it is not a legal step from there. */
  function Read(action: Action, state: OpState, kind: EventKind): Option<OpState> {
    match kind
    case Entered(next) => if Edge(action, state, next) then Some(next) else None
    case Executed => if state.Planned? then Some(ApplyQueued) else None
    case Discarded => if state.Planned? then Some(Failed) else None
    case Expired => if state.Planned? then Some(Failed) else None
    case Reconciled => if state.Uncertain? then Some(Uncertain) else None
    case Created => None
    case Note(_) => None
  }

  /** The state an operation's whole trail tells; None when the trail is not a legal path. */
  function Fold(action: Action, trail: seq<Event>): Option<OpState> {
    if trail == [] then None
    else
      var last := trail[|trail| - 1].kind;
      if |trail| == 1 then if last.Created? then Some(Queued) else None
      else
        var before := Fold(action, trail[..|trail| - 1]);
        if before.None? then None else Read(action, before.value, last)
  }

  // ----- What every reachable ledger satisfies -----

  ghost predicate Ordered(db: Db) {
    && (forall id :: id in db.order <==> id in db.ops)
    && (forall i, j :: 0 <= i < j < |db.order| ==> db.order[i] != db.order[j])
  }

  /** An operation's own record, its row's placement, and what its row holds while it is
      unfinished: for a deploy, exactly the larger of the old and the requested cost. */
  ghost predicate OpSound(db: Db, id: OpId)
    requires id in db.ops
  {
    var op := db.ops[id];
    && op.id == id && WellShaped(op)
    && op.resource in db.rows && db.rows[op.resource].zone == op.terms.zone
    && (!op.Finished() && !op.Action().DriftCheck? ==> db.rows[op.resource].latest == id)
    && (!op.Finished() && op.Action().Deploy? ==>
          db.rows[op.resource].cost == Max(op.terms.previousCost.value, op.terms.cost))
  }

  ghost predicate RowSound(db: Db, r: ResId)
    requires r in db.rows
  {
    var row := db.rows[r];
    && row.id == r && row.latest in db.ops && db.ops[row.latest].resource == r
    && !db.ops[row.latest].Action().DriftCheck?
  }

  /** Two operations never share a caller's key, nor, while unfinished, a resource. */
  predicate Apart(a: Op, b: Op) {
    && !(a.terms.actor == b.terms.actor && a.terms.key == b.terms.key)
    && (a.resource == b.resource ==> a.Finished() || b.Finished())
  }

  ghost predicate OpsSound(db: Db) {
    forall id {:trigger OpSound(db, id)} :: id in db.ops ==> OpSound(db, id)
  }

  ghost predicate RowsSound(db: Db) {
    forall r {:trigger RowSound(db, r)} :: r in db.rows ==> RowSound(db, r)
  }

  ghost predicate AllApart(db: Db) {
    forall a, b {:trigger Apart(db.ops[a], db.ops[b])} ::
      a in db.ops && b in db.ops && a != b ==> Apart(db.ops[a], db.ops[b])
  }

  /** Folding an operation's events gives its state, and its trail is short. */
  ghost predicate Told(db: Db, id: OpId) {
    if id in db.ops then
      && Fold(db.ops[id].Action(), Trail(db.events, id)) == Some(db.ops[id].state)
      && |Trail(db.events, id)| + Rank(db.ops[id].state) <= 8
    else Trail(db.events, id) == []
  }

  ghost predicate Audited(db: Db) { forall id {:trigger Told(db, id)} :: Told(db, id) }

  ghost predicate Sound(db: Db) {
    Ordered(db) && OpsSound(db) && RowsSound(db) && AllApart(db) && Audited(db)
  }

  /** A snapshot is the stored record for as long as its state is the stored state. */
  ghost predicate Current(db: Db, snapshot: Op) {
    && snapshot.id in db.ops
    && SameTerms(db.ops[snapshot.id], snapshot)
    && (snapshot.state.Planning? || snapshot.state.Applying?)
    && Rank(db.ops[snapshot.id].state) <= Rank(snapshot.state)
    && (db.ops[snapshot.id].state == snapshot.state ==> db.ops[snapshot.id] == snapshot)
  }

  ghost predicate ClaimsSound(w: World) {
    && (forall h {:trigger Current(w.db, h)} :: h in w.held ==> Current(w.db, h))
    && (forall i, j :: 0 <= i < j < |w.held| ==>
          w.held[i].id != w.held[j].id || w.held[i].state != w.held[j].state)
  }

  ghost predicate SoundWorld(w: World) { Sound(w.db) && ClaimsSound(w) }

  // ----- Legal moves keep it -----

  ghost predicate LegalMove(db: Db, op: Op) {
    && op.id in db.ops
    && SameTerms(db.ops[op.id], op)
    && WellShaped(op)
    && Edge(op.Action(), db.ops[op.id].state, op.state)
    && (!op.Finished() ==> op.reconciliation == db.ops[op.id].reconciliation)
    && (!op.state.Planned? ==> op.planDigest == db.ops[op.id].planDigest
                               && op.changes == db.ops[op.id].changes)
  }

  /** The events of a move tell exactly that move; a reconciliation is told by two. */
  ghost predicate Tells(op: Op, before: OpState, events: seq<Event>) {
    && (forall i :: 0 <= i < |events| ==> IsAbout(events[i], op.id))
    && (|events| == 1 || (|events| == 2 && before.Uncertain? && events[0].kind.Reconciled?))
    && Read(op.Action(), before, events[|events| - 1].kind) == Some(op.state)
  }

  lemma {:induction false} TrailAppend(events: seq<Event>, more: seq<Event>, id: OpId)
    ensures Trail(events + more, id) == Trail(events, id) + Trail(more, id)
  {
    if more == [] {
      assert events + more == events;
    } else {
      TrailAppend(events, more[..|more| - 1], id);
      assert (events + more)[..|events + more| - 1] == events + more[..|more| - 1];
    }
  }

  lemma {:induction false} TrailOfOne(events: seq<Event>, op: OpId, id: OpId)
    requires forall i :: 0 <= i < |events| ==> IsAbout(events[i], op)
    ensures Trail(events, id) == if id == op then events else []
  {
    if events != [] {
      TrailOfOne(events[..|events| - 1], op, id);
    }
  }

  lemma {:induction false} FoldAppend(action: Action, trail: seq<Event>, e: Event)
    requires Fold(action, trail).Some?
    ensures Fold(action, trail + [e]) == Read(action, Fold(action, trail).value, e.kind)
  {
    assert (trail + [e])[..|trail|] == trail;
  }

  lemma {:induction false} FoldTelling(op: Op, before: OpState, trail: seq<Event>, events: seq<Event>)
    requires Fold(op.Action(), trail) == Some(before) && Tells(op, before, events)
    requires Edge(op.Action(), before, op.state)
    ensures Fold(op.Action(), trail + events) == Some(op.state)
    ensures |events| + Rank(op.state) <= Rank(before)
  {
    FoldAppend(op.Action(), trail, events[0]);
    if |events| == 1 {
      assert events == [events[0]];
    } else {
      FoldAppend(op.Action(), trail + [events[0]], events[1]);
      assert trail + events == (trail + [events[0]]) + [events[1]];
    }
  }

  /** What a move does to the tables, as far as the invariants care. */
  ghost predicate Moved(db: Db, after: Db, op: Op) {
    && after.order == db.order && after.ops == db.ops[op.id := op]
    && after.rows.Keys == db.rows.Keys
    && (forall r :: r in db.rows && r != op.resource ==> after.rows[r] == db.rows[r])
    && op.resource in db.rows
    && SameIdentity(db.rows[op.resource], after.rows[op.resource])
    && after.rows[op.resource].cost == SettledCost(op, db.rows[op.resource].cost)
  }

  predicate SameIdentity(a: Row, b: Row) { a.id == b.id && a.zone == b.zone && a.latest == b.latest }

  function SettledCost(op: Op, cost: Cost): Cost {
    if op.Action().DriftCheck? then cost
    else if op.state.Succeeded? then op.terms.cost
    else if op.state.Failed? && op.terms.previousCost.Some? then op.terms.previousCost.value
    else cost
  }

  lemma MoveIsMoved(db: Db, op: Op, events: seq<Event>, t: Time, clean: DriftStatus)
    requires OpsSound(db) && RowsSound(db) && LegalMove(db, op)
    ensures Moved(db, Move(db, op, events, t, clean), op)
  {
    assert OpSound(db, op.id) && RowSound(db, op.resource);
  }

  lemma MovedKeepsOps(db: Db, after: Db, op: Op)
    requires OpsSound(db) && AllApart(db) && LegalMove(db, op) && Moved(db, after, op)
    ensures OpsSound(after)
  {
    forall id | id in after.ops ensures OpSound(after, id) {
      assert OpSound(db, id);
      assert id != op.id ==> Apart(db.ops[id], db.ops[op.id]);
    }
  }

  lemma MovedKeepsRows(db: Db, after: Db, op: Op)
    requires RowsSound(db) && LegalMove(db, op) && Moved(db, after, op)
    ensures RowsSound(after)
  {
    forall r | r in after.rows ensures RowSound(after, r) {
      assert RowSound(db, r);
    }
  }

  lemma MovedKeepsApart(db: Db, after: Db, op: Op)
    requires AllApart(db) && LegalMove(db, op) && Moved(db, after, op)
    ensures AllApart(after)
  {
    forall a, b | a in after.ops && b in after.ops && a != b
      ensures Apart(after.ops[a], after.ops[b])
    {
      assert Apart(db.ops[a], db.ops[b]);
    }
  }

  lemma MovedKeepsOrder(db: Db, after: Db, op: Op)
    requires Ordered(db) && LegalMove(db, op) && Moved(db, after, op)
    ensures Ordered(after)
  {
  }

  lemma MoveKeepsAudit(db: Db, op: Op, events: seq<Event>, t: Time, clean: DriftStatus)
    requires Audited(db) && LegalMove(db, op) && Tells(op, db.ops[op.id].state, events)
    ensures Audited(Move(db, op, events, t, clean))
  {
    var after := Move(db, op, events, t, clean);
    forall id ensures Told(after, id) {
      assert Told(db, id);
      TrailAppend(db.events, events, id);
      TrailOfOne(events, op.id, id);
      if id == op.id {
        FoldTelling(op, db.ops[id].state, Trail(db.events, id), events);
      } else {
        assert Trail(after.events, id) == Trail(db.events, id);
      }
    }
  }

  lemma MoveKeepsSound(db: Db, op: Op, events: seq<Event>, t: Time, clean: DriftStatus)
    requires Sound(db) && LegalMove(db, op) && Tells(op, db.ops[op.id].state, events)
    ensures Sound(Move(db, op, events, t, clean))
    ensures Moved(db, Move(db, op, events, t, clean), op)
  {
    var after := Move(db, op, events, t, clean);
    MoveIsMoved(db, op, events, t, clean);
    MovedKeepsOps(db, after, op);
    MovedKeepsRows(db, after, op);
    MovedKeepsApart(db, after, op);
    MovedKeepsOrder(db, after, op);
    MoveKeepsAudit(db, op, events, t, clean);
  }

  lemma MoveKeepsClaims(w: World, op: Op, events: seq<Event>, t: Time, clean: DriftStatus)
    requires ClaimsSound(w) && LegalMove(w.db, op)
    requires forall h :: h in w.held && h.id == op.id ==> h.state != op.state
    ensures ClaimsSound(w.(db := Move(w.db, op, events, t, clean)))
  {
    var after := w.(db := Move(w.db, op, events, t, clean));
    forall h | h in after.held ensures Current(after.db, h) {
      assert Current(w.db, h);
    }
  }
}
