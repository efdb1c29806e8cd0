/** Every step of a run is at most two primitive changes to the tables, and every primitive change
    keeps the ledger sound. */
module LedgerSafety {
  import opened LedgerModel
  import opened LedgerRuns

  datatype Change =
    | Nothing
    | Moves(op: Op, events: seq<Event>, clean: DriftStatus)
    | Enters(req: Request)
    | Stamps(resource: ResId, unknown: bool)
    | Remarks(event: Event)

  ghost function Apply(db: Db, change: Change, t: Time): Db {
    match change
    case Nothing => db
    case Moves(op, events, clean) => Move(db, op, events, t, clean)
    case Enters(req) => Enter(db, req, t)
    case Stamps(resource, unknown) => Stamp(db, resource, unknown, t)
    case Remarks(event) => db.(events := db.events + [event])
  }

  /** Nothing holds the target, nothing else used the key, and acceptance has no objection. */
  ghost predicate Enterable(db: Db, req: Request) {
    && Validated(db, req)
    && KeyFree(db, req.actor, req.key)
    && ResourceFree(db, Target(req))
    && Admission(db, req).None?
  }

  ghost predicate KeyFree(db: Db, actor: Actor, key: Key) {
    forall id {:trigger db.ops[id]} ::
      id in db.ops ==> !(db.ops[id].terms.actor == actor && db.ops[id].terms.key == key)
  }

  ghost predicate ResourceFree(db: Db, r: ResId) {
    forall id {:trigger db.ops[id]} ::
      id in db.ops && db.ops[id].resource == r ==> db.ops[id].Finished()
  }

  ghost predicate Legal(db: Db, change: Change, t: Time) {
    match change
    case Nothing => true
    case Moves(op, events, clean) =>
      && LegalMove(db, op) && Tells(op, db.ops[op.id].state, events) && op.updatedAt == t
      && (op.state.ApplyQueued? && !op.Action().Destroy? ==> !BadReference(db, op.terms.refs))
    case Enters(req) => Enterable(db, req)
    case Stamps(resource, unknown) => true
    case Remarks(event) => !event.subject.OfOperation?
  }

  // ----- The change each public function makes -----

  function Release1(op: Op, actor: Actor, kind: EventKind, t: Time): Change {
    Moves(Released(op, kind, t), [About(op.id, actor, kind, t)], InSync)
  }

  function TakeChange(db: Db, id: OpId, phase: Phase, t: Time): Change {
    if !Claimable(db, id, phase) then Nothing
    else Moves(Claimed(db, id, phase, t), [About(id, WORKER, Entered(PhaseRuns(phase)), t)], InSync)
  }

  function DeliverChange(db: Db, snapshot: Op, state: OpState, report: Report, t: Time): Change {
    if Fenced(db, snapshot) then Nothing
    else Moves(Reported(snapshot, state, report, t), [About(snapshot.id, WORKER, Entered(state), t)],
               InSync)
  }

  function InterruptChange(db: Db, id: OpId, phase: Phase, t: Time): Change {
    if !Interruptible(db, id, phase) then Nothing else
    var state := if db.ops[id].Action().DriftCheck? then Failed else Uncertain;
    Moves(db.ops[id].(state := state, updatedAt := t), [About(id, WORKER, Entered(state), t)], InSync)
  }

  function ExecuteChange(db: Db, id: OpId, digest: Digest, actor: Actor, age: Option<nat>, t: Time)
    : Change
  {
    match ExecuteAnswer(db, id, digest, age, t)
    case Changed =>
      Moves(db.ops[id].(state := ApplyQueued, updatedAt := t), [About(id, actor, Executed, t)], InSync)
    case Refuse(why) =>
      if why.PlanTooOld? then Release1(db.ops[id], actor, Expired, t) else Nothing
    case Unchanged => Nothing
  }

  function DiscardChange(db: Db, id: OpId, actor: Actor, t: Time): Change {
    if !DiscardAnswer(db, id).Changed? then Nothing
    else Release1(db.ops[id], actor, Discarded, t)
  }

  function ReconcileChange(db: Db, id: OpId, actor: Actor, outcome: Outcome, t: Time): Change {
    if !ReconcileAnswer(db, id, outcome).Changed? then Nothing else
    var state := if outcome.FoundSucceeded? then Succeeded else Failed;
    Moves(db.ops[id].(state := state, updatedAt := t, reconciliation := Some(outcome)),
          [About(id, actor, Reconciled, t), About(id, actor, Entered(state), t)], Unknown)
  }

  ghost predicate Accepts(db: Db, req: Request, age: Option<nat>, t: Time) {
    Validated(db, req) && Accept(db, req, age, t).Accepted?
  }

  /** The lazy expiry inside an acceptance. */
  function UnblockChange(db: Db, req: Request, t: Time): Change {
    var busy := FindBusy(db, Target(req));
    if busy.None? then Nothing else Release1(db.ops[busy.value], req.actor, Expired, t)
  }

  /** The first primitive change of a step, and the second, which only an acceptance has. */
  ghost function FirstChange(w: World, step: Step, t: Time): Change {
    match step
    case Submit(req, age) => if Accepts(w.db, req, age, t) then UnblockChange(w.db, req, t) else Nothing
    case Take(id, phase) => TakeChange(w.db, id, phase, t)
    case Deliver(snapshot, state, report) =>
      if snapshot in w.held && Reportable(snapshot, state, report)
      then DeliverChange(w.db, snapshot, state, report, t) else Nothing
    case Interrupt(id, phase) => InterruptChange(w.db, id, phase, t)
    case Approve(id, digest, actor, age) => ExecuteChange(w.db, id, digest, actor, age, t)
    case Drop(id, actor) => DiscardChange(w.db, id, actor, t)
    case Resolve(id, actor, outcome) => ReconcileChange(w.db, id, actor, outcome, t)
    case StampRefusal(resource, unknown) => Stamps(resource, unknown)
    case Remark(subject, actor, text) =>
      if subject.OfOperation? then Nothing else Remarks(Event(subject, actor, Note(text), t))
  }

  ghost function SecondChange(w: World, step: Step, t: Time): Change {
    if step.Submit? && Accepts(w.db, step.req, step.age, t) then Enters(step.req) else Nothing
  }

  ghost predicate Makes(db: Db, after: Db, change: Change, t: Time) {
    Legal(db, change, t) && after == Apply(db, change, t)
  }

  lemma TakeMakes(db: Db, id: OpId, phase: Phase, t: Time)
    requires OpsSound(db)
    ensures Makes(db, Claim(db, id, phase, t), TakeChange(db, id, phase, t), t)
  {
    if id in db.ops { assert OpSound(db, id); }
  }

  lemma DeliverMakes(w: World, snapshot: Op, state: OpState, report: Report, t: Time)
    requires SoundWorld(w) && snapshot in w.held && Reportable(snapshot, state, report)
    ensures Makes(w.db, Finish(w.db, snapshot, state, report, t),
                  DeliverChange(w.db, snapshot, state, report, t), t)
  {
    hide Settled, Ordered, AllApart, Audited;
    assert Current(w.db, snapshot);
    assert OpSound(w.db, snapshot.id);
  }

  lemma InterruptMakes(db: Db, id: OpId, phase: Phase, t: Time)
    requires OpsSound(db)
    ensures Makes(db, Interrupted(db, id, phase, t), InterruptChange(db, id, phase, t), t)
  {
    if id in db.ops { assert OpSound(db, id); }
  }

  lemma ReleaseMakes(db: Db, id: OpId, actor: Actor, kind: EventKind, t: Time)
    requires OpsSound(db) && id in db.ops && db.ops[id].state.Planned?
    requires kind.Expired? || kind.Discarded?
    ensures Makes(db, Release(db, db.ops[id], actor, kind, t), Release1(db.ops[id], actor, kind, t), t)
  {
    assert OpSound(db, id);
  }

  lemma ExecuteMakes(db: Db, id: OpId, digest: Digest, actor: Actor, age: Option<nat>, t: Time)
    requires OpsSound(db)
    ensures Makes(db, Execute(db, id, digest, actor, age, t),
                  ExecuteChange(db, id, digest, actor, age, t), t)
  {
    if id in db.ops && db.ops[id].state.Planned? {
      assert OpSound(db, id);
      ReleaseMakes(db, id, actor, Expired, t);
    }
  }

  lemma DiscardMakes(db: Db, id: OpId, actor: Actor, t: Time)
    requires OpsSound(db)
    ensures Makes(db, Discard(db, id, actor, t), DiscardChange(db, id, actor, t), t)
  {
    if DiscardAnswer(db, id).Changed? { ReleaseMakes(db, id, actor, Discarded, t); }
  }

  lemma ReconcileMakes(db: Db, id: OpId, actor: Actor, outcome: Outcome, t: Time)
    requires OpsSound(db)
    ensures Makes(db, Reconcile(db, id, actor, outcome, t), ReconcileChange(db, id, actor, outcome, t), t)
  {
    if id in db.ops { assert OpSound(db, id); }
  }

  lemma UnblockMakes(db: Db, req: Request, age: Option<nat>, t: Time)
    requires OpsSound(db) && Accept(db, req, age, t).Accepted?
    ensures Makes(db, Unblocked(db, req, age, t), UnblockChange(db, req, t), t)
  {
    var busy := FindBusy(db, Target(req));
    if busy.Some? { ReleaseMakes(db, busy.value, req.actor, Expired, t); }
  }

  // ----- Acceptance -----

  lemma FindKeyNone(db: Db, actor: Actor, key: Key)
    requires Ordered(db)
    ensures FindKey(db, actor, key).None? <==> KeyFree(db, actor, key)
  {
  }

  lemma FindBusyNone(db: Db, r: ResId)
    requires Ordered(db)
    ensures FindBusy(db, r).None? <==> ResourceFree(db, r)
  {
  }

  /** Failing the one unfinished operation of a resource frees it, and nothing validated changes. */
  lemma ReleaseFrees(db: Db, after: Db, op: Op, req: Request)
    requires AllApart(db) && Validated(db, req)
    requires LegalMove(db, op) && Moved(db, after, op)
    requires op.Finished() && !db.ops[op.id].Finished() && op.resource == Target(req)
    requires KeyFree(db, req.actor, req.key)
    ensures Validated(after, req)
    ensures KeyFree(after, req.actor, req.key)
    ensures ResourceFree(after, Target(req))
  {
    forall id | id in after.ops && after.ops[id].resource == Target(req)
      ensures after.ops[id].Finished()
    {
      if id != op.id { assert Apart(db.ops[id], db.ops[op.id]); }
    }
  }

  lemma ExpiryFrees(db: Db, id: OpId, req: Request, t: Time)
    requires OpsSound(db) && RowsSound(db) && AllApart(db) && Validated(db, req)
    requires id in db.ops && db.ops[id].state.Planned? && db.ops[id].resource == Target(req)
    requires KeyFree(db, req.actor, req.key)
    ensures var after := Release(db, db.ops[id], req.actor, Expired, t);
            Validated(after, req) && KeyFree(after, req.actor, req.key)
            && ResourceFree(after, Target(req))
  {
    var op := Released(db.ops[id], Expired, t);
    assert OpSound(db, id);
    MoveIsMoved(db, op, [About(op.id, req.actor, Expired, t)], t, InSync);
    ReleaseFrees(db, Release(db, db.ops[id], req.actor, Expired, t), op, req);
  }

  lemma AcceptedMeans(db: Db, req: Request, age: Option<nat>, t: Time)
    requires Accept(db, req, age, t).Accepted?
    ensures FindKey(db, req.actor, req.key).None?
    ensures var busy := FindBusy(db, Target(req));
            busy.Some? ==> db.ops[busy.value].state.Planned?
                           && Unblocked(db, req, age, t)
                              == Release(db, db.ops[busy.value], req.actor, Expired, t)
    ensures FindBusy(db, Target(req)).None? ==> Unblocked(db, req, age, t) == db
    ensures Admission(Unblocked(db, req, age, t), req).None?
    ensures AcceptDb(db, req, age, t) == Enter(Unblocked(db, req, age, t), req, t)
  {
  }

  /** Once the blocking plan has expired the resource is free and acceptance may go on. */
  lemma UnblockedIsEnterable(db: Db, req: Request, age: Option<nat>, t: Time)
    requires Sound(db) && Accepts(db, req, age, t)
    ensures Enterable(Unblocked(db, req, age, t), req)
  {
    AcceptedMeans(db, req, age, t);
    FindKeyNone(db, req.actor, req.key);
    FindBusyNone(db, Target(req));
    var busy := FindBusy(db, Target(req));
    if busy.Some? {
      ExpiryFrees(db, busy.value, req, t);
    }
  }

  lemma NewOpSound(db: Db, req: Request, t: Time)
    requires OpsSound(db) && Enterable(db, req)
    ensures var after := Enter(db, req, t); OpSound(after, req.newOp)
  {
  }

  lemma EnterKeepsOps(db: Db, req: Request, t: Time)
    requires Ordered(db) && OpsSound(db) && Enterable(db, req)
    ensures OpsSound(Enter(db, req, t))
  {
    var after := Enter(db, req, t);
    NewOpSound(db, req, t);
    forall id | id in after.ops ensures OpSound(after, id) {
      if id != req.newOp { assert OpSound(db, id); }
    }
  }

  lemma EnterKeepsRows(db: Db, req: Request, t: Time)
    requires RowsSound(db) && Enterable(db, req)
    ensures RowsSound(Enter(db, req, t))
  {
    var after := Enter(db, req, t);
    forall r | r in after.rows ensures RowSound(after, r) {
      if r in db.rows { assert RowSound(db, r); }
    }
  }

  lemma EnterKeepsApart(db: Db, req: Request, t: Time)
    requires Ordered(db) && AllApart(db) && Enterable(db, req)
    ensures AllApart(Enter(db, req, t))
  {
    var after := Enter(db, req, t);
    forall a, b | a in after.ops && b in after.ops && a != b
      ensures Apart(after.ops[a], after.ops[b])
    {
      if a != req.newOp && b != req.newOp { assert Apart(db.ops[a], db.ops[b]); }
    }
  }

  lemma EnterKeepsAudit(db: Db, req: Request, t: Time)
    requires Audited(db) && Enterable(db, req)
    ensures Audited(Enter(db, req, t))
  {
    var after := Enter(db, req, t);
    var e := About(req.newOp, req.actor, Created, t);
    forall id ensures Told(after, id) {
      assert Told(db, id);
      TrailAppend(db.events, [e], id);
      TrailOfOne([e], req.newOp, id);
      if id == req.newOp {
        assert Trail(after.events, id) == [] + [e];
      } else {
        assert Trail(after.events, id) == Trail(db.events, id);
      }
    }
  }

  lemma EnterKeepsSound(db: Db, req: Request, t: Time)
    requires Sound(db) && Enterable(db, req)
    ensures Sound(Enter(db, req, t))
  {
    EnterKeepsOps(db, req, t);
    EnterKeepsRows(db, req, t);
    EnterKeepsApart(db, req, t);
    EnterKeepsAudit(db, req, t);
  }

  lemma StampKeepsSound(db: Db, resource: ResId, unknown: bool, t: Time)
    requires Sound(db)
    ensures Sound(Stamp(db, resource, unknown, t))
  {
    var after := Stamp(db, resource, unknown, t);
    forall id | id in after.ops ensures OpSound(after, id) { assert OpSound(db, id); }
    forall r | r in after.rows ensures RowSound(after, r) { assert RowSound(db, r); }
    forall id ensures Told(after, id) { assert Told(db, id); }
  }

  lemma {:induction false} TrailOfNone(e: Event, id: OpId)
    requires !IsAbout(e, id)
    ensures Trail([e], id) == []
  {
    assert [e][..0] == [];
  }

  lemma RemarkKeepsSound(db: Db, e: Event)
    requires Sound(db) && !e.subject.OfOperation?
    ensures Sound(db.(events := db.events + [e]))
  {
    var after := db.(events := db.events + [e]);
    forall id | id in after.ops ensures OpSound(after, id) { assert OpSound(db, id); }
    forall r | r in after.rows ensures RowSound(after, r) { assert RowSound(db, r); }
    forall id ensures Told(after, id) {
      assert Told(db, id);
      TrailAppend(db.events, [e], id);
      TrailOfNone(e, id);
      assert Trail(after.events, id) == Trail(db.events, id);
    }
  }

  lemma LegalKeepsSound(db: Db, change: Change, t: Time)
    requires Sound(db) && Legal(db, change, t)
    ensures Sound(Apply(db, change, t))
  {
    match change
    case Nothing =>
    case Moves(op, events, clean) => MoveKeepsSound(db, op, events, t, clean);
    case Enters(req) => EnterKeepsSound(db, req, t);
    case Stamps(resource, unknown) => StampKeepsSound(db, resource, unknown, t);
    case Remarks(event) => RemarkKeepsSound(db, event);
  }

  /** Every step is its two primitive changes, both legal. */
  lemma NextMakes(w: World, step: Step, t: Time)
    requires SoundWorld(w)
    ensures Legal(w.db, FirstChange(w, step, t), t)
    ensures var mid := Apply(w.db, FirstChange(w, step, t), t);
            && Sound(mid)
            && Legal(mid, SecondChange(w, step, t), t)
            && Next(w, step, t).db == Apply(mid, SecondChange(w, step, t), t)
  {
    match step {
      case Submit(req, age) =>
        if Accepts(w.db, req, age, t) {
          UnblockMakes(w.db, req, age, t);
          UnblockedIsEnterable(w.db, req, age, t);
          AcceptedMeans(w.db, req, age, t);
        }
      case Take(id, phase) => TakeMakes(w.db, id, phase, t);
      case Deliver(snapshot, state, report) =>
        if snapshot in w.held && Reportable(snapshot, state, report) {
          DeliverMakes(w, snapshot, state, report, t);
        }
      case Interrupt(id, phase) => InterruptMakes(w.db, id, phase, t);
      case Approve(id, digest, actor, age) => ExecuteMakes(w.db, id, digest, actor, age, t);
      case Drop(id, actor) => DiscardMakes(w.db, id, actor, t);
      case Resolve(id, actor, outcome) => ReconcileMakes(w.db, id, actor, outcome, t);
      case StampRefusal(resource, unknown) =>
      case Remark(subject, actor, text) =>
    }
    LegalKeepsSound(w.db, FirstChange(w, step, t), t);
  }

  // ----- The snapshots activities hold -----

  lemma ChangeKeepsClaims(w: World, change: Change, t: Time)
    requires ClaimsSound(w) && Legal(w.db, change, t)
    requires change.Moves? ==> !change.op.state.Planning? && !change.op.state.Applying?
    ensures ClaimsSound(w.(db := Apply(w.db, change, t)))
  {
    var after := w.(db := Apply(w.db, change, t));
    if change.Moves? {
      forall h | h in w.held && h.id == change.op.id ensures h.state != change.op.state {
        assert Current(w.db, h);
      }
      MoveKeepsClaims(w, change.op, change.events, t, change.clean);
    } else {
      forall h | h in after.held ensures Current(after.db, h) {
        assert Current(w.db, h);
      }
    }
  }

  /** A phase can only be claimed when no activity has ever held it. */
  lemma TakeKeepsClaims(w: World, id: OpId, phase: Phase, t: Time)
    requires OpsSound(w.db) && ClaimsSound(w) && Claimable(w.db, id, phase)
    ensures ClaimsSound(Next(w, Take(id, phase), t))
  {
    var snapshot := Claimed(w.db, id, phase, t);
    var event := About(id, WORKER, Entered(PhaseRuns(phase)), t);
    assert OpSound(w.db, id);
    forall h | h in w.held && h.id == snapshot.id ensures h.state != snapshot.state {
      assert Current(w.db, h);
    }
    TakeMakes(w.db, id, phase, t);
    MoveKeepsClaims(w, snapshot, [event], t, InSync);
    var after := Next(w, Take(id, phase), t);
    forall h | h in after.held ensures Current(after.db, h) {
      if h in w.held { assert Current(w.(db := after.db).db, h); }
    }
  }

  predicate Starts(change: Change) {
    change.Moves? && (change.op.state.Planning? || change.op.state.Applying?)
  }

  lemma OnlyTakeStarts(w: World, step: Step, t: Time)
    requires !step.Take? || !Claimable(w.db, step.id, step.phase)
    ensures !Starts(FirstChange(w, step, t)) && !Starts(SecondChange(w, step, t))
    ensures Next(w, step, t).held == w.held
  {
  }

  lemma NextKeepsClaims(w: World, step: Step, t: Time)
    requires SoundWorld(w)
    ensures ClaimsSound(Next(w, step, t))
  {
    if step.Take? && Claimable(w.db, step.id, step.phase) {
      TakeKeepsClaims(w, step.id, step.phase, t);
    } else {
      OnlyTakeStarts(w, step, t);
      NextMakes(w, step, t);
      var first, second := FirstChange(w, step, t), SecondChange(w, step, t);
      ChangeKeepsClaims(w, first, t);
      ChangeKeepsClaims(w.(db := Apply(w.db, first, t)), second, t);
    }
  }

  lemma NextKeepsSound(w: World, step: Step, t: Time)
    requires SoundWorld(w)
    ensures SoundWorld(Next(w, step, t))
  {
    NextMakes(w, step, t);
    LegalKeepsSound(Apply(w.db, FirstChange(w, step, t), t), SecondChange(w, step, t), t);
    NextKeepsClaims(w, step, t);
  }

  lemma {:induction false} RunKeepsSound(w: World, run: seq<Timed>)
    requires SoundWorld(w)
    ensures SoundWorld(Run(w, run))
  {
    if run != [] {
      var last := run[|run| - 1];
      RunKeepsSound(w, run[..|run| - 1]);
      NextKeepsSound(Run(w, run[..|run| - 1]), last.step, last.at);
    }
  }

  /** The ledger starts empty, so every run from the start is sound throughout. */
  lemma {:induction false} EveryRunIsSound(run: seq<Timed>)
    ensures SoundWorld(Run(START, run))
  {
    forall id ensures Told(EMPTY, id) { }
    RunKeepsSound(START, run);
  }

  /** What an accepted submission does to the world. */
  lemma SubmitEnters(w: World, req: Request, age: Option<nat>, t: Time)
    requires SoundWorld(w) && Accepts(w.db, req, age, t)
    ensures var after := Next(w, Submit(req, age), t);
            && SoundWorld(after) && after.held == w.held
            && Sound(Unblocked(w.db, req, age, t)) && Enterable(Unblocked(w.db, req, age, t), req)
            && after.db == Enter(Unblocked(w.db, req, age, t), req, t)
  {
    NextKeepsSound(w, Submit(req, age), t);
    NextMakes(w, Submit(req, age), t);
    UnblockMakes(w.db, req, age, t);
    UnblockedIsEnterable(w.db, req, age, t);
    AcceptedMeans(w.db, req, age, t);
  }

  lemma UnblockLeaves(w: World, req: Request, t: Time)
    requires OpsSound(w.db)
    ensures var change := UnblockChange(w.db, req, t);
            change.Moves? ==> change.op.id in w.db.ops && change.op.id == FindBusy(w.db, Target(req)).value
  {
    var busy := FindBusy(w.db, Target(req));
    if busy.Some? { assert OpSound(w.db, busy.value); }
  }

  /** Which step moves an uncertain operation: only its own reconciliation. */
  lemma OnlyResolveMovesUncertain(w: World, step: Step, t: Time)
    requires SoundWorld(w)
    ensures var change := FirstChange(w, step, t);
            change.Moves? && change.op.id in w.db.ops && w.db.ops[change.op.id].state.Uncertain? ==>
              step.Resolve? && step.id == change.op.id
              && ReconcileAnswer(w.db, step.id, step.outcome).Changed?
  {
    hide Next, Admission, BadReference, Settled, AllApart, Audited, Ordered, Unblocked;
    match step
    case Submit(req, age) =>
      if Accepts(w.db, req, age, t) {
        UnblockLeaves(w, req, t);
        AcceptedMeans(w.db, req, age, t);
      }
    case Take(id, phase) => if id in w.db.ops { assert OpSound(w.db, id); }
    case Deliver(snapshot, state, report) => if snapshot in w.held { assert Current(w.db, snapshot); }
    case Interrupt(id, phase) => if id in w.db.ops { assert OpSound(w.db, id); }
    case Approve(id, digest, actor, age) => if id in w.db.ops { assert OpSound(w.db, id); }
    case Drop(id, actor) => if id in w.db.ops { assert OpSound(w.db, id); }
    case Resolve(id, actor, outcome) => if id in w.db.ops { assert OpSound(w.db, id); }
    case StampRefusal(resource, unknown) =>
    case Remark(subject, actor, text) =>
  }
}
