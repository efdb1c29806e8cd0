/** When an operator can resolve an uncertain operation, and when nobody ever can. */
module Reconciliation {
  import opened LedgerModel
  import opened LedgerRuns
  import opened LedgerSafety
  import opened LedgerTheorems
  import opened Lifecycles

  /** A reconciliation resolves an uncertain operation exactly when the operation carries no
      earlier record and the outcome is one it can have had. */
  lemma ReconcileResolvesExactly(db: Db, id: OpId, actor: Actor, outcome: Outcome, t: Time)
    requires OpsSound(db) && id in db.ops && db.ops[id].state.Uncertain?
    ensures Reconcile(db, id, actor, outcome, t).ops[id].Finished()
            <==> db.ops[id].reconciliation.None?
                 && (outcome.FoundFailed? || db.ops[id].planDigest.Some?)
  {
    assert OpSound(db, id);
  }

  lemma {:induction false} ResolvableFrom(w: World, id: OpId, run: seq<Timed>, actor: Actor, t: Time)
    requires SoundWorld(w) && id in w.db.ops && !w.db.ops[id].Finished()
    requires id in Run(w, run).db.ops && Run(w, run).db.ops[id].state.Uncertain?
    ensures Reconcile(Run(w, run).db, id, actor, FoundFailed, t).ops[id].Finished()
            <==> w.db.ops[id].reconciliation.None?
  {
    RunsGoForward(w, run, id);
    RunKeepsSound(w, run);
    ReconcileResolvesExactly(Run(w, run).db, id, actor, FoundFailed, t);
  }

  /** Accept any operation and let anything happen: if it then is uncertain, an operator can
      resolve it as failed if and only if it was not accepted with a reconciliation record. Only a
      destroy of a resource whose last success was itself a reconciliation is. */
  lemma {:induction false} ResolvableIffNothingInherited(
      w: World, req: Request, age: Option<nat>, t: Time, run: seq<Timed>, actor: Actor, later: Time)
    requires SoundWorld(w) && Accepts(w.db, req, age, t)
    ensures var after := Run(Next(w, Submit(req, age), t), run).db;
            && req.newOp in after.ops
            && (after.ops[req.newOp].state.Uncertain? ==>
                  (Reconcile(after, req.newOp, actor, FoundFailed, later).ops[req.newOp].Finished()
                   <==> req.resolved.reconciliation.None?))
            && (req.resolved.reconciliation.Some? ==> req.intent.action.Destroy?)
  {
    hide Run, Next, Admission, Sound, ClaimsSound, Unblocked, Reconcile;
    SubmitEnters(w, req, age, t);
    var accepted := Next(w, Submit(req, age), t);
    RunsGoForward(accepted, run, req.newOp);
    if Run(accepted, run).db.ops[req.newOp].state.Uncertain? {
      ResolvableFrom(accepted, req.newOp, run, actor, later);
    }
  }

  /** An uncertain operation with an inherited record. */
  ghost predicate Stuck(w: World, id: OpId) {
    id in w.db.ops && w.db.ops[id].state.Uncertain? && w.db.ops[id].reconciliation.Some?
  }

  lemma OthersLeaveStuck(db: Db, change: Change, t: Time, id: OpId)
    requires Legal(db, change, t) && id in db.ops && (change.Moves? ==> change.op.id != id)
    ensures id in Apply(db, change, t).ops && Apply(db, change, t).ops[id] == db.ops[id]
  {
  }

  lemma StuckRefuses(w: World, id: OpId, outcome: Outcome)
    requires Stuck(w, id)
    ensures !ReconcileAnswer(w.db, id, outcome).Changed?
  {
  }

  lemma StepLeavesStuck(w: World, id: OpId, step: Step, t: Time)
    requires SoundWorld(w) && Stuck(w, id)
    ensures var after := Next(w, step, t); Stuck(after, id) && after.db.ops[id] == w.db.ops[id]
  {
    hide Next, Apply, FirstChange, ReconcileAnswer;
    OnlyResolveMovesUncertain(w, step, t);
    if step.Resolve? && step.id == id { StuckRefuses(w, id, step.outcome); }
    NextMakes(w, step, t);
    var mid := Apply(w.db, FirstChange(w, step, t), t);
    OthersLeaveStuck(w.db, FirstChange(w, step, t), t, id);
    OthersLeaveStuck(mid, SecondChange(w, step, t), t, id);
  }

  /** Nothing anyone does ever moves it again, and its resource accepts no further work. */
  lemma {:induction false} StuckForever(w: World, id: OpId, run: seq<Timed>)
    requires SoundWorld(w) && Stuck(w, id)
    ensures Stuck(Run(w, run), id) && Run(w, run).db.ops[id] == w.db.ops[id]
    ensures !ResourceFree(Run(w, run).db, w.db.ops[id].resource)
  {
    if run != [] {
      var last := run[|run| - 1];
      StuckForever(w, id, run[..|run| - 1]);
      RunKeepsSound(w, run[..|run| - 1]);
      StepLeavesStuck(Run(w, run[..|run| - 1]), id, last.step, last.at);
    }
  }

  function DestroyAfter(row: Row): Request {
    Request(1, CallerKey(1), Intent(Destroy, Some(row.id), 0), ResolvedForDestroy(row), None, true, 1, 0)
  }

  lemma InterruptApply(w: World, id: OpId, t: Time)
    requires SoundWorld(w) && id in w.db.ops && w.db.ops[id].state.Applying?
    requires w.db.ops[id].Action().Deploy?
    ensures OnlyOp(w, Next(w, Interrupt(id, ApplyPhase), t), id, Uncertain)
    ensures Next(w, Interrupt(id, ApplyPhase), t).db.ops[id].planDigest == w.db.ops[id].planDigest
  {
    hide Sound, ClaimsSound;
    NextKeepsSound(w, Interrupt(id, ApplyPhase), t);
    OpIsSound(w, id);
  }

  lemma ResolveSucceeded(w: World, id: OpId, t: Time)
    requires SoundWorld(w) && id in w.db.ops && w.db.ops[id].state.Uncertain?
    requires w.db.ops[id].Action().Deploy? && w.db.ops[id].planDigest.Some?
    ensures var after := Next(w, Resolve(id, 1, FoundSucceeded), t);
            var r := w.db.ops[id].resource;
            && SoundWorld(after) && after.db.ops.Keys == w.db.ops.Keys && r in after.db.rows
            && after.db.ops[id].Finished() && SameTerms(w.db.ops[id], after.db.ops[id])
            && after.db.rows[r].state.Ready? && after.db.rows[r].latest == id
            && after.db.rows[r].refs == w.db.ops[id].terms.refs
            && after.db.rows[r].reconciliation == Some(FoundSucceeded)
            && after.db.rows.Keys == w.db.rows.Keys
  {
    hide Sound, ClaimsSound;
    NextKeepsSound(w, Resolve(id, 1, FoundSucceeded), t);
    OpIsSound(w, id);
  }

  lemma DestroyIsStuck(w: World)
    requires SoundWorld(w) && w.db.ops.Keys == {0} && w.db.rows.Keys == {0}
    requires w.db.ops[0].Finished() && w.db.ops[0].terms.key == CallerKey(0)
    requires w.db.rows[0].state.Ready? && w.db.rows[0].refs == map[]
    requires w.db.rows[0].reconciliation.Some?
    ensures var accepted := Next(w, Submit(DestroyAfter(w.db.rows[0]), None), 1);
            Stuck(Next(accepted, Interrupt(1, PlanPhase), 2), 1)
  {
    hide Next, SoundWorld, Enterable, Stuck;
    var req := DestroyAfter(w.db.rows[0]);
    DestroyEnters(w);
    SubmitFree(w, req, None, 1);
    WaitingIsStuck(w, Next(w, Submit(req, None), 1));
  }

  lemma WaitingIsStuck(w: World, accepted: World)
    requires 0 in w.db.rows && w.db.rows[0].reconciliation.Some?
    requires accepted.db == Enter(w.db, DestroyAfter(w.db.rows[0]), 1)
    ensures Stuck(Next(accepted, Interrupt(1, PlanPhase), 2), 1)
  {
  }

  lemma DestroyEnters(w: World)
    requires SoundWorld(w) && w.db.ops.Keys == {0} && w.db.rows.Keys == {0}
    requires w.db.ops[0].Finished() && w.db.ops[0].terms.key == CallerKey(0)
    requires w.db.rows[0].state.Ready? && w.db.rows[0].refs == map[]
    ensures Enterable(w.db, DestroyAfter(w.db.rows[0]))
  {
    hide AllApart, Audited, ClaimsSound;
    assert RowSound(w.db, 0);
  }

  ghost predicate AllAt(run: seq<Timed>, t: Time) { forall i :: 0 <= i < |run| ==> run[i].at == t }

  /** The first deploy of an empty ledger, being applied. */
  lemma ApplyingDeploy() returns (run: seq<Timed>)
    ensures var w := Run(START, run);
            && SoundWorld(w) && AllAt(run, 0) && w.db.ops.Keys == {0} && w.db.rows.Keys == {0}
            && w.db.ops[0].state.Applying? && w.db.ops[0].planDigest.Some?
            && w.db.ops[0].resource == 0 && w.db.ops[0].terms == NewOp(EMPTY, FirstDeploy(5), 0).terms
  {
    hide Next, Run, Sound, ClaimsSound, Enterable;
    var req := FirstDeploy(5);
    StartIsSound();
    NoSteps(START);
    FirstDeployEnters(5);
    SubmitFree(START, req, None, 0);
    var accepted := Next(START, Submit(req, None), 0);
    RunAppend(START, [], Submit(req, None), 0);
    var first := [Timed(Submit(req, None), 0)];
    assert [] + first == first;
    var start := StartThrough(accepted, 0, Sha256(PlanFile(0, 0)), 0);
    RunConcat(START, first, start);
    run := first + start;
  }

  lemma ReconciledDeploy() returns (run: seq<Timed>)
    ensures var w := Run(START, run);
            && SoundWorld(w) && AllAt(run, 0) && w.db.ops.Keys == {0} && w.db.rows.Keys == {0}
            && w.db.ops[0].Finished() && w.db.ops[0].terms.key == CallerKey(0)
            && w.db.rows[0].state.Ready? && w.db.rows[0].refs == map[]
            && w.db.rows[0].reconciliation.Some?
  {
    hide Next, Run, Sound, ClaimsSound, OpSound;
    var applied := ApplyingDeploy();
    var applying := Run(START, applied);
    InterruptApply(applying, 0, 0);
    RunAppend(START, applied, Interrupt(0, ApplyPhase), 0);
    var uncertain := Next(applying, Interrupt(0, ApplyPhase), 0);
    ResolveSucceeded(uncertain, 0, 0);
    run := applied + [Timed(Interrupt(0, ApplyPhase), 0)];
    RunAppend(START, run, Resolve(0, 1, FoundSucceeded), 0);
    run := run + [Timed(Resolve(0, 1, FoundSucceeded), 0)];
  }

  /** A run that leaves a resource busy for ever: a deploy interrupted while applying is reconciled
      as succeeded, and the destroy accepted next is interrupted while it waits. */
  lemma StuckExample() returns (run: seq<Timed>, id: OpId)
    ensures Chronological(run) && Stuck(Run(START, run), id)
  {
    hide Next, Run, Sound, ClaimsSound;
    var first := ReconciledDeploy();
    var ready := Run(START, first);
    DestroyIsStuck(ready);
    var destroy := Submit(DestroyAfter(ready.db.rows[0]), None);
    RunAppend(START, first, destroy, 1);
    run := first + [Timed(destroy, 1)];
    RunAppend(START, run, Interrupt(1, PlanPhase), 2);
    run := run + [Timed(Interrupt(1, PlanPhase), 2)];
    id := 1;
  }
}
