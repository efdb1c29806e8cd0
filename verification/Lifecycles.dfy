/** A queued operation can always be carried through to success: the building block of every
    concrete run in this project. */
module Lifecycles {
  import opened LedgerModel
  import opened LedgerRuns
  import opened LedgerSafety

  lemma {:induction false} RunAppend(w: World, run: seq<Timed>, step: Step, t: Time)
    ensures Run(w, run + [Timed(step, t)]) == Next(Run(w, run), step, t)
  {
    assert (run + [Timed(step, t)])[..|run|] == run;
  }

  lemma {:induction false} RunConcat(w: World, run: seq<Timed>, more: seq<Timed>)
    ensures Run(w, run + more) == Run(Run(w, run), more)
  {
    if more == [] {
      assert run + more == run;
    } else {
      RunConcat(w, run, more[..|more| - 1]);
      assert (run + more)[..|run + more| - 1] == run + more[..|more| - 1];
    }
  }

  lemma {:induction false} NoSteps(w: World)
    ensures Run(w, []) == w
  {
  }

  lemma OpIsSound(w: World, id: OpId)
    requires SoundWorld(w) && id in w.db.ops
    ensures OpSound(w.db, id)
  {
  }

  /** A world that differs from `w` in one operation only. */
  ghost predicate OnlyOp(w: World, after: World, id: OpId, state: OpState) {
    && SoundWorld(after) && id in w.db.ops && id in after.db.ops
    && after.db.rows == w.db.rows && after.db.order == w.db.order
    && after.db.ops == w.db.ops[id := after.db.ops[id]]
    && SameTerms(w.db.ops[id], after.db.ops[id]) && after.db.ops[id].state == state
    && after.db.ops[id].reconciliation == w.db.ops[id].reconciliation
  }

  lemma TakePhase(w: World, id: OpId, phase: Phase, t: Time)
    requires SoundWorld(w) && Claimable(w.db, id, phase)
    ensures var after := Next(w, Take(id, phase), t);
            && OnlyOp(w, after, id, PhaseRuns(phase))
            && after.db.ops[id] in after.held
            && after.db.ops[id].planDigest == w.db.ops[id].planDigest
            && after.db.ops[id].changes == w.db.ops[id].changes
  {
    NextKeepsSound(w, Take(id, phase), t);
    assert OpSound(w.db, id);
  }

  lemma DeliverPlan(w: World, id: OpId, digest: Digest, t: Time)
    requires SoundWorld(w) && id in w.db.ops && w.db.ops[id].state.Planning?
    requires w.db.ops[id] in w.held && !w.db.ops[id].Action().DriftCheck?
    ensures var after := Next(w, Deliver(w.db.ops[id], Planned, PlanReport(digest, digest.file.changes, [], 0)), t);
            OnlyOp(w, after, id, Planned) && after.db.ops[id].planDigest == Some(digest)
            && after.db.ops[id].plannedAt == Some(t) && after.held == w.held
  {
    NextKeepsSound(w, Deliver(w.db.ops[id], Planned, PlanReport(digest, digest.file.changes, [], 0)), t);
    assert OpSound(w.db, id);
  }

  lemma ApprovePlan(w: World, id: OpId, digest: Digest, actor: Actor, t: Time)
    requires SoundWorld(w) && id in w.db.ops && w.db.ops[id].state.Planned?
    requires w.db.ops[id].planDigest == Some(digest)
    requires !w.db.ops[id].Action().Destroy? ==> !BadReference(w.db, w.db.ops[id].terms.refs)
    ensures var after := Next(w, Approve(id, digest, actor, None), t);
            OnlyOp(w, after, id, ApplyQueued) && after.db.ops[id].planDigest == Some(digest)
  {
    NextKeepsSound(w, Approve(id, digest, actor, None), t);
    assert OpSound(w.db, id);
  }

  lemma DeliverApply(w: World, id: OpId, t: Time)
    requires SoundWorld(w) && id in w.db.ops && w.db.ops[id].state.Applying?
    requires w.db.ops[id] in w.held && !w.db.ops[id].Action().DriftCheck?
    ensures var after := Next(w, Deliver(w.db.ops[id], Succeeded, ApplyReport(0)), t);
            var op := w.db.ops[id];
            Applied(w, after, id, t)
  {
    NextKeepsSound(w, Deliver(w.db.ops[id], Succeeded, ApplyReport(0)), t);
    assert OpSound(w.db, id);
  }

  /** `id` has succeeded and its row says so; nothing else changed. */
  ghost predicate Applied(w: World, after: World, id: OpId, t: Time) {
    && SoundWorld(after) && id in w.db.ops && id in after.db.ops
    && (var op := after.db.ops[id];
        && op.state.Succeeded? && SameTerms(w.db.ops[id], op)
        && op.reconciliation == w.db.ops[id].reconciliation
        && op.resource in w.db.rows
        && after.db.order == w.db.order && after.db.ops == w.db.ops[id := op]
        && after.db.rows == w.db.rows[op.resource := Landed(op, w.db.rows[op.resource], t, InSync)])
  }

  /** The sources of `refs` stay usable while only the operation that uses them moves. */
  lemma ReferencesStay(w: World, after: World, id: OpId, state: OpState, refs: Refs)
    requires OnlyOp(w, after, id, state) && !w.db.ops[id].Action().Destroy?
    requires !BadReference(w.db, refs)
    ensures !BadReference(after.db, refs)
  {
    forall name | name in refs ensures ReferenceError(after.db, refs[name].resource).None? {
      assert ReferenceError(w.db, refs[name].resource).None?;
    }
  }

  ghost predicate Quiet(run: seq<Timed>, t: Time) {
    forall i :: 0 <= i < |run| ==> run[i].at == t && !run[i].step.Submit?
  }

  lemma OnlyOpTwice(w: World, mid: World, after: World, id: OpId, first: OpState, second: OpState)
    requires OnlyOp(w, mid, id, first) && OnlyOp(mid, after, id, second)
    ensures OnlyOp(w, after, id, second)
  {
  }

  /** Two steps from queued to planned. */
  lemma PlanThrough(w: World, id: OpId, digest: Digest, t: Time) returns (run: seq<Timed>)
    requires SoundWorld(w) && id in w.db.ops && w.db.ops[id].state.Queued?
    requires !w.db.ops[id].Action().DriftCheck?
    ensures OnlyOp(w, Run(w, run), id, Planned)
    ensures Run(w, run).db.ops[id].planDigest == Some(digest) && Quiet(run, t)
  {
    hide Next, Run, SoundWorld;
    NoSteps(w);
    var taken := Next(w, Take(id, PlanPhase), t);
    TakePhase(w, id, PlanPhase, t);
    var delivery := Deliver(taken.db.ops[id], Planned, PlanReport(digest, digest.file.changes, [], 0));
    DeliverPlan(taken, id, digest, t);
    OnlyOpTwice(w, taken, Next(taken, delivery, t), id, Planning, Planned);
    run := [Timed(Take(id, PlanPhase), t)];
    RunAppend(w, [], Take(id, PlanPhase), t);
    assert [] + [Timed(Take(id, PlanPhase), t)] == run;
    RunAppend(w, run, delivery, t);
    run := run + [Timed(delivery, t)];
  }

  /** Two steps from planned to applying. */
  lemma ApproveThrough(w: World, id: OpId, digest: Digest, t: Time) returns (run: seq<Timed>)
    requires SoundWorld(w) && id in w.db.ops && w.db.ops[id].state.Planned?
    requires w.db.ops[id].planDigest == Some(digest)
    requires !w.db.ops[id].Action().Destroy? ==> !BadReference(w.db, w.db.ops[id].terms.refs)
    ensures OnlyOp(w, Run(w, run), id, Applying)
    ensures Run(w, run).db.ops[id] in Run(w, run).held && Quiet(run, t)
    ensures Run(w, run).db.ops[id].planDigest == Some(digest)
  {
    hide Next, Run, SoundWorld, BadReference;
    NoSteps(w);
    var approval := Approve(id, digest, WORKER, None);
    var approved := Next(w, approval, t);
    ApprovePlan(w, id, digest, WORKER, t);
    TakePhase(approved, id, ApplyPhase, t);
    OnlyOpTwice(w, approved, Next(approved, Take(id, ApplyPhase), t), id, ApplyQueued, Applying);
    run := [Timed(approval, t)];
    RunAppend(w, [], approval, t);
    assert [] + [Timed(approval, t)] == run;
    RunAppend(w, run, Take(id, ApplyPhase), t);
    run := run + [Timed(Take(id, ApplyPhase), t)];
  }

  lemma AppliedAfter(w: World, mid: World, after: World, id: OpId, t: Time)
    requires OnlyOp(w, mid, id, Applying) && Applied(mid, after, id, t)
    ensures Applied(w, after, id, t)
  {
  }

  /** Four steps from queued to applying. */
  lemma StartThrough(w: World, id: OpId, digest: Digest, t: Time) returns (run: seq<Timed>)
    requires SoundWorld(w) && id in w.db.ops && w.db.ops[id].state.Queued?
    requires !w.db.ops[id].Action().DriftCheck?
    requires !w.db.ops[id].Action().Destroy? ==> !BadReference(w.db, w.db.ops[id].terms.refs)
    ensures OnlyOp(w, Run(w, run), id, Applying)
    ensures Run(w, run).db.ops[id] in Run(w, run).held && Quiet(run, t)
    ensures Run(w, run).db.ops[id].planDigest == Some(digest)
  {
    var first := PlanThrough(w, id, digest, t);
    var planned := Run(w, first);
    if !w.db.ops[id].Action().Destroy? {
      ReferencesStay(w, planned, id, Planned, w.db.ops[id].terms.refs);
    }
    var second := ApproveThrough(planned, id, digest, t);
    RunConcat(w, first, second);
    OnlyOpTwice(w, planned, Run(planned, second), id, Planned, Applying);
    run := first + second;
  }

  /** Five steps from queued to succeeded. */
  lemma CarryThrough(w: World, id: OpId, digest: Digest, t: Time) returns (run: seq<Timed>)
    requires SoundWorld(w) && id in w.db.ops && w.db.ops[id].state.Queued?
    requires !w.db.ops[id].Action().DriftCheck?
    requires !w.db.ops[id].Action().Destroy? ==> !BadReference(w.db, w.db.ops[id].terms.refs)
    ensures Applied(w, Run(w, run), id, t) && Quiet(run, t)
  {
    var start := StartThrough(w, id, digest, t);
    var applying := Run(w, start);
    var result := Deliver(applying.db.ops[id], Succeeded, ApplyReport(0));
    DeliverApply(applying, id, t);
    AppliedAfter(w, applying, Next(applying, result, t), id, t);
    RunAppend(w, start, result, t);
    run := start + [Timed(result, t)];
  }

  // ----- Acceptance without surprises -----

  lemma FreeIsAccepted(db: Db, req: Request, age: Option<nat>, t: Time)
    requires Sound(db) && Enterable(db, req) && req.placed
    ensures Accepts(db, req, age, t) && Unblocked(db, req, age, t) == db
  {
    FindKeyNone(db, req.actor, req.key);
    FindBusyNone(db, Target(req));
  }

  lemma SubmitFree(w: World, req: Request, age: Option<nat>, t: Time)
    requires SoundWorld(w) && Enterable(w.db, req) && req.placed
    ensures var after := Next(w, Submit(req, age), t);
            SoundWorld(after) && after.db == Enter(w.db, req, t) && after.held == w.held
  {
    FreeIsAccepted(w.db, req, age, t);
    SubmitEnters(w, req, age, t);
  }

  lemma {:induction false} OneStep(w: World, step: Step, t: Time)
    ensures Run(w, [Timed(step, t)]) == Next(w, step, t)
  {
    RunAppend(w, [], step, t);
    assert [] + [Timed(step, t)] == [Timed(step, t)];
  }

  /** `req` was accepted and then carried through to success; nothing else changed. */
  ghost predicate CarriedOut(w: World, after: World, req: Request, t: Time) {
    && SoundWorld(after) && req.newOp in after.db.ops
    && (var op := after.db.ops[req.newOp];
        && op.state.Succeeded? && SameTerms(op, NewOp(w.db, req, t))
        && op.reconciliation == req.resolved.reconciliation
        && after.db.ops == w.db.ops[req.newOp := op]
        && after.db.rows == w.db.rows[Target(req) := Landed(op, NewRow(w.db, req, t), t, InSync)])
  }

  lemma Combine(w: World, mid: World, after: World, req: Request, t: Time)
    requires mid.db == Enter(w.db, req, t) && !req.intent.action.DriftCheck?
    requires Applied(mid, after, req.newOp, t)
    ensures CarriedOut(w, after, req, t)
  {
  }

  /** Six steps: accept, plan, approve, apply. */
  lemma AcceptAndCarry(w: World, req: Request, t: Time) returns (run: seq<Timed>)
    requires SoundWorld(w) && Enterable(w.db, req) && req.placed && !req.intent.action.DriftCheck?
    requires req.intent.action.Deploy? ==> req.resolved.refs == map[]
    ensures CarriedOut(w, Run(w, run), req, t)
    ensures run != [] && run[0] == Timed(Submit(req, None), t) && Quiet(run[1..], t)
  {
    var submit := Timed(Submit(req, None), t);
    SubmitFree(w, req, None, t);
    var mid := Next(w, Submit(req, None), t);
    OneStep(w, Submit(req, None), t);
    var rest := CarryThrough(mid, req.newOp, Sha256(PlanFile(0, 0)), t);
    RunConcat(w, [submit], rest);
    Combine(w, mid, Run(mid, rest), req, t);
    run := [submit] + rest;
    assert run[1..] == rest;
  }

  // ----- Numbers nobody has used -----

  /** No operation, resource or caller's key has this number. */
  ghost predicate Unused(db: Db, n: nat) {
    && n !in db.ops && n !in db.rows
    && forall id {:trigger db.ops[id]} :: id in db.ops ==> db.ops[id].terms.key != CallerKey(n)
  }

  lemma {:induction false} FreshNumber(used: set<nat>) returns (n: nat)
    ensures forall u :: u in used ==> u < n
  {
    if used == {} {
      n := 0;
    } else {
      var u :| u in used;
      var m := FreshNumber(used - {u});
      n := if m <= u then u + 1 else m;
      assert used == used - {u} + {u};
    }
  }

  function TextOf(key: Key): nat { if key.CallerKey? then key.text else 0 }

  lemma FreshFor(db: Db) returns (n: nat)
    ensures Unused(db, n)
  {
    var texts := set id | id in db.ops :: TextOf(db.ops[id].terms.key);
    n := FreshNumber(db.ops.Keys + db.rows.Keys + texts);
    assert n !in db.ops.Keys + db.rows.Keys + texts;
    forall id | id in db.ops ensures db.ops[id].terms.key != CallerKey(n) {
      assert TextOf(db.ops[id].terms.key) in texts;
    }
  }

  /** A first deploy in an empty ledger. */
  function FirstDeploy(cost: Cost): Request {
    Request(1, CallerKey(0), Intent(Deploy, None, 0), Resolved(0, cost, map[], 0, None, None, None),
            None, true, 0, 0)
  }

  lemma StartIsSound()
    ensures SoundWorld(START)
  {
    EveryRunIsSound([]);
  }

  lemma FirstDeployEnters(cost: Cost)
    ensures Enterable(EMPTY, FirstDeploy(cost))
  {
  }
}
