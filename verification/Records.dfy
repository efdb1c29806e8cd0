/** What one step of the ledger does to one operation's record. */
module Records {
  import opened LedgerModel
  import opened LedgerRuns
  import opened LedgerSafety
  import opened LedgerTheorems

  ghost predicate Replans(before: Op, after: Op, step: Step) {
    && step.Deliver? && step.snapshot == before && before.state.Planning?
    && step.state.Planned? && step.report.PlanReport?
    && after.planDigest == Some(step.report.planDigest) && after.changes == Some(step.report.changes)
    && after.objects == Some(step.report.objects)
  }

  ghost predicate RecordStep(db: Db, before: Op, after: Op, step: Step, t: Time) {
    && (after.state.ApplyQueued? && !before.state.ApplyQueued? ==>
          step.Approve? && step.id == before.id && before.state.Planned?
          && before.planDigest == Some(step.digest)
          && ExecuteAnswer(db, step.id, step.digest, step.age, t).Changed?)
    && ((after.planDigest == before.planDigest && after.changes == before.changes && after.objects == before.objects)
        || Replans(before, after, step))
    && (after.outputs == before.outputs || (after.state.Succeeded? && before.state.Applying?))
    && (before.state.Planning? && !after.state.Planning? ==>
          (step.Deliver? && step.snapshot == before && after.state == step.state)
          || (step.Interrupt? && step.id == before.id && step.phase.PlanPhase?
              && (after.state.Uncertain? || after.state.Failed?)))
    && (before.state.Applying? && !after.state.Applying? ==>
          (step.Deliver? && step.snapshot == before && after.state == step.state)
          || (step.Interrupt? && step.id == before.id && step.phase.ApplyPhase? && after.state.Uncertain?))
  }

  lemma RecordSteps(w: World, step: Step, t: Time, id: OpId)
    requires SoundWorld(w) && id in w.db.ops
    ensures var after := Next(w, step, t).db;
            id in after.ops && RecordStep(w.db, w.db.ops[id], after.ops[id], step, t)
  {
    hide Next, Apply;
    NextMakes(w, step, t);
    FirstChangeRecord(w, step, t, id);
    var first, second := FirstChange(w, step, t), SecondChange(w, step, t);
    ApplyRecord(w.db, first, t, id);
    ApplyRecord(Apply(w.db, first, t), second, t, id);
  }

  lemma ApplyRecord(db: Db, change: Change, t: Time, id: OpId)
    requires Legal(db, change, t) && id in db.ops
    ensures id in Apply(db, change, t).ops
    ensures Apply(db, change, t).ops[id]
            == if change.Moves? && change.op.id == id then change.op else db.ops[id]
  {
  }

  ghost predicate RecordChange(w: World, step: Step, t: Time, id: OpId)
    requires id in w.db.ops
  {
    var change := FirstChange(w, step, t);
    change.Moves? && change.op.id == id ==> RecordStep(w.db, w.db.ops[id], change.op, step, t)
  }

  lemma SubmitRecord(w: World, req: Request, age: Option<nat>, t: Time, id: OpId)
    requires SoundWorld(w) && id in w.db.ops
    ensures RecordChange(w, Submit(req, age), t, id)
  {
    if Accepts(w.db, req, age, t) {
      AcceptedMeans(w.db, req, age, t);
      UnblockLeaves(w, req, t);
      assert OpSound(w.db, id);
    }
  }

  lemma WorkerRecord(w: World, step: Step, t: Time, id: OpId)
    requires SoundWorld(w) && id in w.db.ops && (step.Take? || step.Deliver? || step.Interrupt?)
    ensures RecordChange(w, step, t, id)
  {
    hide AllApart, Audited, Ordered;
    assert OpSound(w.db, id);
    match step
    case Take(other, phase) => if other in w.db.ops { assert OpSound(w.db, other); }
    case Deliver(snapshot, state, report) => if snapshot in w.held { assert Current(w.db, snapshot); }
    case Interrupt(other, phase) => if other in w.db.ops { assert OpSound(w.db, other); }
  }

  lemma PeopleRecord(w: World, step: Step, t: Time, id: OpId)
    requires SoundWorld(w) && id in w.db.ops && (step.Approve? || step.Drop? || step.Resolve?)
    ensures RecordChange(w, step, t, id)
  {
    hide AllApart, Audited, Ordered, BadReference;
    assert OpSound(w.db, id);
    match step
    case Approve(other, digest, actor, age) => if other in w.db.ops { assert OpSound(w.db, other); }
    case Drop(other, actor) => if other in w.db.ops { assert OpSound(w.db, other); }
    case Resolve(other, actor, outcome) => if other in w.db.ops { assert OpSound(w.db, other); }
  }

  lemma FirstChangeRecord(w: World, step: Step, t: Time, id: OpId)
    requires SoundWorld(w) && id in w.db.ops
    ensures RecordChange(w, step, t, id) && !SecondChange(w, step, t).Moves?
  {
    match step
    case Submit(req, age) => SubmitRecord(w, req, age, t, id);
    case Take(_, _) => WorkerRecord(w, step, t, id);
    case Deliver(_, _, _) => WorkerRecord(w, step, t, id);
    case Interrupt(_, _) => WorkerRecord(w, step, t, id);
    case Approve(_, _, _, _) => PeopleRecord(w, step, t, id);
    case Drop(_, _) => PeopleRecord(w, step, t, id);
    case Resolve(_, _, _) => PeopleRecord(w, step, t, id);
    case StampRefusal(_, _) =>
    case Remark(_, _, _) =>
  }

  lemma SecondNeverMoves(w: World, step: Step, t: Time)
    ensures !SecondChange(w, step, t).Moves?
  {
  }

  // ----- Over a run -----

  /** From the plan on, the digest and the planned objects are fixed; outputs come with success. */
  lemma {:induction false} RecordsSettle(w: World, run: seq<Timed>, id: OpId)
    requires SoundWorld(w) && id in w.db.ops && Rank(w.db.ops[id].state) <= Rank(Planned)
    ensures id in Run(w, run).db.ops
    ensures var before, after := w.db.ops[id], Run(w, run).db.ops[id];
            && Rank(after.state) <= Rank(Planned)
            && after.planDigest == before.planDigest && after.objects == before.objects
            && (!after.state.Succeeded? ==> after.outputs == before.outputs)
  {
    hide Next, SoundWorld, RecordStep;
    if run != [] {
      var earlier, last := Run(w, run[..|run| - 1]), run[|run| - 1];
      RecordsSettle(w, run[..|run| - 1], id);
      RunKeepsSound(w, run[..|run| - 1]);
      RecordSteps(earlier, last.step, last.at, id);
      StepsGoForward(earlier, last.step, last.at, id);
      StepSettles(earlier.db, earlier.db.ops[id], Run(w, run).db.ops[id], last.step, last.at);
    }
  }

  lemma StepSettles(db: Db, before: Op, after: Op, step: Step, t: Time)
    requires RecordStep(db, before, after, step, t) && Forward(before, after) && Rank(before.state) <= Rank(Planned)
    ensures Rank(after.state) <= Rank(Planned)
    ensures after.planDigest == before.planDigest && after.objects == before.objects
    ensures !after.state.Succeeded? ==> after.outputs == before.outputs && !before.state.Succeeded?
  {
  }
}
