/** Whether the changes people reviewed are the changes that were applied. A planning job reads the
    plan file twice, once for `terraform show` and once for the digest, and a planner whose timeout
    was recorded may still write in between. */
module PlanReview {
  import opened LedgerModel
  import opened LedgerRuns
  import opened LedgerTheorems
  import opened Records
  import opened Activities
  import opened ActivitySafety

  // ----- Exactly when the record tells the truth -----

  /** The plan a job reports is described truly exactly when the file had not changed, as far as
      `terraform show` can tell, between the two reads. */
  lemma TruthIsTwoEqualReads(s: Sys, i: nat, drift: Findings, objects: nat, t: Time)
    requires PlaySound(s) && IsJob(s, i) && Planner(s.w.held[i]) && s.stages[i].Measured?
    requires !Fenced(s.w.db, s.w.held[i])
    ensures s.w.held[i].id in Do(s, ReportPlan(i, drift, objects), t).w.db.ops
    ensures var op := Do(s, ReportPlan(i, drift, objects), t).w.db.ops[s.w.held[i].id];
            && op.state.Planned? && op.planDigest == Some(s.stages[i].digest)
            && (op.changes == Some(op.planDigest.value.file.changes)
                <==> s.stages[i].seen.changes == s.stages[i].digest.file.changes)
  {
    hide SoundWorld, JobSound, OpCleared, ApplicationSound;
  }

  // ----- As long as no planner was left behind -----

  predicate Writes(op: Op, stage: Stage) { Planner(op) && !stage.Over? }

  /** On a resource where no planning was interrupted: the job's operation is still planning, and
      the file is the one it read. */
  ghost predicate JobAlone(s: Sys, i: nat)
    requires IsJob(s, i)
  {
    var op := s.w.held[i];
    op.resource !in s.displaced && Writes(op, s.stages[i]) ==>
      op.id in s.w.db.ops && s.w.db.ops[op.id] == op && AsRead(op, s.stages[i], s.files)
  }

  ghost predicate TrulyReviewed(s: Sys, id: OpId) {
    id in s.w.db.ops && s.w.db.ops[id].resource !in s.displaced && s.w.db.ops[id].planDigest.Some? ==>
      s.w.db.ops[id].changes == Some(s.w.db.ops[id].planDigest.value.file.changes)
  }

  ghost predicate Reviewed(s: Sys) {
    && PlaySound(s)
    && (forall i {:trigger JobAlone(s, i)} :: IsJob(s, i) ==> JobAlone(s, i))
    && (forall id {:trigger TrulyReviewed(s, id)} :: TrulyReviewed(s, id))
  }

  /** Only the job itself, or an interruption, ends a planning phase. */
  lemma PlanningGoesOn(s: Sys, act: Act, t: Time, i: nat)
    requires SoundWorld(s.w) && |s.stages| == |s.w.held| && IsJob(s, i)
    requires Writes(s.w.held[i], s.stages[i])
    requires s.w.held[i].id in s.w.db.ops && s.w.db.ops[s.w.held[i].id] == s.w.held[i]
    ensures var op := s.w.held[i]; var after := WorldAfter(s, act, t).db;
            && op.id in after.ops
            && (after.ops[op.id] == op
                || op.resource in Do(s, act, t).displaced
                || (StageAfter(op, s.stages[i], s.files, act).Over? && JobOf(act) == Some(i)))
  {
    hide Next, DiskAfter, StagesAfter, SoundWorld, StageAfter, Reportable;
    var op := s.w.held[i];
    var step := StepOf(s, act);
    if step.Some? {
      RecordSteps(s.w, step.value, t, op.id);
      StepsGoForward(s.w, step.value, t, op.id);
      if step.value.Deliver? && step.value.snapshot == op {
        ReportsAreTheirOwn(s, act);
        JobsApart(s, act.i, i);
      }
    }
  }

  lemma ReportsAreTheirOwn(s: Sys, act: Act)
    requires StepOf(s, act).Some? && StepOf(s, act).value.Deliver?
    ensures JobOf(act).Some? && IsJob(s, act.i) && StepOf(s, act).value.snapshot == s.w.held[act.i]
    ensures StageAfter(s.w.held[act.i], s.stages[act.i], s.files, act).Over?
  {
  }

  /** Two jobs never write the same resource's plan unless one of them was left behind. */
  lemma OneWriter(s: Sys, i: nat, j: nat)
    requires Reviewed(s) && IsJob(s, i) && IsJob(s, j)
    requires Writes(s.w.held[i], s.stages[i]) && Writes(s.w.held[j], s.stages[j])
    requires s.w.held[i].resource == s.w.held[j].resource && s.w.held[i].resource !in s.displaced
    ensures i == j
  {
    hide PlaySound;
    assert JobAlone(s, i) && JobAlone(s, j);
    var a, b := s.w.held[i], s.w.held[j];
    assert SoundWorld(s.w) by { SoundOf(s); }
    assert a.id != b.id ==> Apart(s.w.db.ops[a.id], s.w.db.ops[b.id]);
    JobsApart(s, i, j);
  }

  lemma SoundOf(s: Sys)
    requires PlaySound(s)
    ensures SoundWorld(s.w) && |s.stages| == |s.w.held|
  {
  }

  /** What a writer has read of the file is still what the file is. */
  predicate AsRead(op: Op, stage: Stage, files: map<ResId, PlanFile>) {
    && (stage.Shown? && op.resource in files ==> files[op.resource] == stage.seen)
    && (stage.Measured? ==> stage.digest == Sha256(stage.seen))
  }

  lemma OwnActReads(op: Op, stage: Stage, owned: bool, files: map<ResId, PlanFile>, act: Act)
    requires AsRead(op, stage, files)
    ensures AsRead(op, StageAfter(op, stage, files, act), FilesAfter(op, stage, owned, files, act))
    ensures stage.Over? ==> StageAfter(op, stage, files, act).Over?
  {
  }

  /** Another act leaves the file of `r` or removes it, unless it writes a plan of `r`. */
  lemma OtherActLeaves(s: Sys, act: Act, r: ResId)
    requires !(act.WritePlan? && IsJob(s, act.i) && Writes(s.w.held[act.i], s.stages[act.i])
               && s.w.held[act.i].resource == r)
    ensures var files := DiskAfter(s, act); r in files ==> r in s.files && files[r] == s.files[r]
  {
  }

  lemma FileStaysRead(s: Sys, act: Act, i: nat)
    requires Reviewed(s) && IsJob(s, i) && Writes(s.w.held[i], s.stages[i])
    requires s.w.held[i].resource !in s.displaced && AsRead(s.w.held[i], s.stages[i], s.files)
    ensures i < |StagesAfter(s, act)| && AsRead(s.w.held[i], StagesAfter(s, act)[i], DiskAfter(s, act))
  {
    hide PlaySound, JobAlone, TrulyReviewed, AsRead, StageAfter, FilesAfter;
    var op := s.w.held[i];
    if JobOf(act) == Some(i) {
      OwnActReads(op, s.stages[i], !Fenced(s.w.db, op), s.files, act);
    } else {
      if act.WritePlan? && IsJob(s, act.i) && Writes(s.w.held[act.i], s.stages[act.i])
         && s.w.held[act.i].resource == op.resource {
        OneWriter(s, i, act.i);
      }
      OtherActLeaves(s, act, op.resource);
      LeftAsRead(op, s.stages[i], s.files, DiskAfter(s, act));
    }
  }

  lemma LeftAsRead(op: Op, stage: Stage, files: map<ResId, PlanFile>, after: map<ResId, PlanFile>)
    requires AsRead(op, stage, files)
    requires op.resource in after ==> op.resource in files && after[op.resource] == files[op.resource]
    ensures AsRead(op, stage, after)
  {
  }

  lemma WritersWereWriters(s: Sys, act: Act, i: nat)
    requires IsJob(s, i) && i < |StagesAfter(s, act)| && Planner(s.w.held[i])
    requires !StagesAfter(s, act)[i].Over?
    ensures !s.stages[i].Over?
  {
  }

  lemma JobStaysAlone(s: Sys, act: Act, t: Time, i: nat)
    requires Reviewed(s) && IsJob(s, i)
    ensures var after := Do(s, act, t); IsJob(after, i) && JobAlone(after, i)
  {
    hide PlaySound, WorldAfter, SoundWorld, Approves, Applies, Displaces, JobSound, StagesAfter, DiskAfter, StageAfter;
    SoundOf(s);
    OldJobStays(s, act, t, i);
    var after, op := Do(s, act, t), s.w.held[i];
    assert JobAlone(s, i);
    if op.resource !in after.displaced && Writes(op, after.stages[i]) {
      WritersWereWriters(s, act, i);
      PlanningGoesOn(s, act, t, i);
      FileStaysRead(s, act, i);
      if JobOf(act) == Some(i) { ActsOnItself(s, act, i); }
    }
  }

  lemma ActsOnItself(s: Sys, act: Act, i: nat)
    requires IsJob(s, i) && JobOf(act) == Some(i)
    ensures i < |StagesAfter(s, act)|
            && StagesAfter(s, act)[i] == StageAfter(s.w.held[i], s.stages[i], s.files, act)
  {
  }

  lemma NewJobAlone(s: Sys, id: OpId, phase: Phase, t: Time)
    requires PlaySound(s) && Claimable(s.w.db, id, phase)
    ensures var after := Do(s, Begin(id, phase), t); IsJob(after, |s.stages|) && JobAlone(after, |s.stages|)
  {
    hide SoundWorld, JobSound, OpCleared, ApplicationSound;
    ClaimedId(s, id);
  }

  lemma StaysTrulyReviewed(s: Sys, act: Act, t: Time, id: OpId)
    requires Reviewed(s)
    ensures TrulyReviewed(Do(s, act, t), id)
  {
    hide PlaySound, SoundWorld, Approves, Applies, Displaces, StagesAfter, DiskAfter, Next, StepOf;
    SoundOf(s);
    assert TrulyReviewed(s, id);
    if id in s.w.db.ops {
      RecordsKept(s, act, t, id);
      if StepOf(s, act).Some? {
        RecordSteps(s.w, StepOf(s, act).value, t, id);
        ReportsAreTrue(s, act, t, id);
      }
    } else if id in WorldAfter(s, act, t).db.ops {
      NewInWorld(s, act, t, id);
    }
  }

  lemma ReportsAreTrue(s: Sys, act: Act, t: Time, id: OpId)
    requires Reviewed(s) && StepOf(s, act).Some? && id in s.w.db.ops
    ensures var step := StepOf(s, act).value;
            step.Deliver? && step.snapshot == s.w.db.ops[id] && step.report.PlanReport?
            && s.w.db.ops[id].resource !in s.displaced
            ==> step.report.changes == step.report.planDigest.file.changes
  {
    hide PlaySound;
    var step := StepOf(s, act).value;
    if step.Deliver? {
      ReportsAreTheirOwn(s, act);
      assert JobAlone(s, act.i);
    }
  }

  lemma ActKeepsReviewed(s: Sys, act: Act, t: Time)
    requires Reviewed(s)
    ensures Reviewed(Do(s, act, t))
  {
    hide PlaySound, Do, JobAlone, TrulyReviewed;
    SoundOf(s);
    WorldKept(s, act, t);
    ActKeepsSound(s, act, t);
    var after := Do(s, act, t);
    forall i | IsJob(after, i) ensures JobAlone(after, i) {
      if IsJob(s, i) {
        JobStaysAlone(s, act, t, i);
      } else {
        OnlyBeginAdds(s, act, t, i);
        NewJobAlone(s, act.id, act.phase, t);
      }
    }
    forall id ensures TrulyReviewed(after, id) { StaysTrulyReviewed(s, act, t, id); }
  }

  lemma OnlyBeginAdds(s: Sys, act: Act, t: Time, i: nat)
    requires PlaySound(s) && !IsJob(s, i) && IsJob(Do(s, act, t), i)
    ensures act.Begin? && Claimable(s.w.db, act.id, act.phase) && i == |s.stages|
  {
  }

  lemma {:induction false} EveryPlayIsReviewed(acts: seq<Happening>)
    ensures Reviewed(Play(acts))
  {
    hide Do, PlaySound;
    if acts == [] {
      EveryPlayIsSound([]);
    } else {
      EveryPlayIsReviewed(acts[..|acts| - 1]);
      ActKeepsReviewed(Play(acts[..|acts| - 1]), acts[|acts| - 1].act, acts[|acts| - 1].at);
    }
  }

  /** As long as no planning of a resource was interrupted, every plan applied to it makes exactly
      the changes that were shown for review, however many jobs ran and whatever files were lost. */
  lemma {:induction false} ReviewedIsApplied(acts: seq<Happening>, a: Application)
    requires a in Play(acts).applied
    ensures var s := Play(acts);
            && a.op in s.w.db.ops
            && (s.w.db.ops[a.op].resource !in s.displaced ==>
                  s.w.db.ops[a.op].changes == Some(a.file.changes))
  {
    hide Play, PlaySound;
    EveryPlayIsReviewed(acts);
    OnlyTheApprovedPlanIsApplied(acts, a);
    assert TrulyReviewed(Play(acts), a.op);
  }
}
