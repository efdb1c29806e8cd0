/** A reviewed plan is still there when its apply starts: as long as no phase of the resource was
    interrupted and no file was lost, the file on disk is the plan on record. */
module PlanKept {
  import opened LedgerModel
  import opened LedgerRuns
  import opened LedgerSafety
  import opened LedgerTheorems
  import opened Records
  import opened Activities
  import opened ActivitySafety
  import opened PlanReview

  // ----- A failure never takes another's plan -----

  /** In every play, while an operation is planned or queued to apply, no failing job removes its plan:
      whoever fails then does not own the resource. */
  lemma {:induction false} FailuresLeaveThePlan(acts: seq<Happening>, i: nat, id: OpId, t: Time)
    requires var s := Play(acts);
             id in s.w.db.ops && (s.w.db.ops[id].state.Planned? || s.w.db.ops[id].state.ApplyQueued?)
    ensures var s := Play(acts); var r := s.w.db.ops[id].resource;
            var after := Do(s, DropPlan(i), t).files;
            (r in after <==> r in s.files) && (r in after ==> after[r] == s.files[r])
  {
    hide Play, WorldAfter, StagesAfter;
    EveryPlayIsSound(acts);
    var s := Play(acts);
    if IsJob(s, i) && !Fenced(s.w.db, s.w.held[i]) && s.w.held[i].resource == s.w.db.ops[id].resource {
      OwnersApart(s, i, id);
    }
  }

  lemma OwnersApart(s: Sys, i: nat, id: OpId)
    requires PlaySound(s) && IsJob(s, i) && !Fenced(s.w.db, s.w.held[i]) && id in s.w.db.ops
    requires s.w.db.ops[id].state.Planned? || s.w.db.ops[id].state.ApplyQueued?
    ensures s.w.held[i].resource != s.w.db.ops[id].resource
  {
    var op := s.w.held[i];
    assert Current(s.w.db, op) && OpSound(s.w.db, id);
    assert op.id != id ==> Apart(s.w.db.ops[op.id], s.w.db.ops[id]);
  }

  // ----- Undisturbed resources -----

  predicate TimedOutOn(s: Sys, r: ResId, id: OpId) {
    id in s.ends.timedOut && id in s.w.db.ops && s.w.db.ops[id].resource == r
  }

  /** No phase of `r` was interrupted. */
  ghost predicate Undisturbed(s: Sys, r: ResId) {
    r !in s.displaced && forall id {:trigger TimedOutOn(s, r, id)} :: !TimedOutOn(s, r, id)
  }

  /** A job that is not over still is what its operation is about, and the file is the one it needs. */
  ghost predicate JobKept(s: Sys, i: nat)
    requires IsJob(s, i)
  {
    var op := s.w.held[i];
    !s.stages[i].Over? ==>
      && op.id in s.w.db.ops && s.w.db.ops[op.id] == op
      && (s.stages[i].Measured? ==> op.resource in s.files && s.stages[i].digest == Sha256(s.files[op.resource]))
      && (Applier(op) && s.stages[i].Begun? ==> PlanMatches(s.files, op))
      && (s.stages[i].Dropped? || s.stages[i].Unlinked? ==> op.resource !in s.files)
  }

  ghost predicate OpKept(s: Sys, id: OpId) {
    id in s.w.db.ops && (s.w.db.ops[id].state.Planned? || s.w.db.ops[id].state.ApplyQueued?) ==>
      PlanMatches(s.files, s.w.db.ops[id])
  }

  ghost predicate Kept(s: Sys, r: ResId) {
    Undisturbed(s, r) ==>
      && (forall i: nat {:trigger JobKept(s, i)} :: IsJob(s, i) && s.w.held[i].resource == r ==> JobKept(s, i))
      && (forall id {:trigger OpKept(s, id)} :: id in s.w.db.ops && s.w.db.ops[id].resource == r ==> OpKept(s, id))
  }

  lemma UndisturbedBefore(s: Sys, act: Act, t: Time, r: ResId)
    requires SoundWorld(s.w) && Undisturbed(Do(s, act, t), r)
    ensures Undisturbed(s, r)
  {
    hide WorldAfter, StagesAfter, DiskAfter, SoundWorld;
    var after := Do(s, act, t);
    forall id ensures !TimedOutOn(s, r, id) {
      assert !TimedOutOn(after, r, id);
      if id in s.w.db.ops { RecordsKept(s, act, t, id); }
      TimedOutGrows(s, act);
    }
  }

  lemma TimedOutGrows(s: Sys, act: Act)
    ensures s.ends.timedOut <= EndsAfter(s, act).timedOut
  {
  }

  /** A claim goes on until its own job reports or its phase is interrupted. */
  lemma ClaimGoesOn(s: Sys, act: Act, t: Time, i: nat)
    requires PlaySound(s) && IsJob(s, i) && !s.stages[i].Over?
    requires s.w.held[i].id in s.w.db.ops && s.w.db.ops[s.w.held[i].id] == s.w.held[i]
    ensures var op := s.w.held[i]; var after := WorldAfter(s, act, t).db;
            && op.id in after.ops
            && (after.ops[op.id] == op || op.resource in Do(s, act, t).displaced
                || op.id in EndsAfter(s, act).timedOut
                || (JobOf(act) == Some(i) && StageAfter(op, s.stages[i], s.files, act).Over?))
  {
    hide Next, DiskAfter, StagesAfter, StageAfter, Reportable, JobSound, OpCleared, ApplicationSound;
    var op := s.w.held[i];
    var step := StepOf(s, act);
    if step.Some? {
      RecordSteps(s.w, step.value, t, op.id);
      StepsGoForward(s.w, step.value, t, op.id);
      StateOfClaim(s, i);
      if step.value.Deliver? && step.value.snapshot == op {
        ReportsAreTheirOwn(s, act);
        JobsApart(s, act.i, i);
      } else if step.value.Interrupt? && step.value.id == op.id {
        Interrupts(s, act);
      }
    }
  }

  lemma StateOfClaim(s: Sys, i: nat)
    requires PlaySound(s) && IsJob(s, i)
    ensures s.w.held[i].state.Planning? || s.w.held[i].state.Applying?
  {
    assert Current(s.w.db, s.w.held[i]);
  }

  lemma Interrupts(s: Sys, act: Act)
    requires StepOf(s, act).Some? && StepOf(s, act).value.Interrupt? && StepOf(s, act).value.id in s.w.db.ops
    ensures var step := StepOf(s, act).value; var op := s.w.db.ops[step.id];
            && (step.phase.PlanPhase? && op.state.Planning? ==> Displaces(s.w.db, act))
            && (step.phase.ApplyPhase? && op.state.Applying? ==> step.id in EndsAfter(s, act).timedOut)
            && act.Ledger? && act.step == step
  {
  }

  /** At most one job of an undisturbed resource is not over. */
  lemma OneAtWork(s: Sys, r: ResId, i: nat, j: nat)
    requires PlaySound(s) && Kept(s, r) && Undisturbed(s, r) && IsJob(s, i) && IsJob(s, j)
    requires s.w.held[i].resource == r && s.w.held[j].resource == r && !s.stages[i].Over? && !s.stages[j].Over?
    ensures i == j
  {
    hide JobSound, OpCleared, ApplicationSound;
    assert JobKept(s, i) && JobKept(s, j);
    StateOfClaim(s, i);
    StateOfClaim(s, j);
    var a, b := s.w.held[i], s.w.held[j];
    assert a.id != b.id ==> Apart(s.w.db.ops[a.id], s.w.db.ops[b.id]);
    JobsApart(s, i, j);
  }

  /** And none, while an operation of it waits to be executed or applied. */
  lemma NoneAtWork(s: Sys, r: ResId, i: nat, id: OpId)
    requires PlaySound(s) && Kept(s, r) && Undisturbed(s, r) && IsJob(s, i) && s.w.held[i].resource == r
    requires id in s.w.db.ops && s.w.db.ops[id].resource == r
    requires s.w.db.ops[id].state.Planned? || s.w.db.ops[id].state.ApplyQueued?
    ensures s.stages[i].Over?
  {
    hide JobSound, OpCleared, ApplicationSound;
    assert JobKept(s, i);
    StateOfClaim(s, i);
    assert !s.stages[i].Over? && s.w.held[i].id != id ==> Apart(s.w.db.ops[s.w.held[i].id], s.w.db.ops[id]);
  }

  /** Only a job of `r` that is at work, or a loss, touches the file of `r`. */
  lemma OnlyWorkTouches(s: Sys, act: Act, r: ResId)
    requires act != Lose(r)
    requires !(JobOf(act).Some? && IsJob(s, act.i) && s.w.held[act.i].resource == r && !s.stages[act.i].Over?)
    ensures var files := DiskAfter(s, act);
            (r in files <==> r in s.files) && (r in files ==> files[r] == s.files[r])
  {
  }

  // ----- Every act keeps it -----

  lemma JobStaysKept(s: Sys, act: Act, t: Time, r: ResId, i: nat)
    requires PlaySound(s) && Kept(s, r) && Undisturbed(Do(s, act, t), r) && act != Lose(r)
    requires IsJob(s, i) && s.w.held[i].resource == r
    ensures IsJob(Do(s, act, t), i) && JobKept(Do(s, act, t), i)
  {
    hide WorldAfter, StagesAfter, DiskAfter, SoundWorld, OpCleared, ApplicationSound, JobSound, StageAfter, Undisturbed;
    UndisturbedBefore(s, act, t, r);
    OldJobStays(s, act, t, i);
    var after := Do(s, act, t);
    assert JobKept(s, i);
    OverStays(s, act, i);
    if !after.stages[i].Over? {
      RecordsKept(s, act, t, s.w.held[i].id);
      ClaimGoesOn(s, act, t, i);
      ClaimStays(s, act, t, r, i);
      if JobOf(act) == Some(i) {
        OwnWork(s, act, i);
      } else {
        if JobOf(act).Some? && IsJob(s, act.i) && s.w.held[act.i].resource == r && !s.stages[act.i].Over? {
          OneAtWork(s, r, i, act.i);
        }
        OnlyWorkTouches(s, act, r);
        OthersLeaveStage(s, act, i);
      }
    }
  }

  lemma OverStays(s: Sys, act: Act, i: nat)
    requires IsJob(s, i) && i < |StagesAfter(s, act)|
    ensures s.stages[i].Over? ==> StagesAfter(s, act)[i].Over?
    ensures JobOf(act) == Some(i) ==> StagesAfter(s, act)[i] == StageAfter(s.w.held[i], s.stages[i], s.files, act)
  {
  }

  lemma OthersLeaveStage(s: Sys, act: Act, i: nat)
    requires IsJob(s, i) && i < |StagesAfter(s, act)| && JobOf(act) != Some(i)
    ensures StagesAfter(s, act)[i] == s.stages[i]
  {
  }

  /** On an undisturbed resource the record stays the claim. */
  lemma ClaimStays(s: Sys, act: Act, t: Time, r: ResId, i: nat)
    requires Undisturbed(Do(s, act, t), r) && IsJob(s, i) && s.w.held[i].resource == r
    requires var op := s.w.held[i]; var after := WorldAfter(s, act, t).db;
             && op.id in after.ops && op.id in s.w.db.ops && s.w.db.ops[op.id] == op
             && SameTerms(op, after.ops[op.id])
             && (after.ops[op.id] == op || op.resource in Do(s, act, t).displaced
                 || op.id in EndsAfter(s, act).timedOut)
    ensures WorldAfter(s, act, t).db.ops[s.w.held[i].id] == s.w.held[i]
  {
    hide WorldAfter, StagesAfter, DiskAfter;
    assert !TimedOutOn(Do(s, act, t), r, s.w.held[i].id);
  }

  lemma OwnWork(s: Sys, act: Act, i: nat)
    requires IsJob(s, i) && JobOf(act) == Some(i)
    requires s.stages[i].Measured? ==>
      s.w.held[i].resource in s.files && s.stages[i].digest == Sha256(s.files[s.w.held[i].resource])
    requires Applier(s.w.held[i]) && s.stages[i].Begun? ==> PlanMatches(s.files, s.w.held[i])
    requires s.stages[i].Dropped? || s.stages[i].Unlinked? ==> s.w.held[i].resource !in s.files
    requires s.w.held[i].id in s.w.db.ops && s.w.db.ops[s.w.held[i].id] == s.w.held[i]
    ensures var op := s.w.held[i]; var files := DiskAfter(s, act);
            var stage := StageAfter(op, s.stages[i], s.files, act);
            && (stage.Measured? ==> op.resource in files && stage.digest == Sha256(files[op.resource]))
            && (Applier(op) && stage.Begun? ==> PlanMatches(files, op))
            && (stage.Dropped? || stage.Unlinked? ==> op.resource !in files)
  {
  }

  lemma OpStaysKept(s: Sys, act: Act, t: Time, r: ResId, id: OpId)
    requires PlaySound(s) && Kept(s, r) && Undisturbed(Do(s, act, t), r) && act != Lose(r)
    requires var db := WorldAfter(s, act, t).db; id in db.ops && db.ops[id].resource == r
    ensures OpKept(Do(s, act, t), id)
  {
    hide Next, StagesAfter, DiskAfter, SoundWorld, OpCleared, ApplicationSound, JobSound, StepOf, Undisturbed, Forward;
    UndisturbedBefore(s, act, t, r);
    var after := WorldAfter(s, act, t).db;
    if after.ops[id].state.Planned? || after.ops[id].state.ApplyQueued? {
      if id in s.w.db.ops {
        RecordsKept(s, act, t, id);
        WasWaiting(s, act, t, id);
        if s.w.db.ops[id].state.Planned? || s.w.db.ops[id].state.ApplyQueued? {
          assert OpKept(s, id);
          if JobOf(act).Some? && IsJob(s, act.i) && s.w.held[act.i].resource == r { NoneAtWork(s, r, act.i, id); }
          OnlyWorkTouches(s, act, r);
        } else {
          PlanArrives(s, act, t, r, id);
        }
      } else {
        NewInWorld(s, act, t, id);
      }
    }
  }

  /** An operation waits because it waited before, or because its plan was just reported. */
  lemma WasWaiting(s: Sys, act: Act, t: Time, id: OpId)
    requires PlaySound(s) && id in s.w.db.ops
    requires var after := WorldAfter(s, act, t).db;
             id in after.ops && (after.ops[id].state.Planned? || after.ops[id].state.ApplyQueued?)
    requires Forward(s.w.db.ops[id], WorldAfter(s, act, t).db.ops[id])
    ensures s.w.db.ops[id].state.Planned? || s.w.db.ops[id].state.ApplyQueued?
            || (s.w.db.ops[id].state.Planning? && StepOf(s, act).Some?
                && StepOf(s, act).value.Deliver? && StepOf(s, act).value.snapshot == s.w.db.ops[id]
                && WorldAfter(s, act, t).db.ops[id].state.Planned?)
    ensures s.w.db.ops[id].resource == WorldAfter(s, act, t).db.ops[id].resource
  {
    hide Next, StagesAfter, DiskAfter, OpCleared, ApplicationSound, JobSound;
    assert OpSound(s.w.db, id);
    if StepOf(s, act).Some? {
      RecordSteps(s.w, StepOf(s, act).value, t, id);
      FromQueued(s, act, t, id);
    }
  }

  /** Nothing goes from queued to planned, or past it, in one step. */
  lemma FromQueued(s: Sys, act: Act, t: Time, id: OpId)
    requires PlaySound(s) && StepOf(s, act).Some? && id in s.w.db.ops
    ensures var after := Next(s.w, StepOf(s, act).value, t).db;
            && id in after.ops
            && (s.w.db.ops[id].state.Queued? ==> !after.ops[id].state.Planned? && !after.ops[id].state.ApplyQueued?)
    ensures var after := Next(s.w, StepOf(s, act).value, t).db;
            s.w.db.ops[id].state.Planning? ==> !after.ops[id].state.ApplyQueued?
  {
    hide Next, Apply, JobSound, OpCleared, ApplicationSound, FirstChange, SecondChange;
    var step := StepOf(s, act).value;
    NextMakes(s.w, step, t);
    SecondNeverMoves(s.w, step, t);
    ApplyRecord(s.w.db, FirstChange(s.w, step, t), t, id);
    ApplyRecord(Apply(s.w.db, FirstChange(s.w, step, t), t), SecondChange(s.w, step, t), t, id);
    assert OpSound(s.w.db, id);
  }

  lemma PlanArrives(s: Sys, act: Act, t: Time, r: ResId, id: OpId)
    requires PlaySound(s) && Kept(s, r) && Undisturbed(s, r) && id in s.w.db.ops && s.w.db.ops[id].resource == r
    requires s.w.db.ops[id].state.Planning? && StepOf(s, act).Some? && StepOf(s, act).value.Deliver?
    requires StepOf(s, act).value.snapshot == s.w.db.ops[id]
    requires var after := WorldAfter(s, act, t).db; id in after.ops && after.ops[id].state.Planned?
    ensures PlanMatches(DiskAfter(s, act), WorldAfter(s, act, t).db.ops[id])
  {
    hide Undisturbed, OpCleared, ApplicationSound, JobSound, AllApart, Audited, Ordered, RowsSound;
    ReportsAreTheirOwn(s, act);
    assert JobKept(s, act.i) && OpSound(s.w.db, id);
  }

  lemma NewJobKept(s: Sys, act: Act, t: Time, r: ResId, i: nat)
    requires PlaySound(s) && Kept(s, r) && Undisturbed(Do(s, act, t), r)
    requires !IsJob(s, i) && IsJob(Do(s, act, t), i) && Do(s, act, t).w.held[i].resource == r
    ensures JobKept(Do(s, act, t), i)
  {
    hide Undisturbed, SoundWorld, OpCleared, ApplicationSound, JobSound, Next;
    UndisturbedBefore(s, act, t, r);
    OnlyBeginAdds(s, act, t, i);
    WorldKept(s, act, t);
    NewClaim(s.w, act.id, act.phase, t);
    assert OpKept(s, act.id);
  }

  lemma ActKeeps(s: Sys, act: Act, t: Time, r: ResId)
    requires PlaySound(s) && Kept(s, r) && act != Lose(r)
    ensures Kept(Do(s, act, t), r)
  {
    hide WorldAfter, DiskAfter, StagesAfter, SoundWorld, OpCleared, ApplicationSound, JobSound;
    hide Undisturbed, OpKept, JobKept;
    var after := Do(s, act, t);
    if Undisturbed(after, r) {
      WorldKept(s, act, t);
      forall i: nat | IsJob(after, i) && after.w.held[i].resource == r ensures JobKept(after, i) {
        if IsJob(s, i) {
          OldJobStays(s, act, t, i);
          JobStaysKept(s, act, t, r, i);
        } else {
          NewJobKept(s, act, t, r, i);
        }
      }
      forall id | id in after.w.db.ops && after.w.db.ops[id].resource == r ensures OpKept(after, id) {
        OpStaysKept(s, act, t, r, id);
      }
    }
  }

  lemma {:induction false} EveryPlayKeeps(acts: seq<Happening>, r: ResId)
    requires forall k :: 0 <= k < |acts| ==> acts[k].act != Lose(r)
    ensures Kept(Play(acts), r)
  {
    hide Do, PlaySound, Kept;
    if acts == [] {
      NothingKept(r);
    } else {
      EveryPlayKeeps(acts[..|acts| - 1], r);
      EveryPlayIsSound(acts[..|acts| - 1]);
      ActKeeps(Play(acts[..|acts| - 1]), acts[|acts| - 1].act, acts[|acts| - 1].at, r);
    }
  }

  lemma NothingKept(r: ResId)
    ensures Kept(BEGIN, r)
  {
  }

  /** In every play in which no file of `r` was lost and no phase of it was interrupted: the file of every
      operation that waits for its approval or its apply is the plan on its record, an apply that is
      about to start finds it, and a job that has applied its plan, or failed, leaves none behind. */
  lemma {:induction false} PlansAreKept(acts: seq<Happening>, r: ResId, id: OpId, i: nat)
    requires (forall k :: 0 <= k < |acts| ==> acts[k].act != Lose(r)) && Undisturbed(Play(acts), r)
    ensures var s := Play(acts);
            && (id in s.w.db.ops && s.w.db.ops[id].resource == r
                && (s.w.db.ops[id].state.Planned? || s.w.db.ops[id].state.ApplyQueued?) ==>
                  r in s.files && s.w.db.ops[id].planDigest == Some(Sha256(s.files[r])))
            && (IsJob(s, i) && s.w.held[i].resource == r && Applier(s.w.held[i]) && s.stages[i].Begun? ==>
                  forall end :: Applies(s, ApplyPlan(i, end)))
            && (IsJob(s, i) && s.w.held[i].resource == r && (s.stages[i].Dropped? || s.stages[i].Unlinked?) ==>
                  r !in s.files)
  {
    hide Play, Undisturbed;
    EveryPlayKeeps(acts, r);
    var s := Play(acts);
    assert OpKept(s, id) || !(id in s.w.db.ops && s.w.db.ops[id].resource == r);
    if IsJob(s, i) && s.w.held[i].resource == r { assert JobKept(s, i); }
  }
}
