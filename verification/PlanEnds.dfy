/** How planning jobs and drift checks end on record: planned or failed, by whether anything raised. */
module PlanEnds {
  import opened LedgerModel
  import opened LedgerRuns
  import opened Records
  import opened Activities
  import opened ActivitySafety
  import opened ApplyEnds

  predicate PlanStageTells(s: Sys, i: nat)
    requires IsJob(s, i)
  {
    var stage := s.stages[i];
    if i in s.ends.gaveUp then stage.Failing? || stage.Dropped? || stage.Over?
    else BeforeResult(stage) || stage.Over?
  }

  /** While the job runs its operation is planning, unless it timed out; afterwards it has failed if the
      job raised, else it was planned, or was a check and is finished. */
  predicate PlanRecordTells(s: Sys, i: nat)
    requires IsJob(s, i)
  {
    var id := s.w.held[i].id;
    && id in s.w.db.ops
    && var op := s.w.db.ops[id];
       if id in s.ends.planTimedOut then true
       else if !s.stages[i].Over? then op.state.Planning?
       else if op.Action().DriftCheck? then op.Finished()
       else if i in s.ends.gaveUp then op.state.Failed?
       else Rank(op.state) <= Rank(Planned) && op.planDigest.Some?
  }

  ghost predicate PlanEndSound(s: Sys, i: nat) {
    && (i in s.ends.gaveUp ==> IsJob(s, i) && Planner(s.w.held[i]))
    && (IsJob(s, i) && s.w.held[i].state.Planning? ==> PlanStageTells(s, i) && PlanRecordTells(s, i))
  }

  ghost predicate PlanEndsSound(s: Sys) { forall i: nat {:trigger PlanEndSound(s, i)} :: PlanEndSound(s, i) }

  lemma PlanStageTellsOn(s: Sys, act: Act, t: Time, i: nat)
    requires PlaySound(s) && IsJob(s, i) && s.w.held[i].state.Planning? && PlanStageTells(s, i)
    requires IsJob(Do(s, act, t), i) && JobSound(s, i)
    ensures PlanStageTells(Do(s, act, t), i)
  {
    hide WorldAfter, DiskAfter, PlaySound, PlanMatches, Approves, Applies, Displaces, Cleared;
  }

  /** The one result a planning job or a check reports. */
  ghost predicate PlanReportTells(s: Sys, act: Act, i: nat)
    requires IsJob(s, i)
  {
    var op := s.w.held[i];
    var report := ReportOf(op, s.stages[i], act);
    report.Some? ==>
      && report.value.Deliver? && report.value.snapshot == op
      && (if op.Action().DriftCheck? then report.value.state.Succeeded? || report.value.state.Failed?
          else if i in s.ends.gaveUp then report.value.state.Failed?
          else report.value.state.Planned? && report.value.report.PlanReport?)
      && Reportable(op, report.value.state, report.value.report)
      && StageAfter(op, s.stages[i], s.files, act).Over? && !s.stages[i].Over?
      && EndsAfter(s, act) == s.ends
  }

  lemma PlanReportIsTold(s: Sys, act: Act, i: nat)
    requires JobSoundAt(s, i) && s.w.held[i].state.Planning? && PlanStageTells(s, i) && JobOf(act) == Some(i)
    ensures PlanReportTells(s, act, i)
    ensures ReportOf(s.w.held[i], s.stages[i], act).None? ==>
      (StageAfter(s.w.held[i], s.stages[i], s.files, act).Over? <==> s.stages[i].Over?)
  {
    hide Cleared, PlanMatches;
  }

  ghost predicate JobSoundAt(s: Sys, i: nat) { IsJob(s, i) && JobSound(s, i) }

  lemma DeliveredPlan(w: World, step: Step, t: Time)
    requires SoundWorld(w) && step.Deliver? && step.snapshot in w.held
    requires Reportable(step.snapshot, step.state, step.report)
    requires step.snapshot.id in w.db.ops && w.db.ops[step.snapshot.id].state == step.snapshot.state
    ensures var after := Next(w, step, t).db;
            step.snapshot.id in after.ops && after.ops[step.snapshot.id].state == step.state
            && (step.report.PlanReport? ==> after.ops[step.snapshot.id].planDigest.Some?)
  {
    hide AllApart, Audited, Ordered;
    assert Current(w.db, step.snapshot);
  }

  /** Nobody else takes an operation out of `planning` but a timeout. */
  lemma OnlyItsPlannerEnds(s: Sys, act: Act, t: Time, i: nat)
    requires PlaySound(s) && IsJob(s, i) && s.w.held[i].state.Planning? && JobOf(act) != Some(i)
    requires s.w.held[i].id in s.w.db.ops && s.w.db.ops[s.w.held[i].id].state.Planning?
    ensures var db := WorldAfter(s, act, t).db;
            s.w.held[i].id in db.ops
            && (db.ops[s.w.held[i].id].state.Planning? || s.w.held[i].id in EndsAfter(s, act).planTimedOut)
  {
    hide Next, JobSound, OpCleared, ApplicationSound, ReportOf;
    var id := s.w.held[i].id;
    if StepOf(s, act).Some? {
      var step := StepOf(s, act).value;
      assert s.w.db.ops[id].id == id by { ClaimedId(s, id); }
      RecordSteps(s.w, step, t, id);
      if step.Deliver? && step.snapshot == s.w.db.ops[id] {
        ReportsOwn(s, act);
        JobsApart(s, i, act.i);
      } else if step.Interrupt? && step.id == id && step.phase.PlanPhase? {
        PlanTimesOut(s, act);
      }
    }
  }

  lemma PlanTimesOut(s: Sys, act: Act)
    requires StepOf(s, act).Some? && StepOf(s, act).value.Interrupt? && StepOf(s, act).value.phase.PlanPhase?
    requires Interruptible(s.w.db, StepOf(s, act).value.id, PlanPhase)
    ensures StepOf(s, act).value.id in EndsAfter(s, act).planTimedOut
  {
  }

  lemma PlanMarksStay(s: Sys, act: Act, i: nat)
    ensures var ends := EndsAfter(s, act);
            && s.ends.planTimedOut <= ends.planTimedOut && s.ends.gaveUp <= ends.gaveUp
            && (JobOf(act) != Some(i) ==> (i in ends.gaveUp <==> i in s.ends.gaveUp))
            && (IsJob(s, i) && JobOf(act) == Some(i) ==>
                  ends.planTimedOut == s.ends.planTimedOut && (s.stages[i].Over? ==> ends == s.ends))
  {
  }

  lemma PlanRecordTellsOn(s: Sys, act: Act, t: Time, i: nat)
    requires PlaySound(s) && PlanEndSound(s, i) && IsJob(s, i) && s.w.held[i].state.Planning?
    requires IsJob(Do(s, act, t), i) && Do(s, act, t).w.held[i] == s.w.held[i]
    ensures PlanRecordTells(Do(s, act, t), i)
  {
    hide WorldAfter, DiskAfter, SoundWorld, StageAfter, JobSound, OpCleared, ApplicationSound, PlanMatches;
    hide ReportOf, StepOf, Approves, Applies, Displaces, EndsAfter;
    var id := s.w.held[i].id;
    RecordsKept(s, act, t, id);
    PlanMarksStay(s, act, i);
    if s.w.db.ops[id].Finished() { SettledRecordStays(s, act, t, id); }
    if JobOf(act) == Some(i) {
      OwnPlanAct(s, act, t, i);
    } else if s.w.db.ops[id].state.Planning? {
      OnlyItsPlannerEnds(s, act, t, i);
    }
  }

  /** An act of the job itself: it stays planning, or its one result is recorded. */
  lemma OwnPlanAct(s: Sys, act: Act, t: Time, i: nat)
    requires PlaySound(s) && IsJob(s, i) && s.w.held[i].state.Planning? && PlanEndSound(s, i) && JobOf(act) == Some(i)
    requires IsJob(Do(s, act, t), i) && Do(s, act, t).w.held[i] == s.w.held[i]
    requires var id := s.w.held[i].id;
             && id in WorldAfter(s, act, t).db.ops
             && RecordKept(s, act, t, s.w.db.ops[id], WorldAfter(s, act, t).db.ops[id])
    requires s.w.db.ops[s.w.held[i].id].Finished() ==>
      WorldAfter(s, act, t).db.ops[s.w.held[i].id] == s.w.db.ops[s.w.held[i].id]
    ensures PlanRecordTells(Do(s, act, t), i)
  {
    hide Next, DiskAfter, SoundWorld, StageAfter, JobSound, OpCleared, ApplicationSound, PlanMatches;
    hide ReportOf, Approves, Applies, Displaces, Reportable, EndsAfter;
    assert JobSound(s, i);
    PlanReportIsTold(s, act, i);
    PlanMarksStay(s, act, i);
    NotABegin(s, act, i);
    SameKind(s, i);
    var report := ReportOf(s.w.held[i], s.stages[i], act);
    if report.Some? && s.w.held[i].id !in s.ends.planTimedOut { DeliveredPlan(s.w, report.value, t); }
  }

  lemma SameKind(s: Sys, i: nat)
    requires PlaySound(s) && IsJob(s, i)
    ensures s.w.held[i].id in s.w.db.ops && SameTerms(s.w.db.ops[s.w.held[i].id], s.w.held[i])
  {
    assert Current(s.w.db, s.w.held[i]);
  }

  lemma NewPlanJob(s: Sys, act: Act, t: Time, i: nat)
    requires PlaySound(s) && PlanEndSound(s, i) && !IsJob(s, i) && IsJob(Do(s, act, t), i)
    ensures PlanEndSound(Do(s, act, t), i)
  {
    hide Next, Move, SoundWorld, JobSound, OpCleared, ApplicationSound, PlanMatches, Displaces;
    WorldKept(s, act, t);
    NewClaim(s.w, act.id, act.phase, t);
  }

  lemma ActKeepsPlanEnds(s: Sys, act: Act, t: Time)
    requires PlaySound(s) && PlanEndsSound(s)
    ensures PlanEndsSound(Do(s, act, t))
  {
    hide WorldAfter, DiskAfter, SoundWorld, StageAfter, JobSound, OpCleared, ApplicationSound, PlanMatches;
    hide PlanRecordTells, PlanStageTells, Approves, Applies, Displaces, EndsAfter;
    var after := Do(s, act, t);
    WorldKept(s, act, t);
    forall i: nat ensures PlanEndSound(after, i) {
      assert PlanEndSound(s, i);
      if IsJob(s, i) {
        GaveUpIsPlanner(s, act, i);
        if s.w.held[i].state.Planning? {
          assert JobSound(s, i);
          PlanStageTellsOn(s, act, t, i);
          PlanRecordTellsOn(s, act, t, i);
        }
      } else {
        PlanMarksOfNobody(s, act, i);
        if IsJob(after, i) { NewPlanJob(s, act, t, i); }
      }
    }
  }

  lemma GaveUpIsPlanner(s: Sys, act: Act, i: nat)
    requires IsJob(s, i) && (i in s.ends.gaveUp ==> Planner(s.w.held[i]))
    ensures i in EndsAfter(s, act).gaveUp ==> Planner(s.w.held[i])
  {
  }

  lemma PlanMarksOfNobody(s: Sys, act: Act, i: nat)
    requires !IsJob(s, i) && i !in s.ends.gaveUp
    ensures i !in EndsAfter(s, act).gaveUp
  {
  }

  lemma {:induction false} EveryPlanTells(acts: seq<Happening>)
    ensures PlanEndsSound(Play(acts))
  {
    hide Do;
    if acts != [] {
      EveryPlanTells(acts[..|acts| - 1]);
      EveryPlayIsSound(acts[..|acts| - 1]);
      ActKeepsPlanEnds(Play(acts[..|acts| - 1]), acts[|acts| - 1].act, acts[|acts| - 1].at);
    }
  }

  /** In every play, once a planning job is over and its phase never timed out: its operation has failed if
      anything raised, and otherwise was planned, with a digest; a drift check has succeeded or failed.
      Until then the operation is still planning. */
  lemma {:induction false} PlansEndTruly(acts: seq<Happening>, i: nat)
    requires var s := Play(acts);
             IsJob(s, i) && s.w.held[i].state.Planning? && s.w.held[i].id !in s.ends.planTimedOut
    ensures var s := Play(acts); var id := s.w.held[i].id;
            && id in s.w.db.ops
            && var op := s.w.db.ops[id];
               if !s.stages[i].Over? then op.state.Planning?
               else if op.Action().DriftCheck? then op.state.Succeeded? || op.state.Failed?
               else if i in s.ends.gaveUp then op.state.Failed?
               else !op.state.Queued? && !op.state.Planning? && op.planDigest.Some?
  {
    hide Play;
    EveryPlanTells(acts);
    assert PlanEndSound(Play(acts), i);
  }
}
