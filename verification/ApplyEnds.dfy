/** How an apply ends on record: in doubt whenever infrastructure may have changed, failed only when
    nothing did. */
module ApplyEnds {
  import opened LedgerModel
  import opened LedgerRuns
  import opened LedgerSafety
  import opened LedgerTheorems
  import opened Records
  import opened Activities
  import opened ActivitySafety

  ghost predicate WasReconciled(db: Db, id: OpId) {
    exists i {:trigger db.events[i]} ::
      0 <= i < |db.events| && IsAbout(db.events[i], id) && db.events[i].kind.Reconciled?
  }

  /** Uncertain, or an operator has decided since. */
  ghost predicate InDoubt(db: Db, id: OpId) {
    id in db.ops && (db.ops[id].state.Uncertain? || WasReconciled(db, id))
  }

  /** Terraform broke, or the job raised somewhere else. */
  predicate Doubtful(s: Sys, i: nat) { i in s.ends.broken || i in s.ends.stumbled }

  predicate StageTells(s: Sys, i: nat)
    requires IsJob(s, i)
  {
    var stage := s.stages[i];
    if Doubtful(s, i) then stage.Unsure? || stage.Over?
    else if i in s.ends.untouched then stage.Failing? || stage.Dropped? || stage.Over?
    else stage.Begun? || stage.Ran? || stage.Unlinked? || stage.Over?
  }

  /** While the job runs its operation is applying, unless it timed out; once the job is over, the
      operation is where the job left it, unless it timed out or an operator decided. */
  ghost predicate RecordTells(s: Sys, i: nat)
    requires IsJob(s, i)
  {
    var id := s.w.held[i].id;
    && id in s.w.db.ops
    && var state := s.w.db.ops[id].state;
       if id in s.ends.timedOut then true
       else if !s.stages[i].Over? then state.Applying?
       else if Doubtful(s, i) then InDoubt(s.w.db, id)
       else if i in s.ends.untouched then state.Failed?
       else state.Succeeded?
  }

  ghost predicate EndSound(s: Sys, i: nat) {
    && (Doubtful(s, i) || i in s.ends.untouched ==> IsJob(s, i) && Applier(s.w.held[i]))
    && (IsJob(s, i) && Applier(s.w.held[i]) ==> StageTells(s, i) && RecordTells(s, i))
  }

  ghost predicate TimedSound(s: Sys, id: OpId) { id in s.ends.timedOut ==> InDoubt(s.w.db, id) }

  ghost predicate EndsSound(s: Sys) {
    && (forall i {:trigger EndSound(s, i)} :: EndSound(s, i))
    && (forall id {:trigger TimedSound(s, id)} :: TimedSound(s, id))
  }

  // ----- Doubt is only ended by an operator -----

  lemma DecisionIsTold(w: World, id: OpId, actor: Actor, outcome: Outcome, t: Time)
    requires ReconcileAnswer(w.db, id, outcome).Changed? && w.db.ops[id].id == id
    ensures WasReconciled(Next(w, Resolve(id, actor, outcome), t).db, id)
  {
    var after := Next(w, Resolve(id, actor, outcome), t).db;
    assert after.events[|w.db.events|] == About(id, actor, Reconciled, t);
  }

  lemma UncertainStays(w: World, step: Step, t: Time, id: OpId)
    requires SoundWorld(w) && id in w.db.ops && w.db.ops[id].state.Uncertain?
    ensures InDoubt(Next(w, step, t).db, id)
  {
    hide Next, Apply, FirstChange, SecondChange, Legal, WasReconciled, ReconcileAnswer;
    NextMakes(w, step, t);
    OnlyResolveMovesUncertain(w, step, t);
    SecondNeverMoves(w, step, t);
    var first, second := FirstChange(w, step, t), SecondChange(w, step, t);
    ApplyRecord(w.db, first, t, id);
    ApplyRecord(Apply(w.db, first, t), second, t, id);
    if first.Moves? && first.op.id == id {
      assert w.db.ops[id].id == id by { assert OpSound(w.db, id); }
      DecisionIsTold(w, id, step.actor, step.outcome, t);
    }
  }

  lemma DoubtStays(w: World, step: Step, t: Time, id: OpId)
    requires SoundWorld(w) && InDoubt(w.db, id)
    ensures InDoubt(Next(w, step, t).db, id)
  {
    hide Next;
    if w.db.ops[id].state.Uncertain? {
      UncertainStays(w, step, t, id);
    } else {
      StepsGoForward(w, step, t, id);
      EventsOnlyGrow(w, step, t);
      var i :| 0 <= i < |w.db.events| && IsAbout(w.db.events[i], id) && w.db.events[i].kind.Reconciled?;
      assert Next(w, step, t).db.events[i] == w.db.events[i];
    }
  }

  lemma DoubtStaysInPlay(s: Sys, act: Act, t: Time, id: OpId)
    requires SoundWorld(s.w) && InDoubt(s.w.db, id)
    ensures InDoubt(WorldAfter(s, act, t).db, id)
  {
    hide Next, InDoubt;
    if StepOf(s, act).Some? { DoubtStays(s.w, StepOf(s, act).value, t, id); }
  }

  lemma TimeoutIsDoubt(s: Sys, act: Act, t: Time)
    requires SoundWorld(s.w) && act.Ledger? && act.step.Interrupt? && act.step.phase.ApplyPhase?
    requires Interruptible(s.w.db, act.step.id, ApplyPhase)
    ensures InDoubt(WorldAfter(s, act, t).db, act.step.id)
  {
    assert OpSound(s.w.db, act.step.id);
  }

  lemma StaysTimed(s: Sys, act: Act, t: Time, id: OpId)
    requires SoundWorld(s.w) && TimedSound(s, id)
    ensures TimedSound(Do(s, act, t), id)
  {
    hide WorldAfter, StagesAfter, DiskAfter, InDoubt, SoundWorld;
    if id in s.ends.timedOut {
      DoubtStaysInPlay(s, act, t, id);
    } else if id in Do(s, act, t).ends.timedOut {
      TimeoutIsDoubt(s, act, t);
    }
  }

  // ----- What an act does to an applying job -----

  /** The stage a job comes to, and the marks it gets, fit together. */
  lemma StageTellsOn(s: Sys, act: Act, t: Time, i: nat)
    requires PlaySound(s) && IsJob(s, i) && Applier(s.w.held[i]) && StageTells(s, i)
    requires IsJob(Do(s, act, t), i)
    ensures StageTells(Do(s, act, t), i)
  {
    hide WorldAfter, DiskAfter, SoundWorld, OpCleared, ApplicationSound, PlanMatches, Approves, Applies, Displaces;
  }

  lemma NewIsBegun(s: Sys, act: Act, t: Time, i: nat)
    requires PlaySound(s) && EndSound(s, i) && !IsJob(s, i) && IsJob(Do(s, act, t), i)
    ensures EndSound(Do(s, act, t), i)
  {
    hide Next, Move, SoundWorld, JobSound, OpCleared, ApplicationSound, PlanMatches, Displaces;
    WorldKept(s, act, t);
    NewClaim(s.w, act.id, act.phase, t);
  }

  /** The one result an applying job reports, by its marks. */
  ghost predicate ReportTells(s: Sys, act: Act, i: nat)
    requires IsJob(s, i)
  {
    var report := ReportOf(s.w.held[i], s.stages[i], act);
    report.Some? ==>
      && report.value.Deliver? && report.value.snapshot == s.w.held[i]
      && report.value.state
         == (if Doubtful(s, i) then Uncertain else if i in s.ends.untouched then Failed else Succeeded)
      && Reportable(report.value.snapshot, report.value.state, report.value.report)
      && StageAfter(s.w.held[i], s.stages[i], s.files, act).Over? && !s.stages[i].Over?
      && EndsAfter(s, act) == s.ends
  }

  lemma ReportIsTold(s: Sys, act: Act, i: nat)
    requires PlaySound(s) && IsJob(s, i) && Applier(s.w.held[i]) && StageTells(s, i) && JobOf(act) == Some(i)
    ensures ReportTells(s, act, i)
    ensures ReportOf(s.w.held[i], s.stages[i], act).None? ==>
      (StageAfter(s.w.held[i], s.stages[i], s.files, act).Over? <==> s.stages[i].Over?)
  {
    hide PlaySound, PlanMatches;
    ApplierIsReal(s, i);
  }

  lemma ApplierIsReal(s: Sys, i: nat)
    requires PlaySound(s) && IsJob(s, i) && Applier(s.w.held[i])
    ensures !s.w.held[i].Action().DriftCheck?
  {
    assert JobSound(s, i) && Current(s.w.db, s.w.held[i]) && OpSound(s.w.db, s.w.held[i].id);
  }

  /** A result that the fence lets through is what is recorded. */
  lemma Delivered(w: World, step: Step, t: Time)
    requires SoundWorld(w) && step.Deliver? && step.snapshot in w.held
    requires Reportable(step.snapshot, step.state, step.report)
    requires step.snapshot.id in w.db.ops && w.db.ops[step.snapshot.id].state == step.snapshot.state
    ensures var after := Next(w, step, t).db;
            step.snapshot.id in after.ops && after.ops[step.snapshot.id].state == step.state
  {
    hide AllApart, Audited, Ordered;
  }

  lemma SettledRecordStays(s: Sys, act: Act, t: Time, id: OpId)
    requires SoundWorld(s.w) && id in s.w.db.ops && s.w.db.ops[id].Finished()
    ensures var db := WorldAfter(s, act, t).db; id in db.ops && db.ops[id] == s.w.db.ops[id]
  {
    hide Next;
    if StepOf(s, act).Some? { StepsGoForward(s.w, StepOf(s, act).value, t, id); }
  }

  /** Nobody else takes an operation out of `applying` but a timeout. */
  lemma OnlyItsJobEnds(s: Sys, act: Act, t: Time, i: nat)
    requires PlaySound(s) && IsJob(s, i) && Applier(s.w.held[i]) && JobOf(act) != Some(i)
    requires s.w.held[i].id in s.w.db.ops && s.w.db.ops[s.w.held[i].id].state.Applying?
    ensures var db := WorldAfter(s, act, t).db;
            s.w.held[i].id in db.ops
            && (db.ops[s.w.held[i].id].state.Applying? || s.w.held[i].id in EndsAfter(s, act).timedOut)
  {
    hide Next, JobSound, OpCleared, ApplicationSound, ReportOf, RecordStep;
    var id := s.w.held[i].id;
    if StepOf(s, act).Some? {
      var step := StepOf(s, act).value;
      RecordSteps(s.w, step, t, id);
      LeavesApplying(s, step, t, i);
      if step.Deliver? && step.snapshot == s.w.db.ops[id] {
        ReportsOwn(s, act);
        SameClaim(s, i, act.i);
      } else if step.Interrupt? && step.id == id && step.phase.ApplyPhase? {
        TimesOut(s, act);
      }
    }
  }

  lemma LeavesApplying(s: Sys, step: Step, t: Time, i: nat)
    requires SoundWorld(s.w) && IsJob(s, i) && s.w.held[i].id in s.w.db.ops
    requires s.w.db.ops[s.w.held[i].id].state.Applying?
    requires var id := s.w.held[i].id; var after := Next(s.w, step, t).db;
             id in after.ops && RecordStep(s.w.db, s.w.db.ops[id], after.ops[id], step, t)
    ensures var id := s.w.held[i].id; var after := Next(s.w, step, t).db;
            after.ops[id].state.Applying? || (step.Deliver? && step.snapshot == s.w.db.ops[id])
            || (step.Interrupt? && step.id == id && step.phase.ApplyPhase?)
  {
    hide Next;
    assert OpSound(s.w.db, s.w.held[i].id);
  }

  lemma ReportsOwn(s: Sys, act: Act)
    requires StepOf(s, act).Some? && StepOf(s, act).value.Deliver?
    ensures JobOf(act).Some? && IsJob(s, act.i) && StepOf(s, act).value.snapshot == s.w.held[act.i]
  {
  }

  lemma TimesOut(s: Sys, act: Act)
    requires StepOf(s, act).Some? && StepOf(s, act).value.Interrupt? && StepOf(s, act).value.phase.ApplyPhase?
    requires Interruptible(s.w.db, StepOf(s, act).value.id, ApplyPhase)
    ensures StepOf(s, act).value.id in EndsAfter(s, act).timedOut
  {
  }

  lemma SameClaim(s: Sys, i: nat, j: nat)
    requires SoundWorld(s.w) && IsJob(s, i) && IsJob(s, j) && Applier(s.w.held[i])
    requires s.w.held[i].id in s.w.db.ops && s.w.held[j] == s.w.db.ops[s.w.held[i].id] && s.w.held[j].state.Applying?
    ensures i == j
  {
    assert OpSound(s.w.db, s.w.held[i].id);
    JobsApart(s, i, j);
  }

  lemma RecordTellsOn(s: Sys, act: Act, t: Time, i: nat)
    requires PlaySound(s) && EndsSound(s) && IsJob(s, i) && Applier(s.w.held[i])
    requires IsJob(Do(s, act, t), i) && Do(s, act, t).w.held[i] == s.w.held[i]
    ensures RecordTells(Do(s, act, t), i)
  {
    hide WorldAfter, DiskAfter, SoundWorld, InDoubt, StageAfter, JobSound, OpCleared, ApplicationSound, PlanMatches;
    hide ReportOf, StepOf, Approves, Applies, Displaces;
    assert EndSound(s, i) && JobSound(s, i);
    var id := s.w.held[i].id;
    RecordsKept(s, act, t, id);
    if s.w.db.ops[id].Finished() { SettledRecordStays(s, act, t, id); }
    if InDoubt(s.w.db, id) { DoubtStaysInPlay(s, act, t, id); }
    if JobOf(act) == Some(i) {
      OwnAct(s, act, t, i);
    } else {
      MarksStay(s, act, i);
      if s.w.db.ops[id].state.Applying? { OnlyItsJobEnds(s, act, t, i); }
    }
  }

  lemma MarksStay(s: Sys, act: Act, i: nat)
    requires JobOf(act) != Some(i)
    ensures var ends := EndsAfter(s, act);
            && (i in ends.broken <==> i in s.ends.broken) && (i in ends.stumbled <==> i in s.ends.stumbled)
            && (i in ends.untouched <==> i in s.ends.untouched) && s.ends.timedOut <= ends.timedOut
  {
  }

  /** An act of the job itself: it stays applying, or its one result is recorded. */
  lemma OwnAct(s: Sys, act: Act, t: Time, i: nat)
    requires PlaySound(s) && IsJob(s, i) && Applier(s.w.held[i]) && EndSound(s, i) && JobOf(act) == Some(i)
    requires IsJob(Do(s, act, t), i) && Do(s, act, t).w.held[i] == s.w.held[i]
    requires s.w.held[i].id in WorldAfter(s, act, t).db.ops
    requires InDoubt(s.w.db, s.w.held[i].id) ==> InDoubt(WorldAfter(s, act, t).db, s.w.held[i].id)
    requires s.w.db.ops[s.w.held[i].id].Finished() ==>
      WorldAfter(s, act, t).db.ops[s.w.held[i].id] == s.w.db.ops[s.w.held[i].id]
    ensures RecordTells(Do(s, act, t), i)
  {
    hide Next, DiskAfter, SoundWorld, StageAfter, JobSound, OpCleared, ApplicationSound, PlanMatches, WasReconciled;
    hide ReportOf, Approves, Applies, Displaces, Reportable;
    ReportIsTold(s, act, i);
    OverMarksStay(s, act, i);
    var report := ReportOf(s.w.held[i], s.stages[i], act);
    NotABegin(s, act, i);
    if report.Some? && s.w.held[i].id !in s.ends.timedOut { Delivered(s.w, report.value, t); }
  }

  lemma NotABegin(s: Sys, act: Act, i: nat)
    requires IsJob(s, i) && JobOf(act) == Some(i)
    ensures StepOf(s, act) == ReportOf(s.w.held[i], s.stages[i], act)
  {
  }

  lemma OverMarksStay(s: Sys, act: Act, i: nat)
    requires IsJob(s, i) && JobOf(act) == Some(i)
    ensures s.stages[i].Over? ==> EndsAfter(s, act) == s.ends
    ensures EndsAfter(s, act).timedOut == s.ends.timedOut
  {
  }

  lemma ActKeepsEnds(s: Sys, act: Act, t: Time)
    requires PlaySound(s) && EndsSound(s)
    ensures EndsSound(Do(s, act, t))
  {
    hide WorldAfter, DiskAfter, SoundWorld, InDoubt, StageAfter, JobSound, OpCleared, ApplicationSound, PlanMatches;
    hide RecordTells, StageTells, Approves, Applies, Displaces;
    var after := Do(s, act, t);
    WorldKept(s, act, t);
    forall id ensures TimedSound(after, id) {
      assert TimedSound(s, id);
      StaysTimed(s, act, t, id);
    }
    forall i: nat ensures EndSound(after, i) {
      assert EndSound(s, i);
      if IsJob(s, i) {
        if Applier(s.w.held[i]) {
          StageTellsOn(s, act, t, i);
          RecordTellsOn(s, act, t, i);
        }
      } else if IsJob(after, i) {
        NewIsBegun(s, act, t, i);
      }
    }
  }

  lemma {:induction false} EveryPlayTells(acts: seq<Happening>)
    ensures EndsSound(Play(acts))
  {
    hide Do;
    if acts != [] {
      EveryPlayTells(acts[..|acts| - 1]);
      EveryPlayIsSound(acts[..|acts| - 1]);
      ActKeepsEnds(Play(acts[..|acts| - 1]), acts[|acts| - 1].act, acts[|acts| - 1].at);
    }
  }

  // ----- How applies end -----

  /** In every play, when the apply of an operation broke, or its job raised anywhere else: the
      operation is applying or uncertain, or an operator has reconciled it; its job reports nothing
      but `uncertain`; and until an operator decides, the row keeps what the operation reserved. */
  lemma {:induction false} BrokenAppliesStayInDoubt(acts: seq<Happening>, i: nat)
    requires Doubtful(Play(acts), i)
    ensures var s := Play(acts);
            && IsJob(s, i) && s.w.held[i].id in s.w.db.ops
            && var id := s.w.held[i].id; var op := s.w.db.ops[id];
               && (op.state.Applying? || op.state.Uncertain? || WasReconciled(s.w.db, id))
               && (forall act :: JobOf(act) == Some(i) && ReportOf(s.w.held[i], s.stages[i], act).Some? ==>
                     ReportOf(s.w.held[i], s.stages[i], act).value.state.Uncertain?)
               && (!WasReconciled(s.w.db, id) ==>
                     && op.resource in s.w.db.rows && s.w.db.rows[op.resource].latest == id
                     && (op.Action().Deploy? ==>
                           op.terms.previousCost.Some?
                           && s.w.db.rows[op.resource].cost == Max(op.terms.previousCost.value, op.terms.cost)))
  {
    hide Play, PlaySound, JobSound, ReportOf, WasReconciled, SoundWorld, Applier;
    EveryPlayTells(acts);
    EveryPlayIsSound(acts);
    var s := Play(acts);
    assert EndSound(s, i);
    var id := s.w.held[i].id;
    assert TimedSound(s, id);
    forall act | JobOf(act) == Some(i) ensures ReportTells(s, act, i) { ReportIsTold(s, act, i); }
    OpIsWell(s, id);
  }

  lemma OpIsWell(s: Sys, id: OpId)
    requires PlaySound(s) && id in s.w.db.ops
    ensures OpSound(s.w.db, id)
    ensures s.w.db.ops[id].state.Applying? || s.w.db.ops[id].state.Uncertain? ==> !s.w.db.ops[id].Action().DriftCheck?
  {
    assert OpSound(s.w.db, id);
  }

  /** And when terraform changed nothing, because the plan was gone or changed or the apply was refused
      before any change, and nothing else raised: the job reports nothing but `failed`, and the
      operation is applying or failed unless its phase timed out. */
  lemma {:induction false} UntouchedAppliesFail(acts: seq<Happening>, i: nat)
    requires var s := Play(acts); i in s.ends.untouched && !Doubtful(s, i)
    ensures var s := Play(acts);
            && IsJob(s, i) && s.w.held[i].id in s.w.db.ops
            && var id := s.w.held[i].id;
               && (s.w.db.ops[id].state.Applying? || s.w.db.ops[id].state.Failed? || id in s.ends.timedOut)
               && (forall act :: JobOf(act) == Some(i) && ReportOf(s.w.held[i], s.stages[i], act).Some? ==>
                     ReportOf(s.w.held[i], s.stages[i], act).value.state.Failed?)
  {
    hide Play, PlaySound, JobSound, ReportOf, WasReconciled;
    EveryPlayTells(acts);
    EveryPlayIsSound(acts);
    var s := Play(acts);
    assert EndSound(s, i);
    forall act | JobOf(act) == Some(i) ensures ReportTells(s, act, i) { ReportIsTold(s, act, i); }
  }

  /** So once an applying job is over and its phase never timed out, the record says which it was. */
  lemma {:induction false} EndsAreRecorded(acts: seq<Happening>, i: nat)
    requires var s := Play(acts);
             IsJob(s, i) && Applier(s.w.held[i]) && s.stages[i].Over? && s.w.held[i].id !in s.ends.timedOut
    ensures var s := Play(acts); var id := s.w.held[i].id;
            && id in s.w.db.ops
            && if Doubtful(s, i) then InDoubt(s.w.db, id)
               else if i in s.ends.untouched then s.w.db.ops[id].state.Failed?
               else s.w.db.ops[id].state.Succeeded?
  {
    hide Play, InDoubt;
    EveryPlayTells(acts);
    assert EndSound(Play(acts), i);
  }

  // ----- What a job reports is what is recorded -----

  /** The claim is still the stored record. */
  ghost predicate Owning(s: Sys, i: nat) { IsJob(s, i) && !Fenced(s.w.db, s.w.held[i]) }

  lemma OwnedIsStored(s: Sys, i: nat)
    requires PlaySound(s) && Owning(s, i)
    ensures var op := s.w.held[i]; op.id in s.w.db.ops && s.w.db.ops[op.id] == op && OpSound(s.w.db, op.id)
  {
    assert Current(s.w.db, s.w.held[i]);
  }

  /** The end of a planning job: planned, with the digest it measured, the changes it showed, and the drift
      and objects it found, as of now. */
  lemma PlansAreRecorded(s: Sys, i: nat, drift: Findings, objects: nat, t: Time)
    requires PlaySound(s) && Owning(s, i) && Planner(s.w.held[i]) && s.stages[i].Measured?
    ensures var after := Do(s, ReportPlan(i, drift, objects), t); var id := s.w.held[i].id;
            && id in after.w.db.ops && after.stages[i].Over?
            && var op := after.w.db.ops[id];
               && op.state.Planned? && op.plannedAt == Some(t) && op.planDigest == Some(s.stages[i].digest)
               && op.changes == Some(s.stages[i].seen.changes) && op.drift == drift && op.objects == Some(objects)
  {
    hide OpCleared, ApplicationSound, AllApart, Audited, Ordered;
    OwnedIsStored(s, i);
  }

  /** The end of an apply that completed: succeeded, with its outputs on the record and the row. */
  lemma OutputsAreRecorded(s: Sys, i: nat, outputs: nat, t: Time)
    requires PlaySound(s) && Owning(s, i) && Applier(s.w.held[i]) && s.stages[i].Unlinked?
    ensures var after := Do(s, ReportOutputs(i, outputs), t); var op := s.w.held[i];
            && op.id in after.w.db.ops && after.w.db.ops[op.id].state.Succeeded?
            && op.resource in after.w.db.rows && after.w.db.rows[op.resource].latest == op.id
            && after.w.db.rows[op.resource].outputs == Some(outputs)
            && after.w.db.rows[op.resource].state == (if op.Action().Destroy? then Destroyed else Ready)
  {
    hide OpCleared, ApplicationSound, AllApart, Audited, Ordered;
    OwnedIsStored(s, i);
    ApplierIsReal(s, i);
  }

  /** The end of a drift check: drifted or in sync by what it found, unknown when it failed. */
  lemma ChecksAreRecorded(s: Sys, i: nat, found: Option<Findings>, t: Time)
    requires PlaySound(s) && Owning(s, i) && Checker(s.w.held[i]) && s.stages[i].Begun?
    ensures var after := Do(s, ReportCheck(i, found), t); var op := s.w.held[i];
            && op.id in after.w.db.ops && op.resource in after.w.db.rows
            && after.w.db.ops[op.id].state == (if found.Some? then Succeeded else Failed)
            && var drift := after.w.db.rows[op.resource].drift;
               && drift.checkedAt == Some(t) && drift.found == found
               && drift.status == Some(if found.None? then Unknown else if found.value == [] then InSync else Drifted)
  {
    hide OpCleared, ApplicationSound, AllApart, Audited, Ordered;
    OwnedIsStored(s, i);
  }
}
