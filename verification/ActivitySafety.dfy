/** What may ever be applied: each operation at most once, only after an accepted execute naming
    its digest, and only the plan file whose digest was recorded. */
module ActivitySafety {
  import opened LedgerModel
  import opened LedgerRuns
  import opened LedgerSafety
  import opened LedgerTheorems
  import opened Records
  import opened Activities

  // ----- What every reachable state satisfies -----

  predicate Fits(op: Op, stage: Stage) {
    if Planner(op) then BeforeResult(stage) || stage.Failing? || stage.Dropped? || stage.Over?
    else if Checker(op) then stage.Begun? || stage.Over?
    else Applier(op) && (stage.Begun? || stage.Ran? || stage.Unlinked? || stage.Unsure?
                         || stage.Failing? || stage.Dropped? || stage.Over?)
  }

  /** An applying job's digest is the recorded one, and somebody approved exactly it. */
  ghost predicate JobSound(s: Sys, i: nat)
    requires IsJob(s, i)
  {
    var op := s.w.held[i];
    && Fits(op, s.stages[i])
    && (Applier(op) ==> Cleared(s, op.id, op.planDigest))
  }

  ghost predicate Cleared(s: Sys, id: OpId, digest: Option<Digest>) {
    && id in s.w.db.ops && Rank(s.w.db.ops[id].state) <= Rank(ApplyQueued)
    && s.w.db.ops[id].planDigest == digest && digest.Some?
    && Approval(id, digest.value) in s.approved
  }

  ghost predicate OpCleared(s: Sys, id: OpId) {
    id in s.w.db.ops && s.w.db.ops[id].state.ApplyQueued? ==> Cleared(s, id, s.w.db.ops[id].planDigest)
  }

  ghost predicate ApplicationSound(s: Sys, a: Application) {
    && IsJob(s, a.job) && Applier(s.w.held[a.job]) && !s.stages[a.job].Begun?
    && s.w.held[a.job].id == a.op && s.w.held[a.job].planDigest == Some(Sha256(a.file))
  }

  ghost predicate PlaySound(s: Sys) {
    && SoundWorld(s.w) && |s.stages| == |s.w.held|
    && (forall i {:trigger JobSound(s, i)} :: IsJob(s, i) ==> JobSound(s, i))
    && (forall id {:trigger OpCleared(s, id)} :: OpCleared(s, id))
    && (forall a {:trigger ApplicationSound(s, a)} :: a in s.applied ==> ApplicationSound(s, a))
    && (forall i, j :: 0 <= i < j < |s.applied| ==> s.applied[i].job != s.applied[j].job)
  }

  // ----- The ledger part of one act -----

  /** A record after one act: it went forward, it entered the apply queue only by an approval of
      its digest, and its digest and changes are fixed once it is planned. */
  ghost predicate RecordKept(s: Sys, act: Act, t: Time, before: Op, after: Op) {
    && Forward(before, after)
    && (after.state.ApplyQueued? && !before.state.ApplyQueued? ==>
          Approves(s.w.db, act, t) && act.step.id == before.id
          && before.state.Planned? && before.planDigest == Some(act.step.digest))
    && (Rank(before.state) <= Rank(Planned) ==>
          after.planDigest == before.planDigest && after.changes == before.changes)
  }

  lemma NewRecords(w: World, step: Step, t: Time, id: OpId)
    requires SoundWorld(w) && id !in w.db.ops && id in Next(w, step, t).db.ops
    ensures Next(w, step, t).db.ops[id].state.Queued? && Next(w, step, t).db.ops[id].planDigest.None?
  {
    NextMakes(w, step, t);
  }

  lemma HeldGrows(w: World, step: Step, t: Time)
    ensures Next(w, step, t).held
            == if step.Take? && Claimable(w.db, step.id, step.phase)
               then w.held + [Claimed(w.db, step.id, step.phase, t)] else w.held
  {
  }

  lemma WorldKept(s: Sys, act: Act, t: Time)
    requires SoundWorld(s.w)
    ensures var w := WorldAfter(s, act, t);
            && SoundWorld(w)
            && w.held == (if act.Begin? && Claimable(s.w.db, act.id, act.phase)
                          then s.w.held + [Claimed(s.w.db, act.id, act.phase, t)] else s.w.held)
  {
    hide Next, SoundWorld;
    var step := StepOf(s, act);
    if step.Some? {
      NextKeepsSound(s.w, step.value, t);
      HeldGrows(s.w, step.value, t);
      assert act.Begin? || !step.value.Take?;
    }
  }

  lemma RecordsKept(s: Sys, act: Act, t: Time, id: OpId)
    requires SoundWorld(s.w) && id in s.w.db.ops
    ensures var w := WorldAfter(s, act, t);
            id in w.db.ops && RecordKept(s, act, t, s.w.db.ops[id], w.db.ops[id])
  {
    hide Next, Forward, ExecuteAnswer;
    var step := StepOf(s, act);
    if step.Some? {
      assert s.w.db.ops[id].id == id by { assert OpSound(s.w.db, id); }
      RecordSteps(s.w, step.value, t, id);
      StepsGoForward(s.w, step.value, t, id);
    } else {
      ForwardStays(s.w.db.ops[id]);
    }
  }

  lemma ForwardStays(op: Op)
    ensures Forward(op, op)
  {
  }

  lemma NewInWorld(s: Sys, act: Act, t: Time, id: OpId)
    requires SoundWorld(s.w) && id !in s.w.db.ops && id in WorldAfter(s, act, t).db.ops
    ensures WorldAfter(s, act, t).db.ops[id].state.Queued?
    ensures WorldAfter(s, act, t).db.ops[id].planDigest.None?
  {
    NewRecords(s.w, StepOf(s, act).value, t, id);
  }

  /** A claim: the snapshot is what is stored. */
  lemma NewClaim(w: World, id: OpId, phase: Phase, t: Time)
    requires SoundWorld(w) && Claimable(w.db, id, phase)
    ensures var op := Claimed(w.db, id, phase, t);
            && op.id == id && op.resource == w.db.ops[id].resource && op.planDigest == w.db.ops[id].planDigest
            && id in Next(w, Take(id, phase), t).db.ops && Next(w, Take(id, phase), t).db.ops[id] == op
  {
    assert OpSound(w.db, id);
  }

  // ----- Every act keeps it -----

  lemma ClearedStays(s: Sys, act: Act, t: Time, id: OpId, digest: Option<Digest>)
    requires SoundWorld(s.w) && Cleared(s, id, digest)
    ensures Cleared(Do(s, act, t), id, digest)
  {
    hide WorldAfter, StagesAfter, DiskAfter;
    RecordsKept(s, act, t, id);
  }

  lemma OpsStayCleared(s: Sys, act: Act, t: Time, id: OpId)
    requires SoundWorld(s.w) && OpCleared(s, id)
    ensures OpCleared(Do(s, act, t), id)
  {
    hide WorldAfter, StagesAfter, DiskAfter, SoundWorld, ExecuteAnswer;
    if id in s.w.db.ops {
      RecordsKept(s, act, t, id);
      ClaimedId(s, id);
      if s.w.db.ops[id].state.ApplyQueued? { ClearedStays(s, act, t, id, s.w.db.ops[id].planDigest); }
    } else if id in WorldAfter(s, act, t).db.ops {
      NewInWorld(s, act, t, id);
    }
  }

  lemma StagesFit(op: Op, stage: Stage, files: map<ResId, PlanFile>, act: Act)
    requires Fits(op, stage)
    ensures Fits(op, StageAfter(op, stage, files, act))
    ensures !stage.Begun? ==> !StageAfter(op, stage, files, act).Begun?
  {
  }

  lemma OldJobStays(s: Sys, act: Act, t: Time, i: nat)
    requires PlaySound(s) && IsJob(s, i)
    ensures IsJob(Do(s, act, t), i) && JobSound(Do(s, act, t), i)
    ensures Do(s, act, t).w.held[i] == s.w.held[i]
    ensures !s.stages[i].Begun? ==> !Do(s, act, t).stages[i].Begun?
  {
    hide WorldAfter, DiskAfter, SoundWorld, StageAfter, Cleared, Fits;
    WorldKept(s, act, t);
    assert JobSound(s, i);
    var op := s.w.held[i];
    if Applier(op) { ClearedStays(s, act, t, op.id, op.planDigest); }
    StagesFit(op, s.stages[i], s.files, act);
  }

  lemma NewJobSound(s: Sys, id: OpId, phase: Phase, t: Time)
    requires PlaySound(s) && Claimable(s.w.db, id, phase)
    ensures var after := Do(s, Begin(id, phase), t); IsJob(after, |s.stages|) && JobSound(after, |s.stages|)
  {
    hide WorldAfter, SoundWorld;
    WorldKept(s, Begin(id, phase), t);
    var op := Claimed(s.w.db, id, phase, t);
    assert OpCleared(s, id);
    assert op.id == id by { ClaimedId(s, id); }
    if phase.ApplyPhase? { ClearedStays(s, Begin(id, phase), t, id, op.planDigest); }
  }

  lemma ClaimedId(s: Sys, id: OpId)
    requires SoundWorld(s.w) && id in s.w.db.ops
    ensures s.w.db.ops[id].id == id
  {
    assert OpSound(s.w.db, id);
  }

  lemma ApplicationsStay(s: Sys, act: Act, t: Time, a: Application)
    requires PlaySound(s) && a in Do(s, act, t).applied
    ensures ApplicationSound(Do(s, act, t), a)
  {
    hide WorldAfter, DiskAfter, SoundWorld;
    WorldKept(s, act, t);
    if a in s.applied {
      assert ApplicationSound(s, a);
      OldJobStays(s, act, t, a.job);
    } else {
      OldJobStays(s, act, t, act.i);
    }
  }

  lemma {:induction false} AppliedApart(s: Sys, act: Act, t: Time)
    requires PlaySound(s)
    ensures var applied := Do(s, act, t).applied;
            forall i, j :: 0 <= i < j < |applied| ==> applied[i].job != applied[j].job
  {
    hide WorldAfter, StagesAfter, DiskAfter, SoundWorld;
    if Applies(s, act) {
      forall i | 0 <= i < |s.applied| ensures s.applied[i].job != act.i {
        assert ApplicationSound(s, s.applied[i]);
      }
    }
  }

  lemma ActKeepsSound(s: Sys, act: Act, t: Time)
    requires PlaySound(s)
    ensures PlaySound(Do(s, act, t))
  {
    hide WorldAfter, DiskAfter, SoundWorld, JobSound, OpCleared, ApplicationSound, Claimed;
    var after := Do(s, act, t);
    WorldKept(s, act, t);
    forall i | IsJob(after, i) ensures JobSound(after, i) {
      if IsJob(s, i) { OldJobStays(s, act, t, i); } else { NewJobSound(s, act.id, act.phase, t); }
    }
    forall id ensures OpCleared(after, id) {
      assert OpCleared(s, id);
      OpsStayCleared(s, act, t, id);
    }
    forall a | a in after.applied ensures ApplicationSound(after, a) { ApplicationsStay(s, act, t, a); }
    AppliedApart(s, act, t);
  }

  lemma {:induction false} EveryPlayIsSound(acts: seq<Happening>)
    ensures PlaySound(Play(acts))
  {
    hide Do;
    if acts == [] {
      EveryRunIsSound([]);
    } else {
      EveryPlayIsSound(acts[..|acts| - 1]);
      ActKeepsSound(Play(acts[..|acts| - 1]), acts[|acts| - 1].act, acts[|acts| - 1].at);
    }
  }

  lemma JobsApart(s: Sys, i: nat, j: nat)
    requires SoundWorld(s.w) && i < |s.w.held| && j < |s.w.held|
    ensures s.w.held[i].id == s.w.held[j].id && s.w.held[i].state == s.w.held[j].state ==> i == j
  {
  }

  // ----- What is applied -----

  /** However often phases are dispatched and however late activities are, `terraform apply` is
      started at most once for an operation. */
  lemma {:induction false} AppliedAtMostOnce(acts: seq<Happening>, i: nat, j: nat)
    requires i < j < |Play(acts).applied|
    ensures Play(acts).applied[i].op != Play(acts).applied[j].op
  {
    hide Play;
    EveryPlayIsSound(acts);
    var s := Play(acts);
    var a, b := s.applied[i], s.applied[j];
    assert ApplicationSound(s, a) && ApplicationSound(s, b);
    JobsApart(s, a.job, b.job);
  }

  /** The file applied for an operation is the very plan whose digest is recorded on it, and an
      execute naming that digest was accepted before. */
  lemma {:induction false} OnlyTheApprovedPlanIsApplied(acts: seq<Happening>, a: Application)
    requires a in Play(acts).applied
    ensures var s := Play(acts);
            && a.op in s.w.db.ops && s.w.db.ops[a.op].planDigest == Some(Sha256(a.file))
            && Approval(a.op, Sha256(a.file)) in s.approved
  {
    hide Play;
    EveryPlayIsSound(acts);
    var s := Play(acts);
    assert ApplicationSound(s, a);
    assert JobSound(s, a.job);
  }

  /** The approval was in the past when the apply started. */
  lemma {:induction false} ApprovalComesFirst(acts: seq<Happening>, act: Act, t: Time)
    requires Applies(Play(acts), act)
    ensures var s := Play(acts); var op := s.w.held[act.i];
            && op.resource in s.files
            && Approval(op.id, Sha256(s.files[op.resource])) in s.approved
            && (forall a :: a in s.applied ==> a.op != op.id)
  {
    hide Play;
    EveryPlayIsSound(acts);
    var s := Play(acts);
    assert JobSound(s, act.i);
    forall a | a in s.applied ensures a.op != s.w.held[act.i].id {
      assert ApplicationSound(s, a);
      JobsApart(s, a.job, act.i);
    }
  }
}
