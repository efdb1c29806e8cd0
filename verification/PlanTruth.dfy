/** Exactly when a planner's record will tell the truth about the plan its digest names. */
module PlanTruth {
  import opened LedgerModel
  import opened LedgerRuns
  import opened Records
  import opened Activities
  import opened ActivitySafety
  import opened PlanReview

  /** Playing on from any state. */
  ghost function PlayOn(s: Sys, acts: seq<Happening>): Sys {
    if acts == [] then s
    else Do(PlayOn(s, acts[..|acts| - 1]), acts[|acts| - 1].act, acts[|acts| - 1].at)
  }

  /** The changes on record, if any, are those of the plan whose digest is on record. */
  ghost predicate Truthful(s: Sys, id: OpId) {
    id in s.w.db.ops && s.w.db.ops[id].planDigest.Some? ==>
      s.w.db.ops[id].changes == Some(s.w.db.ops[id].planDigest.value.file.changes)
  }

  /** Another planner of `r` has not yet written its plan. */
  predicate MayWrite(s: Sys, i: nat, r: ResId, j: nat) {
    IsJob(s, j) && j != i && Planner(s.w.held[j]) && s.w.held[j].resource == r && s.stages[j].Begun?
  }

  ghost predicate NoOtherWriter(s: Sys, i: nat, r: ResId) {
    forall j {:trigger MayWrite(s, i, r, j)} :: !MayWrite(s, i, r, j)
  }

  ghost predicate OneOtherWriter(s: Sys, i: nat, r: ResId) {
    forall j, k {:trigger MayWrite(s, i, r, j), MayWrite(s, i, r, k)} ::
      MayWrite(s, i, r, j) && MayWrite(s, i, r, k) ==> j == k
  }

  /** Whether planner `i` reads the same changes twice, whoever else is about. After its plan is
      written and lost again, it takes two other writers to deceive it. */
  ghost predicate Steady(s: Sys, i: nat)
    requires IsJob(s, i)
  {
    var r := s.w.held[i].resource;
    match s.stages[i]
    case Begun => NoOtherWriter(s, i, r)
    case Written => if r in s.files then NoOtherWriter(s, i, r) else OneOtherWriter(s, i, r)
    case Shown(seen) => NoOtherWriter(s, i, r) && (r in s.files ==> s.files[r].changes == seen.changes)
    case Measured(seen, digest) => seen.changes == digest.file.changes
    case _ => true
  }

  /** Job `i` is planning and its operation is still the one it claimed. */
  ghost predicate Planning1(s: Sys, i: nat) {
    && PlaySound(s) && IsJob(s, i) && Planner(s.w.held[i])
    && s.w.held[i].id in s.w.db.ops && s.w.db.ops[s.w.held[i].id] == s.w.held[i]
  }

  // ----- Steady planners stay steady -----

  /** While an operation is planning, nobody begins to plan its resource. */
  lemma NobodyBegins(s: Sys, i: nat, id: OpId, phase: Phase, t: Time)
    requires Planning1(s, i) && Claimable(s.w.db, id, phase)
    requires Planner(Claimed(s.w.db, id, phase, t))
    ensures s.w.db.ops[id].resource != s.w.held[i].resource
  {
    hide JobSound, OpCleared, ApplicationSound, ClaimsSound, OpsSound, RowsSound, Ordered, Audited;
    var mine := s.w.held[i].id;
    assert id != mine;
    assert Apart(s.w.db.ops[id], s.w.db.ops[mine]);
  }

  lemma WritersOnlyLeave(s: Sys, act: Act, t: Time, i: nat, j: nat)
    requires Planning1(s, i) && MayWrite(Do(s, act, t), i, s.w.held[i].resource, j)
    ensures MayWrite(s, i, s.w.held[i].resource, j) && !(act.WritePlan? && act.i == j)
  {
    hide SoundWorld, JobSound, OpCleared, ApplicationSound, WorldAfter, DiskAfter, Approves, Applies, Displaces;
    SoundOf(s);
    WorldKept(s, act, t);
    if IsJob(s, j) {
      OldJobStays(s, act, t, j);
      NotBackToBegun(s, act, j);
    } else {
      OnlyBeginAdds(s, act, t, j);
      NobodyBegins(s, i, act.id, act.phase, t);
    }
  }

  lemma NotBackToBegun(s: Sys, act: Act, j: nat)
    requires IsJob(s, j) && j < |StagesAfter(s, act)| && Planner(s.w.held[j])
    ensures StagesAfter(s, act)[j].Begun? ==> s.stages[j].Begun? && !(act.WritePlan? && act.i == j)
  {
  }

  /** The stage of a planner in relation to its file. */
  predicate ReadsAlike(op: Op, stage: Stage, files: map<ResId, PlanFile>) {
    match stage
    case Shown(seen) => op.resource in files ==> files[op.resource].changes == seen.changes
    case Measured(seen, digest) => seen.changes == digest.file.changes
    case _ => true
  }

  lemma OwnActReadsAlike(op: Op, stage: Stage, owned: bool, files: map<ResId, PlanFile>, act: Act)
    requires Planner(op) && ReadsAlike(op, stage, files)
    ensures var after, disk := StageAfter(op, stage, files, act), FilesAfter(op, stage, owned, files, act);
            && ReadsAlike(op, after, disk)
            && (after.Begun? ==> stage.Begun?)
            && (after.Written? ==> stage.Begun? || stage == after)
            && (after.Written? && stage.Begun? ==> op.resource in disk)
            && (after.Written? && stage.Written? ==> disk == files)
            && (after.Shown? ==> stage == after || (stage.Written? && op.resource in files))
  {
  }

  /** After an act of its own a steady planner is steady. */
  lemma OwnActStaysSteady(s: Sys, act: Act, t: Time, i: nat)
    requires Planning1(s, i) && Steady(s, i) && JobOf(act) == Some(i)
    ensures var after := Do(s, act, t); IsJob(after, i) && after.w.held[i] == s.w.held[i] && Steady(after, i)
  {
    hide PlaySound, WorldAfter, SoundWorld, Approves, Applies, Displaces, StageAfter, FilesAfter, MayWrite;
    assert Kept1(s, act, t, i) by { JobKept(s, act, t, i); }
    var op, after := s.w.held[i], Do(s, act, t);
    OwnActReadsAlike(op, s.stages[i], !Fenced(s.w.db, op), s.files, act);
    forall j ensures MayWrite(after, i, op.resource, j) ==> MayWrite(s, i, op.resource, j) {
      if MayWrite(after, i, op.resource, j) { WritersOnlyLeave(s, act, t, i, j); }
    }
  }

  ghost predicate Kept1(s: Sys, act: Act, t: Time, i: nat) {
    var after := Do(s, act, t);
    IsJob(s, i) && IsJob(after, i) && after.w.held[i] == s.w.held[i]
  }

  lemma JobKept(s: Sys, act: Act, t: Time, i: nat)
    requires PlaySound(s) && IsJob(s, i)
    ensures Kept1(s, act, t, i)
  {
    OldJobStays(s, act, t, i);
  }

  /** After another's act it still is. */
  lemma OtherActStaysSteady(s: Sys, act: Act, t: Time, i: nat)
    requires Planning1(s, i) && Steady(s, i) && JobOf(act) != Some(i)
    ensures var after := Do(s, act, t); IsJob(after, i) && after.w.held[i] == s.w.held[i] && Steady(after, i)
  {
    hide PlaySound, WorldAfter, SoundWorld, Approves, Applies, Displaces, MayWrite, DiskAfter, StagesAfter;
    assert Kept1(s, act, t, i) by { JobKept(s, act, t, i); }
    var op, after := s.w.held[i], Do(s, act, t);
    StageLeft(s, act, i);
    forall j
      ensures MayWrite(after, i, op.resource, j) ==>
        MayWrite(s, i, op.resource, j) && !(act.WritePlan? && act.i == j)
    {
      if MayWrite(after, i, op.resource, j) { WritersOnlyLeave(s, act, t, i, j); }
    }
    if act.WritePlan? && MayWrite(s, i, op.resource, act.i) {
      WritesIt(s, act, i, op.resource);
    } else {
      NoWriteLeaves(s, act, i, op.resource);
    }
  }

  lemma StageLeft(s: Sys, act: Act, i: nat)
    requires IsJob(s, i) && JobOf(act) != Some(i)
    ensures i < |StagesAfter(s, act)| && StagesAfter(s, act)[i] == s.stages[i]
  {
  }

  lemma WritesIt(s: Sys, act: Act, i: nat, r: ResId)
    requires act.WritePlan? && MayWrite(s, i, r, act.i)
    ensures r in DiskAfter(s, act)
  {
  }

  lemma NoWriteLeaves(s: Sys, act: Act, i: nat, r: ResId)
    requires IsJob(s, i) && JobOf(act) != Some(i)
    requires !(act.WritePlan? && MayWrite(s, i, r, act.i))
    ensures var files := DiskAfter(s, act); r in files ==> r in s.files && files[r] == s.files[r]
  {
  }

  /** An operation planned or past it keeps its digest and changes. */
  lemma TruthStays(s: Sys, act: Act, t: Time, id: OpId)
    requires PlaySound(s) && id in s.w.db.ops && Rank(s.w.db.ops[id].state) <= Rank(Planned) && Truthful(s, id)
    ensures var after := Do(s, act, t);
            id in after.w.db.ops && Rank(after.w.db.ops[id].state) <= Rank(Planned) && Truthful(after, id)
  {
    hide PlaySound, SoundWorld, WorldAfter, StagesAfter, DiskAfter, Approves, Applies, Displaces, ExecuteAnswer;
    SoundOf(s);
    RecordsKept(s, act, t, id);
  }

  /** What becomes of the operation in one act: it is as it was, or its record is true. */
  lemma RecordIsTrue(s: Sys, act: Act, t: Time, i: nat)
    requires Planning1(s, i) && Steady(s, i)
    ensures var id, after := s.w.held[i].id, Do(s, act, t);
            && id in after.w.db.ops
            && (after.w.db.ops[id] == s.w.held[i]
                || (Rank(after.w.db.ops[id].state) <= Rank(Planned) && Truthful(after, id)))
  {
    hide PlaySound, SoundWorld, Next, StagesAfter, DiskAfter, Approves, Applies, Displaces, StepOf, NoOtherWriter;
    SoundOf(s);
    var op := s.w.held[i];
    NothingRecorded(s, op.id);
    RecordsKept(s, act, t, op.id);
    var step := StepOf(s, act);
    if step.Some? {
      RecordSteps(s.w, step.value, t, op.id);
      if step.value.Deliver? && step.value.snapshot == op && step.value.report.PlanReport? {
        OwnReport(s, act, i);
      }
    }
  }

  lemma NothingRecorded(s: Sys, id: OpId)
    requires SoundWorld(s.w) && id in s.w.db.ops && s.w.db.ops[id].state.Planning?
    ensures s.w.db.ops[id].planDigest.None?
  {
    assert OpSound(s.w.db, id);
  }

  lemma OwnReport(s: Sys, act: Act, i: nat)
    requires SoundWorld(s.w) && |s.stages| == |s.w.held| && IsJob(s, i)
    requires StepOf(s, act).Some? && StepOf(s, act).value.Deliver?
    requires StepOf(s, act).value.snapshot == s.w.held[i] && StepOf(s, act).value.report.PlanReport?
    ensures s.stages[i].Measured?
    ensures StepOf(s, act).value.report.planDigest == s.stages[i].digest
    ensures StepOf(s, act).value.report.changes == s.stages[i].seen.changes
  {
    ReportsAreTheirOwn(s, act);
    JobsApart(s, act.i, i);
  }

  ghost predicate TrueOrSteady(s: Sys, i: nat, id: OpId) {
    || (Planning1(s, i) && s.w.held[i].id == id && Steady(s, i))
    || (PlaySound(s) && id in s.w.db.ops && Rank(s.w.db.ops[id].state) <= Rank(Planned) && Truthful(s, id))
  }

  lemma ActKeepsTruth(s: Sys, act: Act, t: Time, i: nat, id: OpId)
    requires TrueOrSteady(s, i, id)
    ensures TrueOrSteady(Do(s, act, t), i, id)
  {
    hide PlaySound, Do, Steady, Truthful;
    if Planning1(s, i) && s.w.held[i].id == id && Steady(s, i) {
      ActKeepsSound(s, act, t);
      RecordIsTrue(s, act, t, i);
      if JobOf(act) == Some(i) {
        OwnActStaysSteady(s, act, t, i);
      } else {
        OtherActStaysSteady(s, act, t, i);
      }
    } else {
      ActKeepsSound(s, act, t);
      TruthStays(s, act, t, id);
    }
  }

  lemma SteadyIsTruthful(s: Sys, i: nat, id: OpId)
    requires TrueOrSteady(s, i, id)
    ensures Truthful(s, id)
  {
    if Planning1(s, i) && s.w.held[i].id == id {
      SoundOf(s);
      NothingRecorded(s, id);
    }
  }

  lemma {:induction false} StaysTruthful(s: Sys, i: nat, acts: seq<Happening>)
    requires Planning1(s, i) && Steady(s, i)
    ensures TrueOrSteady(PlayOn(s, acts), i, s.w.held[i].id)
  {
    hide Do, PlaySound, Steady;
    if acts != [] {
      var last := acts[|acts| - 1];
      StaysTruthful(s, i, acts[..|acts| - 1]);
      ActKeepsTruth(PlayOn(s, acts[..|acts| - 1]), last.act, last.at, i, s.w.held[i].id);
    }
  }

  // ----- A planner that is not steady can be deceived -----

  lemma {:induction false} PlayFirst(s: Sys, first: Happening, rest: seq<Happening>)
    ensures PlayOn(s, [first] + rest) == PlayOn(Do(s, first.act, first.at), rest)
  {
    hide Do;
    if rest == [] {
      assert [first] + rest == [first] && [first][..0] == [];
    } else {
      PlayFirst(s, first, rest[..|rest| - 1]);
      var all := [first] + rest;
      assert all[..|all| - 1] == [first] + rest[..|rest| - 1];
    }
  }

  predicate FileAct(act: Act) { act.WritePlan? || act.ShowPlan? || act.MeasurePlan? }

  /** Acts on files leave the ledger alone. */
  lemma FileActStays(s: Sys, act: Act, t: Time, i: nat)
    requires Planning1(s, i) && FileAct(act)
    ensures var after := Do(s, act, t);
            && Planning1(after, i) && after.w == s.w && |after.stages| == |s.stages|
            && after.stages == StagesAfter(s, act) && after.files == DiskAfter(s, act)
  {
    ActKeepsSound(s, act, t);
    hide PlaySound;
    WorldLeft(s, act, t);
  }

  lemma WorldLeft(s: Sys, act: Act, t: Time)
    requires FileAct(act)
    ensures WorldAfter(s, act, t) == s.w
    ensures |StagesAfter(s, act)| == |s.stages|
  {
  }

  /** A file that shows other changes. */
  function Other(file: PlanFile): PlanFile { file.(changes := file.changes + 1) }

  lemma MeasuredLies(s: Sys, i: nat, t: Time) returns (acts: seq<Happening>)
    requires Planning1(s, i) && s.stages[i].Measured? && !Steady(s, i)
    ensures !Truthful(PlayOn(s, acts), s.w.held[i].id)
  {
    hide PlaySound, Do;
    TruthIsTwoEqualReads(s, i, [], 0, t);
    var report := Happening(ReportPlan(i, [], 0), t);
    acts := [report];
    PlayFirst(s, report, []);
    assert [report] + [] == acts;
  }

  lemma ShownLies(s: Sys, i: nat, t: Time) returns (acts: seq<Happening>)
    requires Planning1(s, i) && s.stages[i].Shown?
    requires var r := s.w.held[i].resource; r in s.files && s.files[r].changes != s.stages[i].seen.changes
    ensures !Truthful(PlayOn(s, acts), s.w.held[i].id)
  {
    hide PlaySound, Do;
    FileActStays(s, MeasurePlan(i), t, i);
    var rest := MeasuredLies(Do(s, MeasurePlan(i), t), i, t);
    PlayFirst(s, Happening(MeasurePlan(i), t), rest);
    acts := [Happening(MeasurePlan(i), t)] + rest;
  }

  /** Another planner writes between the two reads. */
  lemma WrittenBetween(s: Sys, i: nat, j: nat, t: Time) returns (acts: seq<Happening>)
    requires Planning1(s, i) && s.stages[i].Shown? && MayWrite(s, i, s.w.held[i].resource, j)
    ensures !Truthful(PlayOn(s, acts), s.w.held[i].id)
  {
    hide PlaySound, Do;
    var write := WritePlan(j, Other(s.stages[i].seen));
    FileActStays(s, write, t, i);
    var rest := ShownLies(Do(s, write, t), i, t);
    PlayFirst(s, Happening(write, t), rest);
    acts := [Happening(write, t)] + rest;
  }

  lemma ShownThenWritten(s: Sys, i: nat, j: nat, t: Time) returns (acts: seq<Happening>)
    requires Planning1(s, i) && s.stages[i].Written? && s.w.held[i].resource in s.files
    requires MayWrite(s, i, s.w.held[i].resource, j)
    ensures !Truthful(PlayOn(s, acts), s.w.held[i].id)
  {
    hide PlaySound, Do;
    FileActStays(s, ShowPlan(i), t, i);
    var rest := WrittenBetween(Do(s, ShowPlan(i), t), i, j, t);
    PlayFirst(s, Happening(ShowPlan(i), t), rest);
    acts := [Happening(ShowPlan(i), t)] + rest;
  }

  /** The first write, by the planner itself or, when its plan was lost, by a third. */
  lemma WrittenFirst(s: Sys, i: nat, writer: nat, j: nat, t: Time) returns (acts: seq<Happening>)
    requires Planning1(s, i) && MayWrite(s, i, s.w.held[i].resource, j) && writer != j
    requires (writer == i && s.stages[i].Begun?)
             || (s.stages[i].Written? && MayWrite(s, i, s.w.held[i].resource, writer))
    ensures !Truthful(PlayOn(s, acts), s.w.held[i].id)
  {
    hide PlaySound, Do;
    var write := WritePlan(writer, PlanFile(0, 0));
    FileActStays(s, write, t, i);
    var rest := ShownThenWritten(Do(s, write, t), i, j, t);
    PlayFirst(s, Happening(write, t), rest);
    acts := [Happening(write, t)] + rest;
  }

  lemma CanBeDeceived(s: Sys, i: nat, t: Time) returns (acts: seq<Happening>)
    requires Planning1(s, i) && BeforeResult(s.stages[i]) && !Steady(s, i)
    ensures !Truthful(PlayOn(s, acts), s.w.held[i].id)
  {
    hide PlaySound, Do, PlayOn, Truthful;
    var r := s.w.held[i].resource;
    match s.stages[i]
    case Begun =>
      var j :| MayWrite(s, i, r, j);
      acts := WrittenFirst(s, i, i, j, t);
    case Written =>
      if r in s.files {
        var j :| MayWrite(s, i, r, j);
        acts := ShownThenWritten(s, i, j, t);
      } else {
        var j, k :| MayWrite(s, i, r, j) && MayWrite(s, i, r, k) && j != k;
        acts := WrittenFirst(s, i, k, j, t);
      }
    case Shown(seen) =>
      if j :| MayWrite(s, i, r, j) {
        acts := WrittenBetween(s, i, j, t);
      } else {
        acts := ShownLies(s, i, t);
      }
    case Measured(seen, digest) => acts := MeasuredLies(s, i, t);
  }

  /** In any reachable state, for a planner that has not reported and whose operation is still the
      one it claimed: the record will be true in every continuation, whatever jobs, people, timeouts
      and losses of files do, if and only if the planner is steady. While it has read nothing that
      means that no other planner of its resource has still to write. */
  lemma {:induction false} RecordIsTrueExactly(s: Sys, i: nat)
    requires Planning1(s, i) && BeforeResult(s.stages[i])
    ensures (forall acts {:trigger PlayOn(s, acts)} :: Truthful(PlayOn(s, acts), s.w.held[i].id)) <==> Steady(s, i)
  {
    hide PlaySound, Do, PlayOn, Truthful, Steady;
    if Steady(s, i) {
      forall acts {:trigger PlayOn(s, acts)} ensures Truthful(PlayOn(s, acts), s.w.held[i].id) {
        StaysTruthful(s, i, acts);
        SteadyIsTruthful(PlayOn(s, acts), i, s.w.held[i].id);
      }
    } else {
      var acts := CanBeDeceived(s, i, 0);
      assert !Truthful(PlayOn(s, acts), s.w.held[i].id);
    }
  }

  lemma {:induction false} PlaysGoOn(acts: seq<Happening>, more: seq<Happening>)
    ensures PlayOn(Play(acts), more) == Play(acts + more)
  {
    hide Do;
    if more == [] {
      assert acts + more == acts;
    } else {
      PlaysGoOn(acts, more[..|more| - 1]);
      var all := acts + more;
      assert all[..|all| - 1] == acts + more[..|more| - 1];
    }
  }

  /** Where a steady planner's plan is applied, the changes applied are the changes reviewed. */
  lemma {:induction false} SteadyPlansAreAppliedAsReviewed(acts: seq<Happening>, more: seq<Happening>,
                                                           i: nat, a: Application)
    requires Planning1(Play(acts), i) && BeforeResult(Play(acts).stages[i]) && Steady(Play(acts), i)
    requires a in Play(acts + more).applied && a.op == Play(acts).w.held[i].id
    ensures var s := Play(acts + more);
            a.op in s.w.db.ops && s.w.db.ops[a.op].changes == Some(a.file.changes)
  {
    hide PlaySound, Play, PlayOn, Steady;
    PlaysGoOn(acts, more);
    StaysTruthful(Play(acts), i, more);
    SteadyIsTruthful(Play(acts + more), i, a.op);
    OnlyTheApprovedPlanIsApplied(acts + more, a);
  }
}
