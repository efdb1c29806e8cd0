/** A play in which the changes applied are not the changes reviewed: a planner whose timeout was
    recorded writes between the two reads of the planner that replaced it. */
module LatePlanner {
  import opened LedgerModel
  import opened LedgerRuns
  import opened LedgerSafety
  import opened Lifecycles
  import opened Activities

  const SHOWN := PlanFile(1, 0)
  const LATE := PlanFile(2, 0)

  function Again(): Request {
    Request(1, CallerKey(1), Intent(Deploy, Some(0), 0),
            Resolved(0, 5, map[], 0, None, Some(0), None), None, true, 1, 1)
  }

  lemma {:induction false} PlayAppend(acts: seq<Happening>, act: Act)
    ensures Play(acts + [Happening(act, 0)]) == Do(Play(acts), act, 0)
  {
    assert (acts + [Happening(act, 0)])[..|acts|] == acts;
  }

  /** Operation 0 holds resource 0, in the given state, with no digest. */
  ghost predicate First(w: World, state: OpState) {
    && SoundWorld(w) && w.db.ops.Keys == {0} && w.db.rows.Keys == {0}
    && w.db.ops[0].state == state && w.db.ops[0].terms == NewOp(EMPTY, FirstDeploy(5), 0).terms
    && w.db.ops[0].resource == 0 && w.db.ops[0].reconciliation.None? == !state.Failed?
    && w.db.rows[0].latest == 0 && w.db.rows[0].zone == 0
  }

  /** Job 0, a planner of resource 0, has only begun. */
  ghost predicate Begun0(s: Sys) {
    && |s.w.held| >= 1 && |s.stages| == |s.w.held| && s.stages[0].Begun? && s.applied == []
    && Planner(s.w.held[0]) && s.w.held[0].resource == 0
  }

  lemma AcceptFirst()
    ensures var s := Do(BEGIN, Ledger(Submit(FirstDeploy(5), None)), 0);
            First(s.w, Queued) && s.w.held == [] && s.stages == [] && s.applied == []
  {
    StartIsSound();
    FirstDeployEnters(5);
    SubmitFree(START, FirstDeploy(5), None, 0);
  }

  lemma BeginFirst(s: Sys)
    requires First(s.w, Queued) && s.w.held == [] && s.stages == [] && s.applied == []
    ensures var after := Do(s, Begin(0, PlanPhase), 0);
            First(after.w, Planning) && Begun0(after) && |after.w.held| == 1
  {
    hide Sound, ClaimsSound;
    NextKeepsSound(s.w, Take(0, PlanPhase), 0);
    OpIsSound(s.w, 0);
  }

  lemma InterruptFirst(s: Sys)
    requires First(s.w, Planning) && Begun0(s) && |s.w.held| == 1
    ensures var after := Do(s, Ledger(Interrupt(0, PlanPhase)), 0);
            First(after.w, Uncertain) && Begun0(after) && |after.w.held| == 1
  {
    hide Sound, ClaimsSound;
    NextKeepsSound(s.w, Interrupt(0, PlanPhase), 0);
    OpIsSound(s.w, 0);
  }

  lemma ResolveFirst(s: Sys)
    requires First(s.w, Uncertain) && Begun0(s) && |s.w.held| == 1
    ensures var after := Do(s, Ledger(Resolve(0, 1, FoundFailed)), 0);
            First(after.w, Failed) && Begun0(after) && |after.w.held| == 1
  {
    hide Sound, ClaimsSound;
    NextKeepsSound(s.w, Resolve(0, 1, FoundFailed), 0);
    OpIsSound(s.w, 0);
  }

  /** Operation 1 holds resource 0. */
  ghost predicate Second(w: World, state: OpState) {
    && SoundWorld(w) && 1 in w.db.ops && w.db.ops[1].state == state
    && w.db.ops[1].resource == 0 && w.db.ops[1].Action().Deploy? && w.db.ops[1].terms.refs == map[]
  }

  lemma AcceptSecond(s: Sys)
    requires First(s.w, Failed) && Begun0(s) && |s.w.held| == 1
    ensures var after := Do(s, Ledger(Submit(Again(), None)), 0);
            Second(after.w, Queued) && Begun0(after) && |after.w.held| == 1
  {
    hide Sound, ClaimsSound, Enterable;
    AgainEnters(s.w);
    SubmitFree(s.w, Again(), None, 0);
  }

  lemma AgainEnters(w: World)
    requires First(w, Failed)
    ensures Enterable(w.db, Again())
  {
    hide AllApart, Audited, ClaimsSound;
    assert OpSound(w.db, 0) && RowSound(w.db, 0);
  }

  ghost predicate Job1(s: Sys, stage: Stage) {
    && Second(s.w, Planning) && |s.w.held| == 2 && |s.stages| == 2
    && s.w.held[1] == s.w.db.ops[1] && s.stages[1] == stage
  }

  lemma BeginSecond(s: Sys)
    requires Second(s.w, Queued) && Begun0(s) && |s.w.held| == 1
    ensures var after := Do(s, Begin(1, PlanPhase), 0); Job1(after, Begun) && Begun0(after)
  {
    hide Sound, ClaimsSound;
    NextKeepsSound(s.w, Take(1, PlanPhase), 0);
    OpIsSound(s.w, 1);
  }

  /** Plan, show, the late write, and the digest of what is then on disk. */
  lemma PlanBoth(s: Sys)
    requires Job1(s, Begun) && Begun0(s)
    ensures var written := Do(s, WritePlan(1, SHOWN), 0);
            var shown := Do(written, ShowPlan(1), 0);
            var late := Do(shown, WritePlan(0, LATE), 0);
            var after := Do(late, MeasurePlan(1), 0);
            Job1(after, Measured(SHOWN, Sha256(LATE))) && after.applied == []
            && 0 in after.files && after.files[0] == LATE
  {
    hide SoundWorld;
  }

  ghost predicate Planned1(s: Sys, state: OpState) {
    && Second(s.w, state) && s.applied == [] && 0 in s.files && s.files[0] == LATE
    && s.w.db.ops[1].changes == Some(SHOWN.changes) && s.w.db.ops[1].planDigest == Some(Sha256(LATE))
    && |s.w.held| == |s.stages|
  }

  lemma ReportSecond(s: Sys)
    requires Job1(s, Measured(SHOWN, Sha256(LATE))) && s.applied == []
    requires 0 in s.files && s.files[0] == LATE
    ensures Planned1(Do(s, ReportPlan(1, [], 0), 0), Planned)
  {
    hide SoundWorld;
    NextKeepsSound(s.w, StepOf(s, ReportPlan(1, [], 0)).value, 0);
    SecondId(s.w, Planning);
  }

  lemma SecondId(w: World, state: OpState)
    requires Second(w, state)
    ensures w.db.ops[1].id == 1 && 0 in w.db.rows
  {
    assert OpSound(w.db, 1);
  }

  lemma ApproveSecond(s: Sys)
    requires Planned1(s, Planned)
    ensures Planned1(Do(s, Ledger(Approve(1, Sha256(LATE), 1, None)), 0), ApplyQueued)
  {
    hide SoundWorld;
    SecondId(s.w, Planned);
    NextKeepsSound(s.w, Approve(1, Sha256(LATE), 1, None), 0);
  }

  lemma BeginApply(s: Sys)
    requires Planned1(s, ApplyQueued)
    ensures var after := Do(s, Begin(1, ApplyPhase), 0);
            Planned1(after, Applying) && |after.stages| == |s.stages| + 1
            && after.stages[|s.stages|].Begun? && after.w.held[|s.stages|] == after.w.db.ops[1]
  {
    hide SoundWorld;
    SecondId(s.w, ApplyQueued);
    NextKeepsSound(s.w, Take(1, ApplyPhase), 0);
  }

  lemma ApplySecond(s: Sys, i: nat)
    requires Planned1(s, Applying) && i + 1 == |s.stages|
    requires s.stages[i].Begun? && s.w.held[i] == s.w.db.ops[1]
    ensures var after := Do(s, ApplyPlan(i, Completed), 0);
            after.w == s.w && after.applied == [Application(1, LATE, i)]
  {
    hide SoundWorld;
    SecondId(s.w, Applying);
  }

  lemma PlayUpToPlanned() returns (acts: seq<Happening>)
    ensures Job1(Play(acts), Measured(SHOWN, Sha256(LATE))) && Play(acts).applied == []
    ensures 0 in Play(acts).files && Play(acts).files[0] == LATE
  {
    hide Do, First, Second, Begun0, Job1;
    acts := [];
    AcceptFirst();
    acts := Then(acts, Ledger(Submit(FirstDeploy(5), None)));
    BeginFirst(Play(acts));
    acts := Then(acts, Begin(0, PlanPhase));
    InterruptFirst(Play(acts));
    acts := Then(acts, Ledger(Interrupt(0, PlanPhase)));
    ResolveFirst(Play(acts));
    acts := Then(acts, Ledger(Resolve(0, 1, FoundFailed)));
    AcceptSecond(Play(acts));
    acts := Then(acts, Ledger(Submit(Again(), None)));
    BeginSecond(Play(acts));
    acts := Then(acts, Begin(1, PlanPhase));
    PlanBoth(Play(acts));
    acts := Then(acts, WritePlan(1, SHOWN));
    acts := Then(acts, ShowPlan(1));
    acts := Then(acts, WritePlan(0, LATE));
    acts := Then(acts, MeasurePlan(1));
  }

  lemma Then(acts: seq<Happening>, act: Act) returns (more: seq<Happening>)
    ensures Play(more) == Do(Play(acts), act, 0)
  {
    PlayAppend(acts, act);
    more := acts + [Happening(act, 0)];
  }

  /** The plan applied is the approved one, digest and all, but not the one whose changes are on
      record. */
  lemma LatePlannerExample() returns (acts: seq<Happening>, a: Application)
    ensures a in Play(acts).applied && a.op in Play(acts).w.db.ops
    ensures Play(acts).w.db.ops[a.op].planDigest == Some(Sha256(a.file))
    ensures Play(acts).w.db.ops[a.op].changes == Some(SHOWN.changes) && a.file.changes != SHOWN.changes
  {
    hide Do, Play, Job1;
    acts := PlayUpToPlanned();
    ReportSecond(Play(acts));
    acts := Then(acts, ReportPlan(1, [], 0));
    ApproveSecond(Play(acts));
    acts := Then(acts, Ledger(Approve(1, Sha256(LATE), 1, None)));
    BeginApply(Play(acts));
    var i := |Play(acts).stages|;
    acts := Then(acts, Begin(1, ApplyPhase));
    ApplySecond(Play(acts), i);
    acts := Then(acts, ApplyPlan(i, Completed));
    a := Application(1, LATE, i);
  }
}
