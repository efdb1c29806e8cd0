/** A destroyed app with a ready replica: the app never deployed it (its plan failed), so the
    teardown left its resource alone, and a caller deployed it afterwards. */
module RevivedReplica {
  import opened LedgerModel
  import opened LedgerRuns
  import opened LedgerSafety
  import opened Lifecycles
  import opened AppModel
  import opened AppRuns
  import opened AppInvariants
  import opened Continuations
  import opened Revival

  function Replica(i: nat): Request {
    Request(1, ReplicaKey(0, i), Intent(Deploy, None, 0), Resolved(0, 5, map[], 0, None, None, None), None, true, i, i)
  }

  const WIRES := [Wire("primary_endpoint", 0, 0), Wire("secondary_endpoint", 1, 0)]

  const SUBMIT := AcceptApp(0, 1, 0, 0, WIRES, [Replica(0), Replica(1)], None)

  /** Operation `i` is the app's replica `i`, still not deployed. */
  ghost predicate Undeployed(db: Db, i: OpId, state: OpState) {
    && i in db.ops && i in db.rows
    && db.ops[i].state == state && db.ops[i].resource == i && db.ops[i].Action().Deploy?
    && db.ops[i].terms.key == ReplicaKey(0, i) && (db.ops[i].reconciliation.Some? ==> state.Failed?)
    && db.rows[i].state.Pending? && db.rows[i].latest == i && db.rows[i].zone == 0
  }

  ghost predicate Stage(s: AppSys, first: OpState, second: OpState) {
    && SoundWorld(s.w) && s.w.db.ops.Keys == {0, 1} && s.w.db.rows.Keys == {0, 1}
    && Undeployed(s.w.db, 0, first) && Undeployed(s.w.db, 1, second)
    && s.apps.Keys == {0} && s.apps[0].members == [Member(0, 0), Member(1, 1)]
    && s.apps[0].routers == [] && s.apps[0].routerResource.None? && s.apps[0].history == []
    && s.apps[0].teardowns == 0
  }

  lemma FirstReplica()
    ensures Enterable(EMPTY, Replica(0))
    ensures var w := Next(START, Submit(Replica(0), None), 0);
            SoundWorld(w) && w.db == Enter(EMPTY, Replica(0), 0) && w.held == []
  {
    StartIsSound();
    SubmitFree(START, Replica(0), None, 0);
  }

  lemma SecondReplica()
    ensures var w := Next(START, Submit(Replica(0), None), 0);
            var both := Next(w, Submit(Replica(1), None), 0);
            && Enterable(w.db, Replica(1)) && SoundWorld(both)
            && both.db == Enter(Enter(EMPTY, Replica(0), 0), Replica(1), 0)
  {
    hide SoundWorld, Next;
    FirstReplica();
    var w := Next(START, Submit(Replica(0), None), 0);
    assert Enterable(w.db, Replica(1));
    SubmitFree(w, Replica(1), None, 0);
  }

  lemma BothLinked()
    ensures var all := LinkAll(START, [Replica(0), Replica(1)], None, 0);
            && all.Some? && all.value.ids == [0, 1] && SoundWorld(all.value.w)
            && all.value.w.db == Enter(Enter(EMPTY, Replica(0), 0), Replica(1), 0)
  {
    hide Next, Enter, Enterable, Admission, SoundWorld, LinkAll;
    FirstReplica();
    SecondReplica();
    StartIsSound();
    NothingLinked(START, None, 0);
    var w := Next(START, Submit(Replica(0), None), 0);
    LinkSnoc(START, Linked(START, []), [], Replica(0), 0);
    assert [] + [Replica(0)] == [Replica(0)] && [] + [Replica(0).newOp] == [0];
    LinkSnoc(START, Linked(w, [0]), [Replica(0)], Replica(1), 0);
    assert [Replica(0)] + [Replica(1)] == [Replica(0), Replica(1)];
  }

  lemma {:induction false} LinkSnoc(w: World, mid: Linked, reqs: seq<Request>, req: Request, t: Time)
    requires LinkAll(w, reqs, None, t) == Some(mid)
    requires SoundWorld(mid.w) && Enterable(mid.w.db, req) && req.placed
    ensures LinkAll(w, reqs + [req], None, t)
            == Some(Linked(Next(mid.w, Submit(req, None), t), mid.ids + [req.newOp]))
  {
    hide Next, Accept, Enterable, SoundWorld, Link;
    LinkFree(mid.w, req, t);
    assert (reqs + [req])[..|reqs|] == reqs;
  }

  lemma AppAccepted()
    ensures Stage(NextApps(EMPTY_SYS, SUBMIT, 0), Queued, Queued)
    ensures NextApps(EMPTY_SYS, SUBMIT, 0).apps[0].teardown.None?
    ensures NextApps(EMPTY_SYS, SUBMIT, 0).looks == []
  {
    hide Next, LinkAll, SoundWorld;
    BothLinked();
    assert CanAcceptApp(EMPTY_SYS, 0, 1, 0, WIRES, [Replica(0), Replica(1)]);
    assert Committed(EMPTY_SYS, SUBMIT, 0) == LinkAll(START, [Replica(0), Replica(1)], None, 0);
    var after := NextApps(EMPTY_SYS, SUBMIT, 0);
    assert after.apps[0].members == [Member(0, 0), Member(1, 1)];
    assert after.w.db.ops.Keys == {0, 1} && after.w.db.rows.Keys == {0, 1};
  }

  /** An interrupted plan, reconciled as failed. */
  lemma PlanFails(s: AppSys, i: OpId, first: OpState, second: OpState, t: Time)
    requires Stage(s, first, second) && i < 2 && s.w.db.ops[i].state.Queued?
    ensures var mid := NextApps(s, Base(Interrupt(i, PlanPhase)), t);
            var after := NextApps(mid, Base(Resolve(i, 1, FoundFailed)), t + 1);
            && Stage(after, if i == 0 then Failed else first, if i == 1 then Failed else second)
            && after.apps == s.apps && after.looks == s.looks
  {
    var mid := NextApps(s, Base(Interrupt(i, PlanPhase)), t);
    InterruptOne(s, i, first, second, t);
    ResolveOne(mid, i, if i == 0 then Uncertain else first, if i == 1 then Uncertain else second, t + 1);
  }

  lemma BaseIs(s: AppSys, step: Step, t: Time)
    requires !step.Submit?
    ensures NextApps(s, Base(step), t) == s.(w := Next(s.w, step, t))
  {
  }

  lemma InterruptOne(s: AppSys, i: OpId, first: OpState, second: OpState, t: Time)
    requires Stage(s, first, second) && i < 2 && s.w.db.ops[i].state.Queued?
    ensures var after := NextApps(s, Base(Interrupt(i, PlanPhase)), t);
            && Stage(after, if i == 0 then Uncertain else first, if i == 1 then Uncertain else second)
            && after.apps == s.apps && after.looks == s.looks
  {
    hide NextApps, AllApart, Audited, Ordered, ClaimsSound;
    NextKeepsSound(s.w, Interrupt(i, PlanPhase), t);
    BaseIs(s, Interrupt(i, PlanPhase), t);
    assert OpSound(s.w.db, i);
  }

  lemma ResolveOne(s: AppSys, i: OpId, first: OpState, second: OpState, t: Time)
    requires Stage(s, first, second) && i < 2 && s.w.db.ops[i].state.Uncertain?
    ensures var after := NextApps(s, Base(Resolve(i, 1, FoundFailed)), t);
            && Stage(after, if i == 0 then Failed else first, if i == 1 then Failed else second)
            && after.apps == s.apps && after.looks == s.looks
  {
    hide NextApps, AllApart, Audited, Ordered, ClaimsSound;
    NextKeepsSound(s.w, Resolve(i, 1, FoundFailed), t);
    BaseIs(s, Resolve(i, 1, FoundFailed), t);
    assert OpSound(s.w.db, i);
  }

  // ----- The teardown of an app that deployed nothing -----

  const BEGIN_TEARDOWN := AcceptTeardown(0, 0, 1, 0, None, None)
  const NO_REPLICAS := AcceptTeardownReplicas(0, 1, 1, [], None)

  ghost predicate LastLook(s: AppSys, n: nat) {
    |s.looks| == n + 1 && s.looks[n] == Look(s.w.db, s.apps)
  }

  lemma TeardownBegins(s: AppSys, t: Time)
    requires Stage(s, Failed, Failed) && s.apps[0].teardown.None? && LastLook(s, 0)
    ensures var after := NextApps(s, BEGIN_TEARDOWN, t);
            && after.w == s.w && after.looks == s.looks && after.apps.Keys == {0}
            && after.apps[0].members == s.apps[0].members && after.apps[0].routerResource.None?
            && after.apps[0].teardown == Some(Teardown(1, None, None, false))
  {
    hide SoundWorld, LinkAll;
    var look := s.looks[0];
    assert MemberState(s.apps[0], look.db.ops, 0).Failed?;
    NothingLinked(s.w, None, t);
    assert DeriveState(s.apps[0], look.db.ops).AppFailed?;
    assert NothingInFlight(s.apps[0], look.db.ops);
    assert CanTeardown(s, 0, 0, 1, 0, None);
  }

  ghost predicate TornDown(s: AppSys) {
    && SoundWorld(s.w) && s.w.db.ops.Keys == {0, 1} && s.w.db.rows.Keys == {0, 1}
    && Undeployed(s.w.db, 0, Failed) && Undeployed(s.w.db, 1, Failed)
    && s.apps.Keys == {0} && s.apps[0].members == [Member(0, 0), Member(1, 1)] && s.apps[0].routerResource.None?
  }

  lemma ReplicasSkipped(s: AppSys, t: Time)
    requires TornDown(s) && LastLook(s, 1) && s.apps[0].teardown == Some(Teardown(1, None, None, false))
    ensures var after := NextApps(s, NO_REPLICAS, t);
            && TornDown(after) && after.looks == s.looks
            && DeriveState(after.apps[0], after.w.db.ops).AppDestroyed?
            && after.apps[0].teardown == Some(Teardown(1, None, Some([]), false))
  {
    hide SoundWorld, LinkAll;
    NothingLinked(s.w, None, t);
    var look := s.looks[1];
    assert DeriveState(look.apps[0], look.db.ops).PlanningReplicaDestroy?;
    assert Standing(look.apps[0], look.db, 0) == [];
    assert Standing(look.apps[0], look.db, 1) == [];
    assert Standing(look.apps[0], look.db, 2) == [];
    assert CanTeardownReplicas(s, 0, 1, 1, []);
  }

  lemma FailedRun() returns (run: seq<AppTimed>)
    ensures Ticking(run) && run != [] && run[|run| - 1].at == 4
    ensures Stage(RunApps(run), Failed, Failed) && RunApps(run).looks == []
    ensures RunApps(run).apps[0].teardown.None?
  {
    hide NextApps, RunApps, Undeployed;
    AppAccepted();
    Nobody();
    run := Add([], SUBMIT, 0);
    HasQueued(RunApps(run), 0, Queued, Queued);
    PlanFails(RunApps(run), 0, Queued, Queued, 1);
    run := Add(run, Base(Interrupt(0, PlanPhase)), 1);
    run := Add(run, Base(Resolve(0, 1, FoundFailed)), 2);
    HasQueued(RunApps(run), 1, Failed, Queued);
    PlanFails(RunApps(run), 1, Failed, Queued, 3);
    run := Add(run, Base(Interrupt(1, PlanPhase)), 3);
    run := Add(run, Base(Resolve(1, 1, FoundFailed)), 4);
  }

  lemma HasQueued(s: AppSys, i: OpId, first: OpState, second: OpState)
    requires Stage(s, first, second) && i < 2 && (if i == 0 then first.Queued? else second.Queued?)
    ensures s.w.db.ops[i].state.Queued?
  {
  }

  lemma TornDownRun() returns (run: seq<AppTimed>)
    ensures Ticking(run) && run != [] && run[|run| - 1].at == 9
    ensures TornDown(RunApps(run)) && LastLook(RunApps(run), 2)
    ensures DeriveState(RunApps(run).apps[0], RunApps(run).w.db.ops).AppDestroyed?
    ensures RunApps(run).apps[0].teardown == Some(Teardown(1, None, Some([]), false))
  {
    hide NextApps, RunApps, DeriveState, Undeployed;
    run := FailedRun();
    run := AddLook(run, 5);
    TeardownBegins(RunApps(run), 6);
    run := Add(run, BEGIN_TEARDOWN, 6);
    run := AddLook(run, 7);
    ReplicasSkipped(RunApps(run), 8);
    run := Add(run, NO_REPLICAS, 8);
    run := AddLook(run, 9);
  }

  /** With no replica destroys and no router destroy there is nothing left to look at. */
  lemma StillDestroyed(app: App, before: Ops, ops: Ops)
    requires DeriveState(app, before).AppDestroyed? && app.teardown == Some(Teardown(1, None, Some([]), false))
    ensures DeriveState(app, ops).AppDestroyed?
  {
  }

  // ----- The caller's deploy -----

  /** `TornDown`, whatever became of the first replica's resource. */
  ghost predicate Left(s: AppSys) {
    && SoundWorld(s.w) && s.w.db.rows.Keys == {0, 1} && s.w.db.rows[1].state.Pending?
    && 0 in s.w.db.ops && s.w.db.ops[0].state.Failed? && 1 in s.w.db.ops && s.w.db.ops[1].state.Failed?
    && ResourceFree(s.w.db, 0)
    && s.apps.Keys == {0} && s.apps[0].members == [Member(0, 0), Member(1, 1)]
    && s.apps[0].routerResource.None?
    && s.apps[0].teardown == Some(Teardown(1, None, Some([]), false))
    && DeriveState(s.apps[0], s.w.db.ops).AppDestroyed?
  }

  lemma TornDownIsLeft(s: AppSys)
    requires TornDown(s) && DeriveState(s.apps[0], s.w.db.ops).AppDestroyed?
    requires s.apps[0].teardown == Some(Teardown(1, None, Some([]), false))
    ensures Left(s) && !s.w.db.rows[0].state.Destroyed? && SoundWorld(s.w)
  {
    hide SoundWorld, DeriveState;
  }

  lemma LeftIsIdle(s: AppSys)
    requires Left(s)
    ensures DestroyedIdle(s, 0, 0) && !OwnDeployed(s.w.db, s.apps[0], 0)
    ensures 0 in s.w.db.rows && SoundWorld(s.w)
  {
    hide SoundWorld, DeriveState;
    assert s.apps[0].members[0] == Member(0, 0) && s.apps[0].members[1] == Member(1, 1);
  }

  lemma StaysLeft(s: AppSys, after: AppSys, action: Action, n: nat)
    requires Left(s) && after == s.(w := after.w) && CallerDid(s.w, after.w, action, 0, n) && Unused(s.w.db, n)
    ensures Left(after)
  {
    hide SoundWorld, DeriveState;
    StillDestroyed(s.apps[0], s.w.db.ops, after.w.db.ops);
  }

  lemma LeftPasses(s: AppSys, look: Look, action: Action)
    requires Left(s) && look == Look(s.w.db, s.apps) && !s.w.db.rows[0].state.Destroyed?
    requires action.Deploy? || action.Destroy?
    ensures StillPasses(look, s.w.db, 0) && MayAsk(s.w.db, action, 0)
  {
    hide SoundWorld, DeriveState;
    forall id | id in s.w.db.rows && id != 0 ensures !s.w.db.rows[id].state.Ready? { assert id == 1; }
  }

  /** The app is `destroyed`, and its first replica's resource is ready. */
  lemma RevivedExample() returns (run: seq<AppTimed>)
    ensures Ticking(run) && run != [] && run[|run| - 1].at == 15
    ensures Left(RunApps(run)) && ReadyRow(RunApps(run).w.db, 0)
    ensures DestroyedIdle(RunApps(run), 0, 0)
  {
    hide NextApps, RunApps, Left, StillPasses, MayAsk, Unused, DestroyedIdle;
    run := TornDownRun();
    var s := RunApps(run);
    TornDownIsLeft(s);
    LeftPasses(s, s.looks[2], Deploy);
    var n := FreshFor(s.w.db);
    run := CallerChanges(run, Deploy, 0, 2, n, 10);
    StaysLeft(s, RunApps(run), Deploy, n);
    LeftIsIdle(RunApps(run));
  }

  lemma NewestHidesLooks(s: AppSys, after: AppSys, n: nat)
    requires LooksSeen(s, 0) && after == s.(w := after.w) && CallerDid(s.w, after.w, Destroy, 0, n) && Unused(s.w.db, n)
    ensures !Revivable(after, 0)
  {
    hide DeriveState, SoundWorld;
    forall look | look in after.looks ensures !StillPasses(look, after.w.db, 0) {
      assert LatestSeen(look, s.w.db, 0);
    }
  }

  /** A caller deploys the resource and then destroys it again, on a fresh look each time: the app
      never deployed it, and yet nothing brings it back. */
  lemma CallersOwnExample() returns (run: seq<AppTimed>)
    ensures Ticking(run) && DestroyedIdle(RunApps(run), 0, 0)
    ensures !OwnDeployed(RunApps(run).w.db, RunApps(run).apps[0], 0)
    ensures forall more {:trigger RunApps(more)} ::
      run <= more && Ticking(more) ==> !ReadyRow(RunApps(more).w.db, 0)
  {
    hide NextApps, RunApps, Ticking, Left, StillPasses, MayAsk, Unused, DestroyedIdle, LooksSeen, Revivable;
    var first := RevivedExample();
    run := AddLook(first, 16);
    var s := RunApps(run);
    LooksWereSeen(run, 17, 0);
    SameLeft(RunApps(first), s);
    LeftPasses(s, s.looks[|s.looks| - 1], Destroy);
    var n := FreshFor(s.w.db);
    run := CallerChanges(run, Destroy, 0, |s.looks| - 1, n, 17);
    StaysLeft(s, RunApps(run), Destroy, n);
    LeftIsIdle(RunApps(run));
    NewestHidesLooks(s, RunApps(run), n);
    RevivesExactly(run, 0, 0, 23);
  }

  lemma SameLeft(s: AppSys, after: AppSys)
    requires Left(s) && ReadyRow(s.w.db, 0) && after.w == s.w && after.apps == s.apps
    ensures Left(after) && 0 in after.w.db.rows && !after.w.db.rows[0].state.Destroyed? && SoundWorld(after.w)
  {
  }
}
