/** What each derived state of an app means, in every run: in terms of the operations it lists, without
    the rules that compute it. */
module AppStates {
  import opened LedgerModel
  import opened LedgerRuns
  import opened AppModel
  import opened AppRuns
  import opened AppInvariants
  import opened AppSafety
  import opened AppSteps

  ghost predicate SomeMember(app: App, ops: Ops, state: OpState) {
    exists i :: 0 <= i < |app.members| && StateOf(ops, app.members[i].op) == state
  }

  ghost predicate EveryMember(app: App, ops: Ops, state: OpState) {
    forall i :: 0 <= i < |app.members| ==> StateOf(ops, app.members[i].op) == state
  }

  /** The newest router operation is in one of these states. */
  predicate NewestIn(app: App, ops: Ops, states: set<OpState>) {
    app.routers != [] && StateOf(ops, app.routers[|app.routers| - 1]) in states
  }

  /** Nothing the rollout lists has failed or is in doubt; a failed failover does not count. */
  ghost predicate Unharmed(app: App, ops: Ops) {
    && !app.error && !SomeMember(app, ops, Uncertain) && !SomeMember(app, ops, Failed)
    && !NewestIn(app, ops, {Uncertain}) && (app.routers != [] ==> !StateOf(ops, app.routers[0]).Failed?)
  }

  // ----- The current router -----

  lemma {:induction false} CurrentIs(db: Db, app: App)
    requires RoutersSound(db, app) && MembersSound(db, app) && AllRefsSound(db, app) && app.routers != []
    ensures var n := |app.routers|; var last := StateOf(db.ops, app.routers[n - 1]);
            var current := CurrentRouter(app.routers, db.ops);
            && current.Some?
            && (n == 1 || !last.Failed? ==> current == Some(app.routers[n - 1]))
            && (n > 1 && last.Failed? ==> StateOf(db.ops, current.value).Succeeded?)
            && (n > 1 ==> Deployed(app.routers[..1], db.ops).Some?)
  {
    CurrentTells(app.routers, db.ops);
    var n := |app.routers|;
    if n > 1 {
      assert RefsSound(db, app, 1);
      forall k | 0 <= k < n - 1
        ensures StateOf(db.ops, app.routers[k]).Succeeded? || StateOf(db.ops, app.routers[k]).Failed?
      {
        assert RouterSound(db, app, k);
      }
      FirstStands(app.routers[..n - 1], db.ops);
    }
  }

  /** With the first router deployed and the others finished, the current one is deployed. */
  lemma {:induction false} FirstStands(routers: seq<OpId>, ops: Ops)
    requires routers != [] && Deployed(routers[..1], ops).Some?
    requires forall k :: 0 <= k < |routers| ==>
      StateOf(ops, routers[k]).Succeeded? || StateOf(ops, routers[k]).Failed?
    ensures var current := CurrentRouter(routers, ops); current.Some? && StateOf(ops, current.value).Succeeded?
  {
    if |routers| > 1 {
      assert routers[..|routers| - 1][..1] == routers[..1];
      FirstStands(routers[..|routers| - 1], ops);
    }
  }

  lemma FirstSucceeded(db: Db, app: App)
    requires app.routers != [] && Deployed(app.routers[..1], db.ops).Some?
    ensures StateOf(db.ops, app.routers[0]).Succeeded?
  {
    assert app.routers[..1][0] == app.routers[0];
    DeployedIsListed(app.routers[..1], db.ops);
  }

  // ----- Rollouts -----

  ghost predicate RolloutMeans(app: App, ops: Ops) {
    var state := DeriveState(app, ops);
    var unharmed := Unharmed(app, ops);
    && (state.AppUncertain? <==> SomeMember(app, ops, Uncertain) || NewestIn(app, ops, {Uncertain}))
    && (state.AppFailed? <==> !unharmed && !SomeMember(app, ops, Uncertain) && !NewestIn(app, ops, {Uncertain}))
    && (state.AppReady? <==> unharmed && NewestIn(app, ops, {Succeeded, Failed}))
    && (state.ApplyingRouter? <==> unharmed && NewestIn(app, ops, {ApplyQueued, Applying}))
    && (state.AwaitingRouterApproval? <==> unharmed && NewestIn(app, ops, {Planned}))
    && (state.PlanningRouter? <==> unharmed && EveryMember(app, ops, Succeeded)
                                   && (app.routers == [] || NewestIn(app, ops, {Queued, Planning})))
    && (state.AwaitingReplicaApproval? <==> unharmed && EveryMember(app, ops, Planned))
    && (state.ApplyingReplicas? <==>
          unharmed && !EveryMember(app, ops, Succeeded)
          && (SomeMember(app, ops, ApplyQueued) || SomeMember(app, ops, Applying) || SomeMember(app, ops, Succeeded)))
    && (state.PlanningReplicas? ==> SomeMember(app, ops, Queued) || SomeMember(app, ops, Planning))
  }

  lemma {:induction false} RolloutStates(db: Db, app: App)
    requires AppSound(db, app) && app.teardown.None?
    ensures RolloutMeans(app, db.ops)
  {
    hide OpsFit, RouterFirst, TouchedSound, AllRowsSound, TeardownSound;
    if app.routers == [] {
      BeforeRouter(app, db.ops);
    } else {
      CurrentIs(db, app);
      if |app.routers| > 1 { FirstSucceeded(db, app); }
      WithRouterOp(db, app);
    }
  }

  lemma BeforeRouter(app: App, ops: Ops)
    requires app.teardown.None? && app.routers == [] && |app.members| >= 2
    ensures RolloutMeans(app, ops)
  {
    assert forall i :: 0 <= i < |app.members| ==> MemberState(app, ops, i) == StateOf(ops, app.members[i].op);
    assert StateOf(ops, app.members[0].op) == MemberState(app, ops, 0);
    if PlanningOnly(app, ops) { SomePlanning(app, ops); }
  }

  ghost predicate PlanningOnly(app: App, ops: Ops) { DeriveState(app, ops).PlanningReplicas? }

  lemma SomePlanning(app: App, ops: Ops)
    requires app.teardown.None? && app.routers == [] && PlanningOnly(app, ops)
    ensures SomeMember(app, ops, Queued) || SomeMember(app, ops, Planning)
  {
    var i :| 0 <= i < |app.members| && !MemberState(app, ops, i).Planned?;
    assert StateOf(ops, app.members[i].op) == MemberState(app, ops, i);
  }

  lemma WithRouterOp(db: Db, app: App)
    requires app.teardown.None? && app.routers != [] && |app.members| >= 2 && ReplicasDone(db, app)
    requires var n := |app.routers|; var last := StateOf(db.ops, app.routers[n - 1]);
             var current := CurrentRouter(app.routers, db.ops);
             && current.Some?
             && (n == 1 || !last.Failed? ==> current == Some(app.routers[n - 1]))
             && (n > 1 && last.Failed? ==> StateOf(db.ops, current.value).Succeeded?)
             && (n > 1 ==> StateOf(db.ops, app.routers[0]).Succeeded?)
    ensures RolloutMeans(app, db.ops)
  {
    assert forall i :: 0 <= i < |app.members| ==> MemberState(app, db.ops, i).Succeeded?;
    assert StateOf(db.ops, app.members[0].op).Succeeded?;
  }

  // ----- Teardowns -----

  predicate RouterIn(teardown: Teardown, ops: Ops, states: set<OpState>) {
    teardown.router.Some? && StateOf(ops, teardown.router.value) in states
  }

  ghost predicate SomeDestroy(teardown: Teardown, ops: Ops, states: set<OpState>) {
    teardown.replicas.Some?
    && exists j :: 0 <= j < |teardown.replicas.value| && StateOf(ops, teardown.replicas.value[j]) in states
  }

  ghost predicate EveryDestroy(teardown: Teardown, ops: Ops, states: set<OpState>) {
    teardown.replicas.Some?
    && forall j :: 0 <= j < |teardown.replicas.value| ==> StateOf(ops, teardown.replicas.value[j]) in states
  }

  ghost predicate GoingOn(teardown: Teardown, ops: Ops) {
    && !teardown.error && !RouterIn(teardown, ops, {Failed, Uncertain})
    && !SomeDestroy(teardown, ops, {Failed, Uncertain})
  }

  ghost predicate TeardownMeans(teardown: Teardown, ops: Ops) {
    var state := DeriveTeardownState(teardown, ops);
    var going := GoingOn(teardown, ops);
    && (state.AppUncertain? <==> RouterIn(teardown, ops, {Uncertain}) || SomeDestroy(teardown, ops, {Uncertain}))
    && (state.AppFailed? <==>
          !going && !RouterIn(teardown, ops, {Uncertain}) && !SomeDestroy(teardown, ops, {Uncertain}))
    && (state.AppDestroyed? <==> going && EveryDestroy(teardown, ops, {Succeeded}))
    && (state.DestroyingReplicas? <==>
          going && !EveryDestroy(teardown, ops, {Succeeded})
          && SomeDestroy(teardown, ops, {ApplyQueued, Applying, Succeeded}))
    && (state.AwaitingReplicaDestroyApproval? <==>
          going && EveryDestroy(teardown, ops, {Planned}) && !EveryDestroy(teardown, ops, {Succeeded}))
    && (state.DestroyingRouter? <==>
          going && teardown.replicas.None? && RouterIn(teardown, ops, {ApplyQueued, Applying}))
    && (state.AwaitingRouterDestroyApproval? <==>
          going && teardown.replicas.None? && RouterIn(teardown, ops, {Planned}))
    && (state.PlanningRouterDestroy? <==>
          going && teardown.replicas.None? && RouterIn(teardown, ops, {Queued, Planning}))
  }

  lemma TeardownStates(teardown: Teardown, ops: Ops)
    ensures TeardownMeans(teardown, ops)
  {
  }

  /** In every run, for every app: its state is what its operations make it. */
  lemma {:induction false} StatesAreExact(run: seq<AppTimed>, later: Time, a: AppId)
    requires Ticking(run) && (run != [] ==> run[|run| - 1].at < later) && a in RunApps(run).apps
    ensures var s := RunApps(run); var app := s.apps[a];
            if app.teardown.None? then RolloutMeans(app, s.w.db.ops)
            else TeardownMeans(app.teardown.value, s.w.db.ops)
  {
    hide RunApps, SoundWorld, LookSound, FreedSound, KeyKnown, AppSound, RolloutMeans, TeardownMeans;
    EveryAppRunIsSound(run, later);
    var s := RunApps(run);
    assert AppAt(s, a);
    if s.apps[a].teardown.None? {
      RolloutStates(s.w.db, s.apps[a]);
    } else {
      TeardownStates(s.apps[a].teardown.value, s.w.db.ops);
    }
  }
}
