/** The derived progress of a rollout never goes back. */
module AppProgress {
  import opened LedgerModel
  import opened LedgerRuns
  import opened AppModel
  import opened AppRuns
  import opened AppLedger
  import opened AppInvariants
  import opened AppSafety
  import opened AppSteps

  // ----- Every step only adds -----

  /** A later state of the same system: no operation went back, and apps only grew. */
  ghost predicate After(s: AppSys, after: AppSys) {
    && (forall id {:trigger OpGrows(s.w.db, after.w.db, id)} :: id in s.w.db.ops ==> OpGrows(s.w.db, after.w.db, id))
    && (forall a {:trigger AppAfter(s, after, a)} :: a in s.apps ==> AppAfter(s, after, a))
  }

  ghost predicate AppAfter(s: AppSys, after: AppSys, a: AppId) {
    a in s.apps && a in after.apps && AppGrows(s.apps[a], after.apps[a])
  }

  lemma AfterTwice(x: AppSys, y: AppSys, z: AppSys)
    requires After(x, y) && After(y, z)
    ensures After(x, z)
  {
    forall id | id in x.w.db.ops ensures OpGrows(x.w.db, z.w.db, id) {
      assert OpGrows(x.w.db, y.w.db, id) && OpGrows(y.w.db, z.w.db, id);
      LaterTwice(x.w.db.ops[id], y.w.db.ops[id], z.w.db.ops[id]);
    }
    forall a | a in x.apps ensures AppAfter(x, z, a) {
      assert AppAfter(x, y, a) && AppAfter(y, z, a);
      GrowsTwice(x.apps[a], y.apps[a], z.apps[a]);
    }
  }

  ghost predicate OpsAfter(a: Db, b: Db) {
    forall id {:trigger OpGrows(a, b, id)} :: id in a.ops ==> OpGrows(a, b, id)
  }

  lemma OpsAfterTwice(a: Db, b: Db, c: Db)
    requires OpsAfter(a, b) && OpsAfter(b, c)
    ensures OpsAfter(a, c)
  {
    forall id | id in a.ops ensures OpGrows(a, c, id) {
      assert OpGrows(a, b, id) && OpGrows(b, c, id);
      LaterTwice(a.ops[id], b.ops[id], c.ops[id]);
    }
  }

  lemma {:induction false} LinkOnlyAdds(w: World, reqs: seq<Request>, age: Option<nat>, t: Time)
    requires SoundWorld(w) && LinkAll(w, reqs, age, t).Some?
    ensures var after := LinkAll(w, reqs, age, t).value.w; SoundWorld(after) && OpsAfter(w.db, after.db)
  {
    hide Link, Grown, SoundWorld;
    if reqs == [] {
      SameOps(w.db);
    } else {
      var n := |reqs| - 1;
      LinkOnlyAdds(w, reqs[..n], age, t);
      var mid := LinkAll(w, reqs[..n], age, t).value.w;
      var end := Link(mid, reqs[n], age, t).value.w;
      DirectGrows(mid, reqs[n], age, t);
      if end == mid { SameOps(mid.db); } else { Opened(mid.db, end.db, [reqs[n]]); }
      OpsAfterTwice(w.db, mid.db, end.db);
    }
  }

  lemma SameOps(db: Db)
    ensures OpsAfter(db, db)
  {
    forall id | id in db.ops ensures OpGrows(db, db, id) { }
  }

  lemma AppsOnlyGrow(s: AppSys, step: AppStep, t: Time, a: AppId)
    requires Earlier(s, t) && a in s.apps
    requires SysSound(s)
    ensures AppAfter(s, NextApps(s, step, t), a)
  {
    hide Committed, Next, SysSound;
    CommittedAsked(s, step, t);
    NoRouterYetIn(s, a);
    GrowsByNothing(s.apps[a]);
    if step.AcceptFailover? && Committed(s, step, t).Some? { NoTeardownYet(s, step); }
    if step.AcceptRouter? && Committed(s, step, t).Some? { RouterIsDue(s, step.app, step.seen, step.req); }
  }

  lemma NoRouterYetIn(s: AppSys, a: AppId)
    requires SysSound(s) && a in s.apps
    ensures s.apps[a].routers == [] ==> s.apps[a].routerResource.None?
  {
    assert AppAt(s, a);
  }

  lemma NoTeardownYet(s: AppSys, step: AppStep)
    requires SysSound(s) && step.AcceptFailover? && Asks(s, step).Some?
    ensures s.apps[step.app].teardown.None?
  {
    hide FailoverKnows;
    FailoverIsInformed(s, step.app, step.seen, step.caller, step.key, step.target, step.req);
    KnowsResource(s.w.db, s.apps[step.app], step.target, step.req);
  }

  lemma StepIsAfter(s: AppSys, step: AppStep, t: Time)
    requires SysSound(s) && Earlier(s, t)
    ensures After(s, NextApps(s, step, t))
  {
    hide Next, LinkAll, SysSound, AppAfter;
    var after := NextApps(s, step, t);
    assert SoundWorld(s.w) by { WorldOf(s); }
    CommittedAsked(s, step, t);
    SameOps(s.w.db);
    if step.Base? && !step.step.Submit? {
      BaseGrows(s.w, step.step, t);
      Opened(s.w.db, after.w.db, []);
    } else if Committed(s, step, t).Some? {
      LinkOnlyAdds(s.w, Asks(s, step).value, AgeOf(step), t);
    }
    assert OpsAfter(s.w.db, after.w.db);
    forall a | a in s.apps ensures AppAfter(s, after, a) { AppsOnlyGrow(s, step, t, a); }
  }

  lemma WorldOf(s: AppSys)
    requires SysSound(s)
    ensures SoundWorld(s.w)
  {
  }

  lemma {:induction false} RunIsAfter(run: seq<AppTimed>, k: nat, later: Time)
    requires Ticking(run) && k <= |run| && (run != [] ==> run[|run| - 1].at < later)
    ensures After(RunApps(run[..k]), RunApps(run))
  {
    hide NextApps, After, SysSound;
    if k == |run| {
      assert run[..k] == run;
      AfterItself(RunApps(run));
    } else {
      var earlier, last := run[..|run| - 1], run[|run| - 1];
      assert earlier[..k] == run[..k];
      RunIsAfter(earlier, k, last.at);
      EveryAppRunIsSound(earlier, last.at);
      StepIsAfter(RunApps(earlier), last.step, last.at);
      AfterTwice(RunApps(run[..k]), RunApps(earlier), RunApps(run));
    }
  }

  lemma AfterItself(s: AppSys)
    ensures After(s, s)
  {
    SameOps(s.w.db);
    forall a | a in s.apps ensures AppAfter(s, s, a) { GrowsByNothing(s.apps[a]); }
  }

  // ----- One operation -----

  /** How far an operation has come. An uncertain one counts as far as its phase. */
  function Level(op: Op): nat {
    match op.state
    case Queued => 0 case Planning => 0 case Planned => 1 case ApplyQueued => 2 case Applying => 2
    case Uncertain => if op.planDigest.Some? then 2 else 0
    case Succeeded => 3 case Failed => 4
  }

  lemma LevelGrows(a: Op, b: Op)
    requires Later(a, b) && WellShaped(a) && WellShaped(b) && Real(a)
    ensures Level(a) <= Level(b)
    ensures a.Finished() ==> b == a
  {
  }

  // ----- The rollout -----

  function Progress(state: AppState): nat {
    match state
    case PlanningReplicas => 0 case AwaitingReplicaApproval => 1 case ApplyingReplicas => 2
    case PlanningRouter => 3 case AwaitingRouterApproval => 4 case ApplyingRouter => 5
    case AppReady => 6
    case _ => 0
  }

  function LevelOf(ops: Ops, id: OpId): nat { if id in ops then Level(ops[id]) else 0 }

  ghost predicate LevelsGrow(a: Ops, b: Ops, app: App) {
    && (forall i :: 0 <= i < |app.members| ==>
          var id := app.members[i].op;
          id in a && id in b && LevelOf(a, id) <= LevelOf(b, id) && (a[id].Finished() ==> b[id] == a[id]))
    && (forall k :: 0 <= k < |app.routers| ==>
          var id := app.routers[k];
          id in a && id in b && LevelOf(a, id) <= LevelOf(b, id) && (a[id].Finished() ==> b[id] == a[id]))
  }

  lemma AllLevelsGrow(a: Db, b: Db, app: App)
    requires OpsAfter(a, b) && OpsSound(a) && OpsSound(b) && AppSound(a, app)
    ensures LevelsGrow(a.ops, b.ops, app)
  {
    hide AllRowsSound, TeardownSound, RouterFirst, TouchedSound, AllRefsSound;
    forall i | 0 <= i < |app.members|
      ensures var id := app.members[i].op;
              id in a.ops && id in b.ops && LevelOf(a.ops, id) <= LevelOf(b.ops, id)
              && (a.ops[id].Finished() ==> b.ops[id] == a.ops[id])
    {
      assert MemberSound(a, app, i);
      LevelAt(a, b, app, app.members[i].op);
    }
    forall k | 0 <= k < |app.routers|
      ensures var id := app.routers[k];
              id in a.ops && id in b.ops && LevelOf(a.ops, id) <= LevelOf(b.ops, id)
              && (a.ops[id].Finished() ==> b.ops[id] == a.ops[id])
    {
      assert RouterSound(a, app, k);
      LevelAt(a, b, app, app.routers[k]);
    }
  }

  lemma LevelAt(a: Db, b: Db, app: App, id: OpId)
    requires OpsAfter(a, b) && OpsSound(a) && OpsSound(b) && OpsFit(a, app) && id in a.ops
    requires AppOf(a.ops[id].terms.key) == Some(app.id)
    ensures id in b.ops && LevelOf(a.ops, id) <= LevelOf(b.ops, id) && (a.ops[id].Finished() ==> b.ops[id] == a.ops[id])
  {
    assert OpGrows(a, b, id) && OpFitsAt(a, app, id) && OpSound(a, id) && OpSound(b, id);
    LevelGrows(a.ops[id], b.ops[id]);
  }

  predicate Plain(state: AppState) { !state.AppUncertain? && !state.AppFailed? }

  /** What a state that is neither failed nor uncertain says about the replicas. */
  lemma ReplicaLevels(app: App, ops: Ops, i: nat)
    requires app.teardown.None? && Plain(DeriveState(app, ops)) && i < |app.members|
    ensures var state := MemberState(app, ops, i); !state.Uncertain? && !state.Failed?
  {
  }

  lemma ReplicasGoOn(x: App, y: App, a: Ops, b: Ops)
    requires x.teardown.None? && y.teardown.None? && y.members == x.members && x.routers == []
    requires Plain(DeriveState(x, a)) && Plain(DeriveState(y, b)) && LevelsGrow(a, b, x)
    requires y.routers != [] ==> Progress(DeriveState(y, b)) >= 3
    ensures Progress(DeriveState(x, a)) <= Progress(DeriveState(y, b))
  {
    if y.routers == [] {
      var n := |x.members|;
      forall i | 0 <= i < n
        ensures LevelOf(a, x.members[i].op) <= LevelOf(b, y.members[i].op)
        ensures !MemberState(y, b, i).Uncertain? && !MemberState(y, b, i).Failed?
        ensures MemberState(x, a, i).Succeeded? ==> MemberState(y, b, i).Succeeded?
        ensures MemberState(x, a, i).Planned? ==>
          MemberState(y, b, i).Planned? || Active(MemberState(y, b, i))
        ensures Active(MemberState(x, a, i)) ==> Active(MemberState(y, b, i))
      {
        ReplicaLevels(y, b, i);
      }
      ReplicaProgress(x, y, a, b);
    }
  }

  lemma ReplicaProgress(x: App, y: App, a: Ops, b: Ops)
    requires x.teardown.None? && y.teardown.None? && |y.members| == |x.members|
    requires x.routers == [] && y.routers == []
    requires Plain(DeriveState(x, a)) && Plain(DeriveState(y, b))
    requires forall i :: 0 <= i < |x.members| ==>
      && (MemberState(x, a, i).Succeeded? ==> MemberState(y, b, i).Succeeded?)
      && (MemberState(x, a, i).Planned? ==> MemberState(y, b, i).Planned? || Active(MemberState(y, b, i)))
      && (Active(MemberState(x, a, i)) ==> Active(MemberState(y, b, i)))
    ensures Progress(DeriveState(x, a)) <= Progress(DeriveState(y, b))
  {
  }

  function RouterProgress(state: OpState): nat {
    match state
    case Planned => 4 case ApplyQueued => 5 case Applying => 5 case Succeeded => 6 case _ => 3
  }

  lemma {:induction false} RouterStateIs(app: App, ops: Ops)
    requires app.teardown.None? && app.routers != [] && Plain(DeriveState(app, ops))
    ensures var current := CurrentRouter(app.routers, ops);
            && current.Some? && !StateOf(ops, current.value).Failed? && !StateOf(ops, current.value).Uncertain?
            && Progress(DeriveState(app, ops)) == RouterProgress(StateOf(ops, current.value))
  {
    CurrentTells(app.routers, ops);
  }

  /** The router an app is described by never loses ground: it goes on, or it fails and the app is
      described by one that was deployed. */
  lemma {:induction false} CurrentGoesOn(routers: seq<OpId>, a: Ops, b: Ops)
    requires routers != []
    requires forall k :: 0 <= k < |routers| ==>
      routers[k] in a && routers[k] in b && LevelOf(a, routers[k]) <= LevelOf(b, routers[k])
      && (a[routers[k]].Finished() ==> b[routers[k]] == a[routers[k]])
    requires forall k :: 0 <= k < |routers| - 1 ==> a[routers[k]].Finished()
    ensures CurrentRouter(routers, a).Some? && CurrentRouter(routers, b).Some?
    ensures var x, y := StateOf(a, CurrentRouter(routers, a).value), StateOf(b, CurrentRouter(routers, b).value);
            y.Failed? || y.Uncertain? || x.Failed? || x.Uncertain? || RouterProgress(x) <= RouterProgress(y)
  {
    CurrentTells(routers, a);
    CurrentTells(routers, b);
    var n := |routers| - 1;
    var last := routers[n];
    if n > 0 && b[last].state.Failed? {
      SameCurrent(routers[..n], a, b);
      CurrentTells(routers[..n], a);
      FinishedCurrent(routers[..n], a);
    }
  }

  lemma {:induction false} SameCurrent(routers: seq<OpId>, a: Ops, b: Ops)
    requires forall k :: 0 <= k < |routers| ==> routers[k] in a && routers[k] in b && a[routers[k]] == b[routers[k]]
    ensures CurrentRouter(routers, a) == CurrentRouter(routers, b)
  {
    if |routers| > 1 { SameCurrent(routers[..|routers| - 1], a, b); }
  }

  lemma {:induction false} FinishedCurrent(routers: seq<OpId>, a: Ops)
    requires routers != [] && forall k :: 0 <= k < |routers| ==> routers[k] in a && a[routers[k]].Finished()
    ensures var current := CurrentRouter(routers, a);
            current.Some? && (StateOf(a, current.value).Failed? || StateOf(a, current.value).Succeeded?)
  {
    if |routers| > 1 { FinishedCurrent(routers[..|routers| - 1], a); }
  }

  lemma RolloutGoesOn(a: Db, b: Db, x: App, y: App)
    requires OpsAfter(a, b) && OpsSound(a) && OpsSound(b) && AppSound(a, x) && AppSound(b, y) && AppGrows(x, y)
    requires y.teardown.None? && y.failovers == x.failovers
    requires Plain(DeriveState(x, a.ops)) && Plain(DeriveState(y, b.ops))
    ensures Progress(DeriveState(x, a.ops)) <= Progress(DeriveState(y, b.ops))
  {
    hide DeriveState, AppSound, AppGrows, LevelsGrow, Progress;
    AllLevelsGrow(a, b, x);
    Grew(x, y);
    if y.routers != [] { RouterStateIs(y, b.ops); }
    if x.routers == [] {
      ReplicasGoOn(x, y, a.ops, b.ops);
    } else {
      SameRouters(a, b, x, y);
      RouterStateIs(x, a.ops);
      LevelsOf(a, b, x);
      CurrentGoesOn(x.routers, a.ops, b.ops);
    }
  }

  lemma Grew(x: App, y: App)
    requires AppGrows(x, y) && y.teardown.None?
    ensures x.teardown.None? && y.members == x.members && (x.routers != [] ==> y.routers != [])
  {
  }

  lemma SameRouters(a: Db, b: Db, x: App, y: App)
    requires AppSound(a, x) && AppSound(b, y) && AppGrows(x, y) && y.failovers == x.failovers && x.routers != []
    ensures y.routers == x.routers
    ensures forall k :: 0 <= k < |x.routers| - 1 ==> x.routers[k] in a.ops && a.ops[x.routers[k]].Finished()
  {
    forall k | 0 <= k < |x.routers| - 1 ensures x.routers[k] in a.ops && a.ops[x.routers[k]].Finished() {
      assert RouterSound(a, x, k);
    }
  }

  lemma LevelsOf(a: Db, b: Db, x: App)
    requires LevelsGrow(a.ops, b.ops, x)
    ensures forall k :: 0 <= k < |x.routers| ==>
      x.routers[k] in a.ops && x.routers[k] in b.ops && LevelOf(a.ops, x.routers[k]) <= LevelOf(b.ops, x.routers[k])
      && (a.ops[x.routers[k]].Finished() ==> b.ops[x.routers[k]] == a.ops[x.routers[k]])
  {
  }

  /** Take any two moments of any run. If no teardown has begun and no failover was accepted in
      between, then, looking past moments of uncertainty, the app is at least as far as it was, or
      it has failed. */
  lemma {:induction false} ProgressIsMonotone(run: seq<AppTimed>, k: nat, later: Time, a: AppId)
    requires Ticking(run) && k <= |run| && (run != [] ==> run[|run| - 1].at < later)
    requires a in RunApps(run[..k]).apps
    ensures a in RunApps(run).apps
    ensures
      var s, after := RunApps(run[..k]), RunApps(run);
      var x, y := s.apps[a], after.apps[a];
      var before, now := DeriveState(x, s.w.db.ops), DeriveState(y, after.w.db.ops);
      y.teardown.None? && y.failovers == x.failovers && Plain(before) && !now.AppUncertain? ==>
        now.AppFailed? || Progress(before) <= Progress(now)
  {
    hide RunApps, DeriveState, SoundWorld, Progress, AppSound;
    RunIsAfter(run, k, later);
    EveryAppRunIsSound(run, later);
    PrefixTicks(run, k);
    EveryAppRunIsSound(run[..k], if k == 0 then 0 else run[k - 1].at + 1);
    var s, after := RunApps(run[..k]), RunApps(run);
    assert AppAt(s, a) && AppAt(after, a) && AppAfter(s, after, a);
    var x, y := s.apps[a], after.apps[a];
    if y.teardown.None? && y.failovers == x.failovers && Plain(DeriveState(x, s.w.db.ops))
       && Plain(DeriveState(y, after.w.db.ops)) {
      OpsAreSound(s.w);
      OpsAreSound(after.w);
      RolloutGoesOn(s.w.db, after.w.db, x, y);
    }
  }

  lemma PrefixTicks(run: seq<AppTimed>, k: nat)
    requires Ticking(run) && k <= |run|
    ensures Ticking(run[..k])
    ensures run[..k] != [] ==> run[..k][|run[..k]| - 1] == run[k - 1]
  {
  }
}
