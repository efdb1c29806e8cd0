/** What apps promise in every run. */
module AppTheorems {
  import opened LedgerModel
  import opened LedgerRuns
  import opened AppModel
  import opened AppRuns
  import opened AppLedger
  import opened AppInvariants
  import opened AppSafety
  import opened AppSteps

  // ----- The derived state is true of the ledger -----

  /** Whatever failed, was retried or resumed on the way: when an app is `destroyed`, everything it
      ever deployed, router and replicas, is destroyed. A resource of it can be ready only if the
      app itself never deployed it and a caller did so directly. */
  lemma {:induction false} DestroyedMeansGone(run: seq<AppTimed>, later: Time, a: AppId, r: ResId)
    requires Ticking(run) && (run != [] ==> run[|run| - 1].at < later)
    requires var s := RunApps(run);
             a in s.apps && Owns(s.apps[a], r) && DeriveState(s.apps[a], s.w.db.ops).AppDestroyed?
    ensures var s := RunApps(run);
            && r in s.w.db.rows
            && (OwnDeployed(s.w.db, s.apps[a], r) ==> s.w.db.rows[r].state.Destroyed?)
            && (ReadyRow(s.w.db, r) ==> !OwnDeployed(s.w.db, s.apps[a], r) && Touched(s.w.db, r))
  {
    hide RunApps, Touched, DeriveState, SoundWorld, OpsFit;
    EveryAppRunIsSound(run, later);
    var s := RunApps(run);
    var app := s.apps[a];
    assert AppAt(s, a);
    OwnedRows(s.w.db, app, r);
    if OwnDeployed(s.w.db, app, r) { DestroyedHoldsNothing(s.w.db, app, r); }
    if !Touched(s.w.db, r) && ReadyRow(s.w.db, r) { ReadyWasDeployed(s.w.db, app, r); }
  }

  lemma ReadyWasDeployed(db: Db, app: App, r: ResId)
    requires AppSound(db, app) && Owns(app, r) && !Touched(db, r) && ReadyRow(db, r)
    ensures OwnDeployed(db, app, r)
  {
    hide Touched, OpsFit;
    if i :| 0 <= i < |app.members| && app.members[i].resource == r { assert ReplicaRow(db, app, i); }
  }

  /** When an app is `ready`, its router and every replica are. */
  lemma {:induction false} ReadyIsReal(run: seq<AppTimed>, later: Time, a: AppId, r: ResId)
    requires Ticking(run) && (run != [] ==> run[|run| - 1].at < later)
    requires var s := RunApps(run);
             a in s.apps && Owns(s.apps[a], r) && DeriveState(s.apps[a], s.w.db.ops).AppReady?
    ensures ReadyRow(RunApps(run).w.db, r)
  {
    hide RunApps, Touched, DeriveState, SoundWorld, OpsFit;
    EveryAppRunIsSound(run, later);
    var s := RunApps(run);
    var app := s.apps[a];
    assert AppAt(s, a);
    ReadyTells(s.w.db, app);
    assert !Touched(s.w.db, r);
    if i :| 0 <= i < |app.members| && app.members[i].resource == r { assert ReplicaRow(s.w.db, app, i); }
  }

  // ----- Order of work -----

  /** An app's router operation exists only after every replica operation succeeded, although the
      check and the acceptance are separate steps. */
  lemma {:induction false} RouterComesLast(run: seq<AppTimed>, later: Time, a: AppId, id: OpId, n: nat, i: nat)
    requires Ticking(run) && (run != [] ==> run[|run| - 1].at < later)
    requires var s := RunApps(run);
             id in s.w.db.ops && s.w.db.ops[id].terms.key == RouterKey(a, n)
    ensures var s := RunApps(run);
            a in s.apps && (i < |s.apps[a].members| ==> MemberState(s.apps[a], s.w.db.ops, i).Succeeded?)
  {
    hide RunApps, Touched, SoundWorld;
    EveryAppRunIsSound(run, later);
    var s := RunApps(run);
    assert KeyKnown(s, id) && AppAt(s, a);
    assert OpFitsAt(s.w.db, s.apps[a], id);
  }

  /** A replica's destroy exists only after the router is gone or when there never was one: a
      router the app deployed is destroyed, and one it did not deploy is down unless a caller
      deployed it. */
  lemma {:induction false} RouterGoesFirst(run: seq<AppTimed>, later: Time, a: AppId, id: OpId, n: nat, i: nat)
    requires Ticking(run) && (run != [] ==> run[|run| - 1].at < later)
    requires var s := RunApps(run);
             id in s.w.db.ops && s.w.db.ops[id].terms.key == TeardownReplicaKey(a, n, i)
    ensures var s := RunApps(run);
            a in s.apps
            && (s.apps[a].routerResource.Some? ==>
                  var r := s.apps[a].routerResource.value;
                  && r in s.w.db.rows
                  && (OwnDeployed(s.w.db, s.apps[a], r) ==> s.w.db.rows[r].state.Destroyed?)
                  && (!Touched(s.w.db, r) ==> !s.w.db.rows[r].state.Ready?))
  {
    hide RunApps, Touched, SoundWorld;
    EveryAppRunIsSound(run, later);
    var s := RunApps(run);
    assert KeyKnown(s, id) && AppAt(s, a);
    var app := s.apps[a];
    assert OpFitsAt(s.w.db, app, id) && ReplicaDestroy(s.w.db, app, id);
    if app.routerResource.Some? {
      assert Owns(app, app.routerResource.value);
      if OwnDeployed(s.w.db, app, app.routerResource.value) { RouterWasDeployed(s.w.db, app); }
    }
  }

  lemma RouterWasDeployed(db: Db, app: App)
    requires AppSound(db, app) && app.routerResource.Some? && OwnDeployed(db, app, app.routerResource.value)
    ensures Deployed(app.routers, db.ops).Some? && !Touched(db, app.routerResource.value)
    ensures SettledRow(db, app.routerResource.value)
  {
    hide Touched, OpsFit;
    assert Owns(app, app.routerResource.value);
    assert RouterRow(db, app);
  }

  // ----- Every run of apps is a run of the ledger -----

  ghost function LinkSteps(w: World, reqs: seq<Request>, age: Option<nat>, t: Time): seq<Timed>
    requires LinkAll(w, reqs, age, t).Some?
  {
    if reqs == [] then []
    else
      var last := reqs[|reqs| - 1];
      var mid := LinkAll(w, reqs[..|reqs| - 1], age, t).value.w;
      LinkSteps(w, reqs[..|reqs| - 1], age, t)
      + if Accept(mid.db, last, age, t).Accepted? then [Timed(Submit(last, age), t)] else []
  }

  lemma {:induction false} RunSnoc(w: World, run: seq<Timed>, step: Timed)
    ensures Run(w, run + [step]) == Next(Run(w, run), step.step, step.at)
  {
    assert (run + [step])[..|run|] == run;
  }

  lemma {:induction false} LinkIsRun(w: World, reqs: seq<Request>, age: Option<nat>, t: Time)
    requires LinkAll(w, reqs, age, t).Some?
    ensures LinkAll(w, reqs, age, t).value.w == Run(w, LinkSteps(w, reqs, age, t))
  {
    hide Next, Accept, Run;
    if reqs != [] {
      var earlier, last := reqs[..|reqs| - 1], reqs[|reqs| - 1];
      LinkIsRun(w, earlier, age, t);
      var mid := LinkAll(w, earlier, age, t).value.w;
      if Accept(mid.db, last, age, t).Accepted? {
        RunSnoc(w, LinkSteps(w, earlier, age, t), Timed(Submit(last, age), t));
      } else {
        assert LinkSteps(w, reqs, age, t) == LinkSteps(w, earlier, age, t);
      }
    } else {
      RunNothing(w);
    }
  }

  lemma {:induction false} RunNothing(w: World)
    ensures Run(w, []) == w
  {
  }

  ghost function StepsOf(s: AppSys, step: AppStep, t: Time): seq<Timed> {
    if step.Base? then if step.step.Submit? then [] else [Timed(step.step, t)]
    else if step.Glance? then []
    else
      CommittedAsked(s, step, t);
      if Committed(s, step, t).None? then []
      else LinkSteps(s.w, Asks(s, step).value, AgeOf(step), t)
  }

  ghost function LedgerOf(run: seq<AppTimed>): seq<Timed> {
    if run == [] then []
    else
      var earlier, last := run[..|run| - 1], run[|run| - 1];
      LedgerOf(earlier) + StepsOf(RunApps(earlier), last.step, last.at)
  }

  lemma StepIsRun(s: AppSys, step: AppStep, t: Time)
    ensures NextApps(s, step, t).w == Run(s.w, StepsOf(s, step, t))
  {
    hide Next, Run, Asks, LinkAll, LinkSteps;
    RunNothing(s.w);
    if step.Base? {
      RunSnoc(s.w, [], Timed(step.step, t));
      assert [] + [Timed(step.step, t)] == [Timed(step.step, t)];
    } else if !step.Glance? {
      CommittedAsked(s, step, t);
      if Committed(s, step, t).Some? { LinkIsRun(s.w, Asks(s, step).value, AgeOf(step), t); }
    }
  }

  lemma {:induction false} RunTwice(w: World, run: seq<Timed>, more: seq<Timed>)
    ensures Run(w, run + more) == Run(Run(w, run), more)
  {
    hide Next;
    if more == [] {
      assert run + more == run;
    } else {
      RunTwice(w, run, more[..|more| - 1]);
      assert (run + more)[..|run + more| - 1] == run + more[..|more| - 1];
    }
  }

  /** Everything proved about runs of the ledger holds while apps use it. */
  lemma {:induction false} AppRunsAreRuns(run: seq<AppTimed>)
    ensures RunApps(run).w == Run(START, LedgerOf(run))
    ensures Ticking(run) ==> Chronological(LedgerOf(run))
  {
    hide NextApps, StepsOf, Run;
    if run == [] {
      RunNothing(START);
    } else {
      var earlier, last := run[..|run| - 1], run[|run| - 1];
      AppRunsAreRuns(earlier);
      StepIsRun(RunApps(earlier), last.step, last.at);
      RunTwice(START, LedgerOf(earlier), StepsOf(RunApps(earlier), last.step, last.at));
    }
    if Ticking(run) { LedgerOfKeepsTime(run); }
  }

  lemma {:induction false} LinkStepsAtOnce(w: World, reqs: seq<Request>, age: Option<nat>, t: Time)
    requires LinkAll(w, reqs, age, t).Some?
    ensures forall i :: 0 <= i < |LinkSteps(w, reqs, age, t)| ==> LinkSteps(w, reqs, age, t)[i].at == t
  {
    hide Accept, Next, Link;
    if reqs != [] { LinkStepsAtOnce(w, reqs[..|reqs| - 1], age, t); }
  }

  lemma StepsAtOnce(s: AppSys, step: AppStep, t: Time)
    ensures forall i :: 0 <= i < |StepsOf(s, step, t)| ==> StepsOf(s, step, t)[i].at == t
  {
    hide LinkSteps, LinkAll, Asks;
    CommittedAsked(s, step, t);
    if Committed(s, step, t).Some? { LinkStepsAtOnce(s.w, Asks(s, step).value, AgeOf(step), t); }
  }

  /** And in the same order of time. */
  lemma {:induction false} LedgerOfKeepsTime(run: seq<AppTimed>)
    requires Ticking(run)
    ensures Chronological(LedgerOf(run))
    ensures forall i :: 0 <= i < |LedgerOf(run)| ==> LedgerOf(run)[i].at <= run[|run| - 1].at
  {
    hide NextApps, RunApps, StepsOf;
    if run != [] {
      var earlier, last := run[..|run| - 1], run[|run| - 1];
      LedgerOfKeepsTime(earlier);
      StepsAtOnce(RunApps(earlier), last.step, last.at);
      assert earlier != [] ==> earlier[|earlier| - 1].at < last.at;
    }
  }

  // ----- All or nothing -----

  /** `accept_app` makes every replica's operation and the app, or changes nothing. */
  lemma AppIsAllOrNothing(s: AppSys, step: AppStep, t: Time)
    requires SysSound(s) && step.AcceptApp?
    ensures var after := NextApps(s, step, t);
            after == s
            || (step.app !in s.apps && step.app in after.apps
                && |after.apps[step.app].members| == |step.reqs|
                && (forall k :: 0 <= k < |step.reqs| ==>
                      after.apps[step.app].members[k] == Member(step.reqs[k].newOp, Target(step.reqs[k]))
                      && NewIsThere(s.w.db, after.w.db, step.reqs[k]))
                && after.apps == s.apps[step.app := after.apps[step.app]])
  {
    hide SoundWorld, LookSound, Grown, LinkAll, AppAt, FreedSound;
    if Committed(s, step, t).Some? {
      CommittedAsked(s, step, t);
      forall k | 0 <= k < |step.reqs| ensures NextKey(s, step.app, step.reqs[k].key) { }
      CommittedGrows(s, step, step.app, t);
      forall k | 0 <= k < |step.reqs| ensures NewIsThere(s.w.db, NextApps(s, step, t).w.db, step.reqs[k]) {
        There(s.w.db, NextApps(s, step, t).w.db, step.reqs, k);
      }
    }
  }

  lemma StepKeepsAppKeys(s: AppSys, step: AppStep, t: Time)
    requires OneAppPerKey(s.apps)
    ensures OneAppPerKey(NextApps(s, step, t).apps)
  {
    hide Committed, Next;
    CommittedAsked(s, step, t);
  }

  /** A caller's key names one app for ever; asking again under it changes nothing. */
  lemma {:induction false} KeysNameOneApp(run: seq<AppTimed>, a: AppId, again: AppStep, t: Time)
    requires a in RunApps(run).apps && again.AcceptApp?
    requires again.actor == RunApps(run).apps[a].actor && again.key == RunApps(run).apps[a].key
    ensures OneAppPerKey(RunApps(run).apps)
    ensures NextApps(RunApps(run), again, t) == RunApps(run)
  {
    AppKeysHold(run);
    CommittedAsked(RunApps(run), again, t);
  }

  lemma {:induction false} AppKeysHold(run: seq<AppTimed>)
    ensures OneAppPerKey(RunApps(run).apps)
  {
    hide NextApps;
    if run != [] {
      AppKeysHold(run[..|run| - 1]);
      StepKeepsAppKeys(RunApps(run[..|run| - 1]), run[|run| - 1].step, run[|run| - 1].at);
    }
  }

  // ----- Late timeouts -----

  lemma FirstRouterSucceeded(db: Db, app: App)
    requires MembersSound(db, app) && RoutersSound(db, app) && AllRefsSound(db, app)
    requires DeriveState(app, db.ops).AppReady?
    ensures app.routers != [] && StateOf(db.ops, app.routers[0]).Succeeded?
  {
    hide DeriveState;
    ReadyTells(db, app);
    if |app.routers| == 1 {
      DeployedIsListed(app.routers, db.ops);
    } else {
      assert RefsSound(db, app, 1);
      DeployedIsListed(app.routers[..1], db.ops);
    }
  }

  /** A late rollout timeout never turns a ready app, or one being torn down, into a failed one. A
      late teardown timeout has no such guard: it turns a destroyed app into a failed one. */
  lemma {:induction false} LateTimeouts(run: seq<AppTimed>, later: Time, a: AppId, t: Time)
    requires Ticking(run) && (run != [] ==> run[|run| - 1].at < later) && a in RunApps(run).apps
    ensures var s := RunApps(run); var app := s.apps[a];
            && (DeriveState(app, s.w.db.ops).AppReady? || app.teardown.Some? ==> NextApps(s, FailApp(a), t) == s)
            && (DeriveState(app, s.w.db.ops).AppDestroyed? ==>
                  var after := NextApps(s, FailTeardown(a), t);
                  a in after.apps && DeriveState(after.apps[a], after.w.db.ops).AppFailed?)
  {
    hide RunApps, NextApps, DeriveState;
    EveryAppRunIsSound(run, later);
    var s := RunApps(run);
    if DeriveState(s.apps[a], s.w.db.ops).AppReady? || s.apps[a].teardown.Some? { LateRolloutTimeout(s, a, t); }
    if DeriveState(s.apps[a], s.w.db.ops).AppDestroyed? { LateTeardownTimeout(s, a, t); }
  }

  lemma LateRolloutTimeout(s: AppSys, a: AppId, t: Time)
    requires SysSound(s) && a in s.apps
    requires DeriveState(s.apps[a], s.w.db.ops).AppReady? || s.apps[a].teardown.Some?
    ensures NextApps(s, FailApp(a), t) == s
  {
    hide SoundWorld, OpsFit, LinkAll, DeriveState;
    assert AppAt(s, a);
    if DeriveState(s.apps[a], s.w.db.ops).AppReady? { FirstRouterSucceeded(s.w.db, s.apps[a]); }
  }

  lemma LateTeardownTimeout(s: AppSys, a: AppId, t: Time)
    requires a in s.apps && DeriveState(s.apps[a], s.w.db.ops).AppDestroyed?
    ensures var after := NextApps(s, FailTeardown(a), t);
            a in after.apps && DeriveState(after.apps[a], after.w.db.ops).AppFailed?
  {
    hide LinkAll;
    NothingLinked(s.w, None, t);
    DestroyedMeansTeardown(s.apps[a], s.w.db.ops);
  }
}
