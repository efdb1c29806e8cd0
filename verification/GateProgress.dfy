/** A teardown never goes back either, and repeating an approval while its gate is being executed
    changes nothing. */
module GateProgress {
  import opened LedgerModel
  import opened LedgerRuns
  import opened AppModel
  import opened AppRuns
  import opened AppLedger
  import opened AppInvariants
  import opened AppSafety
  import opened AppSteps
  import opened AppProgress
  import opened Approvals

  // ----- One teardown attempt -----

  function TeardownProgress(state: AppState): nat {
    match state
    case PlanningRouterDestroy => 0 case AwaitingRouterDestroyApproval => 1 case DestroyingRouter => 2
    case PlanningReplicaDestroy => 3 case AwaitingReplicaDestroyApproval => 4 case DestroyingReplicas => 5
    case AppDestroyed => 6
    case _ => 0
  }

  /** A destroy the teardown lists went on, from what it was. */
  ghost predicate WentOn(a: Ops, b: Ops, id: OpId) {
    id in a && id in b && LevelOf(a, id) <= LevelOf(b, id) && (a[id].Finished() ==> b[id] == a[id])
  }

  ghost predicate DestroysWentOn(a: Ops, b: Ops, teardown: Teardown) {
    && (teardown.router.Some? ==> WentOn(a, b, teardown.router.value))
    && (teardown.replicas.Some? ==>
          forall j :: 0 <= j < |teardown.replicas.value| ==> WentOn(a, b, teardown.replicas.value[j]))
  }

  lemma DestroyWentOn(a: Db, b: Db, id: OpId)
    requires OpsAfter(a, b) && OpsSound(a) && OpsSound(b) && id in a.ops && a.ops[id].Action().Destroy?
    ensures WentOn(a.ops, b.ops, id)
  {
    assert OpGrows(a, b, id) && OpSound(a, id) && OpSound(b, id);
    LevelGrows(a.ops[id], b.ops[id]);
  }

  lemma AllWentOn(a: Db, b: Db, app: App)
    requires OpsAfter(a, b) && OpsSound(a) && OpsSound(b) && AppSound(a, app) && app.teardown.Some?
    ensures DestroysWentOn(a.ops, b.ops, app.teardown.value)
  {
    hide OpsFit, OpsAfter, OpsSound, RouterFirst, TouchedSound, RouterDown, AllRowsSound, WentOn;
    var teardown := app.teardown.value;
    assert TeardownSound(a, app);
    if teardown.router.Some? { DestroyWentOn(a, b, teardown.router.value); }
    if teardown.replicas.Some? {
      forall j | 0 <= j < |teardown.replicas.value| ensures WentOn(a.ops, b.ops, teardown.replicas.value[j]) {
        assert DestroySound(a, app, teardown.replicas.value[j]);
        DestroyWentOn(a, b, teardown.replicas.value[j]);
      }
    }
  }

  /** What a state that is neither failed nor uncertain says of the destroys. */
  lemma PlainTeardown(teardown: Teardown, ops: Ops)
    requires Plain(DeriveTeardownState(teardown, ops))
    ensures teardown.router.Some? ==>
      !StateOf(ops, teardown.router.value).Uncertain? && !StateOf(ops, teardown.router.value).Failed?
    ensures teardown.replicas.Some? ==> forall j :: 0 <= j < |teardown.replicas.value| ==>
      !StateOf(ops, teardown.replicas.value[j]).Uncertain? && !StateOf(ops, teardown.replicas.value[j]).Failed?
  {
  }

  /** Before the replicas' destroys are accepted. */
  lemma RouterDestroyGoesOn(x: Teardown, y: Teardown, a: Ops, b: Ops)
    requires x.replicas.None? && y.replicas.None? && y.router == x.router
    requires Plain(DeriveTeardownState(x, a)) && Plain(DeriveTeardownState(y, b)) && DestroysWentOn(a, b, x)
    ensures TeardownProgress(DeriveTeardownState(x, a)) <= TeardownProgress(DeriveTeardownState(y, b))
  {
  }

  /** After. */
  lemma ReplicaDestroysGoOn(x: Teardown, y: Teardown, a: Ops, b: Ops)
    requires x.replicas.Some? && y.replicas == x.replicas
    requires Plain(DeriveTeardownState(x, a)) && Plain(DeriveTeardownState(y, b)) && DestroysWentOn(a, b, x)
    ensures TeardownProgress(DeriveTeardownState(x, a)) <= TeardownProgress(DeriveTeardownState(y, b))
  {
    var ids := x.replicas.value;
    PlainTeardown(x, a);
    PlainTeardown(y, b);
    forall j | 0 <= j < |ids|
      ensures StateOf(a, ids[j]).Succeeded? ==> StateOf(b, ids[j]).Succeeded?
      ensures StateOf(a, ids[j]).Planned? ==> StateOf(b, ids[j]).Planned? || Active(StateOf(b, ids[j]))
      ensures Active(StateOf(a, ids[j])) ==> Active(StateOf(b, ids[j]))
    {
      assert WentOn(a, b, ids[j]);
    }
    ReplicaDestroyProgress(x, y, a, b);
  }

  lemma ReplicaDestroyProgress(x: Teardown, y: Teardown, a: Ops, b: Ops)
    requires x.replicas.Some? && y.replicas == x.replicas
    requires Plain(DeriveTeardownState(x, a)) && Plain(DeriveTeardownState(y, b))
    requires var ids := x.replicas.value; forall j :: 0 <= j < |ids| ==>
      && (StateOf(a, ids[j]).Succeeded? ==> StateOf(b, ids[j]).Succeeded?)
      && (StateOf(a, ids[j]).Planned? ==> StateOf(b, ids[j]).Planned? || Active(StateOf(b, ids[j])))
      && (Active(StateOf(a, ids[j])) ==> Active(StateOf(b, ids[j])))
    ensures TeardownProgress(DeriveTeardownState(x, a)) <= TeardownProgress(DeriveTeardownState(y, b))
  {
  }

  lemma LinkedIsFurther(x: Teardown, y: Teardown, a: Ops, b: Ops)
    requires x.replicas.None? && y.replicas.Some?
    requires Plain(DeriveTeardownState(x, a)) && Plain(DeriveTeardownState(y, b))
    ensures TeardownProgress(DeriveTeardownState(x, a)) <= TeardownProgress(DeriveTeardownState(y, b))
  {
  }

  lemma SameAttempt(x: App, y: App)
    requires AppGrows(x, y) && x.teardown.Some? && y.teardowns == x.teardowns
    ensures y.teardown.Some? && y.teardown.value.router == x.teardown.value.router
    ensures x.teardown.value.replicas.Some? ==> y.teardown.value.replicas == x.teardown.value.replicas
  {
  }

  /** Take any two moments of one teardown attempt, in any run. Looking past moments of uncertainty, the
      teardown is at least as far as it was, or it has failed. */
  lemma {:induction false} TeardownIsMonotone(run: seq<AppTimed>, k: nat, later: Time, a: AppId)
    requires Ticking(run) && k <= |run| && (run != [] ==> run[|run| - 1].at < later)
    requires a in RunApps(run[..k]).apps
    ensures a in RunApps(run).apps
    ensures
      var s, after := RunApps(run[..k]), RunApps(run);
      var x, y := s.apps[a], after.apps[a];
      var before, now := DeriveState(x, s.w.db.ops), DeriveState(y, after.w.db.ops);
      x.teardown.Some? && y.teardowns == x.teardowns && Plain(before) && !now.AppUncertain? ==>
        now.AppFailed? || TeardownProgress(before) <= TeardownProgress(now)
  {
    hide RunApps, DeriveTeardownState, SoundWorld, TeardownProgress, AppSound, AppGrows;
    RunIsAfter(run, k, later);
    EveryAppRunIsSound(run, later);
    PrefixTicks(run, k);
    EveryAppRunIsSound(run[..k], if k == 0 then 0 else run[k - 1].at + 1);
    var s, after := RunApps(run[..k]), RunApps(run);
    assert AppAt(s, a) && AppAt(after, a) && AppAfter(s, after, a);
    var x, y := s.apps[a], after.apps[a];
    if x.teardown.Some? && y.teardowns == x.teardowns && Plain(DeriveState(x, s.w.db.ops))
       && Plain(DeriveState(y, after.w.db.ops)) {
      OpsAreSound(s.w);
      OpsAreSound(after.w);
      SameAttempt(x, y);
      AllWentOn(s.w.db, after.w.db, x);
      AttemptGoesOn(x.teardown.value, y.teardown.value, s.w.db.ops, after.w.db.ops);
    }
  }

  lemma AttemptGoesOn(x: Teardown, y: Teardown, a: Ops, b: Ops)
    requires y.router == x.router && (x.replicas.Some? ==> y.replicas == x.replicas)
    requires Plain(DeriveTeardownState(x, a)) && Plain(DeriveTeardownState(y, b)) && DestroysWentOn(a, b, x)
    ensures TeardownProgress(DeriveTeardownState(x, a)) <= TeardownProgress(DeriveTeardownState(y, b))
  {
    hide DeriveTeardownState, DestroysWentOn, TeardownProgress;
    if x.replicas.Some? {
      ReplicaDestroysGoOn(x, y, a, b);
    } else if y.replicas.Some? {
      LinkedIsFurther(x, y, a, b);
    } else {
      RouterDestroyGoesOn(x, y, a, b);
    }
  }

  // ----- What a gate names -----

  /** There is something to approve exactly at the four gates and while one is being executed; and what is
      named is the whole group: every replica, the router the app is described by, the router's
      destroy, every replica's destroy. */
  lemma {:induction false} GateIsExact(app: App, ops: Ops)
    ensures var state := DeriveState(app, ops); var gate := Gate(app, ops);
            && (gate.Some? <==> IsGate(state) || state.ApplyingReplicas? || state.ApplyingRouter?
                                || state.DestroyingRouter? || state.DestroyingReplicas?)
            && (state.AwaitingReplicaApproval? || state.ApplyingReplicas? ==>
                  |gate.value| == |app.members|
                  && forall i :: 0 <= i < |gate.value| ==> gate.value[i] == app.members[i].op)
            && (state.AwaitingRouterApproval? || state.ApplyingRouter? ==>
                  |gate.value| == 1 && CurrentRouter(app.routers, ops) == Some(gate.value[0]))
            && (state.AwaitingRouterDestroyApproval? || state.DestroyingRouter? ==>
                  |gate.value| == 1 && app.teardown.Some? && app.teardown.value.router == Some(gate.value[0]))
            && (state.AwaitingReplicaDestroyApproval? || state.DestroyingReplicas? ==>
                  app.teardown.Some? && app.teardown.value.replicas == gate)
  {
    hide DeriveTeardownState;
    TeardownGates(app, ops);
    ExecutingGates(app, ops);
    if app.teardown.Some? { TeardownNames(app.teardown.value, ops); }
  }

  lemma TeardownNames(teardown: Teardown, ops: Ops)
    ensures var state := DeriveTeardownState(teardown, ops);
            && (state.AwaitingRouterDestroyApproval? || state.DestroyingRouter? ==> teardown.router.Some?)
            && (state.AwaitingReplicaDestroyApproval? || state.DestroyingReplicas? ==> teardown.replicas.Some?)
            && !state.AwaitingReplicaApproval? && !state.ApplyingReplicas?
            && !state.AwaitingRouterApproval? && !state.ApplyingRouter?
  {
  }

  // ----- Repeating an approval -----

  /** Nothing of it is failed or uncertain. */
  predicate Healthy(ops: Ops, id: OpId) { !StateOf(ops, id).Failed? && !StateOf(ops, id).Uncertain? }

  lemma {:induction false} LastIsCurrent(routers: seq<OpId>, a: Ops, b: Ops)
    requires routers != []
    requires forall k :: 0 <= k < |routers| - 1 ==>
      (StateOf(a, routers[k]).Succeeded? || StateOf(a, routers[k]).Failed?)
      && StateOf(b, routers[k]) == StateOf(a, routers[k])
    ensures CurrentRouter(routers, a).Some? && CurrentRouter(routers, b).Some?
    ensures StateOf(a, CurrentRouter(routers, a).value).Planned? ==>
      CurrentRouter(routers, a) == Some(routers[|routers| - 1])
    ensures var now := StateOf(b, CurrentRouter(routers, b).value);
            now.ApplyQueued? || now.Applying? ==> CurrentRouter(routers, b) == Some(routers[|routers| - 1])
  {
    CurrentTells(routers, a);
    CurrentTells(routers, b);
    if |routers| > 1 {
      var earlier := routers[..|routers| - 1];
      EarlierIsDone(earlier, a);
      EarlierIsDone(earlier, b);
    }
  }

  lemma {:induction false} EarlierIsDone(routers: seq<OpId>, ops: Ops)
    requires routers != []
    requires forall k :: 0 <= k < |routers| ==>
      StateOf(ops, routers[k]).Succeeded? || StateOf(ops, routers[k]).Failed?
    ensures var current := CurrentRouter(routers, ops);
            current.Some? && (StateOf(ops, current.value).Succeeded? || StateOf(ops, current.value).Failed?)
  {
    if |routers| > 1 { EarlierIsDone(routers[..|routers| - 1], ops); }
  }

  /** The app is executing the gate it was at: it goes on with the same gate, and nothing of it has
      failed or is uncertain. */
  lemma GateStays(x: App, y: App, a: Db, b: Db)
    requires RoutersSound(a, x) && OpsAfter(a, b) && AppGrows(x, y)
    requires y.routers == x.routers && y.teardowns == x.teardowns
    requires IsGate(DeriveState(x, a.ops)) && DeriveState(y, b.ops) == Approved(DeriveState(x, a.ops))
    ensures Gate(y, b.ops) == Gate(x, a.ops) && Gate(x, a.ops).Some?
    ensures forall id :: id in Gate(x, a.ops).value ==> Healthy(b.ops, id)
  {
    hide OpsAfter, AppSound, DeriveTeardownState;
    var state := DeriveState(x, a.ops);
    TeardownGates(x, a.ops);
    ExecutingGates(y, b.ops);
    if state.AwaitingReplicaApproval? {
      assert y.members == x.members;
      forall id | id in Gate(x, a.ops).value ensures Healthy(b.ops, id) {
        var i :| 0 <= i < |x.members| && x.members[i].op == id;
        ReplicaLevels(y, b.ops, i);
      }
    } else if state.AwaitingRouterApproval? {
      RouterGateStays(x, y, a, b);
    } else {
      SameAttempt(x, y);
      PlainTeardown(y.teardown.value, b.ops);
      if state.AwaitingReplicaDestroyApproval? { GateNotEmpty(x.teardown.value, a.ops); }
      RouterIsDestroyed(x.teardown.value, a.ops);
    }
  }

  lemma RouterIsDestroyed(teardown: Teardown, ops: Ops)
    requires DeriveTeardownState(teardown, ops).AwaitingRouterDestroyApproval?
             || DeriveTeardownState(teardown, ops).AwaitingReplicaDestroyApproval?
    ensures if DeriveTeardownState(teardown, ops).AwaitingRouterDestroyApproval? then teardown.router.Some?
            else teardown.replicas.Some?
  {
  }

  lemma ExecutingGates(app: App, ops: Ops)
    ensures var state := DeriveState(app, ops);
            && (state.DestroyingRouter? || state.DestroyingReplicas? ==> app.teardown.Some?)
            && (state.ApplyingReplicas? || state.ApplyingRouter? ==> app.teardown.None?)
  {
  }

  lemma RouterGateStays(x: App, y: App, a: Db, b: Db)
    requires RoutersSound(a, x) && OpsAfter(a, b) && y.routers == x.routers
    requires DeriveState(x, a.ops).AwaitingRouterApproval? && DeriveState(y, b.ops).ApplyingRouter?
    ensures CurrentRouter(x.routers, a.ops).Some? && CurrentRouter(y.routers, b.ops) == CurrentRouter(x.routers, a.ops)
    ensures Healthy(b.ops, CurrentRouter(x.routers, a.ops).value)
  {
    hide OpsAfter;
    RouterStates(x, a.ops);
    RouterStates(y, b.ops);
    forall k | 0 <= k < |x.routers| - 1
      ensures StateOf(a.ops, x.routers[k]).Succeeded? || StateOf(a.ops, x.routers[k]).Failed?
      ensures StateOf(b.ops, x.routers[k]) == StateOf(a.ops, x.routers[k])
    {
      assert RouterSound(a, x, k);
      FinishedSame(a, b, x.routers[k]);
    }
    LastIsCurrent(x.routers, a.ops, b.ops);
  }

  lemma FinishedSame(a: Db, b: Db, id: OpId)
    requires OpsAfter(a, b) && id in a.ops && a.ops[id].Finished()
    ensures id in b.ops && b.ops[id] == a.ops[id]
  {
    assert OpGrows(a, b, id);
  }

  lemma {:induction false} RouterStates(app: App, ops: Ops)
    requires DeriveState(app, ops).AwaitingRouterApproval? || DeriveState(app, ops).ApplyingRouter?
    ensures app.routers != [] && CurrentRouter(app.routers, ops).Some?
    ensures var state := StateOf(ops, CurrentRouter(app.routers, ops).value);
            if DeriveState(app, ops).AwaitingRouterApproval? then state.Planned?
            else state.ApplyQueued? || state.Applying?
  {
    TeardownGates(app, ops);
    ExecutingGates(app, ops);
  }

  /** A queued apply that is healthy is still executing under its digest. */
  lemma StillExecuting(a: Db, b: Db, id: OpId)
    requires OpsAfter(a, b) && id in a.ops && Active(a.ops[id].state) && Healthy(b.ops, id)
    ensures id in b.ops && Active(b.ops[id].state) && b.ops[id].planDigest == a.ops[id].planDigest
  {
    assert OpGrows(a, b, id);
  }

  lemma {:induction false} NothingToDo(db: Db, items: seq<Item>, actor: Actor, age: Option<nat>, t: Time)
    requires forall i :: 0 <= i < |items| ==>
      items[i].op in db.ops && Active(db.ops[items[i].op].state)
      && db.ops[items[i].op].planDigest == Some(items[i].digest)
    ensures ExecuteAll(db, items, actor, age, t) == Batch(db, None)
  {
    if items != [] { NothingToDo(db, items[..|items| - 1], actor, age, t); }
  }

  /** Approve the gate an app is at, and let anything happen. While the app is executing that gate, the
      gate names the same operations, and the same approval again, by anyone and at any time, is
      refused nowhere and changes nothing. */
  lemma ApprovalRepeats(x: App, y: App, db: Db, items: seq<Item>, actor: Actor, age: Option<nat>, t: Time,
                        now: Db, again: Actor, age2: Option<nat>, t2: Time)
    requires OpsSound(db) && ItemsApart(items) && x.members != [] && RoutersSound(db, x)
    requires IsGate(DeriveState(x, db.ops)) && Gate(x, db.ops).Some? && NamesGate(items, Gate(x, db.ops).value)
    requires ExecuteTogether(db, items, actor, age, t).stop.None?
    requires OpsAfter(ExecuteTogether(db, items, actor, age, t).db, now) && AppGrows(x, y)
    requires y.routers == x.routers && y.teardowns == x.teardowns
    requires DeriveState(y, now.ops) == Approved(DeriveState(x, db.ops))
    ensures Gate(y, now.ops) == Gate(x, db.ops)
    ensures ExecuteTogether(now, items, again, age2, t2) == Batch(now, None)
  {
    hide ExecuteAll, DeriveState, Gate, OpsSound, AppGrows, OpsAfter, RoutersSound;
    var after := ExecuteTogether(db, items, actor, age, t).db;
    BatchIsAllOrNothing(db, items, actor, age, t);
    QueuedIsAfter(db, after, items, t);
    OpsAfterTwice(db, after, now);
    GateStays(x, y, db, now);
    forall i | 0 <= i < |items|
      ensures items[i].op in now.ops && Active(now.ops[items[i].op].state)
      ensures now.ops[items[i].op].planDigest == Some(items[i].digest)
    {
      assert Approvals.Named(items, items[i].op) && Executing(after, items[i].op);
      StillExecuting(after, now, items[i].op);
    }
    NothingToDo(now, items, again, age2, t2);
  }

  lemma QueuedIsAfter(db: Db, after: Db, items: seq<Item>, t: Time)
    requires OnlyQueued(db, after, items, t)
    ensures OpsAfter(db, after)
  {
    forall id | id in db.ops ensures OpGrows(db, after, id) { }
  }
}
