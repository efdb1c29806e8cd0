/** Each step that writes an app, checked against what it had read. */
module AppSteps {
  import opened LedgerModel
  import opened LedgerRuns
  import opened LedgerSafety
  import opened AppModel
  import opened AppRuns
  import opened AppLedger
  import opened AppInvariants
  import opened AppSafety

  // ----- Keys are new -----

  ghost predicate NextKey(s: AppSys, a: AppId, key: Key) {
    AppOf(key) == Some(a)
    && (a in s.apps ==>
          match key
          case RouterKey(_, n) => n >= |s.apps[a].routers|
          case TeardownRouterKey(_, n) => n > s.apps[a].teardowns
          case TeardownReplicaKey(_, n, _) =>
            n == s.apps[a].teardowns && s.apps[a].teardown.Some? && s.apps[a].teardown.value.replicas.None?
          case _ => false)
  }

  lemma NextKeyIsUnused(s: AppSys, a: AppId, key: Key)
    requires SysSound(s) && NextKey(s, a, key)
    ensures KeyUnused(s.w.db, key)
  {
    hide SoundWorld, LookSound, RecordSound, RouterFirst;
    forall id | id in s.w.db.ops ensures s.w.db.ops[id].terms.key != key {
      assert KeyKnown(s, id) && AppAt(s, a);
      if a in s.apps { assert OpFitsAt(s.w.db, s.apps[a], id); }
    }
  }

  // ----- The two failures -----

  lemma FailAppKeeps(s: AppSys, a: AppId, t: Time)
    requires SysSound(s) && Earlier(s, t) && CanFailApp(s, a)
    ensures SysSound(NextApps(s, FailApp(a), t))
  {
    hide SoundWorld, LookSound, Grown, LinkAll, AppSound;
    NothingLinked(s.w, None, t);
    var app := s.apps[a].(error := true, updatedAt := t);
    var after := NextApps(s, FailApp(a), t);
    SameGrows(s.w.db);
    assert AppAt(s, a);
    SameRecord(s.w.db, s.apps[a], app);
    RewriteKeeps(s, after, a, app, [], t);
  }

  lemma FailTeardownKeeps(s: AppSys, a: AppId, t: Time)
    requires SysSound(s) && Earlier(s, t) && CanFailTeardown(s, a)
    ensures SysSound(NextApps(s, FailTeardown(a), t))
  {
    hide SoundWorld, LookSound, Grown, LinkAll, AppSound;
    NothingLinked(s.w, None, t);
    var app := WithTeardownError(s.apps[a], t);
    var after := NextApps(s, FailTeardown(a), t);
    SameGrows(s.w.db);
    assert AppAt(s, a);
    SameRecord(s.w.db, s.apps[a], app);
    RewriteKeeps(s, after, a, app, [], t);
  }

  /** Recording an error takes nothing away. */
  lemma SameRecord(db: Db, x: App, y: App)
    requires AppSound(db, x)
    requires y == x.(error := y.error, updatedAt := y.updatedAt, teardown := y.teardown)
    requires x.error ==> y.error
    requires x.teardown.Some? <==> y.teardown.Some?
    requires x.teardown.Some? ==> y.teardown.value == x.teardown.value.(error := y.teardown.value.error)
    ensures AppSound(db, y)
  {
    hide Touched;
    forall id ensures OpFitsAt(db, y, id) { assert OpFitsAt(db, x, id); }
    SameMembers(db, x, y);
    forall k | 0 <= k < |y.routers| ensures RefsSound(db, y, k) { assert RefsSound(db, x, k); }
    forall i | 0 <= i < |y.members| ensures ReplicaRow(db, y, i) { assert ReplicaRow(db, x, i); }
    assert RouterRow(db, y);
    SameTeardown(db, x, y);
    assert RouterFirst(db, y) by {
      if id :| ReplicaDestroy(db, y, id) { assert ReplicaDestroy(db, x, id); }
    }
  }

  lemma SameMembers(db: Db, x: App, y: App)
    requires MembersSound(db, x) && RoutersSound(db, x)
    requires y == x.(error := y.error, updatedAt := y.updatedAt, teardown := y.teardown)
    ensures MembersSound(db, y) && RoutersSound(db, y)
  {
    forall i | 0 <= i < |y.members| ensures MemberSound(db, y, i) { assert MemberSound(db, x, i); }
    forall k | 0 <= k < |y.routers| ensures RouterSound(db, y, k) { assert RouterSound(db, x, k); }
  }

  lemma SameTeardown(db: Db, x: App, y: App)
    requires TeardownSound(db, x)
    requires y == x.(error := y.error, updatedAt := y.updatedAt, teardown := y.teardown)
    requires x.error ==> y.error
    requires x.teardown.Some? <==> y.teardown.Some?
    requires x.teardown.Some? ==> y.teardown.value == x.teardown.value.(error := y.teardown.value.error)
    ensures TeardownSound(db, y)
  {
    if y.teardown.Some? && y.teardown.value.replicas.Some? {
      forall i | 0 <= i < |y.members| ensures ReplicaDown(db, y, i) { assert ReplicaDown(db, x, i); }
      forall j | 0 <= j < |y.teardown.value.replicas.value|
        ensures DestroySound(db, y, y.teardown.value.replicas.value[j])
      {
        assert DestroySound(db, x, x.teardown.value.replicas.value[j]);
      }
    }
  }

  // ----- A new app -----

  lemma NewMembersApart(db: Db, after: Db, a: AppId, actor: Actor, reqs: seq<Request>, i: nat, j: nat)
    requires OpsSound(after) && AllApart(after) && Grown(db, after, reqs) && i < j < |reqs|
    requires forall k :: 0 <= k < |reqs| ==> NewMember(reqs[k], ReplicaKey(a, k), actor)
    ensures reqs[i].newOp != reqs[j].newOp && Target(reqs[i]) != Target(reqs[j])
  {
    assert NewIsThere(db, after, reqs[i]) && NewIsThere(db, after, reqs[j]);
    assert reqs[i].newOp != reqs[j].newOp;
    assert Apart(after.ops[reqs[i].newOp], after.ops[reqs[j].newOp]);
  }

  lemma NewAppFits(s: AppSys, w: World, app: App, actor: Actor, wiring: seq<Wire>, reqs: seq<Request>)
    requires SysSound(s) && SoundWorld(w) && Grown(s.w.db, w.db, reqs)
    requires app.id !in s.apps && |app.members| == |reqs| && app.routerResource.None?
    requires forall k :: 0 <= k < |reqs| ==>
      NewMember(reqs[k], ReplicaKey(app.id, k), actor)
      && app.members[k] == Member(reqs[k].newOp, Target(reqs[k]))
    ensures OpsFit(w.db, app)
  {
    hide LookSound, Touched;
    forall id ensures OpFitsAt(w.db, app, id) {
      if id in s.w.db.ops {
        assert OpGrows(s.w.db, w.db, id) && KeyKnown(s, id) && OpSound(s.w.db, id);
        forall k | 0 <= k < |reqs| ensures Target(reqs[k]) != s.w.db.ops[id].resource {
          assert NewIsThere(s.w.db, w.db, reqs[k]);
        }
      } else if id in w.db.ops {
        assert NewOpGrows(s.w.db, w.db, reqs, id);
      }
    }
  }

  lemma NewAppSound(s: AppSys, w: World, app: App, actor: Actor, reqs: seq<Request>)
    requires SysSound(s) && SoundWorld(w) && Grown(s.w.db, w.db, reqs)
    requires app.id !in s.apps && |app.members| == |reqs| >= 2 && WiringValid(app.wiring, |reqs|)
    requires app.routers == [] && app.routerResource.None? && app.failovers == [] && app.teardown.None?
    requires forall k :: 0 <= k < |reqs| ==>
      NewMember(reqs[k], ReplicaKey(app.id, k), actor)
      && app.members[k] == Member(reqs[k].newOp, Target(reqs[k]))
    ensures AppSound(w.db, app)
  {
    hide LookSound, Touched;
    NewAppFits(s, w, app, actor, app.wiring, reqs);
    forall i | 0 <= i < |app.members| ensures MemberSound(w.db, app, i) && ReplicaRow(w.db, app, i) {
      assert NewIsThere(s.w.db, w.db, reqs[i]);
      assert NewRowGrows(s.w.db, w.db, reqs, Target(reqs[i]));
    }
    forall i, j | 0 <= i < j < |reqs| ensures Target(reqs[i]) != Target(reqs[j]) {
      NewMembersApart(s.w.db, w.db, app.id, actor, reqs, i, j);
    }
    assert RouterFirst(w.db, app);
    forall r | Owns(app, r) ensures !Touched(w.db, r) { NewMemberUntouched(s, w, app, actor, reqs, r); }
  }

  lemma NewMemberUntouched(s: AppSys, w: World, app: App, actor: Actor, reqs: seq<Request>, r: ResId)
    requires SysSound(s) && Grown(s.w.db, w.db, reqs) && |app.members| == |reqs| && app.routerResource.None?
    requires forall k :: 0 <= k < |reqs| ==>
      NewMember(reqs[k], ReplicaKey(app.id, k), actor)
      && app.members[k] == Member(reqs[k].newOp, Target(reqs[k]))
    requires Owns(app, r)
    ensures !Touched(w.db, r)
  {
    hide LookSound, Touched, SoundWorld;
    var i :| 0 <= i < |app.members| && app.members[i].resource == r;
    There(s.w.db, w.db, reqs, i);
    if Touched(w.db, r) {
      TouchedBefore(s.w.db, w.db, reqs, r);
      TouchedRows(s.w.db, r) by { OpsAreSound(s.w); }
    }
  }

  lemma AcceptAppKeeps(s: AppSys, step: AppStep, t: Time)
    requires SysSound(s) && Earlier(s, t) && step.AcceptApp?
    ensures SysSound(NextApps(s, step, t))
  {
    hide SoundWorld, LookSound, Grown, LinkAll, AppSound;
    var after := NextApps(s, step, t);
    if Asks(s, step).Some? && Committed(s, step, t).Some? {
      var reqs := step.reqs;
      forall k | 0 <= k < |reqs| ensures KeyUnused(s.w.db, reqs[k].key) {
        NextKeyIsUnused(s, step.app, reqs[k].key);
      }
      LinkAllGrows(s.w, reqs, step.age, t);
      var app := after.apps[step.app];
      NewAppSound(s, after.w, app, step.actor, reqs);
      forall r | Owns(app, r) && r in s.w.db.rows ensures false {
        var i :| 0 <= i < |reqs| && Target(reqs[i]) == r;
        There(s.w.db, after.w.db, reqs, i);
      }
      RewriteKeeps(s, after, step.app, app, reqs, t);
    }
  }

  // ----- The router -----

  lemma DoneStays(a: Db, b: Db, app: App, later: App)
    requires forall id {:trigger OpGrows(a, b, id)} :: id in a.ops ==> OpGrows(a, b, id)
    requires MembersSound(a, app) && ReplicasDone(a, app) && later.members == app.members
    ensures ReplicasDone(b, later)
  {
    forall i | 0 <= i < |app.members| ensures StateOf(b.ops, later.members[i].op).Succeeded? {
      assert MemberSound(a, app, i) && OpGrows(a, b, app.members[i].op);
    }
  }

  lemma PlanningRouterMeansDone(app: App, ops: Ops)
    requires app.teardown.None? && app.routers == [] && DeriveState(app, ops).PlanningRouter?
    ensures forall i :: 0 <= i < |app.members| ==> StateOf(ops, app.members[i].op).Succeeded?
  {
    forall i | 0 <= i < |app.members| ensures StateOf(ops, app.members[i].op).Succeeded? {
      assert MemberState(app, ops, i).Succeeded?;
    }
  }

  /** When the router is accepted every replica has succeeded and no teardown has begun, although
      the check that said so is in the past. */
  lemma RouterIsDue(s: AppSys, a: AppId, seen: nat, req: Request)
    requires SysSound(s) && CanAcceptRouter(s, a, seen, req)
    ensures ReplicasDone(s.w.db, s.apps[a]) && s.apps[a].teardown.None?
  {
    hide SoundWorld, OpsFit, RouterFirst, DeriveState;
    var look := s.looks[seen];
    assert LookSound(s, look) && LookApp(s, look, a) && AppAt(s, a);
    PlanningRouterMeansDone(look.apps[a], look.db.ops);
    DoneStays(look.db, s.w.db, look.apps[a], s.apps[a]);
    assert TeardownSound(s.w.db, s.apps[a]);
  }

  lemma NewRouterFits(a: Db, b: Db, x: App, req: Request, t: Time)
    requires OpsSound(a) && OpsFit(a, x) && x.routers == [] && x.routerResource.None? && x.teardown.None?
    requires NewMember(req, RouterKey(x.id, 0), x.actor) && Grown(a, b, [req])
    ensures OpsFit(b, WithRouter(x, req.newOp, Target(req), t))
  {
    hide Touched;
    var y := WithRouter(x, req.newOp, Target(req), t);
    assert NewIsThere(a, b, [req][0]);
    forall id ensures OpFitsAt(b, y, id) {
      assert OpFitsAt(a, x, id);
      if id in a.ops {
        assert OpGrows(a, b, id) && OpSound(a, id);
      } else {
        assert NewOpGrows(a, b, [req], id);
      }
    }
  }

  lemma NewRouterSound(a: Db, b: Db, x: App, req: Request, t: Time)
    requires OpsSound(a) && OpsSound(b) && AppSound(a, x) && x.routers == [] && x.teardown.None?
    requires ReplicasDone(a, x) && NewMember(req, RouterKey(x.id, 0), x.actor) && Grown(a, b, [req])
    requires req.resolved.refs == RouterRefs(x.wiring, x.members)
    ensures AppSound(b, WithRouter(x, req.newOp, Target(req), t))
  {
    hide Touched, Grown, OpsFit;
    var y := WithRouter(x, req.newOp, Target(req), t);
    NewRouterFits(a, b, x, req, t);
    RecordStays(a, b, [req], x);
    DoneStays(a, b, x, y) by { Opened(a, b, [req]); }
    There(a, b, [req], 0);
    NewRowPending(a, b, [req], Target(req));
    forall i | 0 <= i < |y.members|
      ensures MemberSound(b, y, i) && ReplicaRow(b, y, i) && y.members[i].resource != Target(req)
    {
      assert MemberSound(a, x, i) && MemberSound(b, x, i) && ReplicaRow(b, x, i);
    }
    assert RouterSound(b, y, 0);
    assert RefsSound(b, y, 0);
    DeployedIsListed(y.routers, b.ops);
    assert RoutersSound(b, y) && RouterRow(b, y) && RouterFirst(b, y);
    forall r | Owns(y, r) ensures !Touched(b, r) { NewUntouched(a, b, [req], x, r); }
  }

  /** Nothing an app without a teardown owns is touched, nor anything new. */
  lemma NewUntouched(a: Db, b: Db, reqs: seq<Request>, x: App, r: ResId)
    requires OpsSound(a) && AppSound(a, x) && Grown(a, b, reqs) && x.teardown.None?
    requires forall k :: 0 <= k < |reqs| ==> !reqs[k].key.CallerKey?
    requires Owns(x, r) || r !in a.rows
    ensures !Touched(b, r)
  {
    hide Touched, OpsFit, RouterFirst, RecordSound;
    if Touched(b, r) {
      TouchedBefore(a, b, reqs, r);
      TouchedRows(a, r);
    }
  }

  lemma Opened(a: Db, b: Db, reqs: seq<Request>)
    requires Grown(a, b, reqs)
    ensures forall id {:trigger OpGrows(a, b, id)} :: id in a.ops ==> OpGrows(a, b, id)
  {
  }

  lemma NewRowPending(a: Db, b: Db, reqs: seq<Request>, r: ResId)
    requires Grown(a, b, reqs) && r in b.rows && r !in a.rows
    ensures !ReadyRow(b, r)
  {
    assert NewRowGrows(a, b, reqs, r);
  }

  /** What a committed step made of its requests. */
  lemma CommittedGrows(s: AppSys, step: AppStep, a: AppId, t: Time)
    requires SysSound(s) && Asks(s, step).Some? && Committed(s, step, t).Some?
    requires forall k :: 0 <= k < |Asks(s, step).value| ==> NextKey(s, a, Asks(s, step).value[k].key)
    requires KeysApart(Asks(s, step).value)
    ensures var reqs, all := Asks(s, step).value, Committed(s, step, t).value;
            && SoundWorld(all.w) && Grown(s.w.db, all.w.db, reqs)
            && |all.ids| == |reqs| && forall k :: 0 <= k < |reqs| ==> all.ids[k] == reqs[k].newOp
  {
    hide SoundWorld, LookSound, Grown, LinkAll, KeyUnused, NextKey, Asks;
    var reqs := Asks(s, step).value;
    forall k | 0 <= k < |reqs| ensures KeyUnused(s.w.db, reqs[k].key) { NextKeyIsUnused(s, a, reqs[k].key); }
    LinkAllGrows(s.w, reqs, AgeOf(step), t);
  }

  lemma CommittedAsked(s: AppSys, step: AppStep, t: Time)
    ensures Committed(s, step, t).Some? ==> Asks(s, step).Some?
  {
  }

  lemma AcceptRouterKeeps(s: AppSys, step: AppStep, t: Time)
    requires SysSound(s) && Earlier(s, t) && step.AcceptRouter?
    ensures SysSound(NextApps(s, step, t))
  {
    hide SoundWorld, LookSound, Grown, Committed, AppSound, FreedSound, KeyKnown, DeriveState, RouterRefs, WiringValid;
    var after := NextApps(s, step, t);
    if Committed(s, step, t).Some? {
      CommittedAsked(s, step, t);
      var a, req := step.app, step.req;
      assert AppAt(s, a);
      CommittedGrows(s, step, a, t);
      RouterIsDue(s, a, step.seen, req);
      assert OpsSound(s.w.db) && OpsSound(after.w.db) by { OpsAreSound(s.w); OpsAreSound(after.w); }
      NoRouterYet(s.w.db, s.apps[a]);
      NewRouterSound(s.w.db, after.w.db, s.apps[a], req, t);
      There(s.w.db, after.w.db, [req], 0);
      RewriteKeeps(s, after, a, after.apps[a], [req], t);
    }
  }

  lemma NoRouterYet(db: Db, x: App)
    requires AppSound(db, x) && x.routers == []
    ensures x.routerResource.None?
  {
  }

  /** The app's own requests touch nothing. */
  lemma OwnTouchesNothing(a: Db, b: Db, reqs: seq<Request>, x: App, y: App)
    requires AppSound(a, x) && Grown(a, b, reqs)
    requires forall k :: 0 <= k < |reqs| ==> !reqs[k].key.CallerKey?
    requires y.members == x.members && y.routerResource == x.routerResource
    requires x.teardown.Some? ==> y.teardown.Some? && y.routers == x.routers
    ensures TouchedSound(b, y)
  {
    hide Touched, OpsFit, RouterFirst;
    forall r | Owns(y, r) && Touched(b, r) ensures y.teardown.Some? && !OwnDeployed(b, y, r) {
      TouchedBefore(a, b, reqs, r);
      DeployedNoMore(a, b, reqs, x, r);
    }
  }

  // ----- Failover -----

  /** A ready app has nothing of its router under way. */
  lemma {:induction false} CurrentTells(routers: seq<OpId>, ops: Ops)
    requires routers != []
    ensures var current := CurrentRouter(routers, ops);
            && current.Some? && current.value in routers
            && (StateOf(ops, current.value).Succeeded? ==>
                  StateOf(ops, routers[|routers| - 1]).Succeeded? || StateOf(ops, routers[|routers| - 1]).Failed?)
            && (StateOf(ops, current.value).Succeeded? ==> Deployed(routers, ops).Some?)
  {
    if |routers| > 1 { CurrentTells(routers[..|routers| - 1], ops); }
  }

  lemma ReadyTells(db: Db, app: App)
    requires MembersSound(db, app) && RoutersSound(db, app) && DeriveState(app, db.ops).AppReady?
    ensures app.teardown.None? && app.routers != [] && ReplicasDone(db, app) && Deployed(app.routers, db.ops).Some?
    ensures forall k :: 0 <= k < |app.routers| ==> app.routers[k] in db.ops && db.ops[app.routers[k]].Finished()
  {
    DestroyedMeansTeardown(app, db.ops);
    if app.routers != [] { CurrentTells(app.routers, db.ops); }
    forall k | 0 <= k < |app.routers| ensures app.routers[k] in db.ops && db.ops[app.routers[k]].Finished() {
      assert RouterSound(db, app, k);
    }
  }

  /** What a failover knows when it is accepted: the app is the one that was ready, no teardown has
      begun, every router operation is finished, and the references it starts from are those of the
      operation deployed. */
  ghost predicate FailoverKnows(db: Db, app: App, target: nat, req: Request) {
    && app.teardown.None? && app.routers != [] && app.routerResource.Some?
    && (forall k :: 0 <= k < |app.routers| ==> app.routers[k] in db.ops && db.ops[app.routers[k]].Finished())
    && req.intent.action.Deploy? && req.intent.resource == app.routerResource
    && target < |app.members|
    && (var d := Deployed(app.routers, db.ops);
        && d.Some? && d.value in db.ops
        && PrimaryUnder(app, d.value) < |app.members| && PrimaryUnder(app, d.value) != target
        && req.resolved.refs == FailoverRefs(db.ops[d.value].terms.refs, app.wiring, app.members,
                                             PrimaryUnder(app, d.value), target))
  }

  lemma UntouchedThen(s: AppSys, look: Look, a: AppId, r: ResId)
    requires SysSound(s) && look in s.looks && a in s.apps && Owns(s.apps[a], r) && s.apps[a].teardown.None?
    ensures !Touched(look.db, r) && !Touched(s.w.db, r)
  {
    hide SoundWorld, AppAt;
    assert LookSound(s, look) && FreedSound(s, a);
    if Touched(look.db, r) { TouchedSince(s, look, r); }
  }

  lemma FailoverIsInformed(s: AppSys, a: AppId, seen: nat, caller: Actor, key: nat, target: nat, req: Request)
    requires SysSound(s) && CanFailover(s, a, seen, caller, key, target, req)
    ensures FailoverKnows(s.w.db, s.apps[a], target, req)
  {
    hide SoundWorld, AppAt, FreedSound, Touched, DeriveState, FailoverRefs, Deployed, OpsFit, RouterFirst;
    var look := s.looks[seen];
    assert LookSound(s, look) && LookApp(s, look, a);
    var app := s.apps[a];
    assert look.apps[a] == app;
    ReadyTells(look.db, app);
    FinishedSince(look.db, s.w.db, app.routers);
    UntouchedThen(s, look, a, app.routerResource.value);
    DeployedIsListed(app.routers, look.db.ops);
    assert RouterRow(look.db, app);
  }

  lemma FailoverFits(a: Db, b: Db, x: App, y: App, req: Request)
    requires OpsFit(a, x) && Grown(a, b, [req]) && x.routerResource.Some?
    requires req.intent.action.Deploy? && req.intent.resource == x.routerResource
    requires req.key == RouterKey(x.id, |x.routers|)
    requires y.id == x.id && y.members == x.members && y.routerResource == x.routerResource
    requires y.routers == x.routers + [req.newOp] && y.teardown == x.teardown && y.teardowns == x.teardowns
    ensures OpsFit(b, y)
  {
    hide Touched;
    assert NewIsThere(a, b, [req][0]);
    forall id ensures OpFitsAt(b, y, id) {
      assert OpFitsAt(a, x, id);
      if id in a.ops { assert OpGrows(a, b, id); } else { assert NewOpGrows(a, b, [req], id); }
    }
  }

  lemma {:induction false} TargetElsewhere(failovers: seq<Failover>, f: Failover, id: OpId)
    requires f.op != id
    ensures TargetOf(failovers + [f], id) == TargetOf(failovers, id)
  {
    assert (failovers + [f])[..|failovers|] == failovers;
  }

  lemma FailoverRouters(a: Db, b: Db, x: App, target: nat, req: Request, y: App)
    requires RoutersSound(b, x) && MembersSound(b, x) && Grown(a, b, [req]) && FailoverKnows(a, x, target, req)
    requires req.key == RouterKey(x.id, |x.routers|)
    requires exists caller, key, t :: y == WithFailover(x, req.newOp, target, caller, key, t)
    ensures RoutersSound(b, y) && MembersSound(b, y)
  {
    assert NewIsThere(a, b, [req][0]);
    forall k | 0 <= k < |y.routers| ensures RouterSound(b, y, k) {
      if k < |x.routers| {
        assert RouterSound(b, x, k);
        FinishedStays(a, b, [req], x.routers[k]);
      }
    }
    forall i | 0 <= i < |y.members| ensures MemberSound(b, y, i) { assert MemberSound(b, x, i); }
  }

  lemma FailoverRefsSound(a: Db, b: Db, x: App, target: nat, req: Request, y: App)
    requires RoutersSound(b, x) && MembersSound(b, x) && AllRefsSound(b, x)
    requires Grown(a, b, [req]) && FailoverKnows(a, x, target, req)
    requires exists caller, key, t :: y == WithFailover(x, req.newOp, target, caller, key, t)
    ensures AllRefsSound(b, y)
  {
    hide Grown;
    There(a, b, [req], 0);
    Opened(a, b, [req]);
    var n := |x.routers|;
    forall k | 0 <= k < |y.routers| ensures RefsSound(b, y, k) {
      if k > 0 {
        assert y.routers[..k] == x.routers[..k];
        DeployedIsListed(x.routers[..k], b.ops);
        forall d | d in x.routers ensures PrimaryUnder(y, d) == PrimaryUnder(x, d) {
          TargetElsewhere(x.failovers, y.failovers[n - 1], d);
        }
      }
      if k < n {
        assert RefsSound(b, x, k);
      } else {
        FinishedSince(a, b, x.routers);
        assert x.routers[..n] == x.routers;
        DeployedIsListed(x.routers, a.ops);
      }
    }
  }

  lemma FailoverRows(a: Db, b: Db, x: App, target: nat, req: Request, y: App)
    requires AllRowsSound(b, x) && Grown(a, b, [req])
    requires exists caller, key, t :: y == WithFailover(x, req.newOp, target, caller, key, t)
    ensures AllRowsSound(b, y)
  {
    hide Touched;
    There(a, b, [req], 0);
    assert y.routers[..|x.routers|] == x.routers;
    assert Deployed(y.routers, b.ops) == Deployed(x.routers, b.ops);
    forall i | 0 <= i < |y.members| ensures ReplicaRow(b, y, i) { assert ReplicaRow(b, x, i); }
  }

  lemma FailoverSound(a: Db, b: Db, x: App, target: nat, req: Request, y: App)
    requires OpsSound(a) && AppSound(a, x) && Grown(a, b, [req]) && FailoverKnows(a, x, target, req)
    requires req.key == RouterKey(x.id, |x.routers|)
    requires exists caller, key, t :: y == WithFailover(x, req.newOp, target, caller, key, t)
    ensures AppSound(b, y)
  {
    hide Touched, Grown, OpsFit, MembersSound, RoutersSound, AllRefsSound, AllRowsSound, FailoverKnows;
    RecordStays(a, b, [req], x);
    FailoverFits(a, b, x, y, req) by { KnowsResource(a, x, target, req); }
    FailoverRouters(a, b, x, target, req, y);
    FailoverRefsSound(a, b, x, target, req, y);
    FailoverRows(a, b, x, target, req, y);
    KnowsResource(a, x, target, req);
    OwnTouchesNothing(a, b, [req], x, y);
    NoTeardownNoDestroys(b, y);
  }

  lemma KnowsResource(db: Db, x: App, target: nat, req: Request)
    requires FailoverKnows(db, x, target, req)
    ensures x.routerResource.Some? && x.teardown.None? && x.routers != []
    ensures req.intent.action.Deploy? && req.intent.resource == x.routerResource
  {
  }

  lemma NoTeardownNoDestroys(db: Db, y: App)
    requires OpsFit(db, y) && y.teardown.None?
    ensures RouterFirst(db, y)
  {
    forall id ensures !ReplicaDestroy(db, y, id) { assert OpFitsAt(db, y, id); }
  }

  lemma AcceptFailoverKeeps(s: AppSys, step: AppStep, t: Time)
    requires SysSound(s) && Earlier(s, t) && step.AcceptFailover?
    ensures SysSound(NextApps(s, step, t))
  {
    hide SoundWorld, LookSound, Grown, Committed, AppSound, FailoverChecked, FailoverKnows;
    var after := NextApps(s, step, t);
    if Committed(s, step, t).Some? {
      CommittedAsked(s, step, t);
      var a, req := step.app, step.req;
      assert AppAt(s, a);
      CommittedGrows(s, step, a, t);
      FailoverIsInformed(s, a, step.seen, step.caller, step.key, step.target, req);
      KnowsResource(s.w.db, s.apps[a], step.target, req);
      assert OpsSound(s.w.db) by { OpsAreSound(s.w); }
      FailoverSound(s.w.db, after.w.db, s.apps[a], step.target, req, after.apps[a]);
      RewriteKeeps(s, after, a, after.apps[a], [req], t);
    }
  }

  // ----- Teardown -----

  function AsSeq(req: Option<Request>): seq<Request> { if req.Some? then [req.value] else [] }

  ghost predicate Began(x: App, router: Option<OpId>, y: App) {
    exists caller, key, t :: y == WithTeardown(x, router, caller, key, t)
  }

  /** What a teardown knows when it is accepted: every deploy of the app is finished, and a router
      that it does not destroy is down. */
  ghost predicate TeardownKnows(db: Db, x: App, req: Option<Request>) {
    && DeploysFinished(db, x)
    && (x.routers == [] ==> NeverRouted(db, x))
    && (req.Some? ==> req.value.intent.action.Destroy? && x.routerResource.Some?
                      && req.value.intent.resource == x.routerResource)
    && (req.None? && x.routerResource.Some? && !Touched(db, x.routerResource.value) ==>
          !ReadyRow(db, x.routerResource.value))
  }

  lemma InFlightFinished(look: Look, now: Db, x: App)
    requires forall id {:trigger OpGrows(look.db, now, id)} :: id in look.db.ops ==> OpGrows(look.db, now, id)
    requires MembersSound(look.db, x) && RoutersSound(look.db, x) && NothingInFlight(x, look.db.ops)
    ensures DeploysFinished(look.db, x) && DeploysFinished(now, x)
    ensures Deployed(x.routers, now.ops) == Deployed(x.routers, look.db.ops)
    ensures NeverRouted(look.db, x) ==> NeverRouted(now, x)
  {
    forall i | 0 <= i < |x.members|
      ensures x.members[i].op in look.db.ops && look.db.ops[x.members[i].op].Finished()
      ensures x.members[i].op in now.ops && now.ops[x.members[i].op] == look.db.ops[x.members[i].op]
    {
      assert MemberSound(look.db, x, i) && Lists(x, x.members[i].op);
      assert OpGrows(look.db, now, x.members[i].op);
    }
    forall k | 0 <= k < |x.routers|
      ensures x.routers[k] in look.db.ops && look.db.ops[x.routers[k]].Finished()
    {
      assert RouterSound(look.db, x, k) && Lists(x, x.routers[k]);
    }
    FinishedSince(look.db, now, x.routers);
  }

  lemma FailedMeansNeverRouted(db: Db, x: App)
    requires x.teardown.None? && x.routers == []
    requires DeriveState(x, db.ops).AppFailed? || DeriveState(x, db.ops).AppReady?
    ensures NeverRouted(db, x)
  {
    if !x.error {
      var i :| 0 <= i < |x.members| && MemberState(x, db.ops, i).Failed?;
      assert StateOf(db.ops, x.members[i].op).Failed?;
    }
  }

  lemma TeardownIsInformed(s: AppSys, a: AppId, seen: nat, caller: Actor, key: nat, req: Option<Request>)
    requires SysSound(s) && CanTeardown(s, a, seen, caller, key, req)
    ensures TeardownKnows(s.w.db, s.apps[a], req)
  {
    hide SoundWorld, Touched, DeriveState, OpsFit, RouterFirst, FreedSound, NothingInFlight;
    var look, x := s.looks[seen], s.apps[a];
    assert LookSound(s, look) && LookApp(s, look, a) && AppAt(s, a);
    assert look.apps[a] == x;
    InFlightFinished(look, s.w.db, x);
    if x.teardown.None? && x.routers == [] { FailedMeansNeverRouted(look.db, x); }
    if req.None? && x.routerResource.Some? && !Touched(s.w.db, x.routerResource.value) {
      var r := x.routerResource.value;
      assert !ReadyRow(look.db, r);
      assert LookDown(s, look, a, r);
      if x.teardown.None? {
        UntouchedThen(s, look, a, r);
        assert RouterRow(look.db, x) && RouterRow(s.w.db, x);
      }
    }
  }

  lemma TeardownFits(a: Db, b: Db, x: App, req: Option<Request>, y: App)
    requires OpsFit(a, x) && Grown(a, b, AsSeq(req)) && TeardownKnows(a, x, req)
    requires req.Some? ==> req.value.key == TeardownRouterKey(x.id, x.teardowns + 1)
    requires exists router :: Began(x, router, y)
    ensures OpsFit(b, y)
  {
    hide Touched, DeploysFinished, NeverRouted;
    forall id ensures OpFitsAt(b, y, id) {
      assert OpFitsAt(a, x, id);
      if id in a.ops {
        assert OpGrows(a, b, id);
      } else {
        assert NewOpGrows(a, b, AsSeq(req), id);
      }
    }
  }

  lemma TeardownRouterFirst(a: Db, b: Db, x: App, req: Option<Request>, y: App)
    requires OpsSound(a) && AppSound(a, x) && Grown(a, b, AsSeq(req)) && TeardownKnows(a, x, req)
    requires req.Some? ==> req.value.key == TeardownRouterKey(x.id, x.teardowns + 1)
    requires exists router :: Began(x, router, y)
    ensures RouterFirst(b, y)
  {
    hide Touched, RecordSound;
    if y.routerResource.Some? && !Touched(b, y.routerResource.value) {
      var r := y.routerResource.value;
      if id :| ReplicaDestroy(b, y, id) {
        assert id in a.ops || NewOpGrows(a, b, AsSeq(req), id);
        assert OpGrows(a, b, id);
        assert ReplicaDestroy(a, x, id);
        if Touched(a, r) { TouchedStays(a, b, AsSeq(req), r); }
        OwnedRows(a, x, r) by { RecordOf(a, x); }
        NoRevivalOnceFinished(a, b, AsSeq(req), x, r);
      }
    }
  }

  lemma RecordOf(db: Db, x: App)
    requires AppSound(db, x)
    ensures MembersSound(db, x) && RoutersSound(db, x) && TeardownSound(db, x)
  {
  }

  lemma BegunTeardown(a: Db, b: Db, x: App, req: Option<Request>, y: App)
    requires OpsSound(a) && AppSound(a, x) && Grown(a, b, AsSeq(req)) && TeardownKnows(a, x, req)
    requires Began(x, if req.Some? then Some(req.value.newOp) else None, y)
    ensures TeardownSound(b, y)
  {
    hide Touched, OpsFit, RouterFirst;
    FinishedDeploysStay(a, b, AsSeq(req), x);
    assert DeploysFinished(b, y);
    if req.Some? { There(a, b, AsSeq(req), 0); }
    if y.routerResource.Some? && !Touched(b, y.routerResource.value) {
      var r := y.routerResource.value;
      if Touched(a, r) { TouchedStays(a, b, AsSeq(req), r); }
      if req.None? { NoRevivalOnceFinished(a, b, AsSeq(req), x, r); }
    }
  }

  lemma TeardownAppSound(a: Db, b: Db, x: App, req: Option<Request>, y: App)
    requires OpsSound(a) && AppSound(a, x) && Grown(a, b, AsSeq(req)) && TeardownKnows(a, x, req)
    requires req.Some? ==> req.value.key == TeardownRouterKey(x.id, x.teardowns + 1)
    requires Began(x, if req.Some? then Some(req.value.newOp) else None, y)
    ensures AppSound(b, y)
  {
    hide Touched, OpsFit, RouterFirst, Grown, TeardownKnows, TeardownSound;
    TeardownFits(a, b, x, req, y);
    TeardownRouterFirst(a, b, x, req, y);
    BegunTeardown(a, b, x, req, y);
    RecordStays(a, b, AsSeq(req), x);
    OwnTouchesNothing(a, b, AsSeq(req), x, y);
    TeardownRest(b, x, y);
  }

  /** The parts of an app that its teardown does not touch. */
  lemma TeardownRest(db: Db, x: App, y: App)
    requires MembersSound(db, x) && RoutersSound(db, x) && AllRefsSound(db, x) && AllRowsSound(db, x)
    requires y == x.(teardown := y.teardown, teardowns := y.teardowns, history := y.history, updatedAt := y.updatedAt)
    requires y.teardown.Some?
    ensures MembersSound(db, y) && RoutersSound(db, y) && AllRefsSound(db, y) && AllRowsSound(db, y)
  {
    hide Touched;
    forall i | 0 <= i < |y.members| ensures MemberSound(db, y, i) { assert MemberSound(db, x, i); }
    forall k | 0 <= k < |y.routers| ensures RouterSound(db, y, k) { assert RouterSound(db, x, k); }
    forall k | 0 <= k < |y.routers| ensures RefsSound(db, y, k) { assert RefsSound(db, x, k); }
    forall i | 0 <= i < |y.members| ensures ReplicaRow(db, y, i) { assert ReplicaRow(db, x, i); }
  }

  lemma AcceptTeardownKeeps(s: AppSys, step: AppStep, t: Time)
    requires SysSound(s) && Earlier(s, t) && step.AcceptTeardown?
    ensures SysSound(NextApps(s, step, t))
  {
    hide SoundWorld, LookSound, Grown, Committed, AppSound, TeardownKnows, FreedSound, KeyKnown, DeriveState;
    hide NothingInFlight;
    var after := NextApps(s, step, t);
    if Committed(s, step, t).Some? {
      CommittedAsked(s, step, t);
      var a, req := step.app, step.router;
      assert AppAt(s, a);
      CommittedGrows(s, step, a, t);
      TeardownIsInformed(s, a, step.seen, step.caller, step.key, req);
      assert OpsSound(s.w.db) by { OpsAreSound(s.w); }
      TeardownAppSound(s.w.db, after.w.db, s.apps[a], req, after.apps[a]);
      TeardownAsks(s.w.db, s.apps[a], req);
      RewriteKeeps(s, after, a, after.apps[a], AsSeq(req), t);
    }
  }

  lemma TeardownAsks(db: Db, x: App, req: Option<Request>)
    requires TeardownKnows(db, x, req)
    ensures req.Some? ==> Owns(x, Target(req.value))
  {
  }

  // ----- The replicas' destroys -----

  lemma {:induction false} StandingIs(app: App, db: Db, n: nat)
    requires n <= |app.members|
    ensures var standing := Standing(app, db, n);
            && (forall j :: 0 <= j < |standing| ==> standing[j] < n)
            && (forall i, j :: 0 <= i < j < |standing| ==> standing[i] < standing[j])
            && (forall i :: 0 <= i < n && ReadyRow(db, app.members[i].resource) ==> i in standing)
            && (forall j :: 0 <= j < |standing| ==> ReadyRow(db, app.members[standing[j]].resource))
  {
    if n > 0 {
      StandingIs(app, db, n - 1);
      var earlier, standing := Standing(app, db, n - 1), Standing(app, db, n);
      assert |standing| <= |earlier| + 1 && forall j :: 0 <= j < |earlier| ==> standing[j] == earlier[j];
      assert |standing| > |earlier| ==> standing[|earlier|] == n - 1;
      forall i | 0 <= i < n && ReadyRow(db, app.members[i].resource) ensures i in standing {
        assert i in earlier || standing[|standing| - 1] == i;
      }
    }
  }

  ghost predicate IsReplicaDestroy(x: App, req: Request) {
    exists i :: 0 <= i < |x.members| && req.key == TeardownReplicaKey(x.id, x.teardowns, i)
                && req.intent.action.Destroy? && req.intent.resource == Some(x.members[i].resource)
  }

  predicate Named(reqs: seq<Request>, r: ResId) { exists j :: 0 <= j < |reqs| && Target(reqs[j]) == r }

  ghost predicate NamesReady(db: Db, x: App, reqs: seq<Request>, i: nat)
    requires i < |x.members|
  {
    !Touched(db, x.members[i].resource) && ReadyRow(db, x.members[i].resource) ==>
      Named(reqs, x.members[i].resource)
  }

  /** What the acceptance of the replicas' destroys knows: they name every replica still ready, and
      the router is down. */
  ghost predicate ReplicasKnow(db: Db, x: App, reqs: seq<Request>) {
    && x.teardown.Some? && x.teardown.value.replicas.None?
    && (forall j :: 0 <= j < |reqs| ==> IsReplicaDestroy(x, reqs[j]))
    && (forall i {:trigger NamesReady(db, x, reqs, i)} :: 0 <= i < |x.members| ==> NamesReady(db, x, reqs, i))
    && (x.routerResource.Some? && !Touched(db, x.routerResource.value) ==>
          !ReadyRow(db, x.routerResource.value))
  }

  lemma NeededMeansRouterDown(db: Db, x: App)
    requires AppSound(db, x) && x.teardown.Some? && x.teardown.value.replicas.None?
    requires DeriveState(x, db.ops).PlanningReplicaDestroy?
    ensures x.routerResource.Some? && !Touched(db, x.routerResource.value) ==>
      !ReadyRow(db, x.routerResource.value)
  {
    assert RouterDown(db, x);
  }

  lemma RouterIsDown(s: AppSys, a: AppId, checked: nat)
    requires SysSound(s) && a in s.apps && SawApp(s, checked, a)
    requires var look := s.looks[checked]; var seenApp := look.apps[a];
             seenApp.teardown.Some? && seenApp.teardown.value.replicas.None?
             && DeriveState(seenApp, look.db.ops).PlanningReplicaDestroy?
    ensures var x := s.apps[a];
            x.routerResource.Some? && !Touched(s.w.db, x.routerResource.value) ==>
              !ReadyRow(s.w.db, x.routerResource.value)
  {
    hide SoundWorld, Touched, DeriveState, AppSound, FreedSound;
    var look, x := s.looks[checked], s.apps[a];
    assert LookSound(s, look) && LookApp(s, look, a);
    NeededMeansRouterDown(look.db, look.apps[a]);
    if x.routerResource.Some? && !Touched(s.w.db, x.routerResource.value) {
      var r := x.routerResource.value;
      if Touched(look.db, r) { TouchedSince(s, look, r); }
      assert LookDown(s, look, a, r);
      RowsOf(look.db, look.apps[a], r);
    }
  }

  lemma TouchedSince(s: AppSys, look: Look, r: ResId)
    requires LookLedger(s, look) && Touched(look.db, r)
    ensures Touched(s.w.db, r)
  {
    var id :| DirectOn(look.db, id, r);
    assert OpGrows(look.db, s.w.db, id);
    assert DirectOn(s.w.db, id, r);
  }

  /** A replica that is ready now was ready when the destroys were drawn up. */
  lemma ReadyWasSeen(s: AppSys, a: AppId, seen: nat, i: nat)
    requires SysSound(s) && a in s.apps && SawApp(s, seen, a) && i < |s.apps[a].members|
    requires s.looks[seen].apps[a].teardown.Some?
    ensures s.looks[seen].apps[a].members == s.apps[a].members && s.apps[a].id == a
    ensures var r := s.apps[a].members[i].resource;
            !Touched(s.w.db, r) && ReadyRow(s.w.db, r) ==> ReadyRow(s.looks[seen].db, r)
  {
    hide SoundWorld, Touched, FreedSound, AppSound, LookLedger;
    var look, r := s.looks[seen], s.apps[a].members[i].resource;
    assert LookSound(s, look) && LookApp(s, look, a) && AppAt(s, a);
    RowsOf(look.db, look.apps[a], look.apps[a].members[i].resource);
    assert LookDown(s, look, a, r);
  }

  lemma ReplicasAreInformed(s: AppSys, a: AppId, checked: nat, seen: nat, reqs: seq<Request>)
    requires SysSound(s) && CanTeardownReplicas(s, a, checked, seen, reqs)
    ensures ReplicasKnow(s.w.db, s.apps[a], reqs) && KeysApart(reqs)
  {
    hide SysSound, Touched, DeriveState, LookSound;
    var look, x := s.looks[seen], s.apps[a];
    RouterIsDown(s, a, checked);
    HasMembers(s, a);
    ReadyWasSeen(s, a, seen, 0);
    var read := look.apps[a];
    StandingIs(read, look.db, |read.members|);
    var standing := Standing(read, look.db, |read.members|);
    forall j | 0 <= j < |reqs| ensures IsReplicaDestroy(x, reqs[j]) {
      assert reqs[j].key == TeardownReplicaKey(x.id, x.teardowns, standing[j]);
    }
    forall i | 0 <= i < |x.members| ensures NamesReady(s.w.db, x, reqs, i) {
      ReadyWasSeen(s, a, seen, i);
      if i in standing {
        var j :| 0 <= j < |standing| && standing[j] == i;
        assert Target(reqs[j]) == x.members[i].resource;
      }
    }
  }

  lemma HasMembers(s: AppSys, a: AppId)
    requires SysSound(s) && a in s.apps
    ensures |s.apps[a].members| >= 2
  {
    assert AppAt(s, a);
  }

  lemma ReplicasFit(a: Db, b: Db, x: App, reqs: seq<Request>, y: App)
    requires OpsFit(a, x) && Grown(a, b, reqs) && ReplicasKnow(a, x, reqs)
    requires exists ids, t :: y == WithReplicas(x, ids, t)
    ensures OpsFit(b, y)
  {
    hide Touched;
    forall id ensures OpFitsAt(b, y, id) {
      assert OpFitsAt(a, x, id);
      if id in a.ops {
        assert OpGrows(a, b, id);
      } else {
        assert NewOpGrows(a, b, reqs, id);
      }
    }
  }

  lemma ReplicasTeardown(a: Db, b: Db, x: App, reqs: seq<Request>, ids: seq<OpId>, y: App)
    requires OpsSound(a) && AppSound(a, x) && Grown(a, b, reqs) && ReplicasKnow(a, x, reqs)
    requires |ids| == |reqs| && forall k :: 0 <= k < |reqs| ==> ids[k] == reqs[k].newOp
    requires exists t :: y == WithReplicas(x, ids, t)
    ensures TeardownSound(b, y) && RouterFirst(b, y)
  {
    hide Touched, OpsFit, RouterFirst;
    TeardownStays(a, b, reqs, x);
    assert DeploysFinished(b, y);
    forall j | 0 <= j < |ids| ensures DestroySound(b, y, ids[j]) { There(a, b, reqs, j); }
    forall i | 0 <= i < |y.members| ensures ReplicaDown(b, y, i) { NewReplicaDown(a, b, x, reqs, ids, y, i); }
    ReplicasRouterFirst(a, b, x, reqs, y);
  }

  lemma NewReplicaDown(a: Db, b: Db, x: App, reqs: seq<Request>, ids: seq<OpId>, y: App, i: nat)
    requires OpsSound(a) && AppSound(a, x) && Grown(a, b, reqs) && ReplicasKnow(a, x, reqs)
    requires |ids| == |reqs| && forall k :: 0 <= k < |reqs| ==> ids[k] == reqs[k].newOp
    requires (exists t :: y == WithReplicas(x, ids, t)) && i < |y.members|
    ensures ReplicaDown(b, y, i)
  {
    hide Touched, RecordSound, RouterFirst;
    var r := x.members[i].resource;
    if !Touched(b, r) && ReadyRow(b, r) {
      if Touched(a, r) { TouchedStays(a, b, reqs, r); }
      OwnedRows(a, x, r) by { RecordOf(a, x); }
      if !ReadyRow(a, r) { NoRevival(a, b, reqs, x, r); }
      assert NamesReady(a, x, reqs, i);
      var j :| 0 <= j < |reqs| && Target(reqs[j]) == r;
      There(a, b, reqs, j);
      assert ids[j] in b.ops && b.ops[ids[j]].resource == r;
    }
  }

  lemma ReplicasRouterFirst(a: Db, b: Db, x: App, reqs: seq<Request>, y: App)
    requires OpsSound(a) && AppSound(a, x) && Grown(a, b, reqs) && ReplicasKnow(a, x, reqs)
    requires exists ids, t :: y == WithReplicas(x, ids, t)
    ensures RouterFirst(b, y)
  {
    hide Touched, RecordSound;
    if y.routerResource.Some? && !Touched(b, y.routerResource.value) {
      var r := y.routerResource.value;
      if Touched(a, r) { TouchedStays(a, b, reqs, r); }
      OwnedRows(a, x, r) by { RecordOf(a, x); }
      NoRevival(a, b, reqs, x, r);
    }
  }

  lemma ReplicaKeys(db: Db, x: App, reqs: seq<Request>)
    requires ReplicasKnow(db, x, reqs)
    ensures x.teardown.Some? && forall k :: 0 <= k < |reqs| ==> !reqs[k].key.CallerKey?
  {
    forall k | 0 <= k < |reqs| ensures !reqs[k].key.CallerKey? { assert IsReplicaDestroy(x, reqs[k]); }
  }

  lemma ReplicasSound(a: Db, b: Db, x: App, reqs: seq<Request>, ids: seq<OpId>, y: App)
    requires OpsSound(a) && AppSound(a, x) && Grown(a, b, reqs) && ReplicasKnow(a, x, reqs)
    requires |ids| == |reqs| && forall k :: 0 <= k < |reqs| ==> ids[k] == reqs[k].newOp
    requires exists t :: y == WithReplicas(x, ids, t)
    ensures AppSound(b, y)
  {
    hide Touched, OpsFit, RouterFirst, Grown, ReplicasKnow, TeardownSound;
    ReplicasFit(a, b, x, reqs, y);
    ReplicasTeardown(a, b, x, reqs, ids, y);
    RecordStays(a, b, reqs, x);
    ReplicaKeys(a, x, reqs);
    OwnTouchesNothing(a, b, reqs, x, y);
    TeardownRest(b, x, y);
  }

  lemma AcceptTeardownReplicasKeeps(s: AppSys, step: AppStep, t: Time)
    requires SysSound(s) && Earlier(s, t) && step.AcceptTeardownReplicas?
    ensures SysSound(NextApps(s, step, t))
  {
    hide SoundWorld, LookSound, Grown, Committed, AppSound, ReplicasKnow, FreedSound, KeyKnown, DeriveState;
    var after := NextApps(s, step, t);
    if Committed(s, step, t).Some? {
      CommittedAsked(s, step, t);
      var a, reqs := step.app, step.reqs;
      assert AppAt(s, a);
      ReplicasAreInformed(s, a, step.checked, step.seen, reqs);
      CommittedGrows(s, step, a, t);
      assert OpsSound(s.w.db) by { OpsAreSound(s.w); }
      ReplicasSound(s.w.db, after.w.db, s.apps[a], reqs, after.apps[a].teardown.value.replicas.value, after.apps[a]);
      forall k | 0 <= k < |reqs| ensures OwnAsk(s, a, reqs[k]) { ReplicaIsOwned(s.w.db, s.apps[a], reqs, k); }
      RewriteKeeps(s, after, a, after.apps[a], reqs, t);
    }
  }

  lemma ReplicaIsOwned(db: Db, x: App, reqs: seq<Request>, k: nat)
    requires ReplicasKnow(db, x, reqs) && k < |reqs|
    ensures AppOf(reqs[k].key) == Some(x.id) && Owns(x, Target(reqs[k]))
  {
    assert IsReplicaDestroy(x, reqs[k]);
  }

  // ----- Every step, every run -----

  lemma DirectKeeps(s: AppSys, step: AppStep, t: Time)
    requires SysSound(s) && step.Direct?
    ensures SysSound(NextApps(s, step, t))
  {
    hide SoundWorld, LookSound, Grown, AppAt, FreedSound, KeyKnown, Link, MayChange;
    var after := NextApps(s, step, t);
    if Committed(s, step, t).Some? {
      CommittedAsked(s, step, t);
      LinkOne(s.w, step.req, step.age, t);
      DirectGrows(s.w, step.req, step.age, t);
      DirectIsAllowed(s, step.req, step.seen);
      if after.w != s.w { PlainKeeps(s, after.w, [step.req]); }
    }
  }

  lemma {:induction false} LinkOne(w: World, req: Request, age: Option<nat>, t: Time)
    ensures var all, one := LinkAll(w, [req], age, t), Link(w, req, age, t);
            (all.Some? <==> one.Some?) && (all.Some? ==> all.value.w == one.value.w)
  {
    assert [req][..0] == [];
  }

  lemma StepKeeps(s: AppSys, step: AppStep, t: Time)
    requires SysSound(s) && Earlier(s, t)
    ensures SysSound(NextApps(s, step, t))
  {
    hide SysSound, Committed, NextApps;
    match step
    case Base(base) => BaseKeeps(s, base, t);
    case Glance => GlanceKeeps(s, t);
    case Direct(_, _, _) => DirectKeeps(s, step, t);
    case AcceptApp(_, _, _, _, _, _, _) => AcceptAppKeeps(s, step, t);
    case AcceptRouter(_, _, _, _) => AcceptRouterKeeps(s, step, t);
    case FailApp(a) => if CanFailApp(s, a) { FailAppKeeps(s, a, t); } else { Refused(s, step, t); }
    case AcceptFailover(_, _, _, _, _, _, _) => AcceptFailoverKeeps(s, step, t);
    case AcceptTeardown(_, _, _, _, _, _) => AcceptTeardownKeeps(s, step, t);
    case AcceptTeardownReplicas(_, _, _, _, _) => AcceptTeardownReplicasKeeps(s, step, t);
    case FailTeardown(a) =>
      if CanFailTeardown(s, a) { FailTeardownKeeps(s, a, t); } else { Refused(s, step, t); }
  }

  lemma Refused(s: AppSys, step: AppStep, t: Time)
    requires (step.FailApp? && !CanFailApp(s, step.app)) || (step.FailTeardown? && !CanFailTeardown(s, step.app))
    ensures NextApps(s, step, t) == s
  {
  }

  lemma BaseKeeps(s: AppSys, step: Step, t: Time)
    requires SysSound(s)
    ensures SysSound(NextApps(s, Base(step), t))
  {
    hide SoundWorld, LookSound, Grown, AppAt, FreedSound, KeyKnown, Next;
    if !step.Submit? {
      BaseGrows(s.w, step, t);
      NextKeepsSound(s.w, step, t);
      PlainKeeps(s, Next(s.w, step, t), []);
    }
  }

  lemma StaysEarlier(s: AppSys, step: AppStep, t: Time, later: Time)
    requires Earlier(s, t) && t < later
    ensures Earlier(NextApps(s, step, t), later)
  {
    hide Committed, Next;
    CommittedAsked(s, step, t);
  }

  /** In every run every app is what its record says, and every look still holds what it saw. */
  lemma {:induction false} EveryAppRunIsSound(run: seq<AppTimed>, later: Time)
    requires Ticking(run) && (run != [] ==> run[|run| - 1].at < later)
    ensures SysSound(RunApps(run)) && Earlier(RunApps(run), later)
  {
    hide NextApps;
    if run == [] {
      StartsSound();
    } else {
      var earlier, last := run[..|run| - 1], run[|run| - 1];
      EveryAppRunIsSound(earlier, last.at);
      StepKeeps(RunApps(earlier), last.step, last.at);
      StaysEarlier(RunApps(earlier), last.step, last.at, later);
    }
  }

  lemma StartsSound()
    ensures SysSound(EMPTY_SYS)
  {
    EveryRunIsSound([]);
    forall r ensures !Touched(EMPTY, r) { }
  }
}
