/** Apps as a state machine over the ledger: every app function of app/ledger.py as one atomic
    step, with the checks app/apps.py and app/app_activities.py made earlier, on what they read
    then. One request's reads before its transaction are one look. */
module AppRuns {
  import opened LedgerModel
  import opened LedgerRuns
  import opened AppModel

  /** What one read saw. */
  datatype Look = Look(db: Db, apps: map<AppId, App>)

  /** The ledger, the apps, every look taken so far, and (history) the apps that some look found
      destroyed. */
  datatype AppSys = AppSys(w: World, apps: map<AppId, App>, looks: seq<Look>, freed: set<AppId>)

  const EMPTY_SYS := AppSys(START, map[], [], {})

  datatype AppStep =
    | Base(step: Step)
    | Glance
    | Direct(req: Request, age: Option<nat>, seen: nat)
    | AcceptApp(app: AppId, actor: Actor, key: nat, material: nat, wiring: seq<Wire>,
                reqs: seq<Request>, age: Option<nat>)
    | AcceptRouter(app: AppId, seen: nat, req: Request, age: Option<nat>)
    | FailApp(app: AppId)
    | AcceptFailover(app: AppId, seen: nat, caller: Actor, key: nat, target: nat, req: Request, age: Option<nat>)
    | AcceptTeardown(app: AppId, seen: nat, caller: Actor, key: nat, router: Option<Request>, age: Option<nat>)
    | AcceptTeardownReplicas(app: AppId, checked: nat, seen: nat, reqs: seq<Request>, age: Option<nat>)
    | FailTeardown(app: AppId)

  // ----- Accepting one or several operations in one transaction -----

  /** The world and the operations the requests stand for, in order. */
  datatype Linked = Linked(w: World, ids: seq<OpId>)

  ghost function Link(w: World, req: Request, age: Option<nat>, t: Time): Option<Linked> {
    if !Validated(w.db, req) then None
    else
      match Accept(w.db, req, age, t)
      case Rejected(_) => None
      case Replayed(op) => Some(Linked(w, [op.id]))
      case Accepted(_, _, _) => Some(Linked(Next(w, Submit(req, age), t), [req.newOp]))
  }

  /** All of them, or None: then the transaction rolls back. */
  ghost function LinkAll(w: World, reqs: seq<Request>, age: Option<nat>, t: Time): Option<Linked> {
    if reqs == [] then Some(Linked(w, []))
    else
      var earlier := LinkAll(w, reqs[..|reqs| - 1], age, t);
      if earlier.None? then None
      else
        var last := Link(earlier.value.w, reqs[|reqs| - 1], age, t);
        if last.None? then None else Some(Linked(last.value.w, earlier.value.ids + last.value.ids))
  }

  // ----- The guards, each on what was read -----
  // (Where a guard says that a replica's index is in range, that always holds: see
  // Failovers.PrimaryIsAReplica.)

  predicate Saw(s: AppSys, seen: nat) { seen < |s.looks| }

  predicate SawApp(s: AppSys, seen: nat, app: AppId) { Saw(s, seen) && app in s.looks[seen].apps }

  predicate OnRow(req: Request, look: Look) {
    && req.intent.resource.Some?
    && Target(req) in look.db.rows
    && !look.db.rows[Target(req)].state.Destroyed?
    && req.resolved.previousOp == Some(look.db.rows[Target(req)].latest)
  }

  /** A caller's own request: `refuse_member_change` and `policy.validate` passed on what was read.
      A drift check passes no member check. */
  ghost predicate MayChange(s: AppSys, req: Request, seen: nat) {
    && req.key.CallerKey?
    && (req.intent.action.DriftCheck? || req.intent.resource.None?
        || (Saw(s, seen) && OnRow(req, s.looks[seen])
            && forall a :: a in s.looks[seen].apps && Owns(s.looks[seen].apps[a], Target(req)) ==>
                 DeriveState(s.looks[seen].apps[a], s.looks[seen].db.ops).AppDestroyed?))
  }

  predicate NewMember(req: Request, key: Key, actor: Actor) {
    req.intent.action.Deploy? && req.intent.resource.None? && req.key == key && req.actor == actor
  }

  predicate DestroyOf(req: Request, look: Look, r: ResId, key: Key, actor: Actor) {
    && req.intent.action.Destroy? && req.intent.resource == Some(r)
    && req.key == key && req.actor == actor
    && r in look.db.rows && req.resolved == ResolvedForDestroy(look.db.rows[r])
  }

  ghost predicate AppKeyFree(apps: map<AppId, App>, actor: Actor, key: nat) {
    forall a :: a in apps ==> !(apps[a].actor == actor && apps[a].key == key)
  }

  /** A caller's key names at most one app: true of every run, by AppTheorems.AppKeysHold. */
  ghost predicate OneAppPerKey(apps: map<AppId, App>) {
    forall a, b {:trigger apps[a], apps[b]} :: a in apps && b in apps && a != b ==>
      !(apps[a].actor == apps[b].actor && apps[a].key == apps[b].key)
  }

  ghost predicate CanAcceptApp(s: AppSys, app: AppId, actor: Actor, key: nat, wiring: seq<Wire>, reqs: seq<Request>) {
    && app !in s.apps && AppKeyFree(s.apps, actor, key)
    && |reqs| >= 2 && WiringValid(wiring, |reqs|)
    && forall i :: 0 <= i < |reqs| ==> NewMember(reqs[i], ReplicaKey(app, i), actor)
  }

  /** `check_app` answered `router_needed`, and the app may still take a router. */
  ghost predicate CanAcceptRouter(s: AppSys, app: AppId, seen: nat, req: Request) {
    && app in s.apps && SawApp(s, seen, app)
    && (var seenApp := s.looks[seen].apps[app];
        && seenApp.teardown.None? && seenApp.routers == []
        && DeriveState(seenApp, s.looks[seen].db.ops).PlanningRouter?)
    && (var now := s.apps[app];
        && now.routers == [] && !now.error
        && NewMember(req, RouterKey(app, 0), now.actor)
        && WiringValid(now.wiring, |now.members|)
        && req.resolved.refs == RouterRefs(now.wiring, now.members))
  }

  predicate CanFailApp(s: AppSys, app: AppId) {
    && app in s.apps && !s.apps[app].error && s.apps[app].teardown.None?
    && !(s.apps[app].routers != [] && StateOf(s.w.db.ops, s.apps[app].routers[0]).Succeeded?)
  }

  ghost predicate KnownFailover(app: App, caller: Actor, key: nat) {
    exists i :: 0 <= i < |app.failovers| && app.failovers[i].caller == caller && app.failovers[i].key == key
  }

  /** What `apps.failover` requires of the app it read, and the request it builds from it. */
  ghost predicate FailoverChecked(app: App, db: Db, target: nat, req: Request) {
    && target < |app.members|
    && DeriveState(app, db.ops).AppReady?
    && (exists w :: w in app.wiring && IsPrimary(w))
    && (forall i :: 0 <= i < |app.members| ==>
          app.members[i].resource in db.rows && db.rows[app.members[i].resource].state.Ready?)
    && target != PrimaryOf(app, db.ops) < |app.members|
    && app.routerResource.Some?
    && (var r := app.routerResource.value;
        && r in db.rows && req.intent.action.Deploy? && req.intent.resource == Some(r)
        && req.resolved.previousOp == Some(db.rows[r].latest)
        && req.resolved.refs
           == FailoverRefs(db.rows[r].refs, app.wiring, app.members, PrimaryOf(app, db.ops), target))
  }

  /** The key is new, the app is as it was read, and the checks passed on what was read. */
  ghost predicate CanFailover(s: AppSys, app: AppId, seen: nat, caller: Actor, key: nat, target: nat, req: Request) {
    && app in s.apps && SawApp(s, seen, app)
    && !KnownFailover(s.apps[app], caller, key)
    && s.apps[app].updatedAt == s.looks[seen].apps[app].updatedAt
    && FailoverChecked(s.looks[seen].apps[app], s.looks[seen].db, target, req)
    && req.key == RouterKey(app, |s.apps[app].routers|) && req.actor == caller
  }

  ghost predicate KnownTeardown(app: App, caller: Actor, key: nat) {
    exists i :: 0 <= i < |app.history| && app.history[i].caller == caller && app.history[i].key == key
  }

  ghost predicate NothingInFlight(app: App, ops: Ops) {
    forall id :: Lists(app, id) ==> StateOf(ops, id).Succeeded? || StateOf(ops, id).Failed?
  }

  /** What `apps.destroy` requires of the app it read: a ready or failed app with nothing in
      flight; the router is destroyed first when it is deployed. */
  ghost predicate TeardownChecked(app: App, look: Look, req: Option<Request>, key: Key, caller: Actor) {
    && (app.teardown.Some? ==> DeriveState(app, look.db.ops).AppFailed?)
    && (DeriveState(app, look.db.ops).AppReady? || DeriveState(app, look.db.ops).AppFailed?)
    && NothingInFlight(app, look.db.ops)
    && (var r := app.routerResource;
        if r.Some? && r.value in look.db.rows && look.db.rows[r.value].state.Ready?
        then req.Some? && DestroyOf(req.value, look, r.value, key, caller)
        else req.None?)
  }

  ghost predicate CanTeardown(s: AppSys, app: AppId, seen: nat, caller: Actor, key: nat, req: Option<Request>) {
    && app in s.apps && SawApp(s, seen, app)
    && !KnownTeardown(s.apps[app], caller, key)
    && s.apps[app].updatedAt == s.looks[seen].apps[app].updatedAt
    && TeardownChecked(s.looks[seen].apps[app], s.looks[seen], req,
                       TeardownRouterKey(app, s.apps[app].teardowns + 1), caller)
  }

  /** The members still deployed, in order. */
  function Standing(app: App, db: Db, n: nat): seq<nat>
    requires n <= |app.members|
  {
    if n == 0 then []
    else
      var r := app.members[n - 1].resource;
      Standing(app, db, n - 1) + if r in db.rows && db.rows[r].state.Ready? then [n - 1] else []
  }

  /** `check_teardown` answered `replicas_needed`; the destroys are of the replicas that a later
      read found deployed; and the teardown now on the app may still take them. */
  ghost predicate CanTeardownReplicas(s: AppSys, app: AppId, checked: nat, seen: nat, reqs: seq<Request>) {
    && app in s.apps && SawApp(s, checked, app) && SawApp(s, seen, app)
    && (var seenApp := s.looks[checked].apps[app];
        && seenApp.teardown.Some? && seenApp.teardown.value.replicas.None?
        && DeriveState(seenApp, s.looks[checked].db.ops).PlanningReplicaDestroy?)
    && (var now := s.apps[app];
        && now.teardown.Some? && now.teardown.value.replicas.None? && !now.teardown.value.error
        && s.looks[seen].apps[app].teardown.Some?
        && (var read := s.looks[seen].apps[app];
            var standing := Standing(read, s.looks[seen].db, |read.members|);
            && |reqs| == |standing|
            && forall j :: 0 <= j < |reqs| ==>
                 standing[j] < |read.members|
                 && DestroyOf(reqs[j], s.looks[seen], read.members[standing[j]].resource,
                              TeardownReplicaKey(app, now.teardowns, standing[j]),
                              now.teardown.value.actor)))
  }

  predicate CanFailTeardown(s: AppSys, app: AppId) {
    app in s.apps && s.apps[app].teardown.Some? && !s.apps[app].teardown.value.error
  }

  // ----- The new rows -----

  function NewApp(app: AppId, actor: Actor, key: nat, material: nat, wiring: seq<Wire>,
                  reqs: seq<Request>, ids: seq<OpId>, t: Time): App
    requires |ids| == |reqs|
  {
    App(app, actor, key, material,
        seq(|ids|, i requires 0 <= i < |ids| => Member(ids[i], Target(reqs[i]))),
        wiring, [], None, false, [], None, 0, [], t)
  }

  function WithRouter(app: App, id: OpId, r: ResId, t: Time): App {
    app.(routers := [id], routerResource := Some(r), updatedAt := t)
  }

  function WithFailover(app: App, id: OpId, target: nat, caller: Actor, key: nat, t: Time): App {
    app.(routers := app.routers + [id],
         failovers := app.failovers + [Failover(id, target, caller, key)], updatedAt := t)
  }

  function WithTeardown(app: App, router: Option<OpId>, caller: Actor, key: nat, t: Time): App {
    app.(teardowns := app.teardowns + 1,
         teardown := Some(Teardown(caller, router, None, false)),
         history := app.history + [TeardownEntry(caller, key, router)], updatedAt := t)
  }

  function WithReplicas(app: App, ids: seq<OpId>, t: Time): App
    requires app.teardown.Some?
  {
    app.(teardown := Some(app.teardown.value.(replicas := Some(ids))), updatedAt := t)
  }

  function WithTeardownError(app: App, t: Time): App
    requires app.teardown.Some?
  {
    app.(teardown := Some(app.teardown.value.(error := true)), updatedAt := t)
  }

  // ----- One step -----

  /** The requests a step puts to the ledger, when its own checks allow it. */
  ghost function Asks(s: AppSys, step: AppStep): Option<seq<Request>> {
    match step
    case Base(_) => None
    case Glance => None
    case Direct(req, _, seen) => if MayChange(s, req, seen) then Some([req]) else None
    case AcceptApp(app, actor, key, _, wiring, reqs, _) =>
      if CanAcceptApp(s, app, actor, key, wiring, reqs) then Some(reqs) else None
    case AcceptRouter(app, seen, req, _) => if CanAcceptRouter(s, app, seen, req) then Some([req]) else None
    case FailApp(app) => if CanFailApp(s, app) then Some([]) else None
    case AcceptFailover(app, seen, caller, key, target, req, _) =>
      if CanFailover(s, app, seen, caller, key, target, req) then Some([req]) else None
    case AcceptTeardown(app, seen, caller, key, req, _) =>
      if CanTeardown(s, app, seen, caller, key, req)
      then Some(if req.Some? then [req.value] else []) else None
    case AcceptTeardownReplicas(app, checked, seen, reqs, _) =>
      if CanTeardownReplicas(s, app, checked, seen, reqs) then Some(reqs) else None
    case FailTeardown(app) => if CanFailTeardown(s, app) then Some([]) else None
  }

  function AgeOf(step: AppStep): Option<nat> {
    match step
    case Direct(_, age, _) => age
    case AcceptApp(_, _, _, _, _, _, age) => age
    case AcceptRouter(_, _, _, age) => age
    case AcceptFailover(_, _, _, _, _, _, age) => age
    case AcceptTeardown(_, _, _, _, _, age) => age
    case AcceptTeardownReplicas(_, _, _, _, age) => age
    case _ => None
  }

  /** What became of them: None when one was refused, and then nothing changes at all. */
  ghost function Committed(s: AppSys, step: AppStep, t: Time): Option<Linked> {
    var asks := Asks(s, step);
    if asks.None? then None else LinkAll(s.w, asks.value, AgeOf(step), t)
  }

  /** The app row a step writes, given the operations its requests stand for. */
  ghost function Written(s: AppSys, step: AppStep, ids: seq<OpId>, t: Time): map<AppId, App>
    requires Asks(s, step).Some? && |ids| == |Asks(s, step).value|
  {
    match step
    case AcceptApp(app, actor, key, material, wiring, reqs, _) =>
      s.apps[app := NewApp(app, actor, key, material, wiring, reqs, ids, t)]
    case AcceptRouter(app, _, req, _) => s.apps[app := WithRouter(s.apps[app], ids[0], Target(req), t)]
    case FailApp(app) => s.apps[app := s.apps[app].(error := true, updatedAt := t)]
    case AcceptFailover(app, _, caller, key, target, _, _) =>
      s.apps[app := WithFailover(s.apps[app], ids[0], target, caller, key, t)]
    case AcceptTeardown(app, _, caller, key, req, _) =>
      s.apps[app := WithTeardown(s.apps[app], if req.Some? then Some(ids[0]) else None, caller, key, t)]
    case AcceptTeardownReplicas(app, _, _, _, _) => s.apps[app := WithReplicas(s.apps[app], ids, t)]
    case FailTeardown(app) => s.apps[app := WithTeardownError(s.apps[app], t)]
    case _ => s.apps
  }

  lemma {:induction false} NothingLinked(w: World, age: Option<nat>, t: Time)
    ensures LinkAll(w, [], age, t) == Some(Linked(w, []))
  {
  }

  lemma {:induction false} LinkAllCounts(w: World, reqs: seq<Request>, age: Option<nat>, t: Time)
    ensures var all := LinkAll(w, reqs, age, t); all.Some? ==> |all.value.ids| == |reqs|
  {
    if reqs != [] { LinkAllCounts(w, reqs[..|reqs| - 1], age, t); }
  }

  ghost function NextApps(s: AppSys, step: AppStep, t: Time): AppSys {
    match step
    case Base(base) => if base.Submit? then s else s.(w := Next(s.w, base, t))
    case Glance =>
      s.(looks := s.looks + [Look(s.w.db, s.apps)],
         freed := s.freed + set a | a in s.apps && DeriveState(s.apps[a], s.w.db.ops).AppDestroyed?)
    case _ =>
      var all := Committed(s, step, t);
      if all.None? then s
      else
        LinkAllCounts(s.w, Asks(s, step).value, AgeOf(step), t);
        s.(w := all.value.w, apps := Written(s, step, all.value.ids, t))
  }

  /** A run of apps; two steps never share a timestamp. */
  datatype AppTimed = AppTimed(step: AppStep, at: Time)

  ghost predicate Ticking(run: seq<AppTimed>) {
    forall i, j :: 0 <= i < j < |run| ==> run[i].at < run[j].at
  }

  ghost function RunApps(run: seq<AppTimed>): AppSys {
    if run == [] then EMPTY_SYS
    else NextApps(RunApps(run[..|run| - 1]), run[|run| - 1].step, run[|run| - 1].at)
  }
}
