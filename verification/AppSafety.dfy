/** Every app step keeps the app invariants, although each acts on what was read some time ago. */
module AppSafety {
  import opened LedgerModel
  import opened LedgerRuns
  import opened AppModel
  import opened AppRuns
  import opened AppLedger
  import opened AppInvariants

  // ----- How an app row changes -----

  ghost predicate AppGrows(x: App, y: App) {
    && y.id == x.id && y.actor == x.actor && y.key == x.key && y.material == x.material
    && y.members == x.members && y.wiring == x.wiring
    && |x.routers| <= |y.routers| && y.routers[..|x.routers|] == x.routers
    && (x.routerResource.Some? ==> y.routerResource == x.routerResource)
    && (x.error ==> y.error) && x.teardowns <= y.teardowns
    && |x.failovers| <= |y.failovers| && y.failovers[..|x.failovers|] == x.failovers
    && |x.history| <= |y.history| && y.history[..|x.history|] == x.history
    && (x.teardown.Some? ==> y.teardown.Some? && y.routers == x.routers && y.routerResource == x.routerResource)
    && (x.teardown.Some? && y.teardown.Some? && x.teardowns == y.teardowns ==>
          && (x.teardown.value.replicas.Some? ==> y.teardown.value.replicas == x.teardown.value.replicas)
          && (x.teardown.value.error ==> y.teardown.value.error)
          && y.teardown.value.router == x.teardown.value.router)
    && x.updatedAt <= y.updatedAt && (x.updatedAt == y.updatedAt ==> x == y)
  }

  lemma GrowsTwice(x: App, y: App, z: App)
    requires AppGrows(x, y) && AppGrows(y, z)
    ensures AppGrows(x, z)
  {
    assert z.routers[..|x.routers|] == z.routers[..|y.routers|][..|x.routers|];
    assert z.failovers[..|x.failovers|] == z.failovers[..|y.failovers|][..|x.failovers|];
    assert z.history[..|x.history|] == z.history[..|y.history|][..|x.history|];
  }

  lemma GrowsByNothing(x: App)
    ensures AppGrows(x, x)
  {
  }

  // ----- What every reachable state satisfies -----

  ghost predicate FreedSound(s: AppSys, a: AppId) {
    && (a in s.freed ==> a in s.apps && s.apps[a].teardown.Some?)
    && (forall r {:trigger Touched(s.w.db, r)} ::
          a in s.apps && Owns(s.apps[a], r) && Touched(s.w.db, r) ==> a in s.freed)
  }

  ghost predicate AppAt(s: AppSys, a: AppId) {
    a in s.apps ==> s.apps[a].id == a && AppSound(s.w.db, s.apps[a])
  }

  ghost predicate KeyKnown(s: AppSys, id: OpId) {
    id in s.w.db.ops && AppOf(s.w.db.ops[id].terms.key).Some? ==>
      AppOf(s.w.db.ops[id].terms.key).value in s.apps
  }

  ghost predicate LookApp(s: AppSys, look: Look, a: AppId) {
    a in look.apps ==>
      && a in s.apps && look.apps[a].id == a
      && AppSound(look.db, look.apps[a]) && AppGrows(look.apps[a], s.apps[a])
      && (DeriveState(look.apps[a], look.db.ops).AppDestroyed? ==> a in s.freed)
  }

  /** An owner is visible as soon as the resource is. */
  ghost predicate LookOwner(s: AppSys, look: Look, a: AppId, r: ResId) {
    a in s.apps && Owns(s.apps[a], r) && r in look.db.rows ==> a in look.apps && Owns(look.apps[a], r)
  }

  /** What was down during a teardown stays down. */
  ghost predicate LookDown(s: AppSys, look: Look, a: AppId, r: ResId) {
    a in look.apps && look.apps[a].teardown.Some? && Owns(look.apps[a], r)
    && r in look.db.rows && !look.db.rows[r].state.Ready? && !Touched(s.w.db, r) ==>
      !ReadyRow(s.w.db, r)
  }

  ghost predicate LookLedger(s: AppSys, look: Look) {
    && (forall id {:trigger OpGrows(look.db, s.w.db, id)} :: id in look.db.ops ==> OpGrows(look.db, s.w.db, id))
    && (forall r :: r in look.db.rows ==> r in s.w.db.rows)
  }

  ghost predicate LookSound(s: AppSys, look: Look) {
    && LookLedger(s, look)
    && (forall a {:trigger LookApp(s, look, a)} :: LookApp(s, look, a))
    && (forall a, r {:trigger LookOwner(s, look, a, r)} :: LookOwner(s, look, a, r))
    && (forall a, r {:trigger LookDown(s, look, a, r)} :: LookDown(s, look, a, r))
  }

  ghost predicate SysSound(s: AppSys) {
    && SoundWorld(s.w)
    && (forall a {:trigger AppAt(s, a)} :: AppAt(s, a))
    && (forall a {:trigger FreedSound(s, a)} :: FreedSound(s, a))
    && (forall id {:trigger KeyKnown(s, id)} :: KeyKnown(s, id))
    && (forall look {:trigger LookSound(s, look)} :: look in s.looks ==> LookSound(s, look))
  }

  ghost predicate Earlier(s: AppSys, t: Time) {
    forall a :: a in s.apps ==> s.apps[a].updatedAt < t
  }

  // ----- What every step does -----

  ghost predicate OwnsNothingOld(s: AppSys, after: AppSys, a: AppId, r: ResId) {
    a in after.apps && Owns(after.apps[a], r) && r in s.w.db.rows ==> a in s.apps && Owns(s.apps[a], r)
  }

  ghost predicate Advances(s: AppSys, after: AppSys, reqs: seq<Request>) {
    && SoundWorld(after.w) && Grown(s.w.db, after.w.db, reqs)
    && after.looks == s.looks && after.freed == s.freed
    && (forall a :: a in s.apps ==> a in after.apps && AppGrows(s.apps[a], after.apps[a]))
    && (forall a, r {:trigger OwnsNothingOld(s, after, a, r)} :: OwnsNothingOld(s, after, a, r))
  }

  lemma LookLedgerStays(s: AppSys, after: AppSys, reqs: seq<Request>, look: Look)
    requires Advances(s, after, reqs) && LookLedger(s, look)
    ensures LookLedger(after, look)
  {
    forall id | id in look.db.ops ensures OpGrows(look.db, after.w.db, id) {
      assert OpGrows(look.db, s.w.db, id);
      assert OpGrows(s.w.db, after.w.db, id);
      LaterTwice(look.db.ops[id], s.w.db.ops[id], after.w.db.ops[id]);
    }
    forall r | r in look.db.rows ensures r in after.w.db.rows { assert RowGrows(s.w.db, after.w.db, r); }
  }

  lemma OwnsGrows(x: App, y: App, r: ResId)
    requires AppGrows(x, y) && Owns(x, r)
    ensures Owns(y, r)
  {
    if i :| 0 <= i < |x.members| && x.members[i].resource == r {
      assert y.members[i].resource == r;
    }
  }

  lemma LookDownStays(s: AppSys, after: AppSys, reqs: seq<Request>, look: Look, a: AppId, r: ResId)
    requires Advances(s, after, reqs) && SoundWorld(s.w) && AppAt(s, a)
    requires LookApp(s, look, a) && LookDown(s, look, a, r) && LookLedger(s, look)
    ensures LookDown(after, look, a, r)
  {
    hide SoundWorld, AppSound, Grown;
    if a in look.apps && look.apps[a].teardown.Some? && Owns(look.apps[a], r) && r in look.db.rows
       && !look.db.rows[r].state.Ready? && !Touched(after.w.db, r) {
      if Touched(s.w.db, r) { TouchedStays(s.w.db, after.w.db, reqs, r); }
      OwnsGrows(look.apps[a], s.apps[a], r);
      assert OpsSound(s.w.db) by { OpsAreSound(s.w); }
      NoRevival(s.w.db, after.w.db, reqs, s.apps[a], r);
    }
  }

  lemma OpsAreSound(w: World)
    requires SoundWorld(w)
    ensures OpsSound(w.db) && AllApart(w.db)
  {
  }

  lemma LookStays(s: AppSys, after: AppSys, reqs: seq<Request>, look: Look)
    requires Advances(s, after, reqs) && SysSound(s) && look in s.looks
    ensures LookSound(after, look)
  {
    hide SoundWorld, AppSound, Grown, Touched;
    assert LookSound(s, look);
    LookLedgerStays(s, after, reqs, look);
    forall a ensures LookApp(after, look, a) {
      assert LookApp(s, look, a);
      if a in look.apps { GrowsTwice(look.apps[a], s.apps[a], after.apps[a]); }
    }
    forall a, r ensures LookOwner(after, look, a, r) {
      assert LookOwner(s, look, a, r) && OwnsNothingOld(s, after, a, r);
    }
    forall a, r ensures LookDown(after, look, a, r) {
      assert LookApp(s, look, a) && LookDown(s, look, a, r) && AppAt(s, a);
      LookDownStays(s, after, reqs, look, a, r);
    }
  }

  // ----- Apps do not meet -----

  lemma OwnersApart(db: Db, x: App, y: App, r: ResId)
    requires AppSound(db, x) && AppSound(db, y) && x.id != y.id && Owns(x, r)
    ensures !Owns(y, r)
  {
    if i :| 0 <= i < |x.members| && x.members[i].resource == r {
      assert MemberSound(db, x, i) && OpFitsAt(db, y, x.members[i].op) && OpFitsAt(db, x, x.members[i].op);
    } else {
      assert RouterSound(db, x, 0) && OpFitsAt(db, y, x.routers[0]) && OpFitsAt(db, x, x.routers[0]);
    }
  }

  /** A request under app `a`'s own key, for something new or something `a` owns. */
  ghost predicate OwnAsk(s: AppSys, a: AppId, req: Request) {
    AppOf(req.key) == Some(a) && (req.intent.resource.None? || (a in s.apps && Owns(s.apps[a], Target(req))))
  }

  lemma OwnAsksAreForeign(s: AppSys, after: Db, a: AppId, b: AppId, reqs: seq<Request>, k: nat)
    requires AppAt(s, a) && AppAt(s, b) && b in s.apps && b != a && k < |reqs|
    requires Grown(s.w.db, after, reqs) && OwnAsk(s, a, reqs[k])
    ensures Foreign(s.w.db, s.apps[b], reqs[k])
  {
    var r := Target(reqs[k]);
    if Owns(s.apps[b], r) {
      OwnedRows(s.w.db, s.apps[b], r);
      assert NewIsThere(s.w.db, after, reqs[k]);
      OwnersApart(s.w.db, s.apps[b], s.apps[a], r);
    }
  }

  // ----- Steps that write no app -----

  /** Callers' requests: of what an app owns only when the app is freed. */
  ghost predicate Allowed(s: AppSys, req: Request) {
    && req.key.CallerKey?
    && (req.intent.resource.Some? && !req.intent.action.DriftCheck? ==>
          forall a :: a in s.apps && Owns(s.apps[a], Target(req)) ==>
            a in s.freed && !OwnDeployed(s.w.db, s.apps[a], Target(req)))
  }

  lemma PlainKeeps(s: AppSys, w: World, reqs: seq<Request>)
    requires SysSound(s) && SoundWorld(w) && Grown(s.w.db, w.db, reqs)
    requires forall k :: 0 <= k < |reqs| ==> Allowed(s, reqs[k])
    ensures SysSound(s.(w := w))
  {
    hide SoundWorld, AppSound, Grown, LookSound, AppGrows, Touched;
    var after := s.(w := w);
    assert OpsSound(s.w.db) by { OpsAreSound(s.w); }
    forall a | a in s.apps ensures AppGrows(s.apps[a], after.apps[a]) { GrowsByNothing(s.apps[a]); }
    forall a, r ensures OwnsNothingOld(s, after, a, r) { }
    forall look | look in after.looks ensures LookSound(after, look) { LookStays(s, after, reqs, look); }
    forall a ensures AppAt(after, a) {
      assert AppAt(s, a) && FreedSound(s, a);
      if a in s.apps { AppStays(s.w.db, w.db, reqs, s.apps[a]); }
    }
    forall a ensures FreedSound(after, a) { PlainFrees(s, w, reqs, a); }
    forall id ensures KeyKnown(after, id) { PlainKeys(s, w, reqs, id); }
  }

  lemma PlainFrees(s: AppSys, w: World, reqs: seq<Request>, a: AppId)
    requires Grown(s.w.db, w.db, reqs) && FreedSound(s, a) && AppAt(s, a)
    requires forall k :: 0 <= k < |reqs| ==> Allowed(s, reqs[k])
    ensures FreedSound(s.(w := w), a)
  {
    hide AppSound, Grown, Touched;
    if a in s.apps {
      forall r | Owns(s.apps[a], r) && Touched(w.db, r) ensures a in s.freed {
        if a !in s.freed {
          assert OwnedRowsOf(s.w.db, s.apps[a], r) by { RowsOf(s.w.db, s.apps[a], r); }
          forall k | 0 <= k < |reqs|
            ensures !(reqs[k].key.CallerKey? && Target(reqs[k]) == r && !reqs[k].intent.action.DriftCheck?)
          {
            assert NewIsThere(s.w.db, w.db, reqs[k]) by { There(s.w.db, w.db, reqs, k); }
          }
          TouchedBefore(s.w.db, w.db, reqs, r);
        }
      }
    }
  }

  predicate OwnedRowsOf(db: Db, app: App, r: ResId) { Owns(app, r) && r in db.rows }

  lemma RowsOf(db: Db, app: App, r: ResId)
    requires AppSound(db, app) && Owns(app, r)
    ensures OwnedRowsOf(db, app, r)
  {
    OwnedRows(db, app, r);
  }

  lemma There(a: Db, b: Db, reqs: seq<Request>, k: nat)
    requires Grown(a, b, reqs) && k < |reqs|
    ensures NewIsThere(a, b, reqs[k])
  {
  }

  lemma PlainKeys(s: AppSys, w: World, reqs: seq<Request>, id: OpId)
    requires Grown(s.w.db, w.db, reqs) && KeyKnown(s, id)
    requires forall k :: 0 <= k < |reqs| ==> reqs[k].key.CallerKey?
    ensures KeyKnown(s.(w := w), id)
  {
    if id in s.w.db.ops { assert OpGrows(s.w.db, w.db, id); } else { assert NewOpGrows(s.w.db, w.db, reqs, id); }
  }

  lemma {:induction false} FinishedSince(a: Db, b: Db, ids: seq<OpId>)
    requires forall id {:trigger OpGrows(a, b, id)} :: id in a.ops ==> OpGrows(a, b, id)
    requires forall k :: 0 <= k < |ids| ==> ids[k] in a.ops && a.ops[ids[k]].Finished()
    ensures forall k :: 0 <= k < |ids| ==> ids[k] in b.ops && b.ops[ids[k]] == a.ops[ids[k]]
    ensures Deployed(ids, b.ops) == Deployed(ids, a.ops)
  {
    forall k | 0 <= k < |ids| ensures ids[k] in b.ops && b.ops[ids[k]] == a.ops[ids[k]] {
      assert OpGrows(a, b, ids[k]);
    }
    SameDeployed(a, b, ids);
  }

  lemma {:induction false} SameDeployed(a: Db, b: Db, ids: seq<OpId>)
    requires forall k :: 0 <= k < |ids| ==> StateOf(a.ops, ids[k]) == StateOf(b.ops, ids[k])
    ensures Deployed(ids, b.ops) == Deployed(ids, a.ops)
  {
    if ids != [] { SameDeployed(a, b, ids[..|ids| - 1]); }
  }

  lemma AllDestroyed(teardown: Teardown, ops: Ops)
    requires DeriveTeardownState(teardown, ops).AppDestroyed?
    ensures teardown.replicas.Some?
    ensures forall j :: 0 <= j < |teardown.replicas.value| ==> StateOf(ops, teardown.replicas.value[j]).Succeeded?
  {
  }

  /** In a destroyed app, what the app itself deployed is destroyed. */
  lemma DestroyedHoldsNothing(db: Db, app: App, r: ResId)
    requires AppSound(db, app) && DeriveState(app, db.ops).AppDestroyed?
    requires Owns(app, r) && OwnDeployed(db, app, r)
    ensures r in db.rows && db.rows[r].state.Destroyed?
  {
    hide Touched, OpsFit;
    assert !Touched(db, r);
    DestroyedMeansTeardown(app, db.ops);
    var ids := app.teardown.value.replicas.value;
    if i :| 0 <= i < |app.members| && app.members[i].resource == r
            && StateOf(db.ops, app.members[i].op).Succeeded? {
      assert ReplicaRow(db, app, i) && ReplicaDown(db, app, i);
      AllDestroyed(app.teardown.value, db.ops);
    } else {
      assert RouterRow(db, app);
    }
  }

  lemma DeployedThen(s: AppSys, look: Look, a: AppId, r: ResId)
    requires LookLedger(s, look) && a in look.apps && a in s.apps
    requires AppSound(look.db, look.apps[a]) && AppGrows(look.apps[a], s.apps[a]) && look.apps[a].teardown.Some?
    requires OwnDeployed(s.w.db, s.apps[a], r)
    ensures OwnDeployed(look.db, look.apps[a], r)
  {
    hide OpsFit, RouterFirst, TouchedSound, Touched;
    var x := look.apps[a];
    assert DeploysFinished(look.db, x);
    FinishedSince(look.db, s.w.db, x.routers);
    forall i | 0 <= i < |x.members|
      ensures StateOf(look.db.ops, x.members[i].op) == StateOf(s.w.db.ops, x.members[i].op)
    {
      assert OpGrows(look.db, s.w.db, x.members[i].op);
    }
  }

  lemma DirectIsAllowed(s: AppSys, req: Request, seen: nat)
    requires SysSound(s) && MayChange(s, req, seen)
    ensures Allowed(s, req)
  {
    hide SoundWorld, AppSound, LookLedger, AppGrows, DeriveState, OwnDeployed;
    if req.intent.resource.Some? && !req.intent.action.DriftCheck? {
      var look, r := s.looks[seen], Target(req);
      assert LookSound(s, look);
      forall a | a in s.apps && Owns(s.apps[a], r) ensures a in s.freed && !OwnDeployed(s.w.db, s.apps[a], r) {
        assert LookOwner(s, look, a, r) && LookApp(s, look, a);
        DestroyedMeansTeardown(look.apps[a], look.db.ops);
        if OwnDeployed(s.w.db, s.apps[a], r) {
          DeployedThen(s, look, a, r);
          DestroyedHoldsNothing(look.db, look.apps[a], r);
        }
      }
    }
  }

  // ----- A look -----

  lemma DestroyedMeansTeardown(app: App, ops: Ops)
    ensures DeriveState(app, ops).AppDestroyed? ==> app.teardown.Some?
    ensures DeriveState(app, ops).AppReady? ==> app.teardown.None?
  {
  }

  lemma GlanceKeeps(s: AppSys, t: Time)
    requires SysSound(s)
    ensures SysSound(NextApps(s, Glance, t))
  {
    hide SoundWorld, AppSound, AppGrows, Touched, DeriveState;
    var after := NextApps(s, Glance, t);
    forall a ensures AppAt(after, a) { assert AppAt(s, a); }
    forall a ensures FreedSound(after, a) {
      assert FreedSound(s, a);
      if a in s.apps { DestroyedMeansTeardown(s.apps[a], s.w.db.ops); }
    }
    forall id ensures KeyKnown(after, id) { assert KeyKnown(s, id); }
    forall look | look in after.looks ensures LookSound(after, look) {
      if look in s.looks { LookSeesOn(s, after, look); } else { NewLook(s, after); }
    }
  }

  lemma LookSeesOn(s: AppSys, after: AppSys, look: Look)
    requires LookSound(s, look) && after.w == s.w && after.apps == s.apps && s.freed <= after.freed
    ensures LookSound(after, look)
  {
    hide AppSound, AppGrows, Touched, DeriveState;
    forall a ensures LookApp(after, look, a) { assert LookApp(s, look, a); }
    forall a, r ensures LookOwner(after, look, a, r) { assert LookOwner(s, look, a, r); }
    forall a, r ensures LookDown(after, look, a, r) { assert LookDown(s, look, a, r); }
  }

  lemma NewLook(s: AppSys, after: AppSys)
    requires SysSound(s) && after.w == s.w && after.apps == s.apps
    requires after.freed == s.freed + set a | a in s.apps && DeriveState(s.apps[a], s.w.db.ops).AppDestroyed?
    ensures LookSound(after, Look(s.w.db, s.apps))
  {
    hide SoundWorld, AppSound, Touched, DeriveState;
    var look := Look(s.w.db, s.apps);
    forall a ensures LookApp(after, look, a) {
      assert AppAt(s, a);
      if a in s.apps { GrowsByNothing(s.apps[a]); }
    }
    forall id | id in look.db.ops ensures OpGrows(look.db, after.w.db, id) { }
  }

  // ----- Steps that write one app -----

  /** App `a` becomes `app` while its own requests join the ledger. */
  ghost predicate Rewrites(s: AppSys, after: AppSys, a: AppId, app: App, reqs: seq<Request>, t: Time) {
    && SoundWorld(after.w) && Grown(s.w.db, after.w.db, reqs)
    && after == s.(w := after.w, apps := s.apps[a := app])
    && (forall k :: 0 <= k < |reqs| ==> OwnAsk(s, a, reqs[k]))
    && app.id == a && AppSound(after.w.db, app)
    && (a in s.apps ==> AppGrows(s.apps[a], app))
    && (forall r :: Owns(app, r) && r in s.w.db.rows ==> a in s.apps && Owns(s.apps[a], r))
  }

  lemma RewriteAdvances(s: AppSys, after: AppSys, a: AppId, app: App, reqs: seq<Request>, t: Time)
    requires SysSound(s) && Rewrites(s, after, a, app, reqs, t)
    ensures Advances(s, after, reqs)
  {
    hide SoundWorld, AppSound, Grown, LookSound, AppGrows, Touched;
    forall b | b in s.apps ensures AppGrows(s.apps[b], after.apps[b]) {
      if b != a { GrowsByNothing(s.apps[b]); }
    }
    forall b, r ensures OwnsNothingOld(s, after, b, r) { }
  }

  lemma RewriteKeepsOther(s: AppSys, after: AppSys, a: AppId, app: App, reqs: seq<Request>, t: Time, b: AppId)
    requires SysSound(s) && Rewrites(s, after, a, app, reqs, t)
    ensures AppAt(after, b)
  {
    hide SoundWorld, AppSound, Grown, LookSound, AppGrows, Touched;
    assert AppAt(s, b) && AppAt(s, a);
    if b != a && b in s.apps {
      forall k | 0 <= k < |reqs| ensures Foreign(s.w.db, s.apps[b], reqs[k]) {
        OwnAsksAreForeign(s, after.w.db, a, b, reqs, k);
      }
      assert OpsSound(s.w.db) by { OpsAreSound(s.w); }
      AppStays(s.w.db, after.w.db, reqs, s.apps[b]);
    }
  }

  /** Owned resources that exist were owned before; a new one has only system operations. */
  lemma RewriteFrees(s: AppSys, after: AppSys, a: AppId, app: App, reqs: seq<Request>, t: Time, b: AppId)
    requires SysSound(s) && Rewrites(s, after, a, app, reqs, t)
    ensures FreedSound(after, b)
  {
    hide SoundWorld, AppSound, Grown, LookSound, Touched;
    assert FreedSound(s, b) && AppAt(s, b);
    if b in after.apps {
      assert b in s.apps || b == a;
      forall r | Owns(after.apps[b], r) && Touched(after.w.db, r) ensures b in s.freed {
        TouchedBefore(s.w.db, after.w.db, reqs, r);
        TouchedRows(s.w.db, r) by { OpsAreSound(s.w); }
      }
    }
  }

  lemma TouchedRows(db: Db, r: ResId)
    requires OpsSound(db) && Touched(db, r)
    ensures r in db.rows
  {
    var id :| DirectOn(db, id, r);
    assert OpSound(db, id);
  }

  lemma RewriteKeys(s: AppSys, after: AppSys, a: AppId, app: App, reqs: seq<Request>, t: Time, id: OpId)
    requires SysSound(s) && Rewrites(s, after, a, app, reqs, t)
    ensures KeyKnown(after, id)
  {
    hide SoundWorld, AppSound, LookSound, Touched;
    assert KeyKnown(s, id);
    if id in s.w.db.ops {
      assert OpGrows(s.w.db, after.w.db, id);
    } else {
      assert NewOpGrows(s.w.db, after.w.db, reqs, id);
    }
  }

  lemma RewriteKeeps(s: AppSys, after: AppSys, a: AppId, app: App, reqs: seq<Request>, t: Time)
    requires SysSound(s) && Rewrites(s, after, a, app, reqs, t)
    ensures SysSound(after)
  {
    hide SoundWorld, AppSound, Grown, LookSound, AppGrows, Touched, AppAt, FreedSound, KeyKnown;
    RewriteAdvances(s, after, a, app, reqs, t);
    forall look | look in after.looks ensures LookSound(after, look) { LookStays(s, after, reqs, look); }
    forall b ensures AppAt(after, b) { RewriteKeepsOther(s, after, a, app, reqs, t, b); }
    forall b ensures FreedSound(after, b) { RewriteFrees(s, after, a, app, reqs, t, b); }
    forall id ensures KeyKnown(after, id) { RewriteKeys(s, after, a, app, reqs, t, id); }
  }
}
