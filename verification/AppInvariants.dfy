/** What every reachable app satisfies, and that no ledger growth breaks it. */
module AppInvariants {
  import opened LedgerModel
  import opened LedgerRuns
  import opened AppModel
  import opened AppLedger

  // ----- Whose operation is it -----

  /** A change of `r` that some caller asked for directly. */
  predicate DirectOn(db: Db, id: OpId, r: ResId) {
    id in db.ops && db.ops[id].resource == r && Real(db.ops[id]) && db.ops[id].terms.key.CallerKey?
  }

  ghost predicate Touched(db: Db, r: ResId) { exists id :: DirectOn(db, id, r) }

  function AppOf(key: Key): Option<AppId> {
    match key
    case CallerKey(_) => None
    case ReplicaKey(a, _) => Some(a)
    case RouterKey(a, _) => Some(a)
    case TeardownRouterKey(a, _) => Some(a)
    case TeardownReplicaKey(a, _, _) => Some(a)
  }

  /** An operation under one of the app's own keys is the one the app has on record. */
  ghost predicate KeyFits(app: App, op: Op) {
    AppOf(op.terms.key) == Some(app.id) ==>
      match op.terms.key
      case CallerKey(_) => true
      case ReplicaKey(_, i) =>
        op.Action().Deploy? && i < |app.members| && app.members[i] == Member(op.id, op.resource)
      case RouterKey(_, n) =>
        op.Action().Deploy? && n < |app.routers| && app.routers[n] == op.id
        && app.routerResource == Some(op.resource)
      case TeardownRouterKey(_, n) =>
        op.Action().Destroy? && app.teardown.Some? && n <= app.teardowns
        && app.routerResource == Some(op.resource)
      case TeardownReplicaKey(_, n, i) =>
        op.Action().Destroy? && app.teardown.Some? && n <= app.teardowns
        && (n == app.teardowns ==> app.teardown.value.replicas.Some?)
        && i < |app.members| && app.members[i].resource == op.resource
  }

  /** Nobody but a caller and the app itself changes what the app owns. */
  ghost predicate OpFits(app: App, op: Op) {
    && KeyFits(app, op)
    && (Owns(app, op.resource) && Real(op) ==> op.terms.key.CallerKey? || AppOf(op.terms.key) == Some(app.id))
  }

  ghost predicate OpFitsAt(db: Db, app: App, id: OpId) { id in db.ops ==> OpFits(app, db.ops[id]) }

  ghost predicate OpsFit(db: Db, app: App) {
    forall id {:trigger OpFitsAt(db, app, id)} :: OpFitsAt(db, app, id)
  }

  // ----- Members and routers -----

  ghost predicate MemberSound(db: Db, app: App, i: nat)
    requires i < |app.members|
  {
    var m := app.members[i];
    && m.op in db.ops && db.ops[m.op].resource == m.resource && m.resource in db.rows
    && db.ops[m.op].terms.key == ReplicaKey(app.id, i)
  }

  ghost predicate MembersSound(db: Db, app: App) {
    && |app.members| >= 2 && WiringValid(app.wiring, |app.members|)
    && (forall i {:trigger MemberSound(db, app, i)} :: 0 <= i < |app.members| ==> MemberSound(db, app, i))
    && (forall i, j :: 0 <= i < j < |app.members| ==> app.members[i].resource != app.members[j].resource)
  }

  ghost predicate RouterSound(db: Db, app: App, k: nat)
    requires k < |app.routers|
  {
    var id := app.routers[k];
    && id in db.ops && db.ops[id].terms.key == RouterKey(app.id, k)
    && app.routerResource == Some(db.ops[id].resource)
    && (k < |app.routers| - 1 ==> db.ops[id].Finished())
  }

  ghost predicate ReplicasDone(db: Db, app: App) {
    forall i :: 0 <= i < |app.members| ==> StateOf(db.ops, app.members[i].op).Succeeded?
  }

  ghost predicate FailoversSound(app: App) {
    && |app.failovers| == (if app.routers == [] then 0 else |app.routers| - 1)
    && (forall k :: 0 <= k < |app.failovers| ==>
          app.failovers[k].op == app.routers[k + 1] && app.failovers[k].primary < |app.members|)
    && (forall i, j :: 0 <= i < j < |app.routers| ==> app.routers[i] != app.routers[j])
  }

  ghost predicate RoutersSound(db: Db, app: App) {
    && (app.routers == [] <==> app.routerResource.None?)
    && (app.routerResource.Some? ==> app.routerResource.value in db.rows)
    && (forall i :: 0 <= i < |app.members| ==> app.routerResource != Some(app.members[i].resource))
    && (forall k {:trigger RouterSound(db, app, k)} :: 0 <= k < |app.routers| ==> RouterSound(db, app, k))
    && (app.routers != [] ==> ReplicasDone(db, app))
    && FailoversSound(app)
  }

  /** The references of router operation `k`: the rollout's are wired as asked; a failover's are
      those of the operation deployed before it, turned from its primary to the new one. */
  ghost predicate RefsSound(db: Db, app: App, k: nat)
    requires k < |app.routers| && WiringValid(app.wiring, |app.members|)
  {
    var refs := if app.routers[k] in db.ops then db.ops[app.routers[k]].terms.refs else map[];
    if k == 0 then refs == RouterRefs(app.wiring, app.members)
    else
      var before := Deployed(app.routers[..k], db.ops);
      && before.Some? && before.value in db.ops && k - 1 < |app.failovers|
      && (var current, target := PrimaryUnder(app, before.value), app.failovers[k - 1].primary;
          && current < |app.members| && target < |app.members| && current != target
          && refs == FailoverRefs(db.ops[before.value].terms.refs, app.wiring, app.members, current, target))
  }

  ghost predicate AllRefsSound(db: Db, app: App)
    requires WiringValid(app.wiring, |app.members|)
  {
    forall k {:trigger RefsSound(db, app, k)} :: 0 <= k < |app.routers| ==> RefsSound(db, app, k)
  }

  // ----- What the rows say -----

  ghost predicate ReadyRow(db: Db, r: ResId) { r in db.rows && db.rows[r].state.Ready? }

  ghost predicate SettledRow(db: Db, r: ResId) { r in db.rows && !db.rows[r].state.Pending? }

  ghost predicate ReplicaRow(db: Db, app: App, i: nat)
    requires i < |app.members|
  {
    var m := app.members[i];
    !Touched(db, m.resource) ==>
      && (ReadyRow(db, m.resource) ==> StateOf(db.ops, m.op).Succeeded?)
      && (StateOf(db.ops, m.op).Succeeded? ==> SettledRow(db, m.resource))
      && (app.teardown.None? && StateOf(db.ops, m.op).Succeeded? ==> ReadyRow(db, m.resource))
  }

  ghost predicate RouterRow(db: Db, app: App) {
    app.routerResource.Some? && !Touched(db, app.routerResource.value) ==>
      var r, deployed := app.routerResource.value, Deployed(app.routers, db.ops);
      && (ReadyRow(db, r) ==> deployed.Some? && deployed.value in db.ops
                              && db.rows[r].refs == db.ops[deployed.value].terms.refs)
      && (deployed.Some? ==> SettledRow(db, r))
      && (app.teardown.None? && deployed.Some? ==> ReadyRow(db, r))
  }

  ghost predicate AllRowsSound(db: Db, app: App) {
    && RouterRow(db, app)
    && (forall i {:trigger ReplicaRow(db, app, i)} :: 0 <= i < |app.members| ==> ReplicaRow(db, app, i))
  }

  // ----- Teardown -----

  ghost predicate DeploysFinished(db: Db, app: App) {
    && (forall i :: 0 <= i < |app.members| ==> app.members[i].op in db.ops && db.ops[app.members[i].op].Finished())
    && (forall k :: 0 <= k < |app.routers| ==> app.routers[k] in db.ops && db.ops[app.routers[k]].Finished())
  }

  ghost predicate NeverRouted(db: Db, app: App) {
    app.error || exists i :: 0 <= i < |app.members| && StateOf(db.ops, app.members[i].op).Failed?
  }

  ghost predicate DestroySound(db: Db, app: App, id: OpId) { id in db.ops && db.ops[id].Action().Destroy? }

  /** The router's destroy is the only thing between a ready router and its end. */
  ghost predicate RouterDown(db: Db, app: App)
    requires app.teardown.Some?
  {
    app.routerResource.Some? && !Touched(db, app.routerResource.value)
    && ReadyRow(db, app.routerResource.value) ==>
      var router := app.teardown.value.router;
      router.Some? && !StateOf(db.ops, router.value).Succeeded?
  }

  predicate StillDestroying(db: Db, ids: seq<OpId>, r: ResId) {
    exists j :: 0 <= j < |ids| && ids[j] in db.ops && db.ops[ids[j]].resource == r
                && !db.ops[ids[j]].state.Succeeded?
  }

  ghost predicate ReplicaDown(db: Db, app: App, i: nat)
    requires app.teardown.Some? && app.teardown.value.replicas.Some? && i < |app.members|
  {
    !Touched(db, app.members[i].resource) && ReadyRow(db, app.members[i].resource) ==>
      StillDestroying(db, app.teardown.value.replicas.value, app.members[i].resource)
  }

  ghost predicate TeardownSound(db: Db, app: App) {
    app.teardown.Some? ==>
      var teardown := app.teardown.value;
      && DeploysFinished(db, app)
      && (app.routers == [] ==> NeverRouted(db, app))
      && (teardown.router.Some? ==> DestroyOn(db, teardown.router.value, app.routerResource))
      && RouterDown(db, app)
      && (teardown.replicas.Some? ==>
            (forall i {:trigger ReplicaDown(db, app, i)} :: 0 <= i < |app.members| ==> ReplicaDown(db, app, i))
            && (forall j :: 0 <= j < |teardown.replicas.value| ==>
                  DestroySound(db, app, teardown.replicas.value[j])))
  }

  predicate DestroyOn(db: Db, id: OpId, r: Option<ResId>) {
    id in db.ops && db.ops[id].Action().Destroy? && r == Some(db.ops[id].resource)
  }

  /** A replica of the app is, or was once, to be destroyed. */
  predicate ReplicaDestroy(db: Db, app: App, id: OpId) {
    id in db.ops && db.ops[id].terms.key.TeardownReplicaKey? && db.ops[id].terms.key.app == app.id
  }

  ghost predicate RouterFirst(db: Db, app: App) {
    (app.teardown.Some? && app.teardown.value.replicas.Some?) || (exists id :: ReplicaDestroy(db, app, id)) ==>
      app.routerResource.Some? && !Touched(db, app.routerResource.value) ==>
        !ReadyRow(db, app.routerResource.value)
  }

  /** The app itself deployed `r` at some time. */
  predicate OwnDeployed(db: Db, app: App, r: ResId) {
    || (exists i :: 0 <= i < |app.members| && app.members[i].resource == r
                    && StateOf(db.ops, app.members[i].op).Succeeded?)
    || (app.routerResource == Some(r) && Deployed(app.routers, db.ops).Some?)
  }

  /** Callers change only what a torn down app never deployed. */
  ghost predicate TouchedSound(db: Db, app: App) {
    forall r {:trigger Touched(db, r)} ::
      Owns(app, r) && Touched(db, r) ==> app.teardown.Some? && !OwnDeployed(db, app, r)
  }

  /** Everything but the keys of operations. */
  ghost predicate RecordSound(db: Db, app: App) {
    && MembersSound(db, app) && RoutersSound(db, app) && AllRefsSound(db, app)
    && AllRowsSound(db, app) && TeardownSound(db, app)
  }

  ghost predicate AppSound(db: Db, app: App) {
    OpsFit(db, app) && RecordSound(db, app) && RouterFirst(db, app) && TouchedSound(db, app)
  }

  // ----- Growth keeps it -----

  lemma TouchedStays(a: Db, b: Db, reqs: seq<Request>, r: ResId)
    requires Grown(a, b, reqs) && Touched(a, r)
    ensures Touched(b, r)
  {
    var id :| DirectOn(a, id, r);
    assert OpGrows(a, b, id);
    assert DirectOn(b, id, r);
  }

  lemma FinishedStays(a: Db, b: Db, reqs: seq<Request>, id: OpId)
    requires Grown(a, b, reqs) && id in a.ops && a.ops[id].Finished()
    ensures id in b.ops && b.ops[id] == a.ops[id]
  {
    assert OpGrows(a, b, id);
  }

  lemma {:induction false} DeployedStays(a: Db, b: Db, reqs: seq<Request>, routers: seq<OpId>)
    requires Grown(a, b, reqs)
    requires forall k :: 0 <= k < |routers| ==> routers[k] in a.ops && a.ops[routers[k]].Finished()
    ensures Deployed(routers, b.ops) == Deployed(routers, a.ops)
  {
    if routers != [] {
      FinishedStays(a, b, reqs, routers[|routers| - 1]);
      DeployedStays(a, b, reqs, routers[..|routers| - 1]);
    }
  }

  lemma {:induction false} DeployedIsListed(routers: seq<OpId>, ops: Ops)
    ensures var d := Deployed(routers, ops);
            d.Some? ==> d.value in routers && StateOf(ops, d.value).Succeeded? && d.value in ops
  {
    if routers != [] { DeployedIsListed(routers[..|routers| - 1], ops); }
  }

  lemma MembersStay(a: Db, b: Db, reqs: seq<Request>, app: App)
    requires Grown(a, b, reqs) && MembersSound(a, app)
    ensures MembersSound(b, app)
  {
    forall i | 0 <= i < |app.members| ensures MemberSound(b, app, i) {
      assert MemberSound(a, app, i);
      assert OpGrows(a, b, app.members[i].op) && RowGrows(a, b, app.members[i].resource);
    }
  }

  lemma RoutersStay(a: Db, b: Db, reqs: seq<Request>, app: App)
    requires Grown(a, b, reqs) && MembersSound(a, app) && RoutersSound(a, app)
    ensures RoutersSound(b, app)
  {
    forall k | 0 <= k < |app.routers| ensures RouterSound(b, app, k) {
      assert RouterSound(a, app, k);
      assert OpGrows(a, b, app.routers[k]);
    }
    if app.routerResource.Some? { assert RowGrows(a, b, app.routerResource.value); }
    if app.routers != [] {
      forall i | 0 <= i < |app.members| ensures StateOf(b.ops, app.members[i].op).Succeeded? {
        assert MemberSound(a, app, i);
        FinishedStays(a, b, reqs, app.members[i].op);
      }
    }
  }

  lemma RefsStay(a: Db, b: Db, reqs: seq<Request>, app: App)
    requires Grown(a, b, reqs) && MembersSound(a, app) && RoutersSound(a, app) && AllRefsSound(a, app)
    ensures AllRefsSound(b, app)
  {
    forall k | 0 <= k < |app.routers| ensures RefsSound(b, app, k) {
      assert RefsSound(a, app, k) && RouterSound(a, app, k);
      assert OpGrows(a, b, app.routers[k]);
      if k > 0 {
        forall i | 0 <= i < k ensures app.routers[i] in a.ops && a.ops[app.routers[i]].Finished() {
          assert RouterSound(a, app, i);
        }
        DeployedStays(a, b, reqs, app.routers[..k]);
        DeployedIsListed(app.routers[..k], a.ops);
        FinishedStays(a, b, reqs, Deployed(app.routers[..k], a.ops).value);
      }
    }
  }

  /** Which of the app's operations just succeeded on an untouched resource of its. */
  lemma WhoseSuccess(a: Db, b: Db, app: App, id: OpId, r: ResId)
    requires OpsFit(a, app) && MembersSound(a, app) && RoutersSound(a, app)
    requires NewlyDone(a, b, id, r) && Owns(app, r) && !Touched(a, r) && a.ops[id].id == id
    ensures a.ops[id].Action().Deploy? ==>
      (exists i :: 0 <= i < |app.members| && app.members[i] == Member(id, r))
      || (app.routerResource == Some(r) && app.routers != [] && app.routers[|app.routers| - 1] == id)
    ensures !a.ops[id].Action().Deploy? ==> a.ops[id].Action().Destroy? && app.teardown.Some?
  {
    assert OpFitsAt(a, app, id);
    assert !DirectOn(a, id, r);
    var key := a.ops[id].terms.key;
    if key.RouterKey? {
      assert RouterSound(a, app, key.attempt);
    }
  }

  lemma ReplicaRowStays(a: Db, b: Db, reqs: seq<Request>, app: App, i: nat)
    requires OpsSound(a) && Grown(a, b, reqs) && AppSound(a, app) && i < |app.members|
    ensures ReplicaRow(b, app, i)
  {
    var m := app.members[i];
    var r := m.resource;
    assert ReplicaRow(a, app, i) && MemberSound(a, app, i);
    if !Touched(b, r) {
      if Touched(a, r) { TouchedStays(a, b, reqs, r); }
      assert RowGrows(a, b, r) && OpGrows(a, b, m.op);
      forall id | NewlyDone(a, b, id, r)
        ensures a.ops[id].Action().Deploy? ==> id == m.op
        ensures !a.ops[id].Action().Deploy? ==> a.ops[id].Action().Destroy? && app.teardown.Some?
      {
        assert OpSound(a, id);
        WhoseSuccess(a, b, app, id, r);
      }
      if a.ops[m.op].Finished() { FinishedStays(a, b, reqs, m.op); }
      assert OpFitsAt(a, app, m.op);
      assert NewlyDone(a, b, m.op, r) || b.ops[m.op].state.Succeeded? == a.ops[m.op].state.Succeeded?;
    }
  }

  lemma DeployedGrows(a: Db, b: Db, reqs: seq<Request>, app: App)
    requires Grown(a, b, reqs) && RoutersSound(a, app) && app.routers != []
    ensures var last := app.routers[|app.routers| - 1];
            && last in a.ops && last in b.ops
            && Deployed(app.routers, b.ops)
               == if !a.ops[last].Finished() && b.ops[last].state.Succeeded? then Some(last)
                  else Deployed(app.routers, a.ops)
  {
    var n := |app.routers| - 1;
    forall k | 0 <= k < n ensures app.routers[k] in a.ops && a.ops[app.routers[k]].Finished() {
      assert RouterSound(a, app, k);
    }
    DeployedStays(a, b, reqs, app.routers[..n]);
    assert RouterSound(a, app, n);
    assert OpGrows(a, b, app.routers[n]);
  }

  lemma RouterRowStays(a: Db, b: Db, reqs: seq<Request>, app: App)
    requires OpsSound(a) && Grown(a, b, reqs) && AppSound(a, app)
    ensures RouterRow(b, app)
  {
    if app.routerResource.Some? && !Touched(b, app.routerResource.value) {
      var r, last := app.routerResource.value, app.routers[|app.routers| - 1];
      if Touched(a, r) { TouchedStays(a, b, reqs, r); }
      assert RowGrows(a, b, r) && RouterSound(a, app, |app.routers| - 1);
      DeployedGrows(a, b, reqs, app);
      DeployedIsListed(app.routers, a.ops);
      if Deployed(app.routers, a.ops).Some? {
        FinishedStays(a, b, reqs, Deployed(app.routers, a.ops).value);
      }
      forall id | NewlyDone(a, b, id, r)
        ensures a.ops[id].Action().Deploy? ==> id == last
        ensures !a.ops[id].Action().Deploy? ==> a.ops[id].Action().Destroy? && app.teardown.Some?
      {
        assert OpSound(a, id);
        WhoseSuccess(a, b, app, id, r);
      }
      assert OpGrows(a, b, last) && OpFitsAt(a, app, last);
      assert NewlyDone(a, b, last, r) <==> !a.ops[last].Finished() && b.ops[last].state.Succeeded?;
    }
  }

  /** Once every deploy of an app is finished, nothing it owns becomes ready again unless a caller
      changes it directly. */
  lemma NoRevivalOnceFinished(a: Db, b: Db, reqs: seq<Request>, app: App, r: ResId)
    requires OpsSound(a) && Grown(a, b, reqs) && AppSound(a, app) && DeploysFinished(a, app) && Owns(app, r)
    requires r in a.rows && !a.rows[r].state.Ready? && !Touched(b, r)
    ensures !ReadyRow(b, r)
  {
    if Touched(a, r) { TouchedStays(a, b, reqs, r); }
    assert RowGrows(a, b, r);
    forall id | NewlyDone(a, b, id, r) ensures a.ops[id].Action().Destroy? {
      assert OpSound(a, id);
      WhoseSuccess(a, b, app, id, r);
    }
  }

  lemma NoRevival(a: Db, b: Db, reqs: seq<Request>, app: App, r: ResId)
    requires OpsSound(a) && Grown(a, b, reqs) && AppSound(a, app) && app.teardown.Some? && Owns(app, r)
    requires r in a.rows && !a.rows[r].state.Ready? && !Touched(b, r)
    ensures !ReadyRow(b, r)
  {
    NoRevivalOnceFinished(a, b, reqs, app, r);
  }

  lemma OwnedRows(db: Db, app: App, r: ResId)
    requires MembersSound(db, app) && RoutersSound(db, app) && Owns(app, r)
    ensures r in db.rows
  {
    if i :| 0 <= i < |app.members| && app.members[i].resource == r { assert MemberSound(db, app, i); }
  }

  lemma RouterDownStays(a: Db, b: Db, reqs: seq<Request>, app: App)
    requires OpsSound(a) && Grown(a, b, reqs) && AppSound(a, app) && app.teardown.Some?
    ensures RouterDown(b, app)
  {
    if app.routerResource.Some? && !Touched(b, app.routerResource.value)
       && ReadyRow(b, app.routerResource.value) {
      var r := app.routerResource.value;
      if Touched(a, r) { TouchedStays(a, b, reqs, r); }
      assert RowGrows(a, b, r);
      if !ReadyRow(a, r) { NoRevival(a, b, reqs, app, r); }
      var id := app.teardown.value.router.value;
      assert OpGrows(a, b, id);
      assert NewlyDone(a, b, id, r) || !b.ops[id].state.Succeeded?;
    }
  }

  lemma ReplicaDownStays(a: Db, b: Db, reqs: seq<Request>, app: App, i: nat)
    requires OpsSound(a) && Grown(a, b, reqs) && AppSound(a, app) && i < |app.members|
    requires app.teardown.Some? && app.teardown.value.replicas.Some?
    ensures ReplicaDown(b, app, i)
  {
    var r, ids := app.members[i].resource, app.teardown.value.replicas.value;
    if !Touched(b, r) && ReadyRow(b, r) {
      if Touched(a, r) { TouchedStays(a, b, reqs, r); }
      OwnedRows(a, app, r);
      assert RowGrows(a, b, r);
      if !ReadyRow(a, r) { NoRevival(a, b, reqs, app, r); }
      assert ReplicaDown(a, app, i);
      var j :| 0 <= j < |ids| && ids[j] in a.ops && a.ops[ids[j]].resource == r
               && !a.ops[ids[j]].state.Succeeded?;
      assert OpGrows(a, b, ids[j]) && DestroySound(a, app, ids[j]);
      if a.ops[ids[j]].Finished() { FinishedStays(a, b, reqs, ids[j]); }
      assert NewlyDone(a, b, ids[j], r) || !b.ops[ids[j]].state.Succeeded?;
    }
  }

  lemma FinishedDeploysStay(a: Db, b: Db, reqs: seq<Request>, app: App)
    requires Grown(a, b, reqs) && DeploysFinished(a, app)
    ensures DeploysFinished(b, app)
    ensures NeverRouted(a, app) ==> NeverRouted(b, app)
  {
    forall i | 0 <= i < |app.members|
      ensures app.members[i].op in b.ops && b.ops[app.members[i].op] == a.ops[app.members[i].op]
    {
      FinishedStays(a, b, reqs, app.members[i].op);
    }
    forall k | 0 <= k < |app.routers| ensures app.routers[k] in b.ops && b.ops[app.routers[k]].Finished() {
      FinishedStays(a, b, reqs, app.routers[k]);
    }
  }

  lemma TeardownStays(a: Db, b: Db, reqs: seq<Request>, app: App)
    requires OpsSound(a) && Grown(a, b, reqs) && AppSound(a, app)
    ensures TeardownSound(b, app)
  {
    if app.teardown.Some? {
      var teardown := app.teardown.value;
      FinishedDeploysStay(a, b, reqs, app);
      RouterDownStays(a, b, reqs, app);
      if teardown.router.Some? { assert OpGrows(a, b, teardown.router.value); }
      if teardown.replicas.Some? {
        forall i | 0 <= i < |app.members| ensures ReplicaDown(b, app, i) { ReplicaDownStays(a, b, reqs, app, i); }
        forall j | 0 <= j < |teardown.replicas.value| ensures DestroySound(b, app, teardown.replicas.value[j]) {
          assert DestroySound(a, app, teardown.replicas.value[j]);
          assert OpGrows(a, b, teardown.replicas.value[j]);
        }
      }
    }
  }

  /** The app's record stays sound however the ledger grows. */
  lemma RecordStays(a: Db, b: Db, reqs: seq<Request>, app: App)
    requires OpsSound(a) && Grown(a, b, reqs) && AppSound(a, app)
    ensures RecordSound(b, app)
  {
    hide Grown, OpsFit, TeardownSound, RouterFirst, AllRowsSound, MembersSound, RoutersSound, AllRefsSound;
    MembersStay(a, b, reqs, app);
    RoutersStay(a, b, reqs, app);
    RefsKept(a, b, reqs, app);
    RowsStay(a, b, reqs, app);
    TeardownStays(a, b, reqs, app);
  }

  lemma RefsKept(a: Db, b: Db, reqs: seq<Request>, app: App)
    requires Grown(a, b, reqs) && MembersSound(a, app) && RoutersSound(a, app) && AllRefsSound(a, app)
    ensures WiringValid(app.wiring, |app.members|) && AllRefsSound(b, app)
  {
    RefsStay(a, b, reqs, app);
  }

  lemma RowsStay(a: Db, b: Db, reqs: seq<Request>, app: App)
    requires OpsSound(a) && Grown(a, b, reqs) && AppSound(a, app)
    ensures AllRowsSound(b, app)
  {
    RouterRowStays(a, b, reqs, app);
    forall i | 0 <= i < |app.members| ensures ReplicaRow(b, app, i) { ReplicaRowStays(a, b, reqs, app, i); }
  }

  /** Requests that are none of the app's business. */
  predicate Foreign(db: Db, app: App, req: Request) {
    && AppOf(req.key) != Some(app.id)
    && (Owns(app, Target(req)) && !req.intent.action.DriftCheck? ==>
          req.key.CallerKey?
          && (req.intent.resource.Some? ==> app.teardown.Some? && !OwnDeployed(db, app, Target(req))))
  }

  lemma FitsStays(a: Db, b: Db, reqs: seq<Request>, app: App)
    requires Grown(a, b, reqs) && OpsFit(a, app)
    requires forall k :: 0 <= k < |reqs| ==> Foreign(a, app, reqs[k])
    ensures OpsFit(b, app)
  {
    forall id ensures OpFitsAt(b, app, id) {
      if id in a.ops {
        assert OpFitsAt(a, app, id) && OpGrows(a, b, id);
      } else {
        assert NewOpGrows(a, b, reqs, id);
      }
    }
  }

  lemma RouterStaysFirst(a: Db, b: Db, reqs: seq<Request>, app: App)
    requires OpsSound(a) && Grown(a, b, reqs) && AppSound(a, app)
    requires forall k :: 0 <= k < |reqs| ==> Foreign(a, app, reqs[k])
    ensures RouterFirst(b, app)
  {
    if app.routerResource.Some? && !Touched(b, app.routerResource.value) {
      var r := app.routerResource.value;
      if id :| ReplicaDestroy(b, app, id) {
        assert id in a.ops || NewOpGrows(a, b, reqs, id);
        assert OpGrows(a, b, id) && ReplicaDestroy(a, app, id) && OpFitsAt(a, app, id);
      }
      if Touched(a, r) { TouchedStays(a, b, reqs, r); }
      OwnedRows(a, app, r);
      if app.teardown.Some? && !ReadyRow(a, r) { NoRevival(a, b, reqs, app, r); }
    }
  }

  lemma AppStays(a: Db, b: Db, reqs: seq<Request>, app: App)
    requires OpsSound(a) && Grown(a, b, reqs) && AppSound(a, app)
    requires forall k :: 0 <= k < |reqs| ==> Foreign(a, app, reqs[k])
    ensures AppSound(b, app)
  {
    hide Grown, OpsFit, RecordSound, RouterFirst;
    FitsOf(a, app);
    RecordStays(a, b, reqs, app);
    FitsStays(a, b, reqs, app);
    RouterStaysFirst(a, b, reqs, app);
    TouchedStaysSound(a, b, reqs, app);
  }

  lemma DeployedNoMore(a: Db, b: Db, reqs: seq<Request>, app: App, r: ResId)
    requires Grown(a, b, reqs) && DeploysFinished(a, app) && !OwnDeployed(a, app, r)
    ensures !OwnDeployed(b, app, r)
  {
    DeployedStays(a, b, reqs, app.routers);
    forall i | 0 <= i < |app.members|
      ensures StateOf(b.ops, app.members[i].op) == StateOf(a.ops, app.members[i].op)
    {
      FinishedStays(a, b, reqs, app.members[i].op);
    }
  }

  /** A resource that a growth touches for the first time is a request's. */
  lemma TouchedBefore(a: Db, b: Db, reqs: seq<Request>, r: ResId)
    requires Grown(a, b, reqs) && Touched(b, r)
    requires forall k :: 0 <= k < |reqs| ==> !(reqs[k].key.CallerKey? && Target(reqs[k]) == r
                                               && !reqs[k].intent.action.DriftCheck?)
    ensures Touched(a, r)
  {
    var id :| DirectOn(b, id, r);
    assert id in a.ops || NewOpGrows(a, b, reqs, id);
    assert OpGrows(a, b, id);
    assert DirectOn(a, id, r);
  }

  lemma TouchedStaysSound(a: Db, b: Db, reqs: seq<Request>, app: App)
    requires Grown(a, b, reqs) && AppSound(a, app)
    requires forall k :: 0 <= k < |reqs| ==> Foreign(a, app, reqs[k])
    ensures TouchedSound(b, app)
  {
    hide OpsFit, RouterFirst, Touched;
    forall r | Owns(app, r) && Touched(b, r) ensures app.teardown.Some? && !OwnDeployed(b, app, r) {
      OwnedRows(a, app, r);
      if !(app.teardown.Some? && !OwnDeployed(a, app, r)) {
        forall k | 0 <= k < |reqs|
          ensures !(reqs[k].key.CallerKey? && Target(reqs[k]) == r && !reqs[k].intent.action.DriftCheck?)
        {
          assert NewIsThere(a, b, reqs[k]);
        }
        TouchedBefore(a, b, reqs, r);
      }
      DeployedNoMore(a, b, reqs, app, r);
    }
  }

  lemma FitsOf(db: Db, app: App)
    requires AppSound(db, app)
    ensures OpsFit(db, app) && RecordSound(db, app) && RouterFirst(db, app)
  {
  }
}
