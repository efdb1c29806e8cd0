/** The app steps as one transaction each: what a step of the app model leaves, in terms of the
    tables and the app rows alone. */
module StoreSteps {
  import opened LedgerModel
  import opened LedgerRuns
  import opened AppModel
  import opened AppRuns

  /** The operation a verdict stands for. */
  function StandsFor(verdict: Verdict): Option<OpId> {
    match verdict
    case Rejected(_) => None
    case Replayed(op) => Some(op.id)
    case Accepted(_, op, _) => Some(op.id)
  }

  /** What several requests in one transaction come to: the tables and the operations they stand
      for, or None when one is refused. */
  ghost function Together(db: Db, reqs: seq<Request>, age: Option<nat>, t: Time): Option<(Db, seq<OpId>)> {
    if reqs == [] then Some((db, []))
    else
      var earlier := Together(db, reqs[..|reqs| - 1], age, t);
      if earlier.None? then None
      else
        match LedgerModel.Accept(earlier.value.0, reqs[|reqs| - 1], age, t)
        case Rejected(_) => None
        case Replayed(op) => Some((earlier.value.0, earlier.value.1 + [op.id]))
        case Accepted(db', op, _) => Some((db', earlier.value.1 + [op.id]))
  }

  lemma {:induction false} TogetherCounts(db: Db, reqs: seq<Request>, age: Option<nat>, t: Time)
    ensures var all := Together(db, reqs, age, t); all.Some? ==> |all.value.1| == |reqs|
  {
    if reqs != [] { TogetherCounts(db, reqs[..|reqs| - 1], age, t); }
  }

  lemma AcceptedIs(db: Db, req: Request, age: Option<nat>, t: Time)
    ensures var verdict := LedgerModel.Accept(db, req, age, t);
            verdict.Accepted? ==> verdict.op.id == req.newOp && verdict.db == AcceptDb(db, req, age, t)
  {
  }

  /** Each request names what acceptance relies on, on the tables it meets. */
  ghost predicate ValidatedEach(db: Db, reqs: seq<Request>, age: Option<nat>, t: Time) {
    reqs == []
    || (var earlier := Together(db, reqs[..|reqs| - 1], age, t);
        && ValidatedEach(db, reqs[..|reqs| - 1], age, t)
        && (earlier.Some? ==> Validated(earlier.value.0, reqs[|reqs| - 1])))
  }

  /** `LinkAll`, without the snapshots activities hold. */
  lemma {:induction false} LinkAllIsTogether(w: World, reqs: seq<Request>, age: Option<nat>, t: Time)
    requires ValidatedEach(w.db, reqs, age, t)
    ensures var all, together := LinkAll(w, reqs, age, t), Together(w.db, reqs, age, t);
            && (all.Some? <==> together.Some?)
            && (all.Some? ==> together == Some((all.value.w.db, all.value.ids)) && |all.value.ids| == |reqs|)
  {
    hide LedgerModel.Accept, Validated;
    if reqs != [] {
      LinkAllIsTogether(w, reqs[..|reqs| - 1], age, t);
      var earlier := LinkAll(w, reqs[..|reqs| - 1], age, t);
      if earlier.Some? { AcceptedIs(earlier.value.w.db, reqs[|reqs| - 1], age, t); }
    }
  }

  lemma {:induction false} OneTogether(db: Db, req: Request, age: Option<nat>, t: Time)
    ensures var id := StandsFor(LedgerModel.Accept(db, req, age, t));
            Together(db, [req], age, t)
            == if id.None? then None else Some((AcceptDb(db, req, age, t), [id.value]))
    ensures Validated(db, req) ==> ValidatedEach(db, [req], age, t)
  {
    hide LedgerModel.Accept, Validated;
    assert [req][..0] == [];
    assert Together(db, [], age, t) == Some((db, []));
    AcceptedIs(db, req, age, t);
    var id := StandsFor(LedgerModel.Accept(db, req, age, t));
    if id.Some? { assert [] + [id.value] == [id.value]; }
  }

  // ----- The keys an app remembers -----

  /** The failover under a caller's key: the loop of `accept_failover`. */
  function FailoverUnder(failovers: seq<Failover>, caller: Actor, key: nat): Option<Failover> {
    if failovers == [] then None
    else if failovers[0].caller == caller && failovers[0].key == key then Some(failovers[0])
    else FailoverUnder(failovers[1..], caller, key)
  }

  lemma {:induction false} UnderIsKnown(app: App, caller: Actor, key: nat, i: nat)
    requires i <= |app.failovers|
    requires forall j :: 0 <= j < i ==> !(app.failovers[j].caller == caller && app.failovers[j].key == key)
    ensures FailoverUnder(app.failovers[i..], caller, key).Some? <==> KnownFailover(app, caller, key)
    decreases |app.failovers| - i
  {
    if i < |app.failovers| {
      assert app.failovers[i..][1..] == app.failovers[i + 1..];
      if !(app.failovers[i].caller == caller && app.failovers[i].key == key) { UnderIsKnown(app, caller, key, i + 1); }
    }
  }

  function TeardownUnder(history: seq<TeardownEntry>, caller: Actor, key: nat): Option<TeardownEntry> {
    if history == [] then None
    else if history[0].caller == caller && history[0].key == key then Some(history[0])
    else TeardownUnder(history[1..], caller, key)
  }

  lemma {:induction false} TeardownUnderIsKnown(app: App, caller: Actor, key: nat, i: nat)
    requires i <= |app.history|
    requires forall j :: 0 <= j < i ==> !(app.history[j].caller == caller && app.history[j].key == key)
    ensures TeardownUnder(app.history[i..], caller, key).Some? <==> KnownTeardown(app, caller, key)
    decreases |app.history| - i
  {
    if i < |app.history| {
      assert app.history[i..][1..] == app.history[i + 1..];
      if !(app.history[i].caller == caller && app.history[i].key == key) {
        TeardownUnderIsKnown(app, caller, key, i + 1);
      }
    }
  }

  /** What a teardown request is told: refused, or the router destroy it stands for, if any. */
  datatype TeardownAnswer = TeardownRefused | TeardownIs(router: Option<OpId>)

  function RouterAnswer(verdict: Option<Verdict>): TeardownAnswer {
    if verdict.None? then TeardownIs(None)
    else
      var id := StandsFor(verdict.value);
      if id.None? then TeardownRefused else TeardownIs(id)
  }

  // ----- Each step, on the tables and the app rows -----

  lemma {:induction false} AppIsStep(s: AppSys, app: AppId, actor: Actor, key: nat, material: nat,
                                     wiring: seq<Wire>, reqs: seq<Request>, age: Option<nat>, t: Time)
    requires CanAcceptApp(s, app, actor, key, wiring, reqs) && ValidatedEach(s.w.db, reqs, age, t)
    ensures var after := NextApps(s, AppRuns.AcceptApp(app, actor, key, material, wiring, reqs, age), t);
            var all := Together(s.w.db, reqs, age, t);
            if all.None? then after == s
            else |all.value.1| == |reqs| && after.w.db == all.value.0
                 && after.apps == s.apps[app := NewApp(app, actor, key, material, wiring, reqs, all.value.1, t)]
  {
    hide CanAcceptApp, LinkAll, ValidatedEach, Together;
    LinkAllIsTogether(s.w, reqs, age, t);
  }

  lemma RouterIsStep(s: AppSys, a: AppId, seen: nat, req: Request, age: Option<nat>, t: Time)
    requires CanAcceptRouter(s, a, seen, req) && Validated(s.w.db, req)
    ensures var after := NextApps(s, AppRuns.AcceptRouter(a, seen, req, age), t);
            var id := StandsFor(LedgerModel.Accept(s.w.db, req, age, t));
            && a in s.apps && s.apps[a].routers == [] && !s.apps[a].error
            && after.w.db == AcceptDb(s.w.db, req, age, t)
            && after.apps == if id.None? then s.apps
                             else s.apps[a := WithRouter(s.apps[a], id.value, Target(req), t)]
  {
    hide LedgerModel.Accept, LinkAll, ValidatedEach, Together, Validated;
    OneTogether(s.w.db, req, age, t);
    LinkAllIsTogether(s.w, [req], age, t);
  }

  lemma FailAppIsStep(s: AppSys, a: AppId, t: Time)
    requires a in s.apps
    ensures NextApps(s, AppRuns.FailApp(a), t)
            == if CanFailApp(s, a) then s.(apps := s.apps[a := s.apps[a].(error := true, updatedAt := t)]) else s
  {
    NothingLinked(s.w, None, t);
  }

  lemma FailoverIsStep(s: AppSys, a: AppId, seen: nat, caller: Actor, key: nat, target: nat,
                       req: Request, age: Option<nat>, t: Time)
    requires CanFailover(s, a, seen, caller, key, target, req) && Validated(s.w.db, req)
    ensures var after := NextApps(s, AppRuns.AcceptFailover(a, seen, caller, key, target, req, age), t);
            var id := StandsFor(LedgerModel.Accept(s.w.db, req, age, t));
            && a in s.apps && !KnownFailover(s.apps[a], caller, key)
            && after.w.db == AcceptDb(s.w.db, req, age, t)
            && after.apps == if id.None? then s.apps
                             else s.apps[a := WithFailover(s.apps[a], id.value, target, caller, key, t)]
  {
    hide LedgerModel.Accept, LinkAll, ValidatedEach, Together, Validated, FailoverChecked, KnownFailover;
    OneTogether(s.w.db, req, age, t);
    LinkAllIsTogether(s.w, [req], age, t);
  }

  lemma TeardownIsStep(s: AppSys, a: AppId, seen: nat, caller: Actor, key: nat, router: Option<Request>,
                       age: Option<nat>, t: Time)
    requires CanTeardown(s, a, seen, caller, key, router)
    requires router.Some? ==> Validated(s.w.db, router.value)
    ensures var after := NextApps(s, AppRuns.AcceptTeardown(a, seen, caller, key, router, age), t);
            var answer := RouterAnswer(if router.None? then None
                                       else Some(LedgerModel.Accept(s.w.db, router.value, age, t)));
            && a in s.apps && !KnownTeardown(s.apps[a], caller, key)
            && after.w.db == (if router.None? then s.w.db else AcceptDb(s.w.db, router.value, age, t))
            && after.apps == if answer.TeardownRefused? then s.apps
                             else s.apps[a := WithTeardown(s.apps[a], answer.router, caller, key, t)]
  {
    hide LedgerModel.Accept, ValidatedEach, Together, Validated, TeardownChecked, KnownTeardown, LinkAll;
    if router.Some? {
      OneTogether(s.w.db, router.value, age, t);
      LinkAllIsTogether(s.w, [router.value], age, t);
    } else {
      NothingLinked(s.w, age, t);
    }
  }

  lemma {:induction false} ReplicasAreStep(s: AppSys, a: AppId, checked: nat, seen: nat, reqs: seq<Request>,
                                           age: Option<nat>, t: Time)
    requires CanTeardownReplicas(s, a, checked, seen, reqs) && ValidatedEach(s.w.db, reqs, age, t)
    ensures var after := NextApps(s, AppRuns.AcceptTeardownReplicas(a, checked, seen, reqs, age), t);
            var all := Together(s.w.db, reqs, age, t);
            && a in s.apps && s.apps[a].teardown.Some?
            && s.apps[a].teardown.value.replicas.None? && !s.apps[a].teardown.value.error
            && if all.None? then after == s
               else after.w.db == all.value.0 && after.apps == s.apps[a := WithReplicas(s.apps[a], all.value.1, t)]
  {
    hide LinkAll, ValidatedEach, Together, DestroyOf, DeriveState, Standing;
    LinkAllIsTogether(s.w, reqs, age, t);
  }

  lemma FailTeardownIsStep(s: AppSys, a: AppId, t: Time)
    requires a in s.apps
    ensures NextApps(s, AppRuns.FailTeardown(a), t)
            == if CanFailTeardown(s, a) then s.(apps := s.apps[a := WithTeardownError(s.apps[a], t)]) else s
  {
    NothingLinked(s.w, None, t);
  }
}
