/** What a destroyed app owns and no caller changed: it can become ready again exactly when the app
    never deployed it. */
module OwnDestroys {
  import opened LedgerModel
  import opened LedgerRuns
  import opened LedgerSafety
  import opened AppModel
  import opened AppRuns
  import opened AppLedger
  import opened AppInvariants
  import opened AppSafety
  import opened AppSteps
  import opened AppProgress
  import opened AppTheorems
  import opened Revival

  predicate Destroys(db: Db, id: OpId, r: ResId) {
    id in db.ops && db.ops[id].resource == r && db.ops[id].Action().Destroy?
  }

  ghost predicate ToBeDestroyed(db: Db, r: ResId) { exists id :: Destroys(db, id, r) }

  // ----- A destroyed row was destroyed by some operation -----

  ghost predicate WasDestroyed(db: Db, r: ResId) { Closedown(db, r) ==> ToBeDestroyed(db, r) }

  predicate Closedown(db: Db, r: ResId) { r in db.rows && db.rows[r].state.Destroyed? }

  lemma ChangeKeepsDestroyed(db: Db, change: Change, t: Time, r: ResId)
    requires OpsSound(db) && Legal(db, change, t) && WasDestroyed(db, r)
    ensures WasDestroyed(Apply(db, change, t), r)
  {
    var after := Apply(db, change, t);
    if id :| Destroys(db, id, r) {
      assert Destroys(after, id, r);
    } else if change.Moves? && Closedown(after, r) {
      assert OpSound(db, change.op.id);
      assert Destroys(after, change.op.id, r);
    }
  }

  lemma {:induction false} DestroyedByAnOperation(run: seq<Timed>, r: ResId)
    ensures WasDestroyed(Run(START, run).db, r)
  {
    hide Next, Legal, WasDestroyed;
    if run == [] {
      NothingDestroyed(r);
    } else {
      var w, last := Run(START, run[..|run| - 1]), run[|run| - 1];
      DestroyedByAnOperation(run[..|run| - 1], r);
      EveryRunIsSound(run[..|run| - 1]);
      NextMakes(w, last.step, last.at);
      var first, second := FirstChange(w, last.step, last.at), SecondChange(w, last.step, last.at);
      LegalKeepsSound(w.db, first, last.at);
      ChangeKeepsDestroyed(w.db, first, last.at, r);
      ChangeKeepsDestroyed(Apply(w.db, first, last.at), second, last.at, r);
    }
  }

  lemma NothingDestroyed(r: ResId)
    ensures WasDestroyed(START.db, r)
  {
  }

  // ----- Where an operation comes from -----

  predicate AskedBy(op: Op, req: Request) {
    op.resource == Target(req) && op.terms.key == req.key && op.terms.intent == req.intent
  }

  ghost predicate AskedByOne(op: Op, reqs: seq<Request>) { exists k :: 0 <= k < |reqs| && AskedBy(op, reqs[k]) }

  lemma NewIsAsked(w: World, after: World, req: Request, id: OpId)
    requires after == w || Grown(w.db, after.db, [req])
    requires id in after.db.ops && id !in w.db.ops
    ensures AskedBy(after.db.ops[id], req)
  {
    if after != w { assert NewOpGrows(w.db, after.db, [req], id); }
  }

  lemma OldIsAsked(w: World, after: World, reqs: seq<Request>, more: seq<Request>, id: OpId)
    requires OpsAfter(w.db, after.db) && id in w.db.ops && AskedByOne(w.db.ops[id], reqs) && reqs <= more
    ensures id in after.db.ops && AskedByOne(after.db.ops[id], more)
  {
    assert OpGrows(w.db, after.db, id);
    var k :| 0 <= k < |reqs| && AskedBy(w.db.ops[id], reqs[k]);
    assert AskedBy(after.db.ops[id], more[k]);
  }

  lemma {:induction false} LinkedIsAsked(w: World, reqs: seq<Request>, age: Option<nat>, t: Time, id: OpId)
    requires SoundWorld(w) && LinkAll(w, reqs, age, t).Some?
    requires var after := LinkAll(w, reqs, age, t).value.w; id in after.db.ops && id !in w.db.ops
    ensures AskedByOne(LinkAll(w, reqs, age, t).value.w.db.ops[id], reqs)
  {
    hide Link, SoundWorld, Grown, OpsAfter, AskedBy;
    if reqs != [] {
      var n := |reqs| - 1;
      var mid := LinkAll(w, reqs[..n], age, t).value.w;
      var after := LinkAll(w, reqs, age, t).value.w;
      LinkOnlyAdds(w, reqs[..n], age, t);
      DirectGrows(mid, reqs[n], age, t);
      if id in mid.db.ops {
        LinkedIsAsked(w, reqs[..n], age, t, id);
        SameOps(mid.db);
        if after != mid { OpenedOps(mid.db, after.db, [reqs[n]]); }
        OldIsAsked(mid, after, reqs[..n], reqs, id);
      } else {
        NewIsAsked(mid, after, reqs[n], id);
      }
    }
  }

  lemma OpenedOps(a: Db, b: Db, reqs: seq<Request>)
    requires Grown(a, b, reqs)
    ensures OpsAfter(a, b)
  {
  }

  /** A request for a new resource names one that is not there. */
  lemma {:induction false} LinkedIsNew(w: World, reqs: seq<Request>, age: Option<nat>, t: Time, k: nat)
    requires SoundWorld(w) && LinkAll(w, reqs, age, t).Some? && k < |reqs| && reqs[k].intent.resource.None?
    ensures Target(reqs[k]) !in w.db.rows
  {
    hide SoundWorld, Accept, Next;
    var n := |reqs| - 1;
    if k < n {
      LinkedIsNew(w, reqs[..n], age, t, k);
    } else {
      LinkMovesLatest(w, reqs[..n], age, t, Target(reqs[k]));
    }
  }

  // ----- What the app destroys, it deployed -----

  lemma {:induction false} DeployedOne(routers: seq<OpId>, ops: Ops, k: nat)
    requires k < |routers| && StateOf(ops, routers[k]).Succeeded?
    ensures Deployed(routers, ops).Some?
  {
    if k < |routers| - 1 { DeployedOne(routers[..|routers| - 1], ops, k); }
  }

  lemma OwnDeployedStays(a: Db, b: Db, x: App, y: App, r: ResId)
    requires OpsAfter(a, b) && AppGrows(x, y) && OwnDeployed(a, x, r)
    ensures OwnDeployed(b, y, r)
  {
    if i :| 0 <= i < |x.members| && x.members[i].resource == r && StateOf(a.ops, x.members[i].op).Succeeded? {
      assert OpGrows(a, b, x.members[i].op);
      assert y.members[i].resource == r && StateOf(b.ops, y.members[i].op).Succeeded?;
    } else {
      DeployedIsListed(x.routers, a.ops);
      var k :| 0 <= k < |x.routers| && x.routers[k] == Deployed(x.routers, a.ops).value;
      assert OpGrows(a, b, x.routers[k]) && y.routers[k] == y.routers[..|x.routers|][k];
      DeployedOne(y.routers, b.ops, k);
    }
  }

  /** No caller changed `r`, and yet it is to be destroyed: then the app deployed it. */
  ghost predicate Earned(s: AppSys, a: AppId, r: ResId) {
    a in s.apps && Owns(s.apps[a], r) && !Touched(s.w.db, r) && ToBeDestroyed(s.w.db, r) ==>
      OwnDeployed(s.w.db, s.apps[a], r)
  }

  lemma OwnedIsNew(s: AppSys, step: AppStep, t: Time, a: AppId, r: ResId)
    requires SysSound(s) && a in NextApps(s, step, t).apps && Owns(NextApps(s, step, t).apps[a], r)
    ensures (a in s.apps && Owns(s.apps[a], r)) || r !in s.w.db.rows
  {
    hide SysSound, Next, LinkAll;
    WorldOf(s);
    CommittedAsked(s, step, t);
    if Committed(s, step, t).Some? && (step.AcceptApp? || step.AcceptRouter?) && step.app == a {
      var reqs := Asks(s, step).value;
      if !(a in s.apps && Owns(s.apps[a], r)) {
        var k := Owning(s, step, t, r);
        LinkedIsNew(s.w, reqs, AgeOf(step), t, k);
      }
    }
  }

  /** The request that made the app own `r`. */
  lemma Owning(s: AppSys, step: AppStep, t: Time, r: ResId) returns (k: nat)
    requires (step.AcceptApp? || step.AcceptRouter?) && Asks(s, step).Some? && Committed(s, step, t).Some?
    requires step.app in NextApps(s, step, t).apps && Owns(NextApps(s, step, t).apps[step.app], r)
    requires !(step.app in s.apps && Owns(s.apps[step.app], r))
    ensures var reqs := Asks(s, step).value;
            k < |reqs| && reqs[k].intent.resource.None? && Target(reqs[k]) == r
  {
    hide LinkAll, DeriveState;
    var reqs, app := Asks(s, step).value, NextApps(s, step, t).apps[step.app];
    LinkAllCounts(s.w, reqs, AgeOf(step), t);
    if step.AcceptApp? {
      k :| 0 <= k < |app.members| && app.members[k].resource == r;
      assert NewMember(reqs[k], ReplicaKey(step.app, k), step.actor);
    } else {
      k := 0;
    }
  }

  /** Whatever a teardown destroys was ready when it was looked up. */
  lemma DestroyWasSeen(s: AppSys, step: AppStep, k: nat)
    requires step.AcceptTeardown? || step.AcceptTeardownReplicas?
    requires Asks(s, step).Some? && k < |Asks(s, step).value|
    ensures SawApp(s, step.seen, step.app)
    ensures var look, r := s.looks[step.seen], Target(Asks(s, step).value[k]);
            Owns(look.apps[step.app], r) && ReadyRow(look.db, r)
  {
    hide DeriveState;
    if step.AcceptTeardownReplicas? {
      var look := s.looks[step.seen];
      StandingIs(look.apps[step.app], look.db, |look.apps[step.app].members|);
    }
  }

  lemma SeenIsDeployed(s: AppSys, look: Look, a: AppId, r: ResId)
    requires SysSound(s) && look in s.looks && a in look.apps && Owns(look.apps[a], r)
    requires ReadyRow(look.db, r) && !Touched(s.w.db, r)
    ensures a in s.apps && Owns(s.apps[a], r) && OwnDeployed(s.w.db, s.apps[a], r) && r in s.w.db.rows
  {
    hide SoundWorld, Touched, FreedSound, AppSound, AppGrows, OwnDeployed, KeyKnown, DeriveState;
    assert LookSound(s, look) && LookApp(s, look, a);
    if Touched(look.db, r) { TouchedSince(s, look, r); }
    ReadyWasDeployed(look.db, look.apps[a], r);
    OwnDeployedStays(look.db, s.w.db, look.apps[a], s.apps[a], r);
    OwnsGrows(look.apps[a], s.apps[a], r);
  }

  lemma TouchedAfter(a: Db, b: Db, r: ResId)
    requires OpsAfter(a, b) && Touched(a, r)
    ensures Touched(b, r)
  {
    var id :| DirectOn(a, id, r);
    assert OpGrows(a, b, id);
    assert DirectOn(b, id, r);
  }

  /** A destroy of `r` that was there before. */
  lemma OldDestroy(s: AppSys, step: AppStep, t: Time, a: AppId, r: ResId, id: OpId)
    requires SysSound(s) && Earlier(s, t) && Earned(s, a, r)
    requires var after := NextApps(s, step, t);
             && a in after.apps && Owns(after.apps[a], r) && !Touched(after.w.db, r)
             && Destroys(after.w.db, id, r) && id in s.w.db.ops
    ensures OwnDeployed(NextApps(s, step, t).w.db, NextApps(s, step, t).apps[a], r)
  {
    hide SysSound, NextApps, AppGrows, OwnDeployed, Touched;
    var after := NextApps(s, step, t);
    StepIsAfter(s, step, t);
    assert OpGrows(s.w.db, after.w.db, id);
    WorldOf(s);
    OwnedIsNew(s, step, t, a, r);
    assert r in s.w.db.rows by { OpInRows(s.w, id); }
    assert AppAfter(s, after, a);
    if Touched(s.w.db, r) { TouchedAfter(s.w.db, after.w.db, r); }
    assert Destroys(s.w.db, id, r);
    OwnDeployedStays(s.w.db, after.w.db, s.apps[a], after.apps[a], r);
  }

  lemma OpInRows(w: World, id: OpId)
    requires SoundWorld(w) && id in w.db.ops
    ensures w.db.ops[id].resource in w.db.rows
  {
    assert OpSound(w.db, id);
  }

  /** A destroy of `r` that this step accepted. */
  lemma NewDestroy(s: AppSys, step: AppStep, t: Time, a: AppId, r: ResId, id: OpId)
    requires SysSound(s) && Earlier(s, t)
    requires var after := NextApps(s, step, t);
             && a in after.apps && Owns(after.apps[a], r) && !Touched(after.w.db, r)
             && Destroys(after.w.db, id, r) && id !in s.w.db.ops
    ensures OwnDeployed(NextApps(s, step, t).w.db, NextApps(s, step, t).apps[a], r)
  {
    hide SysSound, NextApps, AppGrows, OwnDeployed, Touched, Asks, Committed, AskedBy;
    var after := NextApps(s, step, t);
    StepIsAfter(s, step, t);
    NewComesFrom(s, step, t, id);
    var reqs := Asks(s, step).value;
    var k :| 0 <= k < |reqs| && AskedBy(after.w.db.ops[id], reqs[k]);
    WhoDestroys(s, step, after.w.db.ops[id], k);
    if step.Direct? {
      assert DirectOn(after.w.db, id, r);
      IsTouched(after.w.db, id, r);
    } else {
      DestroyWasSeen(s, step, k);
      if Touched(s.w.db, r) { TouchedAfter(s.w.db, after.w.db, r); }
      AskedTarget(after.w.db.ops[id], reqs[k]);
      SeenIsDeployed(s, s.looks[step.seen], step.app, r);
      OwnedIsNew(s, step, t, a, r);
      OneOwner(s, a, step.app, r);
      assert AppAfter(s, after, a);
      OwnDeployedStays(s.w.db, after.w.db, s.apps[a], after.apps[a], r);
    }
  }

  lemma AskedTarget(op: Op, req: Request)
    requires AskedBy(op, req)
    ensures op.resource == Target(req)
  {
  }

  lemma IsTouched(db: Db, id: OpId, r: ResId)
    requires DirectOn(db, id, r)
    ensures Touched(db, r)
  {
  }

  lemma OneOwner(s: AppSys, a: AppId, b: AppId, r: ResId)
    requires SysSound(s) && a in s.apps && b in s.apps && Owns(s.apps[a], r) && Owns(s.apps[b], r)
    ensures a == b
  {
    hide SoundWorld, LookSound, AppSound, FreedSound, KeyKnown;
    assert AppAt(s, a) && AppAt(s, b);
    if a != b { OwnersApart(s.w.db, s.apps[a], s.apps[b], r); }
  }

  lemma NewComesFrom(s: AppSys, step: AppStep, t: Time, id: OpId)
    requires SysSound(s) && id in NextApps(s, step, t).w.db.ops && id !in s.w.db.ops
    ensures Asks(s, step).Some? && AskedByOne(NextApps(s, step, t).w.db.ops[id], Asks(s, step).value)
  {
    hide SysSound, Next, LinkAll, Asks, Grown;
    WorldOf(s);
    CommittedAsked(s, step, t);
    if step.Base? {
      if !step.step.Submit? {
        BaseGrows(s.w, step.step, t);
        NoNew(s.w.db, Next(s.w, step.step, t).db, id);
      }
    } else if Committed(s, step, t).Some? {
      LinkedIsAsked(s.w, Asks(s, step).value, AgeOf(step), t, id);
    }
  }

  lemma NoNew(a: Db, b: Db, id: OpId)
    requires Grown(a, b, []) && id in b.ops
    ensures id in a.ops
  {
    assert NewOpGrows(a, b, [], id);
  }

  lemma WhoDestroys(s: AppSys, step: AppStep, op: Op, k: nat)
    requires Asks(s, step).Some? && k < |Asks(s, step).value|
    requires AskedBy(op, Asks(s, step).value[k]) && op.Action().Destroy?
    ensures step.AcceptTeardown? || step.AcceptTeardownReplicas? || (step.Direct? && op.terms.key.CallerKey?)
  {
    hide DeriveState;
  }

  lemma {:induction false} DestroysAreEarned(run: seq<AppTimed>, later: Time, a: AppId, r: ResId)
    requires Ticking(run) && (run != [] ==> run[|run| - 1].at < later)
    ensures Earned(RunApps(run), a, r)
  {
    hide NextApps, Touched, OwnDeployed, SysSound;
    if run != [] {
      var earlier, last := run[..|run| - 1], run[|run| - 1];
      var s := RunApps(earlier);
      DestroysAreEarned(earlier, last.at, a, r);
      EveryAppRunIsSound(earlier, last.at);
      var after := NextApps(s, last.step, last.at);
      if a in after.apps && Owns(after.apps[a], r) && !Touched(after.w.db, r) && ToBeDestroyed(after.w.db, r) {
        var id :| Destroys(after.w.db, id, r);
        if id in s.w.db.ops {
          OldDestroy(s, last.step, last.at, a, r, id);
        } else {
          NewDestroy(s, last.step, last.at, a, r, id);
        }
      }
    }
  }

  /** Of what a destroyed app owns: what it deployed itself no continuation of the run makes ready
      again; and what no caller changed and the app did not deploy, some continuation does. */
  lemma {:induction false} RevivesUnlessDeployed(run: seq<AppTimed>, a: AppId, r: ResId, t: Time)
    requires Ticking(run) && (run != [] ==> run[|run| - 1].at < t)
    requires DestroyedIdle(RunApps(run), a, r)
    ensures var s := RunApps(run);
            var revives := exists more {:trigger RunApps(more)} ::
                             run <= more && Ticking(more) && ReadyRow(RunApps(more).w.db, r);
            && (OwnDeployed(s.w.db, s.apps[a], r) ==> !revives)
            && (!Touched(s.w.db, r) ==> (revives <==> !OwnDeployed(s.w.db, s.apps[a], r)))
  {
    hide RunApps, Ticking, Revivable, Touched, OwnDeployed, SysSound, DeriveState, Run;
    var s := RunApps(run);
    EveryAppRunIsSound(run, t);
    RevivesExactly(run, a, r, t);
    if OwnDeployed(s.w.db, s.apps[a], r) {
      OwnIsNotRevivable(s, a, r);
    } else if !Touched(s.w.db, r) {
      DestroysAreEarned(run, t, a, r);
      AppRunsAreRuns(run);
      DestroyedByAnOperation(LedgerOf(run), r);
      OwnedInRows(s, a, r);
      NotClosedDown(s, r);
    }
  }

  lemma OwnedInRows(s: AppSys, a: AppId, r: ResId)
    requires SysSound(s) && a in s.apps && Owns(s.apps[a], r)
    ensures r in s.w.db.rows
  {
    hide SoundWorld, LookSound, FreedSound, KeyKnown;
    assert AppAt(s, a);
    RowsOf(s.w.db, s.apps[a], r);
  }

  lemma NotClosedDown(s: AppSys, r: ResId)
    requires r in s.w.db.rows && !Closedown(s.w.db, r)
    ensures Revivable(s, r)
  {
  }
}
