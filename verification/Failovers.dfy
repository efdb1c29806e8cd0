/** Primary and secondary: what the deployed router really points to, and what failing over and back
    leaves behind. */
module Failovers {
  import opened LedgerModel
  import opened LedgerRuns
  import opened AppModel
  import opened AppRuns
  import opened AppInvariants
  import opened AppSafety
  import opened AppSteps

  // ----- What the references of a router point to -----

  /** Every `primary_*` reference names the same replica. */
  predicate OnePrimary(wiring: seq<Wire>) {
    forall w :: w in wiring && IsPrimary(w) ==> w.replica == InitialPrimary(wiring)
  }

  /** Every `primary_*` input of `refs` is fed by replica `p`. */
  ghost predicate PointsTo(refs: Refs, wiring: seq<Wire>, members: seq<Member>, p: nat) {
    p < |members|
    && forall w :: w in wiring && IsPrimary(w) ==> w.name in refs && refs[w.name].resource == members[p].resource
  }

  predicate ResourcesApart(members: seq<Member>) {
    forall i, j :: 0 <= i < j < |members| ==> members[i].resource != members[j].resource
  }

  lemma {:induction false} WiredAs(wiring: seq<Wire>, members: seq<Member>, k: nat)
    requires WiringValid(wiring, |members|) && k < |wiring|
    ensures wiring[k].name in RouterRefs(wiring, members)
    ensures RouterRefs(wiring, members)[wiring[k].name]
            == Ref(members[wiring[k].replica].resource, wiring[k].output)
  {
    if k < |wiring| - 1 { WiredAs(wiring[..|wiring| - 1], members, k); }
  }

  /** One input after a failover. */
  function Turned(refs: Refs, w: Wire, members: seq<Member>, current: nat, target: nat): Option<Ref>
    requires current < |members| && target < |members|
  {
    if IsPrimary(w) then Some(Ref(members[target].resource, w.output))
    else if IsSecondary(w) then Some(Ref(members[current].resource, w.output))
    else if w.name in refs then Some(refs[w.name]) else None
  }

  function At(refs: Refs, name: string): Option<Ref> { if name in refs then Some(refs[name]) else None }

  lemma {:induction false} TurnedAs(refs: Refs, wiring: seq<Wire>, members: seq<Member>,
                                    current: nat, target: nat, k: nat)
    requires WiringValid(wiring, |members|) && k < |wiring| && current < |members| && target < |members|
    ensures At(FailoverRefs(refs, wiring, members, current, target), wiring[k].name)
            == Turned(refs, wiring[k], members, current, target)
  {
    var n := |wiring| - 1;
    if k < n {
      TurnedAs(refs, wiring[..n], members, current, target, k);
      assert wiring[k].name != wiring[n].name;
    } else {
      NotTurned(refs, wiring[..n], members, current, target, wiring[n].name);
    }
  }

  lemma {:induction false} NotTurned(refs: Refs, wiring: seq<Wire>, members: seq<Member>,
                                     current: nat, target: nat, name: string)
    requires current < |members| && target < |members|
    requires forall w :: w in wiring ==> w.name != name
    ensures At(FailoverRefs(refs, wiring, members, current, target), name) == At(refs, name)
  {
    if wiring != [] {
      NotTurned(refs, wiring[..|wiring| - 1], members, current, target, name);
      assert wiring[|wiring| - 1] in wiring;
    }
  }

  lemma {:induction false} InitialPrimaryIs(wiring: seq<Wire>)
    ensures (exists w :: w in wiring && IsPrimary(w)) ==>
      exists w :: w in wiring && IsPrimary(w) && w.replica == InitialPrimary(wiring)
    ensures (forall w :: w in wiring ==> !IsPrimary(w)) ==> InitialPrimary(wiring) == 0
  {
    if wiring != [] && !IsPrimary(wiring[0]) {
      InitialPrimaryIs(wiring[1..]);
      if w :| w in wiring && IsPrimary(w) { assert w in wiring[1..]; }
    }
  }

  /** The rollout's router points to the reported primary exactly when all its `primary_*` inputs
      were wired to one replica. */
  lemma {:induction false} RolloutPointsExactly(wiring: seq<Wire>, members: seq<Member>)
    requires WiringValid(wiring, |members|) && ResourcesApart(members) && |members| > 0
    ensures PointsTo(RouterRefs(wiring, members), wiring, members, InitialPrimary(wiring))
            <==> OnePrimary(wiring)
  {
    InitialPrimaryIs(wiring);
    forall w | w in wiring && IsPrimary(w)
      ensures w.name in RouterRefs(wiring, members)
      ensures RouterRefs(wiring, members)[w.name].resource == members[w.replica].resource
    {
      var k :| 0 <= k < |wiring| && wiring[k] == w;
      WiredAs(wiring, members, k);
    }
  }

  /** A failover's router points to its target, whatever was there before. */
  lemma {:induction false} FailoverPoints(refs: Refs, wiring: seq<Wire>, members: seq<Member>,
                                          current: nat, target: nat)
    requires WiringValid(wiring, |members|) && current < |members| && target < |members|
    ensures PointsTo(FailoverRefs(refs, wiring, members, current, target), wiring, members, target)
  {
    forall w | w in wiring && IsPrimary(w)
      ensures At(FailoverRefs(refs, wiring, members, current, target), w.name)
              == Some(Ref(members[target].resource, w.output))
    {
      var k :| 0 <= k < |wiring| && wiring[k] == w;
      TurnedAs(refs, wiring, members, current, target, k);
    }
  }

  // ----- The reported primary -----

  lemma {:induction false} TargetIs(failovers: seq<Failover>, routers: seq<OpId>, k: nat)
    requires k < |routers| && |failovers| == |routers| - 1
    requires forall i :: 0 <= i < |failovers| ==> failovers[i].op == routers[i + 1]
    requires forall i, j :: 0 <= i < j < |routers| ==> routers[i] != routers[j]
    ensures TargetOf(failovers, routers[k]) == if k == 0 then None else Some(failovers[k - 1].primary)
  {
    if failovers != [] && k < |failovers| {
      TargetIs(failovers[..|failovers| - 1], routers[..|routers| - 1], k);
    } else if failovers != [] {
      assert routers[k] == failovers[|failovers| - 1].op;
    }
  }

  /** Router operation `k` points to the replica reported for it: always for a failover, and for the
      rollout's router exactly when its `primary_*` inputs agree. */
  lemma RouterPoints(db: Db, app: App, k: nat)
    requires MembersSound(db, app) && RoutersSound(db, app) && AllRefsSound(db, app) && k < |app.routers|
    ensures app.routers[k] in db.ops
    ensures PointsTo(db.ops[app.routers[k]].terms.refs, app.wiring, app.members, PrimaryUnder(app, app.routers[k]))
            <==> k > 0 || OnePrimary(app.wiring)
  {
    hide FailoverRefs, RouterRefs, PointsTo, OnePrimary;
    assert RefsSound(db, app, k) && RouterSound(db, app, k);
    TargetIs(app.failovers, app.routers, k);
    if k == 0 {
      RolloutPointsExactly(app.wiring, app.members);
    } else {
      var d := Deployed(app.routers[..k], db.ops).value;
      FailoverPoints(db.ops[d].terms.refs, app.wiring, app.members, PrimaryUnder(app, d), app.failovers[k - 1].primary);
    }
  }

  lemma {:induction false} InitialPrimaryExists(wiring: seq<Wire>, n: nat)
    requires n > 0 && forall w :: w in wiring ==> w.replica < n
    ensures InitialPrimary(wiring) < n
  {
    if wiring != [] { InitialPrimaryExists(wiring[1..], n); }
  }

  /** In every run the reported primary is one of the app's replicas, and its wiring names only
      replicas it has: the two range conditions in the guards of the app steps never refuse. */
  lemma {:induction false} PrimaryIsAReplica(run: seq<AppTimed>, later: Time, a: AppId)
    requires Ticking(run) && (run != [] ==> run[|run| - 1].at < later) && a in RunApps(run).apps
    ensures var s := RunApps(run); var app := s.apps[a];
            PrimaryOf(app, s.w.db.ops) < |app.members| && WiringValid(app.wiring, |app.members|)
  {
    hide RunApps, Touched, SoundWorld, OpsFit;
    EveryAppRunIsSound(run, later);
    var s := RunApps(run);
    var app := s.apps[a];
    assert AppAt(s, a);
    InitialPrimaryExists(app.wiring, |app.members|);
    DeployedIsListed(app.routers, s.w.db.ops);
    if Deployed(app.routers, s.w.db.ops).Some? {
      var k :| 0 <= k < |app.routers| && app.routers[k] == Deployed(app.routers, s.w.db.ops).value;
      TargetIs(app.failovers, app.routers, k);
    }
  }

  /** In every run: while an app's own router is ready, its deployed `primary_*` references are fed
      by the replica that `primary_of` reports, across planned, failed, expired and reconciled
      failovers; before the first failover takes effect this needs the request to have wired all of
      them to one replica, and then it is exact. */
  lemma {:induction false} PrimaryIsReal(run: seq<AppTimed>, later: Time, a: AppId)
    requires Ticking(run) && (run != [] ==> run[|run| - 1].at < later)
    requires var s := RunApps(run);
             a in s.apps && s.apps[a].routerResource.Some?
             && ReadyRow(s.w.db, s.apps[a].routerResource.value)
             && OwnDeployed(s.w.db, s.apps[a], s.apps[a].routerResource.value)
    ensures var s := RunApps(run); var app := s.apps[a];
            var deployed := Deployed(app.routers, s.w.db.ops);
            && deployed.Some?
            && (PointsTo(s.w.db.rows[app.routerResource.value].refs, app.wiring, app.members,
                         PrimaryOf(app, s.w.db.ops))
                <==> deployed.value != app.routers[0] || OnePrimary(app.wiring))
  {
    hide RunApps, Touched, SoundWorld, OpsFit, PointsTo, OnePrimary;
    EveryAppRunIsSound(run, later);
    var s := RunApps(run);
    var app := s.apps[a];
    assert AppAt(s, a);
    RouterOwnDeployed(s.w.db, app);
    DeployedIsListed(app.routers, s.w.db.ops);
    var d := Deployed(app.routers, s.w.db.ops).value;
    var k :| 0 <= k < |app.routers| && app.routers[k] == d;
    RouterPoints(s.w.db, app, k);
    assert RouterRow(s.w.db, app);
  }

  lemma RouterOwnDeployed(db: Db, app: App)
    requires AppSound(db, app) && app.routerResource.Some? && OwnDeployed(db, app, app.routerResource.value)
    ensures Deployed(app.routers, db.ops).Some? && !Touched(db, app.routerResource.value)
  {
    hide Touched, OpsFit;
    assert Owns(app, app.routerResource.value);
  }

  // ----- Failing over and back -----

  /** Primary inputs are wired to `p` and secondary inputs to `q`. */
  predicate Opposite(wiring: seq<Wire>, p: nat, q: nat) {
    forall w :: w in wiring ==> (IsPrimary(w) ==> w.replica == p) && (IsSecondary(w) ==> w.replica == q)
  }

  /** What an input holds after failing over from `p` to `q` and back. */
  lemma {:induction false} ThereAndBack(wiring: seq<Wire>, members: seq<Member>, p: nat, q: nat, k: nat)
    requires WiringValid(wiring, |members|) && p < |members| && q < |members| && k < |wiring|
    ensures var rollout := RouterRefs(wiring, members);
            var back := FailoverRefs(FailoverRefs(rollout, wiring, members, p, q), wiring, members, q, p);
            At(back, wiring[k].name)
            == Some(Ref(members[if IsPrimary(wiring[k]) then p else if IsSecondary(wiring[k]) then q
                                else wiring[k].replica].resource, wiring[k].output))
  {
    var rollout := RouterRefs(wiring, members);
    var there := FailoverRefs(rollout, wiring, members, p, q);
    WiredAs(wiring, members, k);
    TurnedAs(rollout, wiring, members, p, q, k);
    TurnedAs(there, wiring, members, q, p, k);
  }

  /** Failing over and back restores the rollout's references exactly when it wired primary and
      secondary inputs oppositely. */
  lemma {:induction false} BackRestoresExactly(wiring: seq<Wire>, members: seq<Member>, p: nat, q: nat)
    requires WiringValid(wiring, |members|) && ResourcesApart(members) && p < |members| && q < |members|
    ensures var rollout := RouterRefs(wiring, members);
            FailoverRefs(FailoverRefs(rollout, wiring, members, p, q), wiring, members, q, p) == rollout
            <==> Opposite(wiring, p, q)
  {
    hide RouterRefs, FailoverRefs;
    var rollout := RouterRefs(wiring, members);
    var there := FailoverRefs(rollout, wiring, members, p, q);
    var back := FailoverRefs(there, wiring, members, q, p);
    forall k | 0 <= k < |wiring|
      ensures At(back, wiring[k].name) == At(rollout, wiring[k].name)
              <==> (IsPrimary(wiring[k]) ==> wiring[k].replica == p)
                   && (IsSecondary(wiring[k]) ==> wiring[k].replica == q)
    {
      ThereAndBack(wiring, members, p, q, k);
      WiredAs(wiring, members, k);
      PrefixesDiffer(wiring[k]);
    }
    forall name
      ensures (exists k :: 0 <= k < |wiring| && wiring[k].name == name) || At(back, name) == At(rollout, name)
    {
      if forall k :: 0 <= k < |wiring| ==> wiring[k].name != name {
        NotTurned(rollout, wiring, members, p, q, name);
        NotTurned(there, wiring, members, q, p, name);
      }
    }
    SameAt(back, rollout);
    if Opposite(wiring, p, q) {
      assert forall name :: At(back, name) == At(rollout, name);
    }
  }

  lemma PrefixesDiffer(w: Wire)
    ensures !(IsPrimary(w) && IsSecondary(w))
  {
    assert IsPrimary(w) ==> w.name[0] == 'p';
    assert IsSecondary(w) ==> w.name[0] == 's';
  }

  lemma SameAt(a: Refs, b: Refs)
    ensures a == b <==> forall name :: At(a, name) == At(b, name)
  {
    if forall name :: At(a, name) == At(b, name) {
      assert forall name :: name in a <==> At(a, name).Some?;
      assert forall name :: name in b <==> At(b, name).Some?;
      assert forall name :: name in a ==> At(a, name).value == a[name] && At(b, name).value == b[name];
    }
  }

  /** The references with `p` as primary, from a rollout wired to `first`. */
  function WiredFor(app: App, first: nat, p: nat): Refs
    requires WiringValid(app.wiring, |app.members|) && first < |app.members| && p < |app.members|
  {
    var rollout := RouterRefs(app.wiring, app.members);
    if p == first then rollout else FailoverRefs(rollout, app.wiring, app.members, first, p)
  }

  /** With two replicas wired oppositely, the references of every router operation of the run are a
      function of its primary: whenever the first primary is restored, so is every reference. */
  lemma {:induction false} RefsFollowPrimary(db: Db, app: App, k: nat)
    requires MembersSound(db, app) && RoutersSound(db, app) && AllRefsSound(db, app)
    requires |app.members| == 2 && k < |app.routers|
    requires InitialPrimary(app.wiring) < 2
    requires Opposite(app.wiring, InitialPrimary(app.wiring), 1 - InitialPrimary(app.wiring))
    ensures app.routers[k] in db.ops && PrimaryUnder(app, app.routers[k]) < 2
    ensures db.ops[app.routers[k]].terms.refs
            == WiredFor(app, InitialPrimary(app.wiring), PrimaryUnder(app, app.routers[k]))
    decreases k
  {
    hide FailoverRefs, RouterRefs;
    var p := InitialPrimary(app.wiring);
    assert RefsSound(db, app, k) && RouterSound(db, app, k);
    TargetIs(app.failovers, app.routers, k);
    if k > 0 {
      var d := Deployed(app.routers[..k], db.ops).value;
      DeployedIsListed(app.routers[..k], db.ops);
      var j :| 0 <= j < k && app.routers[j] == d;
      RefsFollowPrimary(db, app, j);
      BackRestoresExactly(app.wiring, app.members, p, 1 - p);
    }
  }

  /** In every run: such an app, its router ready and its first primary in charge, has exactly the
      references it was rolled out with, however often it was failed over in between. */
  lemma {:induction false} OriginalRefsReturn(run: seq<AppTimed>, later: Time, a: AppId)
    requires Ticking(run) && (run != [] ==> run[|run| - 1].at < later)
    requires var s := RunApps(run);
             a in s.apps && s.apps[a].routerResource.Some?
             && ReadyRow(s.w.db, s.apps[a].routerResource.value)
             && OwnDeployed(s.w.db, s.apps[a], s.apps[a].routerResource.value)
    requires var s := RunApps(run); var app := s.apps[a]; var p := InitialPrimary(app.wiring);
             |app.members| == 2 && p < 2 && Opposite(app.wiring, p, 1 - p)
             && PrimaryOf(app, s.w.db.ops) == p
    ensures var s := RunApps(run); var app := s.apps[a];
            && WiringValid(app.wiring, |app.members|)
            && s.w.db.rows[app.routerResource.value].refs == RouterRefs(app.wiring, app.members)
  {
    hide RunApps, Touched, SoundWorld, OpsFit, FailoverRefs, RouterRefs;
    EveryAppRunIsSound(run, later);
    var s := RunApps(run);
    var app := s.apps[a];
    assert AppAt(s, a);
    RouterOwnDeployed(s.w.db, app);
    DeployedIsListed(app.routers, s.w.db.ops);
    var d := Deployed(app.routers, s.w.db.ops).value;
    var k :| 0 <= k < |app.routers| && app.routers[k] == d;
    RefsFollowPrimary(s.w.db, app, k);
    assert RouterRow(s.w.db, app);
  }
}
