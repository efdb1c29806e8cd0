/** Exactly when a resource of a destroyed app can become ready again. */
module Revival {
  import opened LedgerModel
  import opened LedgerRuns
  import opened LedgerSafety
  import opened Lifecycles
  import opened AppModel
  import opened AppRuns
  import opened AppLedger
  import opened AppInvariants
  import opened AppSafety
  import opened AppSteps
  import opened AppProgress
  import opened Continuations

  // ----- A destroyed row with no deploy under way -----

  predicate DeployOpen(db: Db, id: OpId, r: ResId) {
    id in db.ops && db.ops[id].resource == r && db.ops[id].Action().Deploy? && !db.ops[id].Finished()
  }

  ghost predicate Closed(db: Db, r: ResId) {
    && r in db.rows && db.rows[r].state.Destroyed?
    && forall id {:trigger DeployOpen(db, id, r)} :: !DeployOpen(db, id, r)
  }

  /** The latest operation of `r` is the old one or a new one. */
  ghost predicate LatestMoves(a: Db, b: Db, r: ResId) {
    && a.ops.Keys <= b.ops.Keys
    && (r in a.rows ==> r in b.rows && (b.rows[r].latest == a.rows[r].latest || b.rows[r].latest !in a.ops))
  }

  lemma MovesTwice(a: Db, b: Db, c: Db, r: ResId)
    requires LatestMoves(a, b, r) && LatestMoves(b, c, r)
    ensures LatestMoves(a, c, r)
  {
  }

  lemma ChangeMovesLatest(db: Db, change: Change, t: Time, r: ResId)
    requires OpsSound(db) && RowsSound(db) && Legal(db, change, t)
    ensures LatestMoves(db, Apply(db, change, t), r)
    ensures !change.Enters? && r in db.rows ==> Apply(db, change, t).rows[r].latest == db.rows[r].latest
  {
    if change.Moves? { MoveIsMoved(db, change.op, change.events, t, change.clean); }
  }

  predicate Deploys(change: Change, r: ResId) {
    change.Enters? && change.req.intent.action.Deploy? && Target(change.req) == r
  }

  lemma ChangeKeepsClosed(db: Db, change: Change, t: Time, r: ResId)
    requires OpsSound(db) && Legal(db, change, t) && Closed(db, r) && !Deploys(change, r)
    ensures Closed(Apply(db, change, t), r)
  {
    var after := Apply(db, change, t);
    if change.Moves? {
      assert OpSound(db, change.op.id);
      assert !DeployOpen(db, change.op.id, r);
    }
    forall id ensures !DeployOpen(after, id, r) { assert !DeployOpen(db, id, r); }
  }

  /** An accepted deploy of `r`. */
  ghost predicate Reopens(w: World, step: Step, t: Time, r: ResId) {
    step.Submit? && Accepts(w.db, step.req, step.age, t) && step.req.intent.action.Deploy? && Target(step.req) == r
  }

  lemma NextMovesLatest(w: World, step: Step, t: Time, r: ResId)
    requires SoundWorld(w)
    ensures LatestMoves(w.db, Next(w, step, t).db, r)
  {
    hide Next, Legal, LatestMoves;
    NextMakes(w, step, t);
    var first, second := FirstChange(w, step, t), SecondChange(w, step, t);
    var mid := Apply(w.db, first, t);
    LegalKeepsSound(w.db, first, t);
    ChangeMovesLatest(w.db, first, t, r);
    ChangeMovesLatest(mid, second, t, r);
    MovesTwice(w.db, mid, Next(w, step, t).db, r);
  }

  lemma NextKeepsClosed(w: World, step: Step, t: Time, r: ResId)
    requires SoundWorld(w) && Closed(w.db, r) && !Reopens(w, step, t, r)
    ensures Closed(Next(w, step, t).db, r)
  {
    hide Next, Legal, Closed;
    NextMakes(w, step, t);
    LegalKeepsSound(w.db, FirstChange(w, step, t), t);
    ChangeKeepsClosed(w.db, FirstChange(w, step, t), t, r);
    ChangeKeepsClosed(Apply(w.db, FirstChange(w, step, t), t), SecondChange(w, step, t), t, r);
  }

  /** An accepted change of an existing row names its latest operation. */
  lemma AcceptedSaw(w: World, req: Request, age: Option<nat>, t: Time)
    requires SoundWorld(w) && Accepts(w.db, req, age, t) && Target(req) in w.db.rows
    ensures req.resolved.previousOp == Some(w.db.rows[Target(req)].latest)
  {
    hide Unblocked, Accept;
    UnblockMakes(w.db, req, age, t);
    AcceptedMeans(w.db, req, age, t);
    ChangeMovesLatest(w.db, UnblockChange(w.db, req, t), t, Target(req));
  }

  predicate AsksDeploy(req: Request, r: ResId) { req.intent.action.Deploy? && req.intent.resource == Some(r) }

  lemma {:induction false} LinkMovesLatest(w: World, reqs: seq<Request>, age: Option<nat>, t: Time, r: ResId)
    requires SoundWorld(w) && LinkAll(w, reqs, age, t).Some?
    ensures var after := LinkAll(w, reqs, age, t).value.w; SoundWorld(after) && LatestMoves(w.db, after.db, r)
  {
    hide Next, Accept, SoundWorld, LatestMoves;
    if reqs == [] {
      StaysLatest(w.db, r);
    } else {
      var n := |reqs| - 1;
      LinkMovesLatest(w, reqs[..n], age, t, r);
      var mid := LinkAll(w, reqs[..n], age, t).value.w;
      StaysLatest(mid.db, r);
      NextMovesLatest(mid, Submit(reqs[n], age), t, r);
      NextKeepsSound(mid, Submit(reqs[n], age), t);
      MovesTwice(w.db, mid.db, LinkAll(w, reqs, age, t).value.w.db, r);
    }
  }

  lemma {:induction false} LinkKeepsClosed(w: World, reqs: seq<Request>, age: Option<nat>, t: Time, r: ResId)
    requires SoundWorld(w) && LinkAll(w, reqs, age, t).Some? && Closed(w.db, r)
    requires forall k :: 0 <= k < |reqs| ==> !AsksDeploy(reqs[k], r)
    ensures Closed(LinkAll(w, reqs, age, t).value.w.db, r)
  {
    hide Next, Accept, SoundWorld, Closed, LatestMoves;
    if reqs != [] {
      var n := |reqs| - 1;
      LinkKeepsClosed(w, reqs[..n], age, t, r);
      LinkMovesLatest(w, reqs[..n], age, t, r);
      var mid := LinkAll(w, reqs[..n], age, t).value.w;
      NewIsElsewhere(mid, reqs[n], age, t, r);
      NextKeepsClosed(mid, Submit(reqs[n], age), t, r);
    }
  }

  lemma StaysLatest(db: Db, r: ResId)
    ensures LatestMoves(db, db, r)
  {
  }

  lemma NewIsElsewhere(w: World, req: Request, age: Option<nat>, t: Time, r: ResId)
    requires Closed(w.db, r) && !AsksDeploy(req, r)
    ensures !Reopens(w, Submit(req, age), t, r)
  {
    hide Accept;
  }

  // ----- A resource that is gone for good -----

  /** What a look saw last on `r` is in the ledger. */
  predicate LatestSeen(look: Look, db: Db, r: ResId) { r in look.db.rows ==> look.db.rows[r].latest in db.ops }

  ghost predicate LooksSeen(s: AppSys, r: ResId) {
    forall look {:trigger LatestSeen(look, s.w.db, r)} :: look in s.looks ==> LatestSeen(look, s.w.db, r)
  }

  ghost predicate NonePasses(s: AppSys, r: ResId) {
    forall look {:trigger StillPasses(look, s.w.db, r)} :: look in s.looks ==> !StillPasses(look, s.w.db, r)
  }

  /** Its app is being torn down, its row is destroyed, nothing on it is under way, and no look lets a
      caller through any more. */
  ghost predicate Gone(s: AppSys, a: AppId, r: ResId) {
    && a in s.apps && Owns(s.apps[a], r) && s.apps[a].teardown.Some?
    && Closed(s.w.db, r) && LooksSeen(s, r) && NonePasses(s, r)
  }

  lemma LooksStaySeen(s: AppSys, after: AppSys, r: ResId)
    requires LooksSeen(s, r) && after.looks == s.looks && s.w.db.ops.Keys <= after.w.db.ops.Keys
    ensures LooksSeen(after, r)
  {
    forall look | look in after.looks ensures LatestSeen(look, after.w.db, r) {
      assert LatestSeen(look, s.w.db, r);
    }
  }

  lemma StillNonePasses(s: AppSys, after: AppSys, r: ResId)
    requires LooksSeen(s, r) && NonePasses(s, r) && after.looks == s.looks
    requires LatestMoves(s.w.db, after.w.db, r) && r in s.w.db.rows
    ensures NonePasses(after, r)
  {
    hide DeriveState;
    forall look | look in after.looks ensures !StillPasses(look, after.w.db, r) {
      assert LatestSeen(look, s.w.db, r) && !StillPasses(look, s.w.db, r);
    }
  }

  lemma SoundParts(s: AppSys, a: AppId)
    requires SysSound(s)
    ensures SoundWorld(s.w) && AppAt(s, a)
  {
  }

  /** A caller's accepted deploy rests on a look that still passes. */
  lemma WouldPass(s: AppSys, req: Request, seen: nat, age: Option<nat>, t: Time, r: ResId)
    requires SoundWorld(s.w) && MayChange(s, req, seen) && AsksDeploy(req, r) && r in s.w.db.rows
    requires Accepts(s.w.db, req, age, t)
    ensures seen < |s.looks| && StillPasses(s.looks[seen], s.w.db, r)
  {
    hide SoundWorld, DeriveState, Accept;
    AcceptedSaw(s.w, req, age, t);
  }

  /** Only a caller could deploy what a torn down app owns, on a look that lets him. */
  lemma NobodyDeploys(s: AppSys, step: AppStep, a: AppId, r: ResId, k: nat, t: Time)
    requires SysSound(s) && Gone(s, a, r) && Committed(s, step, t).Some?
    requires Asks(s, step).Some? && k < |Asks(s, step).value|
    requires AsksDeploy(Asks(s, step).value[k], r)
    ensures step.Direct? && Committed(s, step, t).value.w == s.w
  {
    hide SoundWorld, LookSound, AppSound, Closed, LooksSeen, DeriveState, Accept, FailoverKnows, FailoverChecked;
    SoundParts(s, a);
    if step.AcceptFailover? {
      NoTeardownYet(s, step);
      FailoverIsInformed(s, step.app, step.seen, step.caller, step.key, step.target, step.req);
      KnowsResource(s.w.db, s.apps[step.app], step.target, step.req);
      SoundParts(s, step.app);
      OwnersApart(s.w.db, s.apps[a], s.apps[step.app], r);
    } else if step.Direct? {
      LinkOne(s.w, step.req, step.age, t);
      assert Closed(s.w.db, r) && r in s.w.db.rows by { InRows(s, a, r); }
      if Accepts(s.w.db, step.req, step.age, t) {
        WouldPass(s, step.req, step.seen, step.age, t, r);
      }
    }
  }

  lemma InRows(s: AppSys, a: AppId, r: ResId)
    requires Gone(s, a, r)
    ensures Closed(s.w.db, r) && r in s.w.db.rows
  {
  }

  lemma LedgerStaysClosed(s: AppSys, step: AppStep, a: AppId, r: ResId, t: Time)
    requires SysSound(s) && Gone(s, a, r)
    ensures var after := NextApps(s, step, t); Closed(after.w.db, r) && LatestMoves(s.w.db, after.w.db, r)
  {
    hide SoundWorld, LookSound, AppAt, FreedSound, KeyKnown, Closed, LooksSeen, NonePasses;
    hide LinkAll, Next, Asks, LatestMoves;
    InRows(s, a, r);
    StaysLatest(s.w.db, r);
    CommittedAsked(s, step, t);
    if step.Base? {
      if !step.step.Submit? {
        NextKeepsClosed(s.w, step.step, t, r);
        NextMovesLatest(s.w, step.step, t, r);
      }
    } else if !step.Glance? && Committed(s, step, t).Some? {
      var reqs := Asks(s, step).value;
      if k :| 0 <= k < |reqs| && AsksDeploy(reqs[k], r) {
        NobodyDeploys(s, step, a, r, k, t);
      } else {
        LinkKeepsClosed(s.w, reqs, AgeOf(step), t, r);
        LinkMovesLatest(s.w, reqs, AgeOf(step), t, r);
      }
    }
  }

  lemma LooksAfter(s: AppSys, step: AppStep, a: AppId, r: ResId, t: Time)
    requires SysSound(s) && Gone(s, a, r)
    requires var after := NextApps(s, step, t); Closed(after.w.db, r) && LatestMoves(s.w.db, after.w.db, r)
    ensures LooksSeen(NextApps(s, step, t), r) && NonePasses(NextApps(s, step, t), r)
  {
    hide SoundWorld, LookSound, AppAt, FreedSound, KeyKnown, LinkAll, Next, Asks, DeriveState;
    var after := NextApps(s, step, t);
    if step.Glance? {
      forall look | look in after.looks ensures LatestSeen(look, after.w.db, r) && !StillPasses(look, after.w.db, r) {
        if look in s.looks {
          assert LatestSeen(look, s.w.db, r) && !StillPasses(look, s.w.db, r);
        } else {
          assert RowSound(s.w.db, r) by { RowIsSound(s.w, r); }
        }
      }
    } else {
      LooksStaySeen(s, after, r);
      StillNonePasses(s, after, r);
    }
  }

  lemma RowIsSound(w: World, r: ResId)
    requires SoundWorld(w) && r in w.db.rows
    ensures RowSound(w.db, r)
  {
  }

  lemma StaysGone(s: AppSys, step: AppStep, a: AppId, r: ResId, t: Time)
    requires SysSound(s) && Earlier(s, t) && Gone(s, a, r)
    ensures Gone(NextApps(s, step, t), a, r)
  {
    hide SysSound, NextApps, Closed, LooksSeen, NonePasses, LatestMoves;
    LedgerStaysClosed(s, step, a, r, t);
    LooksAfter(s, step, a, r, t);
    AppsOnlyGrow(s, step, t, a);
    OwnsGrows(s.apps[a], NextApps(s, step, t).apps[a], r);
  }

  /** However the run goes on. */
  lemma {:induction false} GoneForGood(run: seq<AppTimed>, more: seq<AppTimed>, a: AppId, r: ResId)
    requires run <= more && Ticking(more) && Gone(RunApps(run), a, r)
    ensures Gone(RunApps(more), a, r)
    decreases |more|
  {
    hide NextApps, Gone;
    if |more| == |run| {
      assert more == run;
    } else {
      var earlier, last := more[..|more| - 1], more[|more| - 1];
      assert run <= earlier;
      GoneForGood(run, earlier, a, r);
      EveryAppRunIsSound(earlier, last.at);
      StaysGone(RunApps(earlier), last.step, a, r, last.at);
    }
  }

  lemma {:induction false} LooksWereSeen(run: seq<AppTimed>, later: Time, r: ResId)
    requires Ticking(run) && (run != [] ==> run[|run| - 1].at < later)
    ensures LooksSeen(RunApps(run), r)
  {
    hide NextApps, SysSound, LooksSeen;
    if run == [] {
      NobodyLooked(r);
    } else {
      var earlier, last := run[..|run| - 1], run[|run| - 1];
      LooksWereSeen(earlier, last.at, r);
      EveryAppRunIsSound(earlier, last.at);
      StepSeesLooks(RunApps(earlier), last.step, last.at, r);
    }
  }

  lemma NobodyLooked(r: ResId)
    ensures LooksSeen(EMPTY_SYS, r)
  {
  }

  lemma StepSeesLooks(s: AppSys, step: AppStep, t: Time, r: ResId)
    requires SysSound(s) && Earlier(s, t) && LooksSeen(s, r)
    ensures LooksSeen(NextApps(s, step, t), r)
  {
    hide SysSound, Next, LinkAll, Asks, AppAfter, OpGrows;
    var after := NextApps(s, step, t);
    StepIsAfter(s, step, t);
    OpsRemain(s, after);
    if step.Glance? {
      forall look | look in after.looks ensures LatestSeen(look, after.w.db, r) {
        if look in s.looks {
          assert LatestSeen(look, s.w.db, r);
        } else if r in s.w.db.rows {
          WorldOf(s);
          assert RowSound(s.w.db, r) by { RowIsSound(s.w, r); }
        }
      }
    } else {
      LooksStaySeen(s, after, r);
    }
  }

  lemma OpsRemain(s: AppSys, after: AppSys)
    requires After(s, after)
    ensures s.w.db.ops.Keys <= after.w.db.ops.Keys
  {
    forall id | id in s.w.db.ops ensures id in after.w.db.ops { assert OpGrows(s.w.db, after.w.db, id); }
  }

  // ----- Exactly when it can come back -----

  /** Its row is not destroyed, or a caller may still act on a look that lets him. */
  ghost predicate Revivable(s: AppSys, r: ResId) {
    r in s.w.db.rows && (!s.w.db.rows[r].state.Destroyed? || !NonePasses(s, r))
  }

  /** App `a` is destroyed, it owns `r`, and no operation on `r` is under way. */
  ghost predicate DestroyedIdle(s: AppSys, a: AppId, r: ResId) {
    && a in s.apps && Owns(s.apps[a], r) && DeriveState(s.apps[a], s.w.db.ops).AppDestroyed?
    && ResourceFree(s.w.db, r)
  }

  /** What is true now is a look that passes, when the row is not destroyed. */
  lemma NowPasses(s: AppSys, a: AppId, r: ResId)
    requires SysSound(s) && DestroyedIdle(s, a, r) && r in s.w.db.rows && !s.w.db.rows[r].state.Destroyed?
    ensures StillPasses(Look(s.w.db, s.apps), s.w.db, r)
  {
    hide SoundWorld, LookSound, AppSound, FreedSound, KeyKnown, DeriveState, ResourceFree;
    assert AppAt(s, a);
    forall b | b in s.apps && Owns(s.apps[b], r) ensures b == a {
      assert AppAt(s, b);
      if b != a { OwnersApart(s.w.db, s.apps[a], s.apps[b], r); }
    }
  }

  lemma Revive(run: seq<AppTimed>, a: AppId, r: ResId, t: Time) returns (more: seq<AppTimed>)
    requires Ticking(run) && (run != [] ==> run[|run| - 1].at < t)
    requires DestroyedIdle(RunApps(run), a, r) && Revivable(RunApps(run), r)
    ensures run <= more && Ticking(more) && ReadyRow(RunApps(more).w.db, r)
  {
    hide RunApps, SysSound, DeriveState, SoundWorld, ResourceFree, Unused, StillPasses, Ticking;
    EveryAppRunIsSound(run, t);
    var s := RunApps(run);
    WorldOf(s);
    var seen := |s.looks|;
    if s.w.db.rows[r].state.Destroyed? {
      var look :| look in s.looks && StillPasses(look, s.w.db, r);
      seen :| 0 <= seen < |s.looks| && s.looks[seen] == look;
    } else {
      NowPasses(s, a, r);
    }
    more := AddLook(run, t);
    var n := FreshFor(s.w.db);
    more := CallerChanges(more, Deploy, r, seen, n, t + 1);
  }

  lemma {:induction false} NotRevivableIsGone(run: seq<AppTimed>, a: AppId, r: ResId, t: Time)
    requires Ticking(run) && (run != [] ==> run[|run| - 1].at < t)
    requires DestroyedIdle(RunApps(run), a, r) && !Revivable(RunApps(run), r)
    ensures Gone(RunApps(run), a, r)
  {
    hide RunApps, DeriveState, SoundWorld, LooksSeen, NonePasses, LookSound, FreedSound, KeyKnown, AppSound;
    var s := RunApps(run);
    EveryAppRunIsSound(run, t);
    LooksWereSeen(run, t, r);
    DestroyedMeansTeardown(s.apps[a], s.w.db.ops);
    assert AppAt(s, a);
    RowsOf(s.w.db, s.apps[a], r);
    forall id ensures !DeployOpen(s.w.db, id, r) { }
  }

  /** In every reachable state, for every destroyed app and every resource of it that is idle: some
      continuation of the run makes the resource ready if and only if its row is not destroyed, or a
      caller may still act on an earlier read that let him and that nothing was accepted after. */
  lemma {:induction false} RevivesExactly(run: seq<AppTimed>, a: AppId, r: ResId, t: Time)
    requires Ticking(run) && (run != [] ==> run[|run| - 1].at < t)
    requires DestroyedIdle(RunApps(run), a, r)
    ensures (exists more {:trigger RunApps(more)} ::
               run <= more && Ticking(more) && ReadyRow(RunApps(more).w.db, r))
            <==> Revivable(RunApps(run), r)
  {
    hide RunApps, Ticking, DestroyedIdle, Revivable, Closed, NonePasses, LooksSeen;
    if Revivable(RunApps(run), r) {
      var more := Revive(run, a, r, t);
      assert ReadyRow(RunApps(more).w.db, r);
    } else {
      NotRevivableIsGone(run, a, r, t);
      forall more {:trigger RunApps(more)} | run <= more && Ticking(more) ensures !ReadyRow(RunApps(more).w.db, r) {
        GoneForGood(run, more, a, r);
        GoneIsNotReady(RunApps(more), a, r);
      }
    }
  }

  lemma GoneIsNotReady(s: AppSys, a: AppId, r: ResId)
    requires Gone(s, a, r)
    ensures !ReadyRow(s.w.db, r)
  {
  }

  // ----- What the app deployed itself -----

  /** What a destroyed app deployed itself never comes back. */
  lemma OwnIsNotRevivable(s: AppSys, a: AppId, r: ResId)
    requires SysSound(s) && DestroyedIdle(s, a, r) && OwnDeployed(s.w.db, s.apps[a], r)
    ensures !Revivable(s, r)
  {
    hide SoundWorld, AppSound, LookLedger, AppGrows, DeriveState, OwnDeployed, FreedSound, KeyKnown, ResourceFree;
    assert AppAt(s, a);
    DestroyedHoldsNothing(s.w.db, s.apps[a], r);
    forall look | look in s.looks ensures !StillPasses(look, s.w.db, r) {
      assert LookSound(s, look) && LookOwner(s, look, a, r) && LookApp(s, look, a);
      if StillPasses(look, s.w.db, r) {
        DestroyedMeansTeardown(look.apps[a], look.db.ops);
        DeployedThen(s, look, a, r);
        DestroyedHoldsNothing(look.db, look.apps[a], r);
      }
    }
  }
}
