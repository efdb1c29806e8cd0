/** Runs of apps continued one step at a time, and a caller's own change carried through. */
module Continuations {
  import opened LedgerModel
  import opened LedgerRuns
  import opened LedgerSafety
  import opened Lifecycles
  import opened AppModel
  import opened AppRuns
  import opened AppSteps

  lemma {:induction false} AppsAppend(run: seq<AppTimed>, step: AppStep, t: Time)
    ensures RunApps(run + [AppTimed(step, t)]) == NextApps(RunApps(run), step, t)
  {
    assert (run + [AppTimed(step, t)])[..|run|] == run;
  }

  lemma Nobody()
    ensures RunApps([]) == EMPTY_SYS
  {
  }

  lemma Add(run: seq<AppTimed>, step: AppStep, t: Time) returns (more: seq<AppTimed>)
    requires Ticking(run) && (run != [] ==> run[|run| - 1].at < t)
    ensures run <= more && Ticking(more) && more != [] && more[|more| - 1].at == t
    ensures RunApps(more) == NextApps(RunApps(run), step, t)
  {
    AppsAppend(run, step, t);
    more := run + [AppTimed(step, t)];
    forall i, j | 0 <= i < j < |more| ensures more[i].at < more[j].at {
      assert i < |run| && (j < |run| || run[i].at <= run[|run| - 1].at);
    }
  }

  lemma AddBase(run: seq<AppTimed>, step: Step, t: Time) returns (more: seq<AppTimed>)
    requires Ticking(run) && (run != [] ==> run[|run| - 1].at < t) && !step.Submit?
    ensures run <= more && Ticking(more) && more != [] && more[|more| - 1].at == t
    ensures RunApps(more) == RunApps(run).(w := Next(RunApps(run).w, step, t))
  {
    more := Add(run, Base(step), t);
  }

  lemma LookTaken(s: AppSys, t: Time)
    ensures var after := NextApps(s, Glance, t);
            after.w == s.w && after.apps == s.apps && after.looks == s.looks + [Look(s.w.db, s.apps)]
  {
  }

  lemma AddLook(run: seq<AppTimed>, t: Time) returns (more: seq<AppTimed>)
    requires Ticking(run) && (run != [] ==> run[|run| - 1].at < t)
    ensures run <= more && Ticking(more) && more != [] && more[|more| - 1].at == t
    ensures var s, after := RunApps(run), RunApps(more);
            after.w == s.w && after.apps == s.apps && after.looks == s.looks + [Look(s.w.db, s.apps)]
  {
    hide RunApps;
    LookTaken(RunApps(run), t);
    more := Add(run, Glance, t);
  }

  lemma LinkFree(w: World, req: Request, t: Time)
    requires SoundWorld(w) && Enterable(w.db, req) && req.placed
    ensures Link(w, req, None, t) == Some(Linked(Next(w, Submit(req, None), t), [req.newOp]))
  {
    FreeIsAccepted(w.db, req, None, t);
  }

  // ----- Plan, approve and apply -----

  /** A queued operation carried through, one step at a time. */
  lemma Carry(s: AppSys, run: seq<AppTimed>, id: OpId, t: Time) returns (more: seq<AppTimed>)
    requires SoundWorld(s.w) && id in s.w.db.ops && s.w.db.ops[id].state.Queued?
    requires !s.w.db.ops[id].Action().DriftCheck? && s.w.db.ops[id].terms.refs == map[]
    requires RunApps(run) == s && Ticking(run) && run != [] && run[|run| - 1].at < t
    ensures run <= more && Ticking(more) && more[|more| - 1].at == t + 4
    ensures RunApps(more) == s.(w := RunApps(more).w) && Applied(s.w, RunApps(more).w, id, t + 4)
  {
    hide Next, RunApps, SoundWorld, Ticking, BadReference;
    var digest := Sha256(PlanFile(0, 0));
    NoReferences(s.w.db);
    TakePhase(s.w, id, PlanPhase, t);
    var w1 := Next(s.w, Take(id, PlanPhase), t);
    var report := Deliver(w1.db.ops[id], Planned, PlanReport(digest, digest.file.changes, [], 0));
    DeliverPlan(w1, id, digest, t + 1);
    var w2 := Next(w1, report, t + 1);
    OnlyOpTwice(s.w, w1, w2, id, Planning, Planned);
    NoReferences(w2.db);
    ApprovePlan(w2, id, digest, 1, t + 2);
    var w3 := Next(w2, Approve(id, digest, 1, None), t + 2);
    OnlyOpTwice(s.w, w2, w3, id, Planned, ApplyQueued);
    TakePhase(w3, id, ApplyPhase, t + 3);
    var w4 := Next(w3, Take(id, ApplyPhase), t + 3);
    OnlyOpTwice(s.w, w3, w4, id, ApplyQueued, Applying);
    DeliverApply(w4, id, t + 4);
    var result := Deliver(w4.db.ops[id], Succeeded, ApplyReport(0));
    AppliedAfter(s.w, w4, Next(w4, result, t + 4), id, t + 4);
    more := AddBase(run, Take(id, PlanPhase), t);
    more := AddBase(more, report, t + 1);
    more := AddBase(more, Approve(id, digest, 1, None), t + 2);
    more := AddBase(more, Take(id, ApplyPhase), t + 3);
    more := AddBase(more, result, t + 4);
  }

  lemma NoReferences(db: Db)
    ensures !BadReference(db, map[])
  {
  }

  // ----- A caller's own change -----

  /** `look` lets a caller change `r`, and nothing was accepted on `r` since. */
  ghost predicate StillPasses(look: Look, db: Db, r: ResId) {
    && r in look.db.rows && r in db.rows
    && !look.db.rows[r].state.Destroyed? && look.db.rows[r].latest == db.rows[r].latest
    && forall a :: a in look.apps && Owns(look.apps[a], r) ==> DeriveState(look.apps[a], look.db.ops).AppDestroyed?
  }

  /** A caller's deploy or destroy of the row, under a new key. */
  function Again(action: Action, row: Row, n: nat): Request {
    Request(1, CallerKey(n), Intent(action, Some(row.id), 0),
            Resolved(row.zone, row.cost, map[], row.spec, row.promotedFrom, Some(row.latest), None), None, true, n, n)
  }

  ghost predicate MayAsk(db: Db, action: Action, r: ResId) {
    && r in db.rows && ResourceFree(db, r)
    && (action.Deploy? || (action.Destroy? && !Referenced(db, r)))
  }

  lemma AgainEnters(w: World, action: Action, r: ResId, n: nat)
    requires SoundWorld(w) && MayAsk(w.db, action, r) && Unused(w.db, n)
    ensures Enterable(w.db, Again(action, w.db.rows[r], n)) && Target(Again(action, w.db.rows[r], n)) == r
  {
    hide AllApart, Audited, ClaimsSound, OpsSound, ResourceFree, Referenced;
    assert RowSound(w.db, r);
    NoReferences(w.db);
  }

  lemma CallerAsks(s: AppSys, action: Action, r: ResId, seen: nat, n: nat, t: Time)
    requires SoundWorld(s.w) && MayAsk(s.w.db, action, r) && Unused(s.w.db, n)
    requires seen < |s.looks| && StillPasses(s.looks[seen], s.w.db, r)
    ensures var req := Again(action, s.w.db.rows[r], n);
            var after := NextApps(s, Direct(req, None, seen), t);
            && after == s.(w := after.w) && SoundWorld(after.w) && after.w.db == Enter(s.w.db, req, t)
  {
    hide LinkAll, DeriveState, SoundWorld, Next, Enter, Enterable, Link;
    var req := Again(action, s.w.db.rows[r], n);
    AgainEnters(s.w, action, r, n);
    assert MayChange(s, req, seen);
    LinkFree(s.w, req, t);
    LinkOne(s.w, req, None, t);
    SubmitFree(s.w, req, None, t);
  }

  /** A caller's change of `r` was carried out by operation `n`; nothing else changed. */
  ghost predicate CallerDid(w: World, after: World, action: Action, r: ResId, n: nat) {
    && SoundWorld(after) && n in after.db.ops && r in w.db.rows
    && (var op := after.db.ops[n];
        && op.resource == r && op.state.Succeeded? && op.Action() == action && op.terms.key == CallerKey(n)
        && after.db.ops == w.db.ops[n := op])
    && r in after.db.rows
    && (var row := after.db.rows[r];
        && row.state == (if action.Destroy? then Destroyed else Ready) && row.latest == n && row.refs == map[]
        && after.db.rows == w.db.rows[r := row])
  }

  lemma Entering(w: World, mid: World, action: Action, r: ResId, n: nat, t: Time)
    requires SoundWorld(w) && r in w.db.rows && mid.db == Enter(w.db, Again(action, w.db.rows[r], n), t)
    requires !action.DriftCheck?
    ensures n in mid.db.ops && mid.db.ops[n].state.Queued? && mid.db.ops[n].terms.refs == map[]
    ensures mid.db.ops[n].Action() == action && mid.db.ops[n].terms.key == CallerKey(n)
    ensures mid.db.ops == w.db.ops[n := mid.db.ops[n]] && mid.db.ops[n].resource == r
    ensures r in mid.db.rows && mid.db.rows == w.db.rows[r := mid.db.rows[r]]
  {
    assert RowSound(w.db, r);
  }

  lemma Landing(w: World, mid: World, after: World, action: Action, r: ResId, n: nat, t: Time)
    requires !action.DriftCheck? && r in w.db.rows && r in mid.db.rows && n in mid.db.ops
    requires mid.db.ops[n].Action() == action && mid.db.ops[n].terms.key == CallerKey(n)
    requires mid.db.ops == w.db.ops[n := mid.db.ops[n]] && mid.db.ops[n].resource == r
    requires mid.db.ops[n].terms.refs == map[] && mid.db.rows == w.db.rows[r := mid.db.rows[r]]
    requires Applied(mid, after, n, t)
    ensures CallerDid(w, after, action, r, n)
  {
    hide SoundWorld;
    assert OpSound(after.db, n) by { OpIsSound(after, n); }
  }

  /** The change accepted and carried through. */
  lemma CallerChanges(run: seq<AppTimed>, action: Action, r: ResId, seen: nat, n: nat, t: Time)
    returns (more: seq<AppTimed>)
    requires Ticking(run) && (run != [] ==> run[|run| - 1].at < t)
    requires var s := RunApps(run);
             && SoundWorld(s.w) && MayAsk(s.w.db, action, r) && Unused(s.w.db, n)
             && seen < |s.looks| && StillPasses(s.looks[seen], s.w.db, r)
    ensures run <= more && Ticking(more) && more != [] && more[|more| - 1].at == t + 5
    ensures var s, after := RunApps(run), RunApps(more);
            after == s.(w := after.w) && CallerDid(s.w, after.w, action, r, n)
  {
    hide NextApps, RunApps, SoundWorld, Ticking, StillPasses, Unused, Enter, ResourceFree, Referenced, Applied;
    var s := RunApps(run);
    CallerAsks(s, action, r, seen, n, t);
    more := Add(run, Direct(Again(action, s.w.db.rows[r], n), None, seen), t);
    var mid := RunApps(more);
    Entering(s.w, mid.w, action, r, n, t);
    more := Carry(mid, more, n, t + 1);
    Landing(s.w, mid.w, RunApps(more).w, action, r, n, t + 5);
  }
}
