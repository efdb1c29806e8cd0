/** The two polling loops of app/operation_workflow.py, why they end, and what is true of the app
    when they do. What an activity finds is read off the history of apps around the loop; the loops
    only assume that a failure write eventually succeeds. */
module Workflows {
  import opened LedgerModel
  import opened LedgerRuns
  import opened AppModel
  import opened AppRuns
  import opened AppLedger
  import opened AppInvariants
  import opened AppSafety
  import opened AppSteps
  import opened AppStates
  import opened AppProgress
  import opened AppTheorems

  const POLL: nat := 5
  const SLOW_POLL: nat := 30
  const SLOW_AFTER: nat := 3600
  const MAX_WAIT: nat := 604_800

  /** What one activity reads. */
  datatype View = View(app: App, ops: Ops)

  // ----- The checks -----

  datatype Check = RouterNeeded | ReplicasNeeded | Superseded | State(state: AppState)

  /** `check_app`. */
  function CheckApp(v: View): Check {
    if v.app.teardown.Some? then Superseded
    else if v.app.routers != [] && StateOf(v.ops, v.app.routers[0]).Succeeded? then State(AppReady)
    else
      var state := DeriveState(v.app, v.ops);
      if state.PlanningRouter? && v.app.routers == [] then RouterNeeded else State(state)
  }

  /** `check_teardown`. */
  function CheckTeardown(v: View): Check
    requires v.app.teardown.Some?
  {
    var state := DeriveState(v.app, v.ops);
    if state.PlanningReplicaDestroy? && v.app.teardown.value.replicas.None? then ReplicasNeeded else State(state)
  }

  // ----- What the checks mean -----

  /** In every run `check_app` asks for a router exactly when every replica succeeded, nothing was refused
      or torn down, and there is none; it says ready exactly when the rollout's own router is
      deployed; and `check_teardown` asks for the replicas' destroys exactly when they are not accepted,
      the teardown has not failed, and the router is gone or there never was one to destroy. */
  lemma {:induction false} ChecksAreExact(run: seq<AppTimed>, later: Time, a: AppId)
    requires Ticking(run) && (run != [] ==> run[|run| - 1].at < later) && a in RunApps(run).apps
    ensures var s := RunApps(run); var app, ops := s.apps[a], s.w.db.ops; var check := CheckApp(View(app, ops));
            && (check.Superseded? <==> app.teardown.Some?)
            && (check.RouterNeeded? <==>
                  app.teardown.None? && app.routers == [] && !app.error && EveryMember(app, ops, Succeeded))
            && (check == State(AppReady) <==>
                  app.teardown.None? && app.routers != [] && StateOf(ops, app.routers[0]).Succeeded?)
    ensures var s := RunApps(run); var app, ops := s.apps[a], s.w.db.ops;
            app.teardown.Some? ==>
              var teardown := app.teardown.value;
              (CheckTeardown(View(app, ops)).ReplicasNeeded? <==>
                 teardown.replicas.None? && !teardown.error
                 && (teardown.router.Some? ==> StateOf(ops, teardown.router.value).Succeeded?))
  {
    hide RunApps, SoundWorld, LookSound, FreedSound, KeyKnown, OpsFit, Touched, DeriveState, DeriveTeardownState;
    EveryAppRunIsSound(run, later);
    StatesAreExact(run, later, a);
    var s := RunApps(run);
    var app := s.apps[a];
    assert AppAt(s, a);
    if app.teardown.None? {
      if DeriveState(app, s.w.db.ops).AppReady? { FirstRouterSucceeded(s.w.db, app); }
      if EveryMember(app, s.w.db.ops, Succeeded) { NoneHarmed(app, s.w.db.ops); }
    } else {
      NeededMeans(app, s.w.db.ops);
    }
  }

  lemma NoneHarmed(app: App, ops: Ops)
    requires EveryMember(app, ops, Succeeded)
    ensures !SomeMember(app, ops, Uncertain) && !SomeMember(app, ops, Failed)
  {
  }

  lemma NeededMeans(app: App, ops: Ops)
    requires app.teardown.Some?
    ensures var teardown := app.teardown.value;
            (CheckTeardown(View(app, ops)).ReplicasNeeded? <==>
               teardown.replicas.None? && !teardown.error
               && (teardown.router.Some? ==> StateOf(ops, teardown.router.value).Succeeded?))
  {
  }

  // ----- An acceptance that returns settles the matter -----

  /** The rollout no longer asks for a router. */
  predicate RouterSettled(app: App) { app.routers != [] || app.error || app.teardown.Some? }

  /** Teardown attempt `n` no longer asks for its replicas' destroys. */
  predicate ReplicasSettled(app: App, n: nat) {
    app.teardowns > n
    || (app.teardowns == n && app.teardown.Some?
        && (app.teardown.value.replicas.Some? || app.teardown.value.error))
  }

  lemma SettledIsNotAskedAgain(v: View)
    ensures RouterSettled(v.app) ==> !CheckApp(v).RouterNeeded?
    ensures v.app.teardown.Some? && ReplicasSettled(v.app, v.app.teardowns) ==> !CheckTeardown(v).ReplicasNeeded?
  {
  }

  /** An accepted router, and a recorded refusal, each settle it; and nothing unsettles it. */
  lemma RouterAcceptanceSettles(s: AppSys, step: AppStep, t: Time, later: App)
    requires step.AcceptRouter? || step.FailApp?
    requires step.app in s.apps && step.app in NextApps(s, step, t).apps
    requires step.AcceptRouter? ==> Committed(s, step, t).Some?
    requires AppGrows(NextApps(s, step, t).apps[step.app], later)
    ensures RouterSettled(NextApps(s, step, t).apps[step.app]) && RouterSettled(later)
  {
    hide Next, Accept, LinkAll;
    if step.FailApp? { NothingLinked(s.w, None, t); }
    LinkAllCounts(s.w, if Asks(s, step).Some? then Asks(s, step).value else [], AgeOf(step), t);
  }

  lemma ReplicasAcceptanceSettles(s: AppSys, step: AppStep, t: Time)
    requires step.AcceptTeardownReplicas? || step.FailTeardown?
    requires step.app in s.apps && s.apps[step.app].teardown.Some?
    requires step.AcceptTeardownReplicas? ==> Committed(s, step, t).Some?
    ensures var after := NextApps(s, step, t);
            step.app in after.apps && ReplicasSettled(after.apps[step.app], s.apps[step.app].teardowns)
  {
    hide Next, Accept, LinkAll;
    if step.FailTeardown? { NothingLinked(s.w, None, t); }
    LinkAllCounts(s.w, if Asks(s, step).Some? then Asks(s, step).value else [], AgeOf(step), t);
  }

  /** In every run, what is settled stays settled. */
  lemma {:induction false} SettledStays(run: seq<AppTimed>, k: nat, later: Time, a: AppId, n: nat)
    requires Ticking(run) && k <= |run| && (run != [] ==> run[|run| - 1].at < later)
    requires a in RunApps(run[..k]).apps
    ensures a in RunApps(run).apps
    ensures RouterSettled(RunApps(run[..k]).apps[a]) ==> RouterSettled(RunApps(run).apps[a])
    ensures ReplicasSettled(RunApps(run[..k]).apps[a], n) ==> ReplicasSettled(RunApps(run).apps[a], n)
  {
    hide RunApps;
    RunIsAfter(run, k, later);
    assert AppAfter(RunApps(run[..k]), RunApps(run), a);
  }

  // ----- A history of apps, and what happened between two moments of it -----

  /** A history never ends; its first `m` steps are a run. */
  type History = nat -> AppTimed

  function Prefix(steps: History, m: nat): seq<AppTimed> { seq(m, i requires 0 <= i < m => steps(i)) }

  ghost function At(steps: History, m: nat): AppSys { RunApps(Prefix(steps, m)) }

  ghost predicate TicksOn(steps: History) {
    forall i, j {:trigger steps(i), steps(j)} :: i < j ==> steps(i).at < steps(j).at
  }

  lemma NextMoment(steps: History, m: nat)
    ensures At(steps, m + 1) == NextApps(At(steps, m), steps(m).step, steps(m).at)
  {
    assert Prefix(steps, m + 1)[..m] == Prefix(steps, m);
  }

  lemma GrowsOver(steps: History, k: nat, m: nat, a: AppId)
    requires TicksOn(steps) && k <= m && a in At(steps, k).apps
    ensures a in At(steps, m).apps && AppGrows(At(steps, k).apps[a], At(steps, m).apps[a])
  {
    hide RunApps, AppGrows;
    assert Prefix(steps, m)[..k] == Prefix(steps, k);
    RunIsAfter(Prefix(steps, m), k, steps(m).at);
    assert AppAfter(At(steps, k), At(steps, m), a);
  }

  /** Step `k` recorded why the rollout of `a`, or its teardown, cannot go on. */
  ghost predicate FailsAt(steps: History, a: AppId, k: nat, loop: Loop) {
    a in At(steps, k).apps && steps(k).step == if loop.RolloutLoop? then FailApp(a) else FailTeardown(a)
  }

  ghost predicate CommitsAt(steps: History, a: AppId, k: nat, loop: Loop) {
    && (if loop.RolloutLoop? then steps(k).step.AcceptRouter? else steps(k).step.AcceptTeardownReplicas?)
    && a in At(steps, k).apps && steps(k).step.app == a
    && Committed(At(steps, k), steps(k).step, steps(k).at).Some?
  }

  /** The acceptance found that there is nothing left to accept. */
  ghost predicate FoundAt(steps: History, a: AppId, k: nat, loop: Loop) {
    && a in At(steps, k).apps
    && var app := At(steps, k).apps[a];
       if loop.RolloutLoop? then app.routers != [] || app.error
       else app.teardown.Some? && (app.teardown.value.replicas.Some? || app.teardown.value.error)
  }

  /** How the acceptance activity can return, other than with `retry`, between two moments: it
      committed, a refusal was recorded, or there was nothing left to accept. */
  ghost predicate ReturnedBetween(steps: History, a: AppId, first: nat, last: nat, loop: Loop) {
    exists k: nat {:trigger FoundAt(steps, a, k, loop)} :: first <= k <= last
      && (FoundAt(steps, a, k, loop)
          || (k < last && (CommitsAt(steps, a, k, loop) || FailsAt(steps, a, k, loop))))
  }

  ghost predicate FailedBetween(steps: History, a: AppId, first: nat, last: nat, loop: Loop) {
    exists k: nat {:trigger FailsAt(steps, a, k, loop)} :: first <= k < last && FailsAt(steps, a, k, loop)
  }

  predicate SettledFor(app: App, n: nat, loop: Loop) {
    if loop.RolloutLoop? then RouterSettled(app) else ReplicasSettled(app, n)
  }

  /** However the acceptance of a rollout's router returned, the router is settled from then on. */
  lemma RouterReturnSettles(steps: History, a: AppId, k: nat)
    requires TicksOn(steps)
    requires FoundAt(steps, a, k, RolloutLoop) || CommitsAt(steps, a, k, RolloutLoop)
             || FailsAt(steps, a, k, RolloutLoop)
    ensures FoundAt(steps, a, k, RolloutLoop) ==> RouterSettled(At(steps, k).apps[a])
    ensures !FoundAt(steps, a, k, RolloutLoop) ==>
      a in At(steps, k + 1).apps && RouterSettled(At(steps, k + 1).apps[a])
  {
    hide At, NextApps, AppGrows, RouterSettled;
    if FoundAt(steps, a, k, RolloutLoop) {
      assert RouterSettled(At(steps, k).apps[a]) by { FoundIsSettled(At(steps, k).apps[a]); }
    } else {
      NextMoment(steps, k);
      GrowsOver(steps, k, k + 1, a);
      GrowsByNothing(At(steps, k + 1).apps[a]);
      RouterAcceptanceSettles(At(steps, k), steps(k).step, steps(k).at, At(steps, k + 1).apps[a]);
    }
  }

  lemma FoundIsSettled(app: App)
    requires app.routers != [] || app.error
    ensures RouterSettled(app)
  {
  }

  /** And however the acceptance of the replicas' destroys returned, the attempt is settled. */
  lemma ReplicasReturnSettles(steps: History, a: AppId, k: nat, n: nat)
    requires TicksOn(steps) && a in At(steps, k).apps
    requires At(steps, k).apps[a].teardown.Some? && n <= At(steps, k).apps[a].teardowns
    requires FoundAt(steps, a, k, TeardownLoop) || CommitsAt(steps, a, k, TeardownLoop)
             || FailsAt(steps, a, k, TeardownLoop)
    ensures FoundAt(steps, a, k, TeardownLoop) ==> ReplicasSettled(At(steps, k).apps[a], n)
    ensures !FoundAt(steps, a, k, TeardownLoop) ==>
      a in At(steps, k + 1).apps && ReplicasSettled(At(steps, k + 1).apps[a], n)
  {
    hide At, NextApps, AppGrows;
    if !FoundAt(steps, a, k, TeardownLoop) {
      NextMoment(steps, k);
      ReplicasAcceptanceSettles(At(steps, k), steps(k).step, steps(k).at);
    }
  }

  lemma TeardownsGrow(x: App, y: App)
    requires AppGrows(x, y)
    ensures x.teardowns <= y.teardowns && (x.teardown.Some? ==> y.teardown.Some?)
  {
  }

  /** Settled at every later moment. */
  lemma ReturnSettles(steps: History, a: AppId, first: nat, last: nat, m: nat, n: nat, loop: Loop)
    requires TicksOn(steps) && last <= m && ReturnedBetween(steps, a, first, last, loop)
    requires loop.TeardownLoop? ==>
      a in At(steps, first).apps && At(steps, first).apps[a].teardown.Some? && n <= At(steps, first).apps[a].teardowns
    ensures a in At(steps, m).apps && SettledFor(At(steps, m).apps[a], n, loop)
  {
    hide At, AppGrows, RouterSettled, ReplicasSettled, CommitsAt, FailsAt;
    var k: nat :| first <= k <= last
      && (FoundAt(steps, a, k, loop)
          || (k < last && (CommitsAt(steps, a, k, loop) || FailsAt(steps, a, k, loop))));
    if loop.TeardownLoop? {
      GrowsOver(steps, first, k, a);
      TeardownsGrow(At(steps, first).apps[a], At(steps, k).apps[a]);
      ReplicasReturnSettles(steps, a, k, n);
    } else {
      RouterReturnSettles(steps, a, k);
    }
    SettledOver(steps, if FoundAt(steps, a, k, loop) then k else k + 1, m, a, n);
  }

  lemma SettledOver(steps: History, k: nat, m: nat, a: AppId, n: nat)
    requires TicksOn(steps) && k <= m && a in At(steps, k).apps
    ensures a in At(steps, m).apps
    ensures RouterSettled(At(steps, k).apps[a]) ==> RouterSettled(At(steps, m).apps[a])
    ensures ReplicasSettled(At(steps, k).apps[a], n) ==> ReplicasSettled(At(steps, m).apps[a], n)
  {
    hide RunApps, RouterSettled, ReplicasSettled;
    assert Prefix(steps, m)[..k] == Prefix(steps, k);
    SettledStays(Prefix(steps, m), k, steps(m).at, a, n);
  }

  // ----- What happens around a loop -----

  datatype Loop = RolloutLoop | TeardownLoop

  datatype Acceptance = Returned | Retry | Raised

  /** By cycle: what the check read (None when the activity failed), how an acceptance ended, and
      whether the failure writes went through. */
  datatype Around = Around(
    look: nat -> Option<View>, accepted: nat -> Acceptance, wroteRefusal: nat -> bool, wroteTimeout: nat -> bool)

  /** A timeout write succeeds sooner or later, whenever one starts trying. */
  ghost predicate WritesEventually(around: Around, soon: nat -> nat) {
    forall i :: soon(i) >= i && around.wroteTimeout(soon(i))
  }

  predicate AsksRouter(around: Around, i: nat) {
    around.look(i).Some? && CheckApp(around.look(i).value).RouterNeeded?
  }

  predicate AsksReplicas(around: Around, i: nat) {
    around.look(i).Some? && around.look(i).value.app.teardown.Some?
    && CheckTeardown(around.look(i).value).ReplicasNeeded?
  }

  /** Cycle `i` goes straight on to the next, without a sleep. */
  predicate Skips(around: Around, i: nat, loop: Loop) {
    && (if loop.RolloutLoop? then AsksRouter(around, i) else AsksReplicas(around, i))
    && around.accepted(i).Returned?
  }

  /** How many of the first `n` cycles skip their sleep. */
  ghost function SkipsIn(around: Around, n: nat, loop: Loop): nat {
    if n == 0 then 0 else SkipsIn(around, n - 1, loop) + if Skips(around, n - 1, loop) then 1 else 0
  }

  /** After an acceptance that returned, every later read finds the matter settled. */
  ghost predicate RouterFollows(around: Around) {
    forall i, j :: i < j && AsksRouter(around, i) && around.accepted(i).Returned? && around.look(j).Some? ==>
      RouterSettled(around.look(j).value.app)
  }

  ghost predicate ReplicasFollow(around: Around) {
    forall i, j :: i < j && AsksReplicas(around, i) && around.accepted(i).Returned? && around.look(j).Some? ==>
      ReplicasSettled(around.look(j).value.app, around.look(i).value.app.teardowns)
  }

  /** The loop is about an app being torn down, and only so many teardowns are ever asked for. */
  ghost predicate TeardownsBounded(around: Around, attempts: nat) {
    forall i :: around.look(i).Some? ==>
      around.look(i).value.app.teardown.Some? && around.look(i).value.app.teardowns <= attempts
  }

  /** Cycle `i` of a loop about app `a` starts at moment `moments(i)` of the history: its check reads
      the app and the operations there, and an acceptance that returned did so before the next cycle. */
  ghost predicate ReadOff(around: Around, steps: History, a: AppId, moments: nat -> nat, loop: Loop) {
    && TicksOn(steps)
    && (forall i: nat, j: nat {:trigger moments(i), moments(j)} :: i < j ==> moments(i) <= moments(j))
    && (forall i: nat {:trigger around.look(i)} :: around.look(i).Some? ==>
          a in At(steps, moments(i)).apps
          && around.look(i).value == View(At(steps, moments(i)).apps[a], At(steps, moments(i)).w.db.ops))
    && (forall i: nat {:trigger Skips(around, i, loop)} :: Skips(around, i, loop) ==>
          ReturnedBetween(steps, a, moments(i), moments(i + 1), loop))
  }

  /** What a rollout's loop reads off any history satisfies `RouterFollows`. */
  lemma RouterFollowsAlways(around: Around, steps: History, a: AppId, moments: nat -> nat)
    requires ReadOff(around, steps, a, moments, RolloutLoop)
    ensures RouterFollows(around)
  {
    hide At, AsksRouter, RouterSettled, ReturnedBetween;
    forall i: nat, j: nat | i < j && AsksRouter(around, i) && around.accepted(i).Returned? && around.look(j).Some?
      ensures RouterSettled(around.look(j).value.app)
    {
      assert Skips(around, i, RolloutLoop);
      assert i + 1 == j || moments(i + 1) <= moments(j);
      ReturnSettles(steps, a, moments(i), moments(i + 1), moments(j), 0, RolloutLoop);
    }
  }

  /** And what a teardown's loop reads off any history satisfies `ReplicasFollow`. */
  lemma ReplicasFollowAlways(around: Around, steps: History, a: AppId, moments: nat -> nat)
    requires ReadOff(around, steps, a, moments, TeardownLoop)
    ensures ReplicasFollow(around)
  {
    hide At, ReplicasSettled, ReturnedBetween, CheckTeardown;
    forall i: nat, j: nat | i < j && AsksReplicas(around, i) && around.accepted(i).Returned? && around.look(j).Some?
      ensures ReplicasSettled(around.look(j).value.app, around.look(i).value.app.teardowns)
    {
      assert Skips(around, i, TeardownLoop);
      assert i + 1 == j || moments(i + 1) <= moments(j);
      ReturnSettles(steps, a, moments(i), moments(i + 1), moments(j), around.look(i).value.app.teardowns,
                    TeardownLoop);
    }
  }

  /** A loop begun during a teardown always finds one. */
  lemma TeardownsBoundedAlways(around: Around, steps: History, a: AppId, moments: nat -> nat, attempts: nat)
    requires ReadOff(around, steps, a, moments, TeardownLoop)
    requires a in At(steps, moments(0)).apps && At(steps, moments(0)).apps[a].teardown.Some?
    requires forall m {:trigger At(steps, m)} :: a in At(steps, m).apps ==> At(steps, m).apps[a].teardowns <= attempts
    ensures TeardownsBounded(around, attempts)
  {
    hide At, AppGrows, ReturnedBetween;
    forall i: nat | around.look(i).Some?
      ensures around.look(i).value.app.teardown.Some? && around.look(i).value.app.teardowns <= attempts
    {
      assert i == 0 || moments(0) <= moments(i);
      GrowsOver(steps, moments(0), moments(i), a);
      TeardownsGrow(At(steps, moments(0)).apps[a], At(steps, moments(i)).apps[a]);
    }
  }

  // ----- How long a loop may take -----

  function Pause(waited: nat): nat { if waited < SLOW_AFTER then POLL else SLOW_POLL }

  /** The seconds waited after `n` more sleeps. */
  function Waited(waited0: nat, n: nat): nat {
    if n == 0 then waited0 else Waited(waited0, n - 1) + Pause(Waited(waited0, n - 1))
  }

  /** A fresh loop polls every five seconds for an hour, and then every thirty. */
  lemma {:induction false} WaitedIs(n: nat)
    ensures Waited(0, n) == if n <= 720 then 5 * n else 3600 + 30 * (n - 720)
  {
    if n > 0 { WaitedIs(n - 1); }
  }

  datatype Ending = EndedReady | EndedFailed | EndedDestroyed

  /** The cycles before the deadline, in the worst case. */
  const LONGEST: nat := MAX_WAIT / POLL

  /** When the timeout write goes through that is tried from cycle `i` on, and, each of `n` times that
      a cycle skips the write that would have gone through, from the cycle after it on. */
  ghost function Chain(soon: nat -> nat, i: nat, n: nat): nat {
    if n == 0 then soon(i) else soon(Chain(soon, i, n - 1) + 1)
  }

  /** The waiting takes `LONGEST` cycles, each skipped sleep one more, and then a timeout write ends
      the loop, unless the cycle where it would go through is a skipped one. */
  ghost predicate EndsBy(soon: nat -> nat, cycles: nat, skips: nat) {
    exists i: nat, n: nat :: i <= LONGEST + skips && n <= skips && cycles <= Chain(soon, i, n)
  }

  /** When the timeout write that ends the loop will be tried. */
  ghost predicate DeadlineSet(around: Around, soon: nat -> nat, deadline: nat, cycles: nat, skips: nat) {
    && cycles <= deadline && around.wroteTimeout(deadline)
    && exists i: nat, n: nat :: i <= LONGEST + skips && n <= skips && deadline == Chain(soon, i, n)
  }

  lemma StillInTime(around: Around, soon: nat -> nat, deadline: nat, cycles: nat, skips: nat, waited: nat)
    requires WritesEventually(around, soon)
    requires waited < MAX_WAIT ==> cycles * POLL <= waited + skips * POLL
    requires waited >= MAX_WAIT ==> DeadlineSet(around, soon, deadline, cycles, skips)
    ensures EndsBy(soon, cycles, skips)
  {
    if waited < MAX_WAIT { assert cycles <= Chain(soon, cycles, 0); }
  }

  lemma DeadlineStarts(around: Around, soon: nat -> nat, cycles: nat, skips: nat)
    requires WritesEventually(around, soon) && cycles <= LONGEST + skips
    ensures DeadlineSet(around, soon, soon(cycles), cycles, skips)
  {
    assert soon(cycles) == Chain(soon, cycles, 0);
  }

  lemma SkippedDeadline(around: Around, soon: nat -> nat, deadline: nat, cycles: nat, skips: nat)
    returns (next: nat)
    requires WritesEventually(around, soon) && DeadlineSet(around, soon, deadline, cycles, skips)
    ensures DeadlineSet(around, soon, next, cycles + 1, skips + 1)
  {
    var i: nat, n: nat :| i <= LONGEST + skips && n <= skips && deadline == Chain(soon, i, n);
    if deadline == cycles {
      next := soon(deadline + 1);
      assert next == Chain(soon, i, n + 1);
    } else {
      next := deadline;
    }
  }

  // ----- The rollout's loop -----

  predicate SaysReady(check: Check) { check.Superseded? || check == State(AppReady) }

  ghost predicate NoMoreSkips(around: Around, cycles: nat) {
    forall j :: j >= cycles ==> !AsksRouter(around, j)
  }

  /** `AppRolloutWorkflow.run`. It ends by a stated cycle, at most one cycle skips the sleep, and it
      ends with what the last check said or with a failure that was written. */
  method Rollout(around: Around, soon: nat -> nat, waited0: nat)
    returns (ending: Ending, cycles: nat, waited: nat, ghost skips: nat)
    requires WritesEventually(around, soon) && RouterFollows(around)
    ensures skips == SkipsIn(around, cycles, RolloutLoop) && skips <= 1
    ensures EndsBy(soon, cycles, skips) && skips <= cycles && waited == Waited(waited0, cycles - skips)
    ensures ending.EndedReady? ==>
      around.look(cycles).Some? && SaysReady(CheckApp(around.look(cycles).value))
    ensures ending.EndedFailed? ==>
      (around.look(cycles).Some? && CheckApp(around.look(cycles).value) == State(AppFailed))
      || around.wroteRefusal(cycles) || (waited >= MAX_WAIT && around.wroteTimeout(cycles))
    ensures !ending.EndedDestroyed?
  {
    hide CheckApp, AsksRouter, DeadlineSet, EndsBy;
    waited, cycles, skips := waited0, 0, 0;
    ghost var deadline: nat := soon(0);
    if waited >= MAX_WAIT { DeadlineStarts(around, soon, 0, 0); }
    while true
      invariant skips == SkipsIn(around, cycles, RolloutLoop) && skips <= 1
      invariant skips == 1 ==> NoMoreSkips(around, cycles)
      invariant skips <= cycles && waited == Waited(waited0, cycles - skips)
      invariant waited < MAX_WAIT ==> cycles * POLL <= waited + skips * POLL
      invariant waited >= MAX_WAIT ==> DeadlineSet(around, soon, deadline, cycles, skips)
      decreases 1 - skips, if waited < MAX_WAIT then MAX_WAIT - waited else 0,
                if waited >= MAX_WAIT then deadline - cycles else 0
    {
      StillInTime(around, soon, deadline, cycles, skips, waited);
      var check: Option<Check> :=
        if around.look(cycles).Some? then Some(CheckApp(around.look(cycles).value)) else None;
      assert check == Some(RouterNeeded) <==> AsksRouter(around, cycles) by { AsksIt(around, cycles); }
      if check == Some(RouterNeeded) {
        var accepted := around.accepted(cycles);
        if accepted.Raised? {
          if around.wroteRefusal(cycles) { return EndedFailed, cycles, waited, skips; }
        } else if accepted.Returned? {
          SkipsOnce(around, cycles);
          if waited >= MAX_WAIT { deadline := SkippedDeadline(around, soon, deadline, cycles, skips); }
          cycles, skips := cycles + 1, skips + 1;
          continue;
        }
      }
      if check.Some? && SaysReady(check.value) { return EndedReady, cycles, waited, skips; }
      if check == Some(State(AppFailed)) { return EndedFailed, cycles, waited, skips; }
      if waited >= MAX_WAIT && around.wroteTimeout(cycles) { return EndedFailed, cycles, waited, skips; }
      deadline := SleptDeadline(around, soon, deadline, cycles, skips, waited);
      waited := waited + Pause(waited);
      cycles := cycles + 1;
    }
  }

  /** After a cycle whose timeout write did not go through, or was not due. */
  lemma SleptDeadline(around: Around, soon: nat -> nat, deadline: nat, cycles: nat, skips: nat, waited: nat)
    returns (next: nat)
    requires WritesEventually(around, soon)
    requires waited < MAX_WAIT ==> cycles * POLL <= waited + skips * POLL
    requires waited >= MAX_WAIT ==>
      DeadlineSet(around, soon, deadline, cycles, skips) && !around.wroteTimeout(cycles)
    ensures waited + Pause(waited) < MAX_WAIT ==> (cycles + 1) * POLL <= waited + Pause(waited) + skips * POLL
    ensures waited + Pause(waited) >= MAX_WAIT ==> DeadlineSet(around, soon, next, cycles + 1, skips)
    ensures waited >= MAX_WAIT ==> next == deadline && cycles < deadline
  {
    next := deadline;
    if waited < MAX_WAIT {
      next := soon(cycles + 1);
      DeadlineStarts(around, soon, cycles + 1, skips);
    }
  }

  lemma AsksIt(around: Around, i: nat)
    ensures AsksRouter(around, i) <==> around.look(i).Some? && CheckApp(around.look(i).value).RouterNeeded?
  {
  }

  lemma SkipsOnce(around: Around, i: nat)
    requires RouterFollows(around) && AsksRouter(around, i) && around.accepted(i).Returned?
    ensures NoMoreSkips(around, i + 1)
  {
    forall j | j >= i + 1 ensures !AsksRouter(around, j) {
      if around.look(j).Some? { SettledIsNotAskedAgain(around.look(j).value); }
    }
  }

  // ----- The teardown's loop -----

  /** Every teardown up to attempt `settled` has its destroys, or has failed. */
  ghost predicate SettledTo(around: Around, settled: int, cycles: nat) {
    forall j :: j >= cycles && AsksReplicas(around, j) ==> around.look(j).value.app.teardowns as int > settled
  }

  lemma NothingSettled(around: Around)
    ensures SettledTo(around, -1, 0)
  {
  }

  lemma SettlesMore(around: Around, i: nat, settled: int)
    requires ReplicasFollow(around) && AsksReplicas(around, i) && around.accepted(i).Returned?
    requires SettledTo(around, settled, i)
    ensures SettledTo(around, around.look(i).value.app.teardowns, i + 1)
    ensures around.look(i).value.app.teardowns as int > settled
  {
    forall j | j >= i + 1 && AsksReplicas(around, j)
      ensures around.look(j).value.app.teardowns > around.look(i).value.app.teardowns
    {
      SettledIsNotAskedAgain(around.look(j).value);
    }
  }

  /** `AppTeardownWorkflow.run`. It ends by a stated cycle, each cycle that skips the sleep settles one
      more teardown attempt, and it ends with what the last check said or with a failure that was
      written. */
  method TearDown(around: Around, soon: nat -> nat, attempts: nat, waited0: nat)
    returns (ending: Ending, cycles: nat, waited: nat, ghost skips: nat)
    requires WritesEventually(around, soon) && ReplicasFollow(around) && TeardownsBounded(around, attempts)
    ensures skips == SkipsIn(around, cycles, TeardownLoop) && skips <= attempts + 1
    ensures EndsBy(soon, cycles, skips) && skips <= cycles && waited == Waited(waited0, cycles - skips)
    ensures ending.EndedDestroyed? ==>
      around.look(cycles).Some? && DeriveTeardownState(around.look(cycles).value.app.teardown.value,
                                                       around.look(cycles).value.ops).AppDestroyed?
    ensures ending.EndedFailed? ==>
      (around.look(cycles).Some? && DeriveTeardownState(around.look(cycles).value.app.teardown.value,
                                                        around.look(cycles).value.ops).AppFailed?)
      || around.wroteRefusal(cycles) || (waited >= MAX_WAIT && around.wroteTimeout(cycles))
    ensures !ending.EndedReady?
  {
    hide DeriveTeardownState, AsksReplicas, DeadlineSet, EndsBy;
    waited, cycles, skips := waited0, 0, 0;
    ghost var settled: int := -1;
    NothingSettled(around);
    ghost var deadline: nat := soon(0);
    if waited >= MAX_WAIT { DeadlineStarts(around, soon, 0, 0); }
    while true
      invariant SettledTo(around, settled, cycles) && -1 <= settled <= attempts
      invariant skips == SkipsIn(around, cycles, TeardownLoop) && skips <= settled + 1
      invariant skips <= cycles && waited == Waited(waited0, cycles - skips)
      invariant waited < MAX_WAIT ==> cycles * POLL <= waited + skips * POLL
      invariant waited >= MAX_WAIT ==> DeadlineSet(around, soon, deadline, cycles, skips)
      decreases attempts - settled, if waited < MAX_WAIT then MAX_WAIT - waited else 0,
                if waited >= MAX_WAIT then deadline - cycles else 0
    {
      StillInTime(around, soon, deadline, cycles, skips, waited);
      var check: Option<Check> :=
        if around.look(cycles).Some? then Some(CheckTeardown(around.look(cycles).value)) else None;
      assert check == Some(ReplicasNeeded) <==> AsksReplicas(around, cycles) by { AsksThem(around, cycles); }
      if check == Some(ReplicasNeeded) {
        var accepted := around.accepted(cycles);
        if accepted.Raised? {
          if around.wroteRefusal(cycles) { return EndedFailed, cycles, waited, skips; }
        } else if accepted.Returned? {
          SettlesMore(around, cycles, settled);
          settled := around.look(cycles).value.app.teardowns;
          if waited >= MAX_WAIT { deadline := SkippedDeadline(around, soon, deadline, cycles, skips); }
          cycles, skips := cycles + 1, skips + 1;
          continue;
        }
      }
      if check == Some(State(AppDestroyed)) { return EndedDestroyed, cycles, waited, skips; }
      if check == Some(State(AppFailed)) { return EndedFailed, cycles, waited, skips; }
      if waited >= MAX_WAIT && around.wroteTimeout(cycles) { return EndedFailed, cycles, waited, skips; }
      deadline := SleptDeadline(around, soon, deadline, cycles, skips, waited);
      waited := waited + Pause(waited);
      cycles := cycles + 1;
    }
  }

  lemma AsksThem(around: Around, i: nat)
    requires around.look(i).Some? ==> around.look(i).value.app.teardown.Some?
    ensures AsksReplicas(around, i) <==>
      around.look(i).Some? && CheckTeardown(around.look(i).value).ReplicasNeeded?
  {
  }

  // ----- The loops in a history of apps -----

  /** Nothing is left for the rollout: it was refused or timed out, a teardown took over, or the
      rollout's own router is deployed. */
  predicate RolloutOver(v: View) {
    v.app.error || v.app.teardown.Some? || (v.app.routers != [] && StateOf(v.ops, v.app.routers[0]).Succeeded?)
  }

  ghost function ViewAt(steps: History, a: AppId, m: nat): View
    requires a in At(steps, m).apps
  {
    View(At(steps, m).apps[a], At(steps, m).w.db.ops)
  }

  /** A failure write leaves the rollout over, whether or not the write found anything to record. */
  lemma FailureIsWritten(steps: History, a: AppId, first: nat, last: nat)
    requires TicksOn(steps) && FailedBetween(steps, a, first, last, RolloutLoop)
    ensures a in At(steps, last).apps && RolloutOver(ViewAt(steps, a, last))
  {
    hide At, NextApps;
    var k: nat :| first <= k < last && FailsAt(steps, a, k, RolloutLoop);
    NextMoment(steps, k);
    FailAppEnds(At(steps, k), a, steps(k).at);
    GrowsOver(steps, k + 1, last, a);
    OpsOver(steps, k + 1, last);
    StaysOver(At(steps, k + 1), At(steps, last), a);
  }

  lemma FailAppEnds(s: AppSys, a: AppId, t: Time)
    requires a in s.apps
    ensures var after := NextApps(s, FailApp(a), t);
            a in after.apps && RolloutOver(View(after.apps[a], after.w.db.ops))
  {
    NothingLinked(s.w, None, t);
  }

  lemma OpsOver(steps: History, k: nat, m: nat)
    requires TicksOn(steps) && k <= m
    ensures OpsAfter(At(steps, k).w.db, At(steps, m).w.db)
  {
    hide RunApps, AppAfter;
    assert Prefix(steps, m)[..k] == Prefix(steps, k);
    RunIsAfter(Prefix(steps, m), k, steps(m).at);
  }

  lemma StaysOver(s: AppSys, after: AppSys, a: AppId)
    requires OpsAfter(s.w.db, after.w.db) && a in s.apps && a in after.apps
    requires AppGrows(s.apps[a], after.apps[a]) && RolloutOver(View(s.apps[a], s.w.db.ops))
    ensures RolloutOver(View(after.apps[a], after.w.db.ops))
  {
    var x, y := s.apps[a], after.apps[a];
    if x.routers != [] && StateOf(s.w.db.ops, x.routers[0]).Succeeded? {
      assert OpGrows(s.w.db, after.w.db, x.routers[0]);
      assert y.routers[0] == y.routers[..|x.routers|][0];
    }
  }

  lemma ReadyIsOver(steps: History, a: AppId, m: nat)
    requires TicksOn(steps) && a in At(steps, m).apps && SaysReady(CheckApp(ViewAt(steps, a, m)))
    ensures RolloutOver(ViewAt(steps, a, m))
  {
    hide RunApps, DeriveState, SoundWorld, LookSound, FreedSound, KeyKnown, OpsFit, Touched;
    var s := At(steps, m);
    EveryAppRunIsSound(Prefix(steps, m), steps(m).at);
    assert AppAt(s, a);
    if DeriveState(s.apps[a], s.w.db.ops).AppReady? { FirstRouterSucceeded(s.w.db, s.apps[a]); }
  }

  /** What the rollout's loop ends with is true of the app: once the check said ready, or a failure was
      written in the last cycle, the rollout is over. */
  lemma RolloutEndsTruly(around: Around, steps: History, a: AppId, moments: nat -> nat, cycle: nat)
    requires ReadOff(around, steps, a, moments, RolloutLoop)
    ensures around.look(cycle).Some? && SaysReady(CheckApp(around.look(cycle).value)) ==>
      a in At(steps, moments(cycle)).apps && RolloutOver(ViewAt(steps, a, moments(cycle)))
    ensures FailedBetween(steps, a, moments(cycle), moments(cycle + 1), RolloutLoop) ==>
      a in At(steps, moments(cycle + 1)).apps && RolloutOver(ViewAt(steps, a, moments(cycle + 1)))
  {
    hide At, CheckApp, RolloutOver, FailedBetween;
    if around.look(cycle).Some? && SaysReady(CheckApp(around.look(cycle).value)) {
      ReadyIsOver(steps, a, moments(cycle));
    }
    if FailedBetween(steps, a, moments(cycle), moments(cycle + 1), RolloutLoop) {
      FailureIsWritten(steps, a, moments(cycle), moments(cycle + 1));
    }
  }

  /** And a failure that the teardown's loop wrote settles the attempt that was under way. */
  lemma TearDownEndsTruly(steps: History, a: AppId, first: nat, last: nat)
    requires TicksOn(steps) && FailedBetween(steps, a, first, last, TeardownLoop)
    requires a in At(steps, first).apps && At(steps, first).apps[a].teardown.Some?
    ensures a in At(steps, last).apps
    ensures ReplicasSettled(At(steps, last).apps[a], At(steps, first).apps[a].teardowns)
  {
    hide At, ReplicasSettled, FailsAt;
    var k: nat :| first <= k < last && FailsAt(steps, a, k, TeardownLoop);
    assert FailsAt(steps, a, k, TeardownLoop) && (FoundAt(steps, a, k, TeardownLoop) || k < last);
    ReturnSettles(steps, a, first, last, last, At(steps, first).apps[a].teardowns, TeardownLoop);
  }
}
