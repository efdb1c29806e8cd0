/** A caller's key on an app: what was accepted under it is what is found under it, in every later
    state. */
module AppReplays {
  import opened LedgerModel
  import opened AppModel
  import opened AppRuns
  import opened AppSafety
  import opened AppSteps
  import opened AppProgress
  import opened StoreSteps

  /** `more` goes on after `step` was taken at the end of `run`. */
  ghost predicate GoesOn(run: seq<AppTimed>, step: AppStep, t: Time, more: seq<AppTimed>) {
    run + [AppTimed(step, t)] <= more && Ticking(more)
  }

  lemma {:induction false} AppGoesOn(run: seq<AppTimed>, step: AppStep, t: Time, more: seq<AppTimed>, a: AppId)
    requires GoesOn(run, step, t, more) && a in NextApps(RunApps(run), step, t).apps
    ensures a in RunApps(more).apps
    ensures AppGrows(NextApps(RunApps(run), step, t).apps[a], RunApps(more).apps[a])
  {
    hide NextApps, AppGrows;
    var n := |run| + 1;
    assert more[..n] == run + [AppTimed(step, t)] && more[..n][..n - 1] == run;
    RunIsAfter(more, n, more[|more| - 1].at + 1);
    assert AppAfter(RunApps(more[..n]), RunApps(more), a);
  }

  // ----- Apps -----

  /** The app a key was accepted for keeps the caller, the key and the body that were accepted. */
  lemma {:induction false} AppReplays(run: seq<AppTimed>, step: AppStep, t: Time, more: seq<AppTimed>)
    requires GoesOn(run, step, t, more) && step.AcceptApp? && Committed(RunApps(run), step, t).Some?
    ensures step.app in RunApps(more).apps
    ensures var app := RunApps(more).apps[step.app];
            && app.actor == step.actor && app.key == step.key && app.material == step.material
            && app.wiring == step.wiring && |app.members| == |step.reqs|
  {
    hide RunApps, LinkAll, CanAcceptApp;
    var s := RunApps(run);
    CommittedAsked(s, step, t);
    LinkAllCounts(s.w, Asks(s, step).value, AgeOf(step), t);
    AppGoesOn(run, step, t, more, step.app);
  }

  // ----- Failovers -----

  lemma {:induction false} UnderStays(x: seq<Failover>, y: seq<Failover>, caller: Actor, key: nat)
    requires x <= y && FailoverUnder(x, caller, key).Some?
    ensures FailoverUnder(y, caller, key) == FailoverUnder(x, caller, key)
  {
    if !(x[0].caller == caller && x[0].key == key) { UnderStays(x[1..], y[1..], caller, key); }
  }

  lemma {:induction false} UnderLast(x: seq<Failover>, f: Failover)
    requires forall i :: 0 <= i < |x| ==> !(x[i].caller == f.caller && x[i].key == f.key)
    ensures FailoverUnder(x + [f], f.caller, f.key) == Some(f)
  {
    if x != [] {
      assert (x + [f])[1..] == x[1..] + [f];
      UnderLast(x[1..], f);
    }
  }

  /** What a caller finds under a failover's key, in every later state: the operation that was accepted, and
      the replica that was asked for. */
  lemma {:induction false} FailoverReplays(run: seq<AppTimed>, step: AppStep, t: Time, more: seq<AppTimed>)
    requires GoesOn(run, step, t, more) && step.AcceptFailover? && Committed(RunApps(run), step, t).Some?
    ensures step.app in RunApps(more).apps
    ensures var ids := Committed(RunApps(run), step, t).value.ids;
            |ids| == 1 && FailoverUnder(RunApps(more).apps[step.app].failovers, step.caller, step.key)
                          == Some(Failover(ids[0], step.target, step.caller, step.key))
  {
    hide RunApps, LinkAll, FailoverChecked, FailoverUnder;
    var s := RunApps(run);
    CommittedAsked(s, step, t);
    LinkAllCounts(s.w, Asks(s, step).value, AgeOf(step), t);
    AppGoesOn(run, step, t, more, step.app);
    var x, y := NextApps(s, step, t).apps[step.app], RunApps(more).apps[step.app];
    var ids := Committed(s, step, t).value.ids;
    UnderLast(s.apps[step.app].failovers, Failover(ids[0], step.target, step.caller, step.key));
    UnderStays(x.failovers, y.failovers, step.caller, step.key);
  }

  // ----- Teardowns -----

  lemma {:induction false} TeardownUnderStays(x: seq<TeardownEntry>, y: seq<TeardownEntry>, caller: Actor, key: nat)
    requires x <= y && TeardownUnder(x, caller, key).Some?
    ensures TeardownUnder(y, caller, key) == TeardownUnder(x, caller, key)
  {
    if !(x[0].caller == caller && x[0].key == key) { TeardownUnderStays(x[1..], y[1..], caller, key); }
  }

  lemma {:induction false} TeardownUnderLast(x: seq<TeardownEntry>, e: TeardownEntry)
    requires forall i :: 0 <= i < |x| ==> !(x[i].caller == e.caller && x[i].key == e.key)
    ensures TeardownUnder(x + [e], e.caller, e.key) == Some(e)
  {
    if x != [] {
      assert (x + [e])[1..] == x[1..] + [e];
      TeardownUnderLast(x[1..], e);
    }
  }

  /** Likewise for a teardown's key: the router's destroy that was accepted with it, or none. */
  lemma {:induction false} TeardownReplays(run: seq<AppTimed>, step: AppStep, t: Time, more: seq<AppTimed>)
    requires GoesOn(run, step, t, more) && step.AcceptTeardown? && Committed(RunApps(run), step, t).Some?
    ensures step.app in RunApps(more).apps
    ensures var ids := Committed(RunApps(run), step, t).value.ids;
            && (step.router.Some? ==> |ids| == 1)
            && TeardownUnder(RunApps(more).apps[step.app].history, step.caller, step.key)
               == Some(TeardownEntry(step.caller, step.key, if step.router.Some? then Some(ids[0]) else None))
  {
    hide RunApps, LinkAll, TeardownChecked, TeardownUnder;
    var s := RunApps(run);
    CommittedAsked(s, step, t);
    LinkAllCounts(s.w, Asks(s, step).value, AgeOf(step), t);
    AppGoesOn(run, step, t, more, step.app);
    var x, y := NextApps(s, step, t).apps[step.app], RunApps(more).apps[step.app];
    var ids := Committed(s, step, t).value.ids;
    TeardownUnderLast(s.apps[step.app].history,
                      TeardownEntry(step.caller, step.key, if step.router.Some? then Some(ids[0]) else None));
    TeardownUnderStays(x.history, y.history, step.caller, step.key);
  }
}
