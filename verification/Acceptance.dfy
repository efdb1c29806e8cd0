/** Exactly when a request is accepted, and what the audit trail says of who did what and when. */
module Acceptance {
  import opened LedgerModel
  import opened LedgerRuns
  import opened LedgerSafety
  import opened Lifecycles
  import opened Budgets
  import opened BudgetGuard
  import opened References

  /** The row a request changes is as it was when the request was validated, and ready for a check. */
  predicate RowFits(db: Db, req: Request) {
    var r := Target(req);
    && (r in db.rows ==> req.resolved.previousOp == Some(db.rows[r].latest))
    && (req.intent.action.DriftCheck? ==> r in db.rows && db.rows[r].state.Ready?)
  }

  ghost predicate BudgetFits(db: Db, req: Request, t: Time) {
    req.budget.Some? ==> WouldHold(db, req, t) + req.budget.value.legacy <= req.budget.value.limit
  }

  /** A destroy takes nothing from another ready resource, and every source may be referred to. */
  ghost predicate LinksFit(db: Db, req: Request) {
    && (req.intent.action.Destroy? ==>
          forall r {:trigger db.rows[r]} :: r in db.rows && r != Target(req) && db.rows[r].state.Ready? ==>
            forall name :: name in db.rows[r].refs ==> db.rows[r].refs[name].resource != Target(req))
    && forall name :: name in req.resolved.refs ==> SourceOk(db, req.resolved.refs[name].resource)
  }

  lemma LinksAreChecked(db: Db, req: Request)
    ensures LinksFit(db, req) <==>
      !(req.intent.action.Destroy? && Referenced(db, Target(req))) && !BadReference(db, req.resolved.refs)
  {
    SourcesAreChecked(db, req.resolved.refs);
    if !Referenced(db, Target(req)) {
      forall r | r in db.rows && r != Target(req) && db.rows[r].state.Ready?
        ensures forall name :: name in db.rows[r].refs ==> db.rows[r].refs[name].resource != Target(req)
      {
        assert !RefersTo(db.rows[r].refs, Target(req));
      }
    }
  }

  lemma SourcesAreChecked(db: Db, refs: Refs)
    ensures !BadReference(db, refs) <==> forall name :: name in refs ==> SourceOk(db, refs[name].resource)
  {
    if !BadReference(db, refs) {
      forall name | name in refs ensures SourceOk(db, refs[name].resource) {
        assert ReferenceError(db, refs[name].resource).None?;
      }
    }
  }

  lemma BudgetIsChecked(db: Db, req: Request, t: Time)
    requires Validated(db, req)
    ensures var used := Reserved(db.rows, req.resolved.zone, Some(Target(req)));
            BudgetFits(db, req, t) <==> (req.budget.Some? ==>
              used + req.budget.value.legacy + Max(CostBefore(db, Target(req)), req.resolved.cost)
              <= req.budget.value.limit)
  {
    hide Reserved, Enter;
    if req.budget.Some? {
      AcceptanceIsCounted(db, req, t);
      var r := Target(req);
      if r in db.rows && db.rows[r].state.Destroyed? { DestroyedCountsNothing(db.rows, req.resolved.zone, r); }
    }
  }

  lemma AdmittedExactly(db: Db, req: Request, t: Time)
    requires Validated(db, req)
    ensures Admission(db, req).None? <==> RowFits(db, req) && BudgetFits(db, req, t) && LinksFit(db, req)
  {
    hide Reserved, Enter, BudgetFits, LinksFit, BadReference, Referenced, Validated;
    LinksAreChecked(db, req);
    BudgetIsChecked(db, req, t);
  }

  /** Nothing is under way on the resource but, at most, a plan that has expired. */
  ghost predicate AtMostExpired(db: Db, r: ResId, age: Option<nat>, t: Time) {
    forall id {:trigger db.ops[id]} :: id in db.ops && db.ops[id].resource == r ==>
      db.ops[id].Finished() || PlanExpired(db.ops[id], age, t)
  }

  lemma BusyExactly(w: World, r: ResId, age: Option<nat>, t: Time)
    requires SoundWorld(w)
    ensures var busy := FindBusy(w.db, r);
            (busy.Some? ==> PlanExpired(w.db.ops[busy.value], age, t)) <==> AtMostExpired(w.db, r, age, t)
  {
    hide Audited, ClaimsSound, RowsSound;
    FindBusyNone(w.db, r);
    var busy := FindBusy(w.db, r);
    if busy.Some? && PlanExpired(w.db.ops[busy.value], age, t) {
      forall id | id in w.db.ops && w.db.ops[id].resource == r
        ensures w.db.ops[id].Finished() || PlanExpired(w.db.ops[id], age, t)
      {
        assert id == busy.value || Apart(w.db.ops[id], w.db.ops[busy.value]);
      }
    }
  }

  /** From any sound ledger: a validated request under a new key is accepted if and only if its placement
      holds, nothing is under way on its resource but at most an expired plan, and, with that plan out
      of the way, the resource is unchanged and ready for a check, its zone's budget holds, a destroy
      takes nothing from a ready resource, and every source is ready and not being destroyed. */
  lemma AcceptedExactly(w: World, req: Request, age: Option<nat>, t: Time)
    requires SoundWorld(w) && Validated(w.db, req) && KeyFree(w.db, req.actor, req.key)
    ensures var mid := Unblocked(w.db, req, age, t);
            LedgerModel.Accept(w.db, req, age, t).Accepted? <==>
              && req.placed && AtMostExpired(w.db, Target(req), age, t)
              && RowFits(mid, req) && BudgetFits(mid, req, t) && LinksFit(mid, req)
  {
    hide Unblocked, FindKey, FindBusy, Admission, RowFits, BudgetFits, LinksFit, AtMostExpired, SoundWorld;
    var mid := Unblocked(w.db, req, age, t);
    NoKey(w, req);
    BusyExactly(w, Target(req), age, t);
    ExpiryKeepsValid(w, req, age, t);
    AdmittedExactly(mid, req, t);
  }

  lemma NoKey(w: World, req: Request)
    requires SoundWorld(w) && KeyFree(w.db, req.actor, req.key)
    ensures FindKey(w.db, req.actor, req.key).None?
  {
    FindKeyNone(w.db, req.actor, req.key);
  }

  lemma ExpiryKeepsValid(w: World, req: Request, age: Option<nat>, t: Time)
    requires SoundWorld(w) && Validated(w.db, req)
    ensures Validated(Unblocked(w.db, req, age, t), req)
  {
    hide AllApart, Audited, ClaimsSound;
    var busy := FindBusy(w.db, Target(req));
    if busy.Some? { assert OpSound(w.db, busy.value); }
  }

  // ----- Who and when -----

  /** Who a step's events name: the worker, or the person who asked. */
  function Signer(step: Step): Actor {
    match step
    case Submit(req, _) => req.actor
    case Approve(_, _, actor, _) => actor
    case Drop(_, actor) => actor
    case Resolve(_, actor, _) => actor
    case Remark(_, actor, _) => actor
    case _ => WORKER
  }

  ghost predicate Signed(change: Change, actor: Actor, t: Time) {
    match change
    case Moves(_, events, _) => forall i :: 0 <= i < |events| ==> events[i].actor == actor && events[i].at == t
    case Enters(req) => req.actor == actor
    case Remarks(e) => e.actor == actor && e.at == t
    case _ => true
  }

  lemma ChangesAreSigned(w: World, step: Step, t: Time)
    ensures Signed(FirstChange(w, step, t), Signer(step), t) && Signed(SecondChange(w, step, t), Signer(step), t)
  {
  }

  lemma SignedAppends(db: Db, change: Change, t: Time, actor: Actor, i: nat)
    requires Signed(change, actor, t) && |db.events| <= i < |Apply(db, change, t).events|
    ensures Apply(db, change, t).events[i].actor == actor && Apply(db, change, t).events[i].at == t
  {
  }

  lemma ChangeAppends(db: Db, change: Change, t: Time, i: nat)
    requires i < |db.events|
    ensures i < |Apply(db, change, t).events| && Apply(db, change, t).events[i] == db.events[i]
  {
  }

  /** Every event a step adds names who took it and when. */
  lemma EventsAreSigned(w: World, step: Step, t: Time, i: nat)
    requires SoundWorld(w) && |w.db.events| <= i < |Next(w, step, t).db.events|
    ensures Next(w, step, t).db.events[i].actor == Signer(step) && Next(w, step, t).db.events[i].at == t
  {
    hide Next, Apply, FirstChange, SecondChange, Legal;
    NextMakes(w, step, t);
    ChangesAreSigned(w, step, t);
    var mid := Apply(w.db, FirstChange(w, step, t), t);
    if i < |mid.events| {
      SignedAppends(w.db, FirstChange(w, step, t), t, Signer(step), i);
      ChangeAppends(mid, SecondChange(w, step, t), t, i);
    } else {
      SignedAppends(mid, SecondChange(w, step, t), t, Signer(step), i);
    }
  }

  /** The events are in order of time, none later than `t`. */
  ghost predicate InOrder(events: seq<Event>, t: Time) {
    && (forall i :: 0 <= i < |events| ==> events[i].at <= t)
    && (forall i, j :: 0 <= i < j < |events| ==> events[i].at <= events[j].at)
  }

  function LastTime(run: seq<Timed>): Time { if run == [] then 0 else run[|run| - 1].at }

  /** In every run in order of time the events are in order of time, none later than the last step. */
  lemma {:induction false} EventsAreInOrder(run: seq<Timed>)
    requires Chronological(run)
    ensures InOrder(Run(START, run).db.events, LastTime(run))
  {
    hide Next, InOrder;
    if run == [] {
      NoSteps(START);
      NothingHappened();
    } else {
      var earlier, last := run[..|run| - 1], run[|run| - 1];
      EventsAreInOrder(earlier);
      EveryRunIsSound(earlier);
      var before, after := Run(START, earlier), Run(START, run);
      forall i | 0 <= i < |after.db.events|
        ensures if i < |before.db.events| then after.db.events[i] == before.db.events[i]
                else after.db.events[i].at == last.at
      {
        if i < |before.db.events| {
          StepAppends(before, last.step, last.at, i);
        } else {
          EventsAreSigned(before, last.step, last.at, i);
        }
      }
      OrderGoesOn(before.db.events, after.db.events, LastTime(earlier), last.at);
    }
  }

  lemma NothingHappened()
    ensures InOrder(START.db.events, 0)
  {
  }

  lemma OrderGoesOn(before: seq<Event>, after: seq<Event>, earlier: Time, t: Time)
    requires InOrder(before, earlier) && earlier <= t
    requires forall i :: 0 <= i < |after| ==> if i < |before| then after[i] == before[i] else after[i].at == t
    ensures InOrder(after, t)
  {
  }

  lemma StepAppends(w: World, step: Step, t: Time, i: nat)
    requires SoundWorld(w) && i < |w.db.events|
    ensures i < |Next(w, step, t).db.events| && Next(w, step, t).db.events[i] == w.db.events[i]
  {
    hide Next, Apply, FirstChange, SecondChange, Legal;
    NextMakes(w, step, t);
    ChangeAppends(w.db, FirstChange(w, step, t), t, i);
    ChangeAppends(Apply(w.db, FirstChange(w, step, t), t), SecondChange(w, step, t), t, i);
  }
}
