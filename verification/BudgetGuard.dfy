/** Exactly when accepting a budget-checked deploy is safe for the budget. */
module BudgetGuard {
  import opened LedgerModel
  import opened LedgerRuns
  import opened LedgerSafety
  import opened Lifecycles
  import opened Budgets

  ghost function Spent(w: World, zone: Zone, legacy: Cost): Cost { Reserved(w.db.rows, zone, None) + legacy }

  /** A deploy that was checked against the zone's budget. */
  predicate Checked(req: Request, zone: Zone, limit: Cost, legacy: Cost) {
    req.intent.action.Deploy? && req.resolved.zone == zone && req.budget == Some(Budget(limit, legacy))
  }

  // ----- What is refused -----

  /** Nothing objects to the request before the budget is looked at: its key is new, its placement
      holds, nothing is under way on its resource but at most a plan that has expired, and the
      resource is as it was when the request was validated. */
  ghost predicate ReachesBudget(db: Db, req: Request, age: Option<nat>, t: Time) {
    && KeyFree(db, req.actor, req.key) && req.placed
    && (forall id {:trigger db.ops[id]} :: id in db.ops && db.ops[id].resource == Target(req) ==>
          db.ops[id].Finished() || PlanExpired(db.ops[id], age, t))
    && (Target(req) in db.rows ==> req.resolved.previousOp == Some(db.rows[Target(req)].latest))
  }

  /** What the zone would hold with the request: after entering it, or, where the row is destroyed and
      so counts nothing, on top of what the zone holds. */
  ghost function WouldHold(db: Db, req: Request, t: Time): Cost {
    var zone := req.resolved.zone;
    if Target(req) in db.rows && db.rows[Target(req)].state.Destroyed?
    then Reserved(db.rows, zone, None) + Max(db.rows[Target(req)].cost, req.resolved.cost)
    else Reserved(Enter(db, req, t).rows, zone, None)
  }

  lemma DestroyedCountsNothing(rows: map<ResId, Row>, zone: Zone, r: ResId)
    requires r in rows && rows[r].state.Destroyed?
    ensures Reserved(rows, zone, None) == Reserved(rows, zone, Some(r))
  {
    ReservedSplit(rows, zone, r);
  }

  lemma OnlyExpiredBusy(w: World, req: Request, age: Option<nat>, t: Time)
    requires SoundWorld(w) && Validated(w.db, req) && ReachesBudget(w.db, req, age, t)
    ensures var busy := FindBusy(w.db, Target(req));
            && FindKey(w.db, req.actor, req.key).None? && req.placed
            && (busy.Some? ==> PlanExpired(w.db.ops[busy.value], age, t))
    ensures var mid := Unblocked(w.db, req, age, t);
            && Validated(mid, req)
            && (Target(req) in mid.rows ==> req.resolved.previousOp == Some(mid.rows[Target(req)].latest))
  {
    hide AllApart, Audited, ClaimsSound;
    FindKeyNone(w.db, req.actor, req.key);
    var busy := FindBusy(w.db, Target(req));
    if busy.Some? { assert OpSound(w.db, busy.value); }
  }

  /** A budget-checked deploy that nothing else objects to is refused over the budget if and only if
      what its zone would then hold, with the legacy amount, is over the limit: neither does anything
      too large fit, nor is anything that fits refused. */
  lemma BudgetRefusesExactly(w: World, req: Request, age: Option<nat>, t: Time)
    requires SoundWorld(w) && Validated(w.db, req) && req.budget.Some? && ReachesBudget(w.db, req, age, t)
    ensures LedgerModel.Accept(w.db, req, age, t) == Rejected(BudgetExceeded) <==>
      WouldHold(Unblocked(w.db, req, age, t), req, t) + req.budget.value.legacy > req.budget.value.limit
  {
    hide Unblocked, Reserved, Enter, ReachesBudget, SoundWorld, FindKey, FindBusy, BadReference, Referenced;
    OnlyExpiredBusy(w, req, age, t);
    var mid := Unblocked(w.db, req, age, t);
    var r, zone := Target(req), req.resolved.zone;
    AcceptanceIsCounted(mid, req, t);
    if r in mid.rows && mid.rows[r].state.Destroyed? { DestroyedCountsNothing(mid.rows, zone, r); }
  }

  // ----- Safe when it is counted -----

  /** The check at acceptance: the legacy amount alone fits, and so does the total. */
  lemma AcceptedFits(w: World, req: Request, age: Option<nat>, t: Time, zone: Zone, limit: Cost, legacy: Cost)
    requires SoundWorld(w) && Accepts(w.db, req, age, t) && Checked(req, zone, limit, legacy)
    ensures legacy <= limit && Spent(Next(w, Submit(req, age), t), zone, legacy) <= limit
  {
    hide Next, Unblocked, SoundWorld, LedgerModel.Accept, FindKey, FindBusy, BadReference, Referenced, Reserved, Enter;
    AcceptedMeans(w.db, req, age, t);
    SubmitEnters(w, req, age, t);
    var mid := Unblocked(w.db, req, age, t);
    AcceptanceIsCounted(mid, req, t);
  }

  lemma {:induction false} SafeWhenCounted(w: World, req: Request, age: Option<nat>, t: Time, run: seq<Timed>,
                                           zone: Zone, limit: Cost, legacy: Cost)
    requires SoundWorld(w) && Within(w.db, zone, limit, legacy) && Accepts(w.db, req, age, t)
    requires Checked(req, zone, limit, legacy) && Counted(w.db, req)
    requires AdmittedFrom(Next(w, Submit(req, age), t), run, zone, limit, legacy)
    ensures Spent(Run(Next(w, Submit(req, age), t), run), zone, legacy) <= limit
  {
    hide Next, Run, SoundWorld, Accepts, AdmittedFrom;
    AcceptedFits(w, req, age, t, zone, limit, legacy);
    NextKeepsSound(w, Submit(req, age), t);
    StepKeepsWithin(w, Submit(req, age), t, zone, limit, legacy);
    StaysWithin(Next(w, Submit(req, age), t), run, zone, limit, legacy);
  }

  // ----- Unsafe when it is not -----

  /** A first deploy that takes all that is left. */
  function Filling(n: nat, zone: Zone, cost: Cost, limit: Cost, legacy: Cost): Request {
    Request(WORKER, CallerKey(n), Intent(Deploy, None, 0), Resolved(zone, cost, map[], 0, None, None, None),
            Some(Budget(limit, legacy)), true, n, n)
  }

  lemma FillingEnters(w: World, n: nat, zone: Zone, cost: Cost, limit: Cost, legacy: Cost)
    requires SoundWorld(w) && Unused(w.db, n)
    requires Spent(w, zone, legacy) + cost <= limit
    ensures Enterable(w.db, Filling(n, zone, cost, limit, legacy))
  {
    ReservedSplit(w.db.rows, zone, n);
    forall id | id in w.db.ops ensures w.db.ops[id].resource != n { OpIsSound(w, id); }
  }

  /** The deploy is queued on its destroyed row, and the zone is full. */
  ghost predicate FullWith(w: World, id: OpId, zone: Zone, cost: Cost, limit: Cost, legacy: Cost) {
    && SoundWorld(w) && id in w.db.ops && w.db.ops[id].state.Queued? && w.db.ops[id].Action().Deploy?
    && w.db.ops[id].terms.cost == cost && w.db.ops[id].terms.zone == zone
    && w.db.ops[id].resource in w.db.rows && w.db.rows[w.db.ops[id].resource].state.Destroyed?
    && !BadReference(w.db, w.db.ops[id].terms.refs)
    && Spent(w, zone, legacy) <= limit
  }

  lemma EntersDestroyed(db: Db, after: World, req: Request, t: Time, zone: Zone, limit: Cost, legacy: Cost)
    requires Enterable(db, req) && Checked(req, zone, limit, legacy) && !Counted(db, req)
    requires SoundWorld(after) && after.db == Enter(db, req, t) && Spent(after, zone, legacy) <= limit
    ensures FullWith(after, req.newOp, zone, req.resolved.cost, limit, legacy)
  {
    hide SoundWorld, Reserved;
    forall name | name in req.resolved.refs
      ensures ReferenceError(after.db, req.resolved.refs[name].resource).None?
    {
      assert ReferenceError(db, req.resolved.refs[name].resource).None?;
    }
  }

  /** The other deploy takes what is left, and is not under way on a destroyed row. */
  lemma FilledUp(w: World, n: nat, id: OpId, zone: Zone, cost: Cost, limit: Cost, legacy: Cost, t: Time)
    requires FullWith(w, id, zone, cost, limit, legacy)
    requires Unused(w.db, n)
    ensures var left := limit - Spent(w, zone, legacy);
            var req := Filling(n, zone, left, limit, legacy);
            var after := Next(w, Submit(req, None), t);
            && FullWith(after, id, zone, cost, limit, legacy)
            && Spent(after, zone, legacy) == limit
            && AdmittedStep(w.db, Submit(req, None), t, zone, limit, legacy)
  {
    hide Next, SoundWorld;
    var left := limit - Spent(w, zone, legacy);
    var req := Filling(n, zone, left, limit, legacy);
    FillingEnters(w, n, zone, left, limit, legacy);
    SubmitFree(w, req, None, t);
    AcceptanceIsCounted(w.db, req, t);
    ReservedSplit(w.db.rows, zone, n);
    StaysFull(w, Next(w, Submit(req, None), t), req, id, t);
  }

  lemma StaysFull(w: World, after: World, req: Request, id: OpId, t: Time)
    requires id in w.db.ops && req.newOp !in w.db.ops && Target(req) !in w.db.rows
    requires req.intent.action.Deploy? && after.db == Enter(w.db, req, t)
    requires w.db.ops[id].resource in w.db.rows && !BadReference(w.db, w.db.ops[id].terms.refs)
    ensures id in after.db.ops && after.db.ops[id] == w.db.ops[id]
    ensures after.db.ops[id].resource in after.db.rows
    ensures after.db.rows[w.db.ops[id].resource] == w.db.rows[w.db.ops[id].resource]
    ensures !BadReference(after.db, after.db.ops[id].terms.refs)
  {
    forall name | name in w.db.ops[id].terms.refs
      ensures ReferenceError(after.db, w.db.ops[id].terms.refs[name].resource).None?
    {
      assert ReferenceError(w.db, w.db.ops[id].terms.refs[name].resource).None?;
    }
  }

  /** Carried through, the uncounted deploy adds its whole cost. */
  lemma LandingAdds(w: World, after: World, id: OpId, t: Time, zone: Zone, cost: Cost, limit: Cost, legacy: Cost)
    requires FullWith(w, id, zone, cost, limit, legacy) && Applied(w, after, id, t)
    ensures Spent(after, zone, legacy) == Spent(w, zone, legacy) + cost
  {
    var r := w.db.ops[id].resource;
    OpIsSound(w, id);
    ReservedSplit(w.db.rows, zone, r);
    ReservedSplit(after.db.rows, zone, r);
    OthersReserve(w.db.rows, after.db.rows, zone, r);
  }

  lemma QuietIsAdmitted(w: World, run: seq<Timed>, t: Time, zone: Zone, limit: Cost, legacy: Cost)
    requires Quiet(run, t)
    ensures AdmittedFrom(w, run, zone, limit, legacy)
  {
    hide Next, Run, Accepts;
  }

  lemma AdmittedBoth(w: World, first: Timed, rest: seq<Timed>, zone: Zone, limit: Cost, legacy: Cost)
    requires AdmittedStep(w.db, first.step, first.at, zone, limit, legacy)
    requires AdmittedFrom(Next(w, first.step, first.at), rest, zone, limit, legacy)
    ensures AdmittedFrom(w, [first] + rest, zone, limit, legacy)
  {
    hide Next, Run, AdmittedStep;
    var run := [first] + rest;
    forall k {:trigger run[..k]} | 0 <= k < |run|
      ensures AdmittedStep(Run(w, run[..k]).db, run[k].step, run[k].at, zone, limit, legacy)
    {
      NoSteps(w);
      if k > 0 {
        assert run[..k] == [first] + rest[..k - 1] && run[k] == rest[k - 1];
        RunConcat(w, [first], rest[..k - 1]);
        OneStep(w, first.step, first.at);
      } else {
        assert run[..0] == [];
      }
    }
  }

  /** A continuation that breaks the budget: another deploy takes what is left, then this one lands. */
  lemma BreaksBudget(w: World, id: OpId, t: Time, zone: Zone, cost: Cost, limit: Cost, legacy: Cost)
    returns (run: seq<Timed>)
    requires FullWith(w, id, zone, cost, limit, legacy)
    ensures AdmittedFrom(w, run, zone, limit, legacy)
    ensures Spent(Run(w, run), zone, legacy) == limit + cost
  {
    hide Next, Run, SoundWorld, AdmittedFrom, AdmittedStep, Applied, BadReference;
    var n := FreshFor(w.db);
    var filling := Submit(Filling(n, zone, limit - Spent(w, zone, legacy), limit, legacy), None);
    FilledUp(w, n, id, zone, cost, limit, legacy, t);
    var full := Next(w, filling, t);
    var rest := CarryThrough(full, id, Sha256(PlanFile(0, 0)), t);
    LandingAdds(full, Run(full, rest), id, t, zone, cost, limit, legacy);
    QuietIsAdmitted(full, rest, t, zone, limit, legacy);
    AdmittedBoth(w, Timed(filling, t), rest, zone, limit, legacy);
    run := [Timed(filling, t)] + rest;
    RunConcat(w, [Timed(filling, t)], rest);
    OneStep(w, filling, t);
  }

  lemma UnsafeWhenUncounted(w: World, req: Request, age: Option<nat>, t: Time,
                            zone: Zone, limit: Cost, legacy: Cost) returns (run: seq<Timed>)
    requires SoundWorld(w) && Accepts(w.db, req, age, t) && Checked(req, zone, limit, legacy)
    requires !Counted(w.db, req)
    ensures var after := Next(w, Submit(req, age), t);
            AdmittedFrom(after, run, zone, limit, legacy) && Spent(Run(after, run), zone, legacy) > limit
  {
    hide Next, Run, SoundWorld, Accepts, Unblocked, AdmittedFrom, Enterable, FullWith, Enter, Spent;
    var after := Next(w, Submit(req, age), t);
    AcceptedFits(w, req, age, t, zone, limit, legacy);
    ExpiryLeavesStates(w.db, req, age, t);
    SubmitEnters(w, req, age, t);
    EntersDestroyed(Unblocked(w.db, req, age, t), after, req, t, zone, limit, legacy);
    run := BreaksBudget(after, req.newOp, t, zone, req.resolved.cost, limit, legacy);
  }

  /** From any sound ledger within its budget: accepting a budget-checked deploy keeps reserved plus
      legacy cost within the limit, whatever admitted steps follow, if and only if its row is not
      destroyed or it costs nothing. */
  lemma AcceptanceIsSafeExactly(w: World, req: Request, age: Option<nat>, t: Time,
                                zone: Zone, limit: Cost, legacy: Cost)
    requires SoundWorld(w) && Within(w.db, zone, limit, legacy)
    requires Accepts(w.db, req, age, t) && Checked(req, zone, limit, legacy)
    ensures var after := Next(w, Submit(req, age), t);
            (forall run {:trigger Run(after, run)} ::
               AdmittedFrom(after, run, zone, limit, legacy) ==> Spent(Run(after, run), zone, legacy) <= limit)
            <==> Counted(w.db, req)
  {
    hide Next, Run, SoundWorld, Within, Accepts, AdmittedFrom, Spent;
    var after := Next(w, Submit(req, age), t);
    if Counted(w.db, req) {
      forall run {:trigger Run(after, run)} | AdmittedFrom(after, run, zone, limit, legacy)
        ensures Spent(Run(after, run), zone, legacy) <= limit
      {
        SafeWhenCounted(w, req, age, t, run, zone, limit, legacy);
      }
    } else {
      var run := UnsafeWhenUncounted(w, req, age, t, zone, limit, legacy);
      assert Spent(Run(after, run), zone, legacy) > limit;
    }
  }
}
