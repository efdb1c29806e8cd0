/** When a plan is too old: counted from the moment its result was recorded, in every run. */
module Expiry {
  import opened LedgerModel
  import opened LedgerRuns
  import opened LedgerSafety
  import opened LedgerTheorems

  /** The fence lets a planner's result through. */
  ghost predicate Plans(w: World, snapshot: Op, report: Report) {
    snapshot in w.held && Reportable(snapshot, Planned, report) && !Fenced(w.db, snapshot)
  }

  /** The ledger after the result was recorded at `p` and anything at all happened. */
  ghost function Since(w: World, snapshot: Op, report: Report, p: Time, run: seq<Timed>): World {
    Run(Next(w, Deliver(snapshot, Planned, report), p), run)
  }

  predicate TooOld(age: Option<nat>, p: Time, t: Time) { age.Some? && t > p + age.value }

  /** While an operation stays planned its record shows what the planner found, and when. */
  lemma {:induction false} PlannedStays(w: World, snapshot: Op, report: Report, p: Time, run: seq<Timed>)
    requires SoundWorld(w) && Plans(w, snapshot, report)
    ensures var now := Since(w, snapshot, report, p, run);
            && SoundWorld(now) && snapshot.id in now.db.ops
            && var op := now.db.ops[snapshot.id];
               op.state.Planned? ==>
                 && op.id == snapshot.id && op.resource == snapshot.resource && !op.Action().DriftCheck?
                 && op.planDigest == Some(report.planDigest) && op.plannedAt == Some(p)
                 && op.changes == Some(report.changes) && op.drift == report.drift
                 && op.objects == Some(report.objects)
  {
    hide Run, Next, SoundWorld;
    var planned := Next(w, Deliver(snapshot, Planned, report), p);
    NextKeepsSound(w, Deliver(snapshot, Planned, report), p);
    RunKeepsSound(planned, run);
    PlannedNow(w, snapshot, report, p);
    RunsGoForward(planned, run, snapshot.id);
  }

  lemma PlannedNow(w: World, snapshot: Op, report: Report, p: Time)
    requires SoundWorld(w) && Plans(w, snapshot, report)
    ensures var after := Next(w, Deliver(snapshot, Planned, report), p).db;
            && snapshot.id in after.ops
            && after.ops[snapshot.id] == Reported(snapshot, Planned, report, p)
  {
    hide AllApart, Audited, Ordered;
  }

  /** In every run: as long as a plan recorded at `p` is still planned, an execute that names its digest
      at `t` finds it too old if and only if more than the maximum age has passed since `p`, and
      without a maximum age it never does. */
  lemma {:induction false} ExecuteExpiresExactly(w: World, snapshot: Op, report: Report, p: Time, run: seq<Timed>,
                                                 age: Option<nat>, t: Time)
    requires SoundWorld(w) && Plans(w, snapshot, report)
    ensures var now := Since(w, snapshot, report, p, run).db;
            snapshot.id in now.ops && now.ops[snapshot.id].state.Planned? ==>
              (ExecuteAnswer(now, snapshot.id, report.planDigest, age, t) == Refuse(PlanTooOld) <==> TooOld(age, p, t))
  {
    hide Since, SoundWorld, BadReference;
    PlannedStays(w, snapshot, report, p, run);
  }

  lemma BusyIs(w: World, id: OpId, r: ResId)
    requires SoundWorld(w) && id in w.db.ops && w.db.ops[id].resource == r && !w.db.ops[id].Finished()
    ensures FindBusy(w.db, r) == Some(id)
  {
    FindBusyNone(w.db, r);
    var busy := FindBusy(w.db, r);
    assert busy.Some?;
    assert busy.value == id || Apart(w.db.ops[busy.value], w.db.ops[id]);
  }

  /** Likewise another request for the resource: it answers that the plan holds the resource unless
      the plan is too old, and if it is accepted the plan was too old and is now failed as expired. */
  lemma {:induction false} AcceptExpiresExactly(w: World, snapshot: Op, report: Report, p: Time, run: seq<Timed>,
                                                req: Request, age: Option<nat>, t: Time)
    requires SoundWorld(w) && Plans(w, snapshot, report)
    requires var now := Since(w, snapshot, report, p, run).db;
             && snapshot.id in now.ops && now.ops[snapshot.id].state.Planned?
             && Validated(now, req) && KeyFree(now, req.actor, req.key) && req.placed
             && Target(req) == snapshot.resource
    ensures var now := Since(w, snapshot, report, p, run).db; var verdict := Accept(now, req, age, t);
            && (verdict == Rejected(ResourceBusy(snapshot.id)) <==> !TooOld(age, p, t))
            && (verdict.Accepted? ==>
                  && snapshot.id in verdict.db.ops && verdict.expired == Some(snapshot.id)
                  && verdict.db.ops[snapshot.id].state.Failed? && verdict.db.ops[snapshot.id].expired)
  {
    hide Since, SoundWorld, Admission, FindKey, FindBusy, Sound;
    PlannedStays(w, snapshot, report, p, run);
    var now := Since(w, snapshot, report, p, run);
    NewKey(now, req);
    BusyIs(now, snapshot.id, snapshot.resource);
    NotBusy(Unblocked(now.db, req, age, t), req);
  }

  lemma NotBusy(db: Db, req: Request)
    ensures var problem := Admission(db, req); problem.Some? ==> !problem.value.ResourceBusy?
  {
  }

  lemma NewKey(w: World, req: Request)
    requires SoundWorld(w) && KeyFree(w.db, req.actor, req.key)
    ensures FindKey(w.db, req.actor, req.key).None?
  {
    FindKeyNone(w.db, req.actor, req.key);
  }
}
