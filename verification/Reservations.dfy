/** What a deploy holds while it is unfinished, and what it gives back when it fails. */
module Reservations {
  import opened LedgerModel
  import opened LedgerRuns
  import opened LedgerSafety
  import opened LedgerTheorems

  const UNSEEN := DriftView(None, None, None, false)

  /** A row without its bookkeeping: the deployed definition and everything set at creation. */
  function Definition(row: Row): Row { row.(latest := 0, cost := 0, drift := UNSEEN) }

  function Holding(op: Op): Cost {
    if op.terms.previousCost.None? then op.terms.cost
    else if op.state.Failed? then op.terms.previousCost.value
    else Max(op.terms.previousCost.value, op.terms.cost)
  }

  /** While `id` is the latest change of its resource and has not succeeded, the row still carries
      `definition` and exactly what the operation holds. */
  ghost predicate Guarding(db: Db, id: OpId, definition: Row) {
    && id in db.ops && db.ops[id].Action().Deploy?
    && (var op := db.ops[id];
        && op.resource in db.rows
        && (db.rows[op.resource].latest == id && !op.state.Succeeded? ==>
              Definition(db.rows[op.resource]) == definition
              && db.rows[op.resource].cost == Holding(op)))
  }

  lemma MoveKeepsGuard(db: Db, op: Op, events: seq<Event>, t: Time, clean: DriftStatus,
                       id: OpId, definition: Row)
    requires OpsSound(db) && LegalMove(db, op) && Guarding(db, id, definition)
    ensures Guarding(Move(db, op, events, t, clean), id, definition)
  {
    assert OpSound(db, id);
    assert OpSound(db, op.id);
  }

  lemma ChangeKeepsGuard(db: Db, change: Change, t: Time, id: OpId, definition: Row)
    requires OpsSound(db) && Legal(db, change, t) && Guarding(db, id, definition)
    ensures Guarding(Apply(db, change, t), id, definition)
  {
    if change.Moves? {
      MoveKeepsGuard(db, change.op, change.events, t, change.clean, id, definition);
    }
  }

  lemma {:induction false} RunKeepsGuard(w: World, run: seq<Timed>, id: OpId, definition: Row)
    requires SoundWorld(w) && Guarding(w.db, id, definition)
    ensures Guarding(Run(w, run).db, id, definition)
  {
    if run != [] {
      var earlier, last := Run(w, run[..|run| - 1]), run[|run| - 1];
      RunKeepsGuard(w, run[..|run| - 1], id, definition);
      RunKeepsSound(w, run[..|run| - 1]);
      NextMakes(earlier, last.step, last.at);
      var first := FirstChange(earlier, last.step, last.at);
      ChangeKeepsGuard(earlier.db, first, last.at, id, definition);
      ChangeKeepsGuard(Apply(earlier.db, first, last.at), SecondChange(earlier, last.step, last.at),
                       last.at, id, definition);
    }
  }

  lemma AcceptanceGuards(w: World, req: Request, age: Option<nat>, t: Time)
    requires SoundWorld(w) && Accepts(w.db, req, age, t) && req.intent.action.Deploy?
    ensures var before := Unblocked(w.db, req, age, t);
            var accepted := Next(w, Submit(req, age), t);
            && SoundWorld(accepted) && req.newOp in accepted.db.ops
            && accepted.db.ops[req.newOp] == NewOp(before, req, t)
            && Guarding(accepted.db, req.newOp, Definition(NewRow(before, req, t)))
  {
    AcceptedMeans(w.db, req, age, t);
    NextKeepsSound(w, Submit(req, age), t);
  }

  lemma NewRowKeepsDefinition(db: Db, req: Request, t: Time)
    requires Target(req) in db.rows
    ensures Definition(NewRow(db, req, t)) == Definition(db.rows[Target(req)])
  {
  }

  /** Accept a deploy in any reachable ledger and let anything happen. As long as no later change
      of the resource was accepted, the row keeps the definition deployed before; it holds the
      larger of the old and the requested cost while the deploy is unfinished or uncertain, and
      exactly the old cost once the deploy failed, whichever way it failed: a failed result, a
      discard, an expiry (also inside another acceptance) or a reconciliation. */
  lemma {:induction false} FailedDeploysRestore(w: World, req: Request, age: Option<nat>, t: Time, run: seq<Timed>)
    requires SoundWorld(w) && Accepts(w.db, req, age, t) && req.intent.action.Deploy?
    ensures
      var before := Unblocked(w.db, req, age, t);
      var after := Run(Next(w, Submit(req, age), t), run).db;
      var r := Target(req);
      && req.newOp in after.ops && r in after.rows
      && (after.rows[r].latest == req.newOp && !after.ops[req.newOp].state.Succeeded? ==>
            && (r in before.rows ==> Definition(after.rows[r]) == Definition(before.rows[r]))
            && after.rows[r].cost == if after.ops[req.newOp].state.Failed? then CostBefore(before, r)
                                     else Max(CostBefore(before, r), req.resolved.cost))
      && (!after.ops[req.newOp].Finished() ==> after.rows[r].latest == req.newOp)
  {
    var before := Unblocked(w.db, req, age, t);
    var accepted := Next(w, Submit(req, age), t);
    AcceptanceGuards(w, req, age, t);
    RunKeepsGuard(accepted, run, req.newOp, Definition(NewRow(before, req, t)));
    RunsGoForward(accepted, run, req.newOp);
    RunKeepsSound(accepted, run);
    assert OpSound(Run(accepted, run).db, req.newOp);
    if Target(req) in before.rows { NewRowKeepsDefinition(before, req, t); }
  }
}
