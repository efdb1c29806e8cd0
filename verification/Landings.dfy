/** What a success leaves on the resource's row, from the plan's result over any run to its landing,
    and what a drift check leaves. */
module Landings {
  import opened LedgerModel
  import opened LedgerRuns
  import opened LedgerSafety
  import opened LedgerTheorems
  import opened Records
  import opened Expiry

  /** The row is what the accepted terms asked for, with these outputs and managed objects. */
  predicate Leaves(row: Row, op: OpId, terms: Terms, outputs: Option<nat>, objects: nat) {
    && row.latest == op && row.actor == terms.actor && row.zone == terms.zone && row.cost == terms.cost
    && row.refs == terms.refs && row.spec == terms.spec && row.outputs == outputs
    && (terms.promotedFrom.Some? ==> row.promotedFrom == terms.promotedFrom)
    && if terms.intent.action.Destroy? then row.state.Destroyed? && row.managed == Some(0)
       else row.state.Ready? && row.managed == Some(objects)
  }

  /** A destroyed row says nothing of drift; any other has this status, no findings, from `t`. */
  predicate DriftIs(row: Row, status: DriftStatus, t: Time) {
    if row.state.Destroyed? then row.drift == DriftView(None, None, None, false)
    else row.drift.status == Some(status) && row.drift.checkedAt == Some(t)
         && row.drift.found == Some([]) && !row.drift.refused
  }

  lemma {:induction false} RecordSince(w: World, snapshot: Op, report: Report, p: Time, run: seq<Timed>)
    requires SoundWorld(w) && Plans(w, snapshot, report)
    ensures var now := Since(w, snapshot, report, p, run);
            && SoundWorld(now) && snapshot.id in now.db.ops
            && var op := now.db.ops[snapshot.id];
               && SameTerms(snapshot, op) && op.objects == Some(report.objects) && !op.Action().DriftCheck?
               && (!op.state.Succeeded? ==> op.outputs == snapshot.outputs)
               && op.resource in now.db.rows && now.db.rows[op.resource].zone == op.terms.zone
  {
    hide Run, Next, SoundWorld;
    var planned := Next(w, Deliver(snapshot, Planned, report), p);
    NextKeepsSound(w, Deliver(snapshot, Planned, report), p);
    RunKeepsSound(planned, run);
    PlannedNow(w, snapshot, report, p);
    RecordsSettle(planned, run, snapshot.id);
    RunsGoForward(planned, run, snapshot.id);
    RowIsThere(Run(planned, run), snapshot.id);
  }

  lemma RowIsThere(w: World, id: OpId)
    requires SoundWorld(w) && id in w.db.ops
    ensures w.db.ops[id].resource in w.db.rows
    ensures w.db.rows[w.db.ops[id].resource].zone == w.db.ops[id].terms.zone
  {
    assert OpSound(w.db, id);
  }

  /** The fence lets an apply's outputs through. */
  ghost predicate Applies(w: World, snapshot: Op, outputs: nat) {
    snapshot in w.held && Reportable(snapshot, Succeeded, ApplyReport(outputs)) && !Fenced(w.db, snapshot)
  }

  /** Plan an operation, let anything happen, and let its apply report: the row has the outputs that
      were reported, the managed objects of the plan that was recorded, none after a destroy, and the
      definition that was accepted; and it is in sync as of now. */
  lemma {:induction false} ApplyLands(w: World, snapshot: Op, report: Report, p: Time, run: seq<Timed>,
                                      applier: Op, outputs: nat, t: Time)
    requires SoundWorld(w) && Plans(w, snapshot, report)
    requires Applies(Since(w, snapshot, report, p, run), applier, outputs) && applier.id == snapshot.id
    ensures var now := Since(w, snapshot, report, p, run);
            var after := Next(now, Deliver(applier, Succeeded, ApplyReport(outputs)), t).db;
            && snapshot.resource in after.rows
            && Leaves(after.rows[snapshot.resource], snapshot.id, snapshot.terms, Some(outputs), report.objects)
            && DriftIs(after.rows[snapshot.resource], InSync, t)
  {
    hide Since, SoundWorld;
    RecordSince(w, snapshot, report, p, run);
    HeldIsStored(Since(w, snapshot, report, p, run), applier);
  }

  lemma HeldIsStored(w: World, snapshot: Op)
    requires SoundWorld(w) && snapshot in w.held && !Fenced(w.db, snapshot)
    ensures w.db.ops[snapshot.id] == snapshot
  {
    assert Current(w.db, snapshot);
  }

  // ----- Landing by an operator's word -----

  lemma {:induction false} OutputsComeWithSuccess(run: seq<Timed>, id: OpId)
    ensures var db := Run(START, run).db; id in db.ops && !db.ops[id].state.Succeeded? ==> db.ops[id].outputs.None?
  {
    hide Next, SoundWorld, RecordStep;
    if run != [] {
      var earlier, last := Run(START, run[..|run| - 1]), run[|run| - 1];
      OutputsComeWithSuccess(run[..|run| - 1], id);
      EveryRunIsSound(run[..|run| - 1]);
      if id in earlier.db.ops {
        RecordSteps(earlier, last.step, last.at, id);
        StepsGoForward(earlier, last.step, last.at, id);
        OutputsKept(earlier.db, earlier.db.ops[id], Run(START, run).db.ops[id], last.step, last.at);
      } else if id in Run(START, run).db.ops {
        NewHasNone(earlier, last.step, last.at, id);
      }
    }
  }

  lemma OutputsKept(db: Db, before: Op, after: Op, step: Step, t: Time)
    requires RecordStep(db, before, after, step, t) && Forward(before, after)
    ensures !after.state.Succeeded? ==> !before.state.Succeeded? && after.outputs == before.outputs
  {
  }

  lemma NewHasNone(w: World, step: Step, t: Time, id: OpId)
    requires SoundWorld(w) && id !in w.db.ops && id in Next(w, step, t).db.ops
    ensures Next(w, step, t).db.ops[id].outputs.None?
  {
    hide Next, Admission, Accept, Unblocked;
    NextMakes(w, step, t);
  }

  /** Plan an operation, let anything happen, and let an operator find that it succeeded: the row is the
      same but without outputs, and whether it drifted is unknown as of now. */
  lemma {:induction false} FoundLands(before: seq<Timed>, snapshot: Op, report: Report, p: Time, run: seq<Timed>,
                                      actor: Actor, t: Time)
    requires Plans(Run(START, before), snapshot, report)
    requires var now := Since(Run(START, before), snapshot, report, p, run);
             ReconcileAnswer(now.db, snapshot.id, FoundSucceeded).Changed?
    ensures var now := Since(Run(START, before), snapshot, report, p, run);
            var after := Next(now, Resolve(snapshot.id, actor, FoundSucceeded), t).db;
            && snapshot.resource in after.rows
            && Leaves(after.rows[snapshot.resource], snapshot.id, snapshot.terms, None, report.objects)
            && DriftIs(after.rows[snapshot.resource], Unknown, t)
            && after.rows[snapshot.resource].reconciliation == Some(FoundSucceeded)
  {
    hide Since, SoundWorld, Run;
    var w := Run(START, before);
    EveryRunIsSound(before);
    RecordSince(w, snapshot, report, p, run);
    HeldIsStored(w, snapshot);
    OutputsComeWithSuccess(before, snapshot.id);
  }

  // ----- A drift check -----

  /** A check's result that the fence lets through: drifted exactly when something was found, the
      findings and the time are on the row, and nothing else of the row changes. */
  lemma CheckLands(w: World, snapshot: Op, found: Findings, t: Time)
    requires SoundWorld(w) && snapshot in w.held && Reportable(snapshot, Succeeded, CheckReport(found))
    requires !Fenced(w.db, snapshot)
    ensures var before, after := w.db, Next(w, Deliver(snapshot, Succeeded, CheckReport(found)), t).db;
            var r := snapshot.resource;
            && r in before.rows && r in after.rows
            && var drift := after.rows[r].drift;
               && (drift.status == Some(Drifted) <==> found != []) && (drift.status == Some(InSync) <==> found == [])
               && drift.found == Some(found) && drift.checkedAt == Some(t) && !drift.refused
               && after.rows == before.rows[r := before.rows[r].(drift := drift)]
  {
    hide AllApart, Audited, Ordered;
    assert Current(w.db, snapshot) && OpSound(w.db, snapshot.id);
  }

  /** A check that failed: nobody knows, as of now. What an earlier refusal left stays. */
  lemma FailedCheckLands(w: World, snapshot: Op, t: Time)
    requires SoundWorld(w) && snapshot in w.held && snapshot.Action().DriftCheck? && snapshot.state.Planning?
    requires !Fenced(w.db, snapshot)
    ensures var before, after := w.db, Next(w, Deliver(snapshot, Failed, ErrorReport), t).db;
            var r := snapshot.resource;
            && r in before.rows && r in after.rows
            && var drift := after.rows[r].drift;
               && drift.status == Some(Unknown) && drift.found.None? && drift.checkedAt == Some(t)
               && drift.refused == before.rows[r].drift.refused
               && after.rows == before.rows[r := before.rows[r].(drift := drift)]
  {
    hide AllApart, Audited, Ordered;
    assert Current(w.db, snapshot) && OpSound(w.db, snapshot.id);
  }

  /** A check that could not even be accepted: the time and the refusal are on the row, the status becomes
      unknown when asked, and nothing else of the row changes. */
  lemma RefusalLands(w: World, r: ResId, unknown: bool, t: Time)
    requires r in w.db.rows
    ensures var before, after := w.db, Next(w, StampRefusal(r, unknown), t).db;
            && r in after.rows
            && var drift := after.rows[r].drift;
               && drift.refused && drift.checkedAt == Some(t)
               && (if unknown then drift.status == Some(Unknown) && drift.found.None?
                   else drift.status == before.rows[r].drift.status && drift.found == before.rows[r].drift.found)
               && after == before.(rows := before.rows[r := before.rows[r].(drift := drift)])
  {
  }

  // ----- Every settled row was left by some success -----

  /** `op` succeeded and left the row. */
  predicate Left(row: Row, op: Op) {
    && op.state.Succeeded? && op.resource == row.id
    && row.actor == op.terms.actor && row.refs == op.terms.refs && row.spec == op.terms.spec
    && row.outputs == op.outputs && row.reconciliation == op.reconciliation
    && match op.Action()
       case Deploy => row.state.Ready? && row.managed == op.objects
       case Destroy => row.state.Destroyed? && row.managed == Some(0)
       case DriftCheck => false
  }

  predicate LeftBy(db: Db, r: ResId, id: OpId) { r in db.rows && id in db.ops && Left(db.rows[r], db.ops[id]) }

  ghost predicate WasLeft(db: Db, r: ResId) {
    r in db.rows && !db.rows[r].state.Pending? ==> exists id :: LeftBy(db, r, id)
  }

  lemma ChangeKeepsLeft(db: Db, change: Change, t: Time, r: ResId)
    requires OpsSound(db) && RowsSound(db) && Legal(db, change, t) && WasLeft(db, r)
    ensures WasLeft(Apply(db, change, t), r)
  {
    var after := Apply(db, change, t);
    if change.Moves? && change.op.resource == r && change.op.state.Succeeded? && !change.op.Action().DriftCheck? {
      assert OpSound(db, change.op.id);
      assert r in after.rows ==> LeftBy(after, r, change.op.id);
    } else if id :| LeftBy(db, r, id) {
      assert RowSound(db, r) && (change.Moves? ==> OpSound(db, change.op.id));
      assert LeftBy(after, r, id);
    }
  }

  /** In every run each row that is not pending is what some successful operation left: its state,
      definition, outputs and managed objects are that operation's. */
  lemma {:induction false} RowsAreLeft(run: seq<Timed>, r: ResId)
    ensures WasLeft(Run(START, run).db, r)
  {
    hide Next, Legal, WasLeft, Apply;
    if run == [] {
      NothingLeft(r);
    } else {
      var w, last := Run(START, run[..|run| - 1]), run[|run| - 1];
      RowsAreLeft(run[..|run| - 1], r);
      EveryRunIsSound(run[..|run| - 1]);
      NextMakes(w, last.step, last.at);
      var first, second := FirstChange(w, last.step, last.at), SecondChange(w, last.step, last.at);
      LegalKeepsSound(w.db, first, last.at);
      ChangeKeepsLeft(w.db, first, last.at, r);
      ChangeKeepsLeft(Apply(w.db, first, last.at), second, last.at, r);
    }
  }

  lemma NothingLeft(r: ResId)
    ensures WasLeft(START.db, r)
  {
  }
}
