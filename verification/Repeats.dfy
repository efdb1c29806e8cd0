/** Asking twice: what execute, discard and reconcile answer after they were once accepted, in every
    later ledger. */
module Repeats {
  import opened LedgerModel
  import opened LedgerRuns
  import opened LedgerSafety
  import opened LedgerTheorems
  import opened Records

  // ----- Execute -----

  /** An accepted execute fixes the answer to the next: while the operation is executing or has succeeded
      the same request is idempotent, after a failure or in doubt it is refused, and another digest
      never matches. */
  lemma {:induction false} ExecuteRepeats(w: World, id: OpId, digest: Digest, actor: Actor, age: Option<nat>, t: Time,
                                          run: seq<Timed>, other: Digest, age2: Option<nat>, t2: Time)
    requires SoundWorld(w) && ExecuteAnswer(w.db, id, digest, age, t).Changed?
    ensures var now := Run(Next(w, Approve(id, digest, actor, age), t), run).db;
            && id in now.ops
            && ExecuteAnswer(now, id, digest, age2, t2)
               == (if now.ops[id].state.Failed? || now.ops[id].state.Uncertain? then Refuse(NotPlanned) else Unchanged)
            && (other != digest ==> ExecuteAnswer(now, id, other, age2, t2) == Refuse(DigestMismatch))
  {
    hide Run, Next, SoundWorld, BadReference;
    var queued := Next(w, Approve(id, digest, actor, age), t);
    NextKeepsSound(w, Approve(id, digest, actor, age), t);
    Queues(w, id, digest, actor, age, t);
    RecordsSettle(queued, run, id);
    RunsGoForward(queued, run, id);
  }

  lemma Queues(w: World, id: OpId, digest: Digest, actor: Actor, age: Option<nat>, t: Time)
    requires SoundWorld(w) && ExecuteAnswer(w.db, id, digest, age, t).Changed?
    ensures var after := Next(w, Approve(id, digest, actor, age), t).db;
            id in after.ops && after.ops[id].state.ApplyQueued? && after.ops[id].planDigest == Some(digest)
  {
    assert OpSound(w.db, id);
  }

  // ----- Reconcile -----

  /** An accepted decision stands: asking for it again changes nothing, and the other is refused. */
  lemma {:induction false} ReconcileRepeats(w: World, id: OpId, actor: Actor, outcome: Outcome, t: Time,
                                            run: seq<Timed>, other: Outcome)
    requires SoundWorld(w) && ReconcileAnswer(w.db, id, outcome).Changed?
    ensures var now := Run(Next(w, Resolve(id, actor, outcome), t), run).db;
            && id in now.ops
            && (if outcome.FoundSucceeded? then now.ops[id].state.Succeeded? else now.ops[id].state.Failed?)
            && ReconcileAnswer(now, id, other) == if other == outcome then Unchanged else Refuse(OtherOutcome)
  {
    hide Run, Next, SoundWorld;
    var resolved := Next(w, Resolve(id, actor, outcome), t);
    NextKeepsSound(w, Resolve(id, actor, outcome), t);
    Decides(w, id, actor, outcome, t);
    RunsGoForward(resolved, run, id);
  }

  lemma Decides(w: World, id: OpId, actor: Actor, outcome: Outcome, t: Time)
    requires SoundWorld(w) && ReconcileAnswer(w.db, id, outcome).Changed?
    ensures var after := Next(w, Resolve(id, actor, outcome), t).db;
            && id in after.ops && after.ops[id].reconciliation == Some(outcome)
            && (if outcome.FoundSucceeded? then after.ops[id].state.Succeeded? else after.ops[id].state.Failed?)
  {
    assert OpSound(w.db, id);
  }

  // ----- Discard and expiry -----

  predicate HasKind(events: seq<Event>, kind: EventKind) { exists i :: 0 <= i < |events| && events[i].kind == kind }

  /** Some event tells this of the operation. */
  ghost predicate Marked(db: Db, id: OpId, kind: EventKind) {
    exists i {:trigger db.events[i]} :: 0 <= i < |db.events| && IsAbout(db.events[i], id) && db.events[i].kind == kind
  }

  ghost predicate FlagsTell(db: Db, id: OpId) {
    if id in db.ops then
      && (db.ops[id].discarded <==> Marked(db, id, Discarded))
      && (db.ops[id].expired <==> Marked(db, id, Expired))
    else !Marked(db, id, Discarded) && !Marked(db, id, Expired)
  }

  /** A change raises a flag exactly when it tells so. */
  ghost predicate FlagsMove(db: Db, change: Change) {
    change.Moves? && change.op.id in db.ops ==>
      && (change.op.discarded <==> db.ops[change.op.id].discarded || HasKind(change.events, Discarded))
      && (change.op.expired <==> db.ops[change.op.id].expired || HasKind(change.events, Expired))
  }

  lemma OneKind(e: Event, kind: EventKind)
    ensures HasKind([e], kind) <==> e.kind == kind
  {
    assert [e][0] == e;
  }

  lemma TwoKinds(e: Event, f: Event, kind: EventKind)
    ensures HasKind([e, f], kind) <==> e.kind == kind || f.kind == kind
  {
    assert [e, f][0] == e && [e, f][1] == f;
  }

  /** A first change is told by one event, or by the two of a decision. */
  lemma KindsOf(change: Change)
    requires change.Moves? && (|change.events| == 1 || |change.events| == 2)
    ensures forall kind :: HasKind(change.events, kind) <==>
      change.events[0].kind == kind || (|change.events| == 2 && change.events[1].kind == kind)
  {
    forall kind ensures HasKind(change.events, kind) <==>
      change.events[0].kind == kind || (|change.events| == 2 && change.events[1].kind == kind)
    {
      if |change.events| == 1 {
        OneKind(change.events[0], kind);
        assert change.events == [change.events[0]];
      } else {
        TwoKinds(change.events[0], change.events[1], kind);
        assert change.events == [change.events[0], change.events[1]];
      }
    }
  }

  lemma SubmitMovesFlags(w: World, req: Request, age: Option<nat>, t: Time)
    requires SoundWorld(w)
    ensures FlagsMove(w.db, FirstChange(w, Submit(req, age), t))
  {
    hide HasKind, AllApart, Audited, Ordered;
    if Accepts(w.db, req, age, t) {
      AcceptedMeans(w.db, req, age, t);
      var busy := FindBusy(w.db, Target(req));
      if busy.Some? {
        assert OpSound(w.db, busy.value);
        OneKind(About(busy.value, req.actor, Expired, t), Expired);
        OneKind(About(busy.value, req.actor, Expired, t), Discarded);
      }
    }
  }

  lemma WorkerMovesFlags(w: World, step: Step, t: Time)
    requires SoundWorld(w) && (step.Take? || step.Deliver? || step.Interrupt?)
    ensures FlagsMove(w.db, FirstChange(w, step, t))
  {
    hide HasKind, AllApart, Audited, Ordered;
    var change := FirstChange(w, step, t);
    if change.Moves? { KindsOf(change); }
    match step
    case Take(id, phase) => if id in w.db.ops { assert OpSound(w.db, id); }
    case Deliver(snapshot, state, report) => if snapshot in w.held { assert Current(w.db, snapshot); }
    case Interrupt(id, phase) => if id in w.db.ops { assert OpSound(w.db, id); }
  }

  lemma PeopleMoveFlags(w: World, step: Step, t: Time)
    requires SoundWorld(w) && (step.Approve? || step.Drop? || step.Resolve?)
    ensures FlagsMove(w.db, FirstChange(w, step, t))
  {
    hide HasKind, AllApart, Audited, Ordered, BadReference;
    var change := FirstChange(w, step, t);
    if change.Moves? { KindsOf(change); }
    match step
    case Approve(id, digest, actor, age) => if id in w.db.ops { assert OpSound(w.db, id); }
    case Drop(id, actor) => if id in w.db.ops { assert OpSound(w.db, id); }
    case Resolve(id, actor, outcome) => if id in w.db.ops { assert OpSound(w.db, id); }
  }

  lemma FirstMovesFlags(w: World, step: Step, t: Time)
    requires SoundWorld(w)
    ensures FlagsMove(w.db, FirstChange(w, step, t))
  {
    match step
    case Submit(req, age) => SubmitMovesFlags(w, req, age, t);
    case Take(_, _) => WorkerMovesFlags(w, step, t);
    case Deliver(_, _, _) => WorkerMovesFlags(w, step, t);
    case Interrupt(_, _) => WorkerMovesFlags(w, step, t);
    case Approve(_, _, _, _) => PeopleMoveFlags(w, step, t);
    case Drop(_, _) => PeopleMoveFlags(w, step, t);
    case Resolve(_, _, _) => PeopleMoveFlags(w, step, t);
    case StampRefusal(_, _) =>
    case Remark(_, _, _) =>
  }

  lemma ChangeKeepsFlags(db: Db, change: Change, t: Time, id: OpId)
    requires Legal(db, change, t) && FlagsMove(db, change) && FlagsTell(db, id)
    ensures FlagsTell(Apply(db, change, t), id)
  {
    hide FlagsTell, HasKind;
    var after := Apply(db, change, t);
    forall kind: EventKind | kind.Discarded? || kind.Expired?
      ensures Marked(after, id, kind) <==>
        Marked(db, id, kind) || (change.Moves? && change.op.id == id && HasKind(change.events, kind))
    {
      ChangeMarks(db, change, t, id, kind);
    }
    FlagsFollow(db, change, t, id);
  }

  lemma FlagsFollow(db: Db, change: Change, t: Time, id: OpId)
    requires Legal(db, change, t) && FlagsMove(db, change) && FlagsTell(db, id)
    requires forall kind: EventKind :: kind.Discarded? || kind.Expired? ==>
      (Marked(Apply(db, change, t), id, kind) <==>
         Marked(db, id, kind) || (change.Moves? && change.op.id == id && HasKind(change.events, kind)))
    ensures FlagsTell(Apply(db, change, t), id)
  {
    hide HasKind, Marked;
  }

  lemma ChangeMarks(db: Db, change: Change, t: Time, id: OpId, kind: EventKind)
    requires Legal(db, change, t) && (kind.Discarded? || kind.Expired?)
    ensures Marked(Apply(db, change, t), id, kind) <==>
      Marked(db, id, kind) || (change.Moves? && change.op.id == id && HasKind(change.events, kind))
  {
    var after := Apply(db, change, t);
    if Marked(db, id, kind) {
      var i :| 0 <= i < |db.events| && IsAbout(db.events[i], id) && db.events[i].kind == kind;
      assert after.events[i] == db.events[i];
    }
    if change.Moves? && change.op.id == id && HasKind(change.events, kind) {
      var i :| 0 <= i < |change.events| && change.events[i].kind == kind;
      assert IsAbout(change.events[i], id) && after.events[|db.events| + i] == change.events[i];
    }
    if Marked(after, id, kind) {
      var i :| 0 <= i < |after.events| && IsAbout(after.events[i], id) && after.events[i].kind == kind;
      if i < |db.events| {
        assert db.events[i] == after.events[i];
      } else if change.Moves? {
        assert change.events[i - |db.events|] == after.events[i];
      }
    }
  }

  /** In every run an operation's flags are what its events tell. */
  lemma {:induction false} FlagsAreTold(run: seq<Timed>, id: OpId)
    ensures FlagsTell(Run(START, run).db, id)
  {
    hide Next, Legal, Apply, FlagsTell, SoundWorld, FirstChange, SecondChange;
    if run == [] {
      NothingTold(id);
    } else {
      var w, last := Run(START, run[..|run| - 1]), run[|run| - 1];
      FlagsAreTold(run[..|run| - 1], id);
      EveryRunIsSound(run[..|run| - 1]);
      NextMakes(w, last.step, last.at);
      var first, second := FirstChange(w, last.step, last.at), SecondChange(w, last.step, last.at);
      FirstMovesFlags(w, last.step, last.at);
      SecondNeverMoves(w, last.step, last.at);
      ChangeKeepsFlags(w.db, first, last.at, id);
      ChangeKeepsFlags(Apply(w.db, first, last.at), second, last.at, id);
    }
  }

  lemma NothingTold(id: OpId)
    ensures FlagsTell(START.db, id)
  {
  }

  /** So in every run a discard is idempotent exactly when one was recorded, is accepted exactly for a
      planned operation, and is refused otherwise; and no plan is both discarded and expired. */
  lemma {:induction false} DiscardIsExact(run: seq<Timed>, id: OpId)
    requires id in Run(START, run).db.ops
    ensures var db := Run(START, run).db;
            && DiscardAnswer(db, id) == (if Marked(db, id, Discarded) then Unchanged
                                         else if db.ops[id].state.Planned? then Changed else Refuse(NotPlanned))
            && (Marked(db, id, Discarded) || Marked(db, id, Expired) ==> db.ops[id].state.Failed?)
  {
    hide Run, Marked;
    FlagsAreTold(run, id);
    EveryRunIsSound(run);
    assert OpSound(Run(START, run).db, id);
  }
}
