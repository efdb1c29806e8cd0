/** What the ledger promises over whole runs. */
module LedgerTheorems {
  import opened LedgerModel
  import opened LedgerRuns
  import opened LedgerSafety

  // ----- The state machine only goes forward -----

  /** A record is unchanged, or it has moved down the ranks with its terms, and with whatever
      reconciliation record it was accepted with for as long as it is unfinished. */
  ghost predicate Forward(before: Op, after: Op) {
    && SameTerms(before, after)
    && (after == before || Rank(after.state) < Rank(before.state))
    && (!after.Finished() ==> after.reconciliation == before.reconciliation)
  }

  lemma ForwardTwice(a: Op, b: Op, c: Op)
    requires Forward(a, b) && Forward(b, c)
    ensures Forward(a, c)
  {
  }

  lemma ChangesGoForward(db: Db, change: Change, t: Time, id: OpId)
    requires OpsSound(db) && Legal(db, change, t) && id in db.ops
    ensures id in Apply(db, change, t).ops && Forward(db.ops[id], Apply(db, change, t).ops[id])
  {
    assert OpSound(db, id);
  }

  lemma StepsGoForward(w: World, step: Step, t: Time, id: OpId)
    requires SoundWorld(w) && id in w.db.ops
    ensures id in Next(w, step, t).db.ops && Forward(w.db.ops[id], Next(w, step, t).db.ops[id])
  {
    NextMakes(w, step, t);
    var mid := Apply(w.db, FirstChange(w, step, t), t);
    ChangesGoForward(w.db, FirstChange(w, step, t), t, id);
    ChangesGoForward(mid, SecondChange(w, step, t), t, id);
    ForwardTwice(w.db.ops[id], mid.ops[id], Next(w, step, t).db.ops[id]);
  }

  /** Over any run an operation keeps its terms, and its record changes only together with a
      strictly smaller rank: so it makes at most seven state changes, and never repeats a state. */
  lemma {:induction false} RunsGoForward(w: World, run: seq<Timed>, id: OpId)
    requires SoundWorld(w) && id in w.db.ops
    ensures id in Run(w, run).db.ops && Forward(w.db.ops[id], Run(w, run).db.ops[id])
  {
    if run != [] {
      var earlier, last := Run(w, run[..|run| - 1]), run[|run| - 1];
      RunsGoForward(w, run[..|run| - 1], id);
      RunKeepsSound(w, run[..|run| - 1]);
      StepsGoForward(earlier, last.step, last.at, id);
      ForwardTwice(w.db.ops[id], earlier.db.ops[id], Run(w, run).db.ops[id]);
    }
  }

  // ----- Comparing states is as strong as a unique claim token -----

  /** `finish` compares one word, yet it lets a result through exactly when the stored record is
      still, field for field, the snapshot this claim returned: no update can be lost. */
  lemma {:induction false} FenceIsAToken(run: seq<Timed>, snapshot: Op)
    requires snapshot in Run(START, run).held
    ensures var db := Run(START, run).db;
            !Fenced(db, snapshot) <==> snapshot.id in db.ops && db.ops[snapshot.id] == snapshot
  {
    EveryRunIsSound(run);
    assert Current(Run(START, run).db, snapshot);
  }

  /** In every run each phase of each operation is claimed at most once. */
  lemma {:induction false} EachPhaseIsClaimedOnce(run: seq<Timed>, i: nat, j: nat)
    requires i < j < |Run(START, run).held|
    ensures var held := Run(START, run).held;
            held[i].id != held[j].id || held[i].state != held[j].state
  {
    EveryRunIsSound(run);
  }

  lemma InterruptEnds(w: World, id: OpId, phase: Phase, t: Time)
    requires SoundWorld(w) && Interruptible(w.db, id, phase)
    ensures var after := Next(w, Interrupt(id, phase), t);
            SoundWorld(after) && id in after.db.ops && Rank(after.db.ops[id].state) <= 2
  {
    NextKeepsSound(w, Interrupt(id, phase), t);
    assert OpSound(w.db, id);
  }

  lemma {:induction false} EndedStaysEnded(w: World, run: seq<Timed>, id: OpId, phase: Phase)
    requires SoundWorld(w) && id in w.db.ops && Rank(w.db.ops[id].state) <= 2
    ensures var after := Run(w, run).db;
            id in after.ops && after.ops[id].state != PhaseRuns(phase) && !Claimable(after, id, phase)
  {
    RunsGoForward(w, run, id);
  }

  /** Once `interrupted` has recorded a timeout, whatever happens next, no result of that phase
      changes anything, and the phase is never claimed again. */
  lemma {:induction false} LateResultsChangeNothing(
      w: World, id: OpId, phase: Phase, t: Time, run: seq<Timed>,
      snapshot: Op, state: OpState, report: Report, late: Time)
    requires SoundWorld(w) && Interruptible(w.db, id, phase)
    requires snapshot.id == id && snapshot.state == PhaseRuns(phase)
    ensures var after := Run(Next(w, Interrupt(id, phase), t), run);
            && Next(after, Deliver(snapshot, state, report), late) == after
            && Next(after, Take(id, phase), late) == after
  {
    InterruptEnds(w, id, phase, t);
    EndedStaysEnded(Next(w, Interrupt(id, phase), t), run, id, phase);
  }

  // ----- One unfinished operation per resource; the audit trail -----

  lemma {:induction false} OneOperationPerResource(run: seq<Timed>, a: OpId, b: OpId)
    requires var db := Run(START, run).db;
             a in db.ops && b in db.ops && a != b && db.ops[a].resource == db.ops[b].resource
    ensures var db := Run(START, run).db; db.ops[a].Finished() || db.ops[b].Finished()
  {
    EveryRunIsSound(run);
    var db := Run(START, run).db;
    assert Apart(db.ops[a], db.ops[b]);
  }

  lemma {:induction false} FoldPrefix(action: Action, trail: seq<Event>, k: nat)
    requires Fold(action, trail).Some? && 0 < k <= |trail|
    ensures Fold(action, trail[..k]).Some?
  {
    if k < |trail| {
      FoldPrefix(action, trail[..|trail| - 1], k);
      assert trail[..|trail| - 1][..k] == trail[..k];
    } else {
      assert trail[..k] == trail;
    }
  }

  /** Reading an operation's events in order gives exactly its state, every prefix is a legal path
      of the state machine, and there are at most eight of them. */
  lemma {:induction false} TrailTellsState(run: seq<Timed>, id: OpId, k: nat)
    requires var db := Run(START, run).db; id in db.ops && 0 < k <= |Trail(db.events, id)|
    ensures var db := Run(START, run).db; var trail := Trail(db.events, id);
            && Fold(db.ops[id].Action(), trail) == Some(db.ops[id].state)
            && Fold(db.ops[id].Action(), trail[..k]).Some?
            && |trail| <= 8
  {
    EveryRunIsSound(run);
    var db := Run(START, run).db;
    assert Told(db, id);
    FoldPrefix(db.ops[id].Action(), Trail(db.events, id), k);
  }

  lemma ChangesAppendEvents(db: Db, change: Change, t: Time)
    requires Legal(db, change, t)
    ensures var after := Apply(db, change, t);
            && |db.events| <= |after.events| && after.events[..|db.events|] == db.events
            && (after.ops == db.ops ==> forall id :: Trail(after.events, id) == Trail(db.events, id))
  {
    if change.Moves? {
      assert Apply(db, change, t).ops[change.op.id].state != db.ops[change.op.id].state;
    } else if change.Enters? {
      assert change.req.newOp in Apply(db, change, t).ops;
    } else if change.Remarks? {
      forall id ensures Trail(db.events + [change.event], id) == Trail(db.events, id) {
        TrailAppend(db.events, [change.event], id);
        TrailOfNone(change.event, id);
      }
    }
  }

  /** The audit log is append-only, and a step that leaves every operation as it was (a refused or
      rolled-back one, a drift stamp) tells nothing new about any of them. */
  lemma EventsOnlyGrow(w: World, step: Step, t: Time)
    requires SoundWorld(w)
    ensures var before, after := w.db, Next(w, step, t).db;
            && |before.events| <= |after.events| && after.events[..|before.events|] == before.events
            && (after.ops == before.ops ==>
                  forall id :: Trail(after.events, id) == Trail(before.events, id))
  {
    hide Next, FirstChange, Legal, Apply, Sound, ClaimsSound, Accepts;
    NextMakes(w, step, t);
    var first, second := FirstChange(w, step, t), SecondChange(w, step, t);
    var mid := Apply(w.db, first, t);
    ChangesAppendEvents(w.db, first, t);
    ChangesAppendEvents(mid, second, t);
    OpsTell(w.db, first, second, t);
  }

  lemma ChangesShow(db: Db, change: Change, t: Time)
    requires Legal(db, change, t)
    ensures forall id :: id in db.ops ==> id in Apply(db, change, t).ops
    ensures change.Enters? ==> change.req.newOp !in db.ops && change.req.newOp in Apply(db, change, t).ops
    ensures Apply(db, change, t).ops != db.ops <==> change.Moves? || change.Enters?
  {
    if change.Moves? { assert Apply(db, change, t).ops[change.op.id].state != db.ops[change.op.id].state; }
  }

  /** Two changes that leave the operations as they were are each told by nothing. */
  lemma OpsTell(db: Db, first: Change, second: Change, t: Time)
    requires Legal(db, first, t) && Legal(Apply(db, first, t), second, t)
    requires second.Enters? || second.Nothing?
    ensures Apply(Apply(db, first, t), second, t).ops == db.ops ==>
      Apply(db, first, t).ops == db.ops && Apply(Apply(db, first, t), second, t).ops == Apply(db, first, t).ops
  {
    hide Legal, Apply;
    ChangesShow(db, first, t);
    ChangesShow(Apply(db, first, t), second, t);
  }

  // ----- What a row is born with -----

  ghost predicate SameBirth(before: Row, after: Row) {
    && after.id == before.id && after.zone == before.zone && after.createdAt == before.createdAt
    && (before.promotedFrom.Some? ==> after.promotedFrom.Some?)
  }

  lemma ChangesKeepBirth(db: Db, change: Change, t: Time, r: ResId)
    requires OpsSound(db) && RowsSound(db) && Legal(db, change, t) && r in db.rows
    ensures r in Apply(db, change, t).rows && SameBirth(db.rows[r], Apply(db, change, t).rows[r])
  {
    if change.Moves? {
      MoveIsMoved(db, change.op, change.events, t, change.clean);
      assert RowSound(db, r);
    }
  }

  /** Over any run a resource keeps its zone and creation time, and where it was promoted from is
      never forgotten, although every success rewrites the whole row. */
  lemma {:induction false} BirthIsKept(w: World, run: seq<Timed>, r: ResId)
    requires SoundWorld(w) && r in w.db.rows
    ensures r in Run(w, run).db.rows && SameBirth(w.db.rows[r], Run(w, run).db.rows[r])
  {
    hide Next, FirstChange, SecondChange, Legal, Apply;
    if run != [] {
      var earlier, last := Run(w, run[..|run| - 1]), run[|run| - 1];
      BirthIsKept(w, run[..|run| - 1], r);
      RunKeepsSound(w, run[..|run| - 1]);
      NextMakes(earlier, last.step, last.at);
      var first := FirstChange(earlier, last.step, last.at);
      ChangesKeepBirth(earlier.db, first, last.at, r);
      ChangesKeepBirth(Apply(earlier.db, first, last.at), SecondChange(earlier, last.step, last.at), last.at, r);
    }
  }

  // ----- Idempotency -----

  /** A caller's key names one operation for ever: repeating the request returns that operation,
      in whatever state it then is, and another request under the key is refused. */
  lemma {:induction false} KeysNameOneOperation(w: World, id: OpId, run: seq<Timed>, req: Request,
                                                age: Option<nat>, t: Time)
    requires SoundWorld(w) && id in w.db.ops
    requires req.actor == w.db.ops[id].terms.actor && req.key == w.db.ops[id].terms.key
    ensures var after := Run(w, run);
            && id in after.db.ops
            && (Accept(after.db, req, age, t) == if req.intent == w.db.ops[id].terms.intent
                                                 then Replayed(after.db.ops[id]) else Rejected(KeyReused))
            && Next(after, Submit(req, age), t) == after
  {
    hide Run;
    RunsGoForward(w, run, id);
    RunKeepsSound(w, run);
    KeyIsFound(Run(w, run).db, id, req);
    NothingAccepted(Run(w, run), req, age, t);
  }

  lemma KeyIsFound(db: Db, id: OpId, req: Request)
    requires Sound(db) && id in db.ops
    requires req.actor == db.ops[id].terms.actor && req.key == db.ops[id].terms.key
    ensures FindKey(db, req.actor, req.key) == Some(id)
  {
    hide OpsSound, RowsSound, Audited;
    FindKeyNone(db, req.actor, req.key);
    var found := FindKey(db, req.actor, req.key);
    assert found.value == id || Apart(db.ops[found.value], db.ops[id]);
  }

  lemma NothingAccepted(w: World, req: Request, age: Option<nat>, t: Time)
    requires FindKey(w.db, req.actor, req.key).Some?
    ensures Next(w, Submit(req, age), t) == w
  {
    hide FindKey, Unblocked, FindBusy;
  }
}
