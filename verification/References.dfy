/** Reference integrity: when a ready resource can refer to one that is gone. */
module References {
  import opened LedgerModel
  import opened LedgerRuns
  import opened LedgerSafety
  import opened Lifecycles

  /** A resource that may be referred to: ready, and not being destroyed. */
  predicate SourceOk(db: Db, source: ResId) {
    && source in db.rows && db.rows[source].state.Ready?
    && var latest := db.rows[source].latest;
       latest in db.ops ==> !db.ops[latest].Action().Destroy? || db.ops[latest].Finished()
  }

  /** Every resource `refs` names, the referring one aside, is ready and not being destroyed. */
  ghost predicate Grounded(db: Db, resource: ResId, refs: Refs) {
    forall name :: name in refs && refs[name].resource != resource ==>
      SourceOk(db, refs[name].resource)
  }

  /** A deploy past its execute, whose outcome is still open. */
  predicate Running(op: Op) {
    op.Action().Deploy? && (op.state.ApplyQueued? || op.state.Applying?
                            || (op.state.Uncertain? && op.planDigest.Some?))
  }

  ghost predicate RowLinked(db: Db, r: ResId) {
    r in db.rows && db.rows[r].state.Ready? ==> Grounded(db, r, db.rows[r].refs)
  }

  ghost predicate RunningLinked(db: Db, id: OpId) {
    id in db.ops && Running(db.ops[id]) ==> Grounded(db, db.ops[id].resource, db.ops[id].terms.refs)
  }

  /** No ready resource, and no deploy that is being applied, refers to a resource that is not
      ready or is being destroyed. */
  ghost predicate Linked(db: Db) {
    && (forall r {:trigger RowLinked(db, r)} :: RowLinked(db, r))
    && (forall id {:trigger RunningLinked(db, id)} :: RunningLinked(db, id))
  }

  /** A running deploy of another resource reads `source`. */
  predicate ReadBy(op: Op, source: ResId) {
    Running(op) && op.resource != source && RefersTo(op.terms.refs, source)
  }

  ghost predicate ReadByRunning(db: Db, source: ResId) {
    exists id :: id in db.ops && ReadBy(db.ops[id], source)
  }

  /** The only accepted change that can break a link: destroying a source while a deploy that
      reads it is running. `_accept` looks at ready resources, not at running deploys. */
  ghost predicate Harmless(db: Db, req: Request) {
    req.intent.action.Destroy? ==> !ReadByRunning(db, Target(req))
  }

  lemma SourceStaysOk(db: Db, change: Change, t: Time, source: ResId)
    requires OpsSound(db) && RowsSound(db) && Legal(db, change, t) && SourceOk(db, source)
    requires change.Enters? && change.req.intent.action.Destroy? ==> Target(change.req) != source
    ensures SourceOk(Apply(db, change, t), source)
  {
    assert RowSound(db, source);
    if change.Moves? { assert OpSound(db, change.op.id); }
  }

  lemma GroundedStays(db: Db, change: Change, t: Time, resource: ResId, refs: Refs)
    requires OpsSound(db) && RowsSound(db) && Legal(db, change, t) && Grounded(db, resource, refs)
    requires change.Enters? && change.req.intent.action.Destroy? && Target(change.req) != resource
             ==> !RefersTo(refs, Target(change.req))
    ensures Grounded(Apply(db, change, t), resource, refs)
  {
    forall name | name in refs && refs[name].resource != resource
      ensures SourceOk(Apply(db, change, t), refs[name].resource)
    {
      SourceStaysOk(db, change, t, refs[name].resource);
    }
  }

  lemma MoveKeepsLinked(db: Db, op: Op, events: seq<Event>, t: Time, clean: DriftStatus)
    requires OpsSound(db) && RowsSound(db) && Linked(db)
    requires Legal(db, Moves(op, events, clean), t)
    ensures Linked(Move(db, op, events, t, clean))
  {
    var change := Moves(op, events, clean);
    var after := Move(db, op, events, t, clean);
    assert OpSound(db, op.id);
    forall r ensures RowLinked(after, r) {
      assert RowLinked(db, r) && RunningLinked(db, op.id);
      if r in after.rows && after.rows[r].state.Ready? {
        GroundedStays(db, change, t, r, after.rows[r].refs);
      }
    }
    forall id ensures RunningLinked(after, id) {
      assert RunningLinked(db, id);
      if id in after.ops && Running(after.ops[id]) {
        GroundedStays(db, change, t, after.ops[id].resource, after.ops[id].terms.refs);
      }
    }
  }

  lemma EnterKeepsLinked(db: Db, req: Request, t: Time)
    requires OpsSound(db) && RowsSound(db) && Linked(db) && Enterable(db, req) && Harmless(db, req)
    ensures Linked(Enter(db, req, t))
  {
    var change := Enters(req);
    var after := Enter(db, req, t);
    forall r ensures RowLinked(after, r) {
      assert RowLinked(db, r);
      if r in after.rows && after.rows[r].state.Ready? {
        GroundedStays(db, change, t, r, after.rows[r].refs);
      }
    }
    forall id ensures RunningLinked(after, id) {
      assert RunningLinked(db, id);
      if id in after.ops && Running(after.ops[id]) {
        GroundedStays(db, change, t, after.ops[id].resource, after.ops[id].terms.refs);
      }
    }
  }

  lemma ChangeKeepsLinked(db: Db, change: Change, t: Time)
    requires OpsSound(db) && RowsSound(db) && Linked(db) && Legal(db, change, t)
    requires change.Enters? ==> Harmless(db, change.req)
    ensures Linked(Apply(db, change, t))
  {
    match change
    case Moves(op, events, clean) => MoveKeepsLinked(db, op, events, t, clean);
    case Enters(req) => EnterKeepsLinked(db, req, t);
    case _ =>
      var after := Apply(db, change, t);
      forall r ensures RowLinked(after, r) {
        assert RowLinked(db, r);
        if r in after.rows && after.rows[r].state.Ready? {
          GroundedStays(db, change, t, r, after.rows[r].refs);
        }
      }
      forall id ensures RunningLinked(after, id) {
        assert RunningLinked(db, id);
        if id in after.ops && Running(after.ops[id]) {
          GroundedStays(db, change, t, after.ops[id].resource, after.ops[id].terms.refs);
        }
      }
  }

  // ----- Whole runs -----

  ghost predicate HarmlessStep(db: Db, step: Step, t: Time) {
    step.Submit? && Accepts(db, step.req, step.age, t) ==> Harmless(db, step.req)
  }

  ghost predicate HarmlessRun(w: World, run: seq<Timed>) {
    forall k {:trigger run[..k]} :: 0 <= k < |run| ==>
      HarmlessStep(Run(w, run[..k]).db, run[k].step, run[k].at)
  }

  lemma UnblockReadsSame(db: Db, req: Request, age: Option<nat>, t: Time)
    requires OpsSound(db) && Accept(db, req, age, t).Accepted?
    ensures ReadByRunning(Unblocked(db, req, age, t), Target(req)) <==> ReadByRunning(db, Target(req))
  {
    hide Unblocked, Accept, Settled;
    var after := Unblocked(db, req, age, t);
    var busy := FindBusy(db, Target(req));
    AcceptedMeans(db, req, age, t);
    if busy.Some? { assert OpSound(db, busy.value); }
    forall id ensures id in db.ops && ReadBy(db.ops[id], Target(req))
                      <==> id in after.ops && ReadBy(after.ops[id], Target(req)) { }
  }

  lemma StepKeepsLinked(w: World, step: Step, t: Time)
    requires SoundWorld(w) && Linked(w.db) && HarmlessStep(w.db, step, t)
    ensures Linked(Next(w, step, t).db)
  {
    hide Next;
    NextMakes(w, step, t);
    var first, second := FirstChange(w, step, t), SecondChange(w, step, t);
    ChangeKeepsLinked(w.db, first, t);
    if second.Enters? {
      UnblockMakes(w.db, step.req, step.age, t);
      UnblockReadsSame(w.db, step.req, step.age, t);
    }
    ChangeKeepsLinked(Apply(w.db, first, t), second, t);
  }

  /** If no source is destroyed under a running deploy, no link ever breaks. */
  lemma {:induction false} LinksHold(w: World, run: seq<Timed>)
    requires SoundWorld(w) && Linked(w.db) && HarmlessRun(w, run)
    ensures Linked(Run(w, run).db)
  {
    hide Next;
    if run != [] {
      var prefix, last := run[..|run| - 1], run[|run| - 1];
      forall k {:trigger prefix[..k]} | 0 <= k < |prefix|
        ensures HarmlessStep(Run(w, prefix[..k]).db, prefix[k].step, prefix[k].at)
      {
        assert prefix[..k] == run[..k];
      }
      LinksHold(w, prefix);
      RunKeepsSound(w, prefix);
      assert run[..|run| - 1] == prefix;
      StepKeepsLinked(Run(w, prefix), last.step, last.at);
    }
  }

  /** In a linked ledger a ready, idle resource's own destroy is never refused over references. */
  lemma OwnDestroyIsNotRefused(db: Db, req: Request)
    requires Linked(db) && RowsSound(db) && ResourceFree(db, Target(req))
    requires Target(req) in db.rows && db.rows[Target(req)].state.Ready?
    requires req.intent.action.Destroy? && req.resolved == ResolvedForDestroy(db.rows[Target(req)])
    ensures Admission(db, req) != Some(ReferenceNotReady)
  {
    var r := Target(req);
    assert RowLinked(db, r) && RowSound(db, r);
    forall name | name in req.resolved.refs
      ensures ReferenceError(db, req.resolved.refs[name].resource).None?
    {
      if req.resolved.refs[name].resource != r {
        assert SourceOk(db, req.resolved.refs[name].resource);
      }
    }
  }

  // ----- The guard is exact -----

  /** Carry the destroy of `source` through, then let the deploy that reads it succeed. */
  lemma BreaksLink(w: World, destroy: OpId, reader: OpId, t: Time) returns (run: seq<Timed>)
    requires SoundWorld(w) && destroy in w.db.ops && reader in w.db.ops
    requires w.db.ops[destroy].Action().Destroy? && w.db.ops[destroy].state.Queued?
    requires ReadBy(w.db.ops[reader], w.db.ops[destroy].resource)
    ensures !Linked(Run(w, run).db) && Quiet(run, t)
  {
    hide Next, Run, Sound, ClaimsSound;
    var first := CarryThrough(w, destroy, Sha256(PlanFile(0, 0)), t);
    var gone := Run(w, first);
    OpIsSound(w, reader);
    OpIsSound(w, destroy);
    var second := FinishReader(gone, reader, t);
    RunConcat(w, first, second);
    run := first + second;
    var after := Run(gone, second).db;
    var r := w.db.ops[reader].resource;
    assert !RowLinked(after, r) by {
      var name :| name in w.db.ops[reader].terms.refs
                  && w.db.ops[reader].terms.refs[name].resource == w.db.ops[destroy].resource;
      assert !SourceOk(after, after.rows[r].refs[name].resource);
    }
  }

  /** Interrupt the apply if it is still going on, and reconcile it as succeeded. */
  lemma FinishReader(w: World, id: OpId, t: Time) returns (run: seq<Timed>)
    requires SoundWorld(w) && id in w.db.ops && Running(w.db.ops[id])
    ensures var r := w.db.ops[id].resource; var after := Run(w, run).db;
            && Quiet(run, t) && r in w.db.rows && after.rows.Keys == w.db.rows.Keys
            && (forall other :: other in w.db.rows && other != r ==> after.rows[other] == w.db.rows[other])
            && after.rows[r].state.Ready? && after.rows[r].refs == w.db.ops[id].terms.refs
  {
    hide Next, Run, Sound, ClaimsSound;
    OpIsSound(w, id);
    var interrupt, resolve := Interrupt(id, ApplyPhase), Resolve(id, 1, FoundSucceeded);
    var mid := w;
    run := [];
    NoSteps(w);
    if !w.db.ops[id].state.Uncertain? {
      InterruptReader(w, id, t);
      OneStep(w, interrupt, t);
      mid := Next(w, interrupt, t);
      run := [Timed(interrupt, t)];
    }
    ResolveReader(mid, id, t);
    RunAppend(w, run, resolve, t);
    run := run + [Timed(resolve, t)];
  }

  lemma InterruptReader(w: World, id: OpId, t: Time)
    requires SoundWorld(w) && id in w.db.ops && Running(w.db.ops[id])
    requires !w.db.ops[id].state.Uncertain?
    ensures var after := Next(w, Interrupt(id, ApplyPhase), t);
            && OnlyOp(w, after, id, Uncertain) && Running(after.db.ops[id])
  {
    assert OpSound(w.db, id);
    NextKeepsSound(w, Interrupt(id, ApplyPhase), t);
  }

  lemma ResolveReader(w: World, id: OpId, t: Time)
    requires SoundWorld(w) && id in w.db.ops && Running(w.db.ops[id]) && w.db.ops[id].state.Uncertain?
    ensures var r := w.db.ops[id].resource;
            var after := Next(w, Resolve(id, 1, FoundSucceeded), t).db;
            && r in w.db.rows && after.rows.Keys == w.db.rows.Keys
            && (forall other :: other in w.db.rows && other != r ==> after.rows[other] == w.db.rows[other])
            && after.rows[r].state.Ready? && after.rows[r].refs == w.db.ops[id].terms.refs
  {
    assert OpSound(w.db, id);
  }

  lemma QuietIsHarmless(w: World, run: seq<Timed>, t: Time)
    requires Quiet(run, t)
    ensures HarmlessRun(w, run)
  {
    hide Next, Run;
  }

  lemma UnsafeRun(w: World, req: Request, age: Option<nat>, t: Time) returns (run: seq<Timed>)
    requires SoundWorld(w) && Accepts(w.db, req, age, t) && req.intent.action.Destroy?
    requires ReadByRunning(w.db, Target(req))
    ensures var after := Next(w, Submit(req, age), t); HarmlessRun(after, run) && !Linked(Run(after, run).db)
  {
    hide Next, Run, SoundWorld, Enterable, Accepts, Linked, HarmlessRun, Unblocked, Enter, ReadBy;
    var after := Next(w, Submit(req, age), t);
    SubmitEnters(w, req, age, t);
    assert OpsSound(w.db) && Accept(w.db, req, age, t).Accepted? by { OpsOf(w); WasAccepted(w.db, req, age, t); }
    UnblockReadsSame(w.db, req, age, t);
    var mid := Unblocked(w.db, req, age, t);
    var id :| id in mid.ops && ReadBy(mid.ops[id], Target(req));
    EnterShows(mid, req, t, id);
    run := BreaksLink(after, req.newOp, id, t);
    QuietIsHarmless(after, run, t);
  }

  lemma OpsOf(w: World)
    requires SoundWorld(w)
    ensures OpsSound(w.db)
  {
  }

  lemma WasAccepted(db: Db, req: Request, age: Option<nat>, t: Time)
    requires Accepts(db, req, age, t)
    ensures Accept(db, req, age, t).Accepted?
  {
  }

  lemma EnterShows(db: Db, req: Request, t: Time, id: OpId)
    requires Enterable(db, req) && id in db.ops
    ensures var after := Enter(db, req, t);
            && id in after.ops && after.ops[id] == db.ops[id]
            && req.newOp in after.ops && after.ops[req.newOp].Action() == req.intent.action
            && after.ops[req.newOp].state.Queued? && after.ops[req.newOp].resource == Target(req)
  {
    hide Admission;
  }

  lemma SafeAfter(w: World, req: Request, age: Option<nat>, t: Time)
    requires SoundWorld(w) && Linked(w.db) && Accepts(w.db, req, age, t) && !ReadByRunning(w.db, Target(req))
    ensures var after := Next(w, Submit(req, age), t); SoundWorld(after) && Linked(after.db)
  {
    hide Next, SoundWorld, Linked, Accepts, ReadByRunning;
    SubmitEnters(w, req, age, t);
    StepKeepsLinked(w, Submit(req, age), t);
  }

  /** Accepting a destroy from a linked ledger is safe, whatever harmless steps follow, if and
      only if no running deploy of another resource reads what it destroys. */
  lemma DestroyIsSafeExactly(w: World, req: Request, age: Option<nat>, t: Time)
    requires SoundWorld(w) && Linked(w.db) && Accepts(w.db, req, age, t)
    requires req.intent.action.Destroy?
    ensures var after := Next(w, Submit(req, age), t);
            (forall run {:trigger Run(after, run)} :: HarmlessRun(after, run) ==> Linked(Run(after, run).db))
            <==> !ReadByRunning(w.db, Target(req))
  {
    hide Next, Run, SoundWorld, Enterable, Linked, ReadByRunning, HarmlessRun, Accepts;
    var after := Next(w, Submit(req, age), t);
    if ReadByRunning(w.db, Target(req)) {
      var run := UnsafeRun(w, req, age, t);
      assert HarmlessRun(after, run) && !Linked(Run(after, run).db);
    } else {
      SafeAfter(w, req, age, t);
      forall run {:trigger Run(after, run)} | HarmlessRun(after, run) ensures Linked(Run(after, run).db) {
        LinksHold(after, run);
      }
    }
  }

  // ----- A run with a dangling reference -----

  function ReaderOfZero(): Request {
    Request(1, CallerKey(1), Intent(Deploy, None, 0),
            Resolved(0, 0, map["in" := Ref(0, 0)], 0, None, None, None), None, true, 1, 1)
  }

  function DestroyZero(row: Row): Request {
    Request(1, CallerKey(2), Intent(Destroy, Some(row.id), 0), ResolvedForDestroy(row), None, true, 2, 2)
  }

  ghost predicate SourceReady(w: World) {
    && SoundWorld(w) && w.db.ops.Keys == {0} && w.db.rows.Keys == {0} && w.db.ops[0].Finished()
    && w.db.ops[0].terms.key == CallerKey(0) && w.db.ops[0].terms.actor == 1
    && w.db.ops[0].Action().Deploy? && w.db.ops[0].resource == 0
    && w.db.rows[0].state.Ready? && w.db.rows[0].refs == map[] && w.db.rows[0].id == 0
    && w.db.rows[0].latest == 0 && w.db.rows[0].zone == 0 && w.db.rows[0].reconciliation.None?
  }

  ghost predicate ReaderRunning(w: World) { ReaderIs(w, Applying) }

  lemma SourceFirst() returns (run: seq<Timed>)
    ensures SourceReady(Run(START, run)) && AtZero(run)
  {
    hide Next, Run;
    StartIsSound();
    FirstDeployEnters(0);
    run := AcceptAndCarry(START, FirstDeploy(0), 0);
    assert forall k :: 0 < k < |run| ==> run[k] == run[1..][k - 1];
  }

  ghost predicate AtZero(run: seq<Timed>) { forall k :: 0 <= k < |run| ==> run[k].at == 0 }

  lemma ReaderEnters(w: World)
    requires SourceReady(w)
    ensures Enterable(w.db, ReaderOfZero())
    ensures !BadReference(Enter(w.db, ReaderOfZero(), 0), ReaderOfZero().resolved.refs)
  {
    var db := Enter(w.db, ReaderOfZero(), 0);
    forall name | name in ReaderOfZero().resolved.refs
      ensures ReferenceError(db, ReaderOfZero().resolved.refs[name].resource).None?
      ensures ReferenceError(w.db, ReaderOfZero().resolved.refs[name].resource).None?
    {
      assert name == "in";
    }
  }

  /** The tables of `ReaderRunning`, with operation 1 in the given state. */
  ghost predicate ReaderIs(w: World, state: OpState) {
    && SoundWorld(w) && w.db.ops.Keys == {0, 1} && w.db.rows.Keys == {0, 1}
    && w.db.ops[0].Finished() && w.db.ops[0].terms.key == CallerKey(0) && w.db.ops[0].resource == 0
    && w.db.ops[1].state == state && w.db.ops[1].terms.key == CallerKey(1)
    && w.db.ops[1].resource == 1 && w.db.ops[1].Action().Deploy?
    && w.db.ops[1].terms.refs == map["in" := Ref(0, 0)]
    && w.db.rows[0].state.Ready? && w.db.rows[0].refs == map[] && w.db.rows[0].id == 0
    && w.db.rows[0].reconciliation.None? && w.db.rows[1].state.Pending?
  }

  lemma ReaderQueued(w: World, after: World)
    requires SourceReady(w) && SoundWorld(after) && after.db == Enter(w.db, ReaderOfZero(), 0)
    ensures ReaderIs(after, Queued)
  {
    hide SoundWorld;
  }

  lemma ReaderMoved(w: World, after: World)
    requires ReaderIs(w, Queued) && OnlyOp(w, after, 1, Applying)
    ensures ReaderRunning(after)
  {
    hide SoundWorld;
  }

  lemma ReaderStarts(w: World) returns (run: seq<Timed>)
    requires SourceReady(w)
    ensures ReaderRunning(Run(w, run)) && AtZero(run)
  {
    hide Next, Run, SoundWorld, Enterable, Enter, OnlyOp, BadReference, ReaderRunning;
    var req := ReaderOfZero();
    ReaderEnters(w);
    assert SoundWorld(w);
    SubmitFree(w, req, None, 0);
    OneStep(w, Submit(req, None), 0);
    var first := [Timed(Submit(req, None), 0)];
    ReaderQueued(w, Run(w, first));
    var second := StartThrough(Run(w, first), 1, Sha256(PlanFile(0, 0)), 0);
    ReaderMoved(Run(w, first), Run(Run(w, first), second));
    RunConcat(w, first, second);
    run := first + second;
  }

  lemma SourceDestroyEnters(w: World)
    requires ReaderRunning(w)
    ensures Enterable(w.db, DestroyZero(w.db.rows[0]))
  {
    assert RowSound(w.db, 0);
    assert OpSound(w.db, 0) && OpSound(w.db, 1);
  }

  /** A reachable ledger in which a ready resource refers to a destroyed one: the source's destroy
      was accepted while the deploy that reads it was being applied. */
  lemma DanglingExample() returns (run: seq<Timed>)
    ensures AtZero(run) && !Linked(Run(START, run).db)
  {
    hide Next, Run, Sound, ClaimsSound, Enterable;
    var first := SourceFirst();
    var second := ReaderStarts(Run(START, first));
    var running := Run(Run(START, first), second);
    var req := DestroyZero(running.db.rows[0]);
    SourceDestroyEnters(running);
    SubmitFree(running, req, None, 0);
    OneStep(running, Submit(req, None), 0);
    var third := [Timed(Submit(req, None), 0)];
    var accepted := Run(running, third);
    assert accepted.db.ops[1].terms.refs["in"].resource == 0;
    var last := BreaksLink(accepted, 2, 1, 0);
    RunConcat(START, first, second);
    RunConcat(START, first + second, third);
    RunConcat(START, first + second + third, last);
    run := first + second + third + last;
  }
}
