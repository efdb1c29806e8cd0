/** What one app step does to the ledger, as far as apps care: which operations appear, how the old
    ones move, and which of them define their rows. */
module AppLedger {
  import opened LedgerModel
  import opened LedgerRuns
  import opened LedgerSafety
  import opened LedgerTheorems
  import opened AppRuns

  predicate Real(op: Op) { !op.Action().DriftCheck? }

  /** A record went forward, and from the plan on its digest is fixed. */
  ghost predicate Later(before: Op, after: Op) {
    Forward(before, after)
    && (Rank(before.state) <= Rank(Planned) ==> after.planDigest == before.planDigest)
  }

  lemma LaterTwice(a: Op, b: Op, c: Op)
    requires Later(a, b) && Later(b, c)
    ensures Later(a, c)
  {
  }

  ghost predicate OpGrows(before: Db, after: Db, id: OpId) {
    id in before.ops && id in after.ops && Later(before.ops[id], after.ops[id])
  }

  /** Operation `id` succeeded in between and so defines its row. */
  predicate NewlyDone(before: Db, after: Db, id: OpId, r: ResId) {
    && id in before.ops && id in after.ops && before.ops[id].resource == r && Real(before.ops[id])
    && !before.ops[id].Finished() && after.ops[id].state.Succeeded?
  }

  ghost predicate RowGrows(before: Db, after: Db, r: ResId) {
    && r in before.rows && r in after.rows
    && ((forall id {:trigger NewlyDone(before, after, id, r)} :: !NewlyDone(before, after, id, r)) ==>
          after.rows[r].state == before.rows[r].state && after.rows[r].refs == before.rows[r].refs)
    && (forall id {:trigger NewlyDone(before, after, id, r)} :: NewlyDone(before, after, id, r) ==>
          after.rows[r].state == (if before.ops[id].Action().Destroy? then Destroyed else Ready)
          && after.rows[r].refs == before.ops[id].terms.refs)
  }

  predicate Entered(op: Op, req: Request) {
    && op.id == req.newOp && op.resource == Target(req) && op.state.Queued?
    && op.terms.actor == req.actor && op.terms.key == req.key && op.terms.intent == req.intent
    && op.terms.refs == req.resolved.refs
  }

  ghost predicate NewOpGrows(before: Db, after: Db, reqs: seq<Request>, id: OpId) {
    id in after.ops && id !in before.ops ==>
      exists k :: 0 <= k < |reqs| && Entered(after.ops[id], reqs[k])
  }

  predicate NewIsThere(before: Db, after: Db, req: Request) {
    req.newOp !in before.ops && req.newOp in after.ops && Entered(after.ops[req.newOp], req)
    && Target(req) in after.rows
    && (req.intent.resource.None? ==> Target(req) !in before.rows)
  }

  ghost predicate NewRowGrows(before: Db, after: Db, reqs: seq<Request>, r: ResId) {
    r in after.rows && r !in before.rows ==>
      after.rows[r].state.Pending? && exists k :: 0 <= k < |reqs| && reqs[k].intent.resource.None?
                                                 && r == Target(reqs[k])
  }

  ghost predicate Grown(before: Db, after: Db, reqs: seq<Request>) {
    && (forall id {:trigger OpGrows(before, after, id)} :: id in before.ops ==> OpGrows(before, after, id))
    && (forall r {:trigger RowGrows(before, after, r)} :: r in before.rows ==> RowGrows(before, after, r))
    && (forall id {:trigger NewOpGrows(before, after, reqs, id)} :: NewOpGrows(before, after, reqs, id))
    && (forall r {:trigger NewRowGrows(before, after, reqs, r)} :: NewRowGrows(before, after, reqs, r))
    && (forall k {:trigger reqs[k]} :: 0 <= k < |reqs| ==> NewIsThere(before, after, reqs[k]))
  }

  /** Nothing but expiry happened to the old operations. */
  predicate OpCalm(before: Db, after: Db, id: OpId) {
    && id in before.ops && id in after.ops
    && (after.ops[id] == before.ops[id] || (before.ops[id].state.Planned? && after.ops[id].state.Failed?))
  }

  ghost predicate Calm(before: Db, after: Db) {
    forall id {:trigger OpCalm(before, after, id)} :: id in before.ops ==> OpCalm(before, after, id)
  }

  // ----- Primitive changes -----

  lemma MoveGrows(db: Db, op: Op, events: seq<Event>, t: Time, clean: DriftStatus)
    requires OpsSound(db) && LegalMove(db, op)
    ensures Grown(db, Move(db, op, events, t, clean), [])
  {
    hide Settled, OpSound, RowGrows;
    var after := Move(db, op, events, t, clean);
    MoveGrowsOps(db, op, events, t, clean);
    forall r | r in db.rows ensures RowGrows(db, after, r) { MoveGrowsRow(db, op, events, t, clean, r); }
  }

  lemma MoveGrowsOps(db: Db, op: Op, events: seq<Event>, t: Time, clean: DriftStatus)
    requires OpsSound(db) && LegalMove(db, op)
    ensures var after := Move(db, op, events, t, clean);
            && (forall id {:trigger OpGrows(db, after, id)} :: id in db.ops ==> OpGrows(db, after, id))
            && after.ops.Keys == db.ops.Keys && after.rows.Keys == db.rows.Keys
  {
    hide Settled;
    assert OpSound(db, op.id);
  }

  lemma MoveGrowsRow(db: Db, op: Op, events: seq<Event>, t: Time, clean: DriftStatus, r: ResId)
    requires OpsSound(db) && LegalMove(db, op) && r in db.rows
    ensures RowGrows(db, Move(db, op, events, t, clean), r)
  {
    var after := Move(db, op, events, t, clean);
    assert OpSound(db, op.id);
    assert NewlyDone(db, after, op.id, op.resource) <==> Real(op) && op.state.Succeeded?;
  }

  lemma EnterGrows(db: Db, req: Request, t: Time)
    requires Enterable(db, req)
    ensures var after := Enter(db, req, t); Grown(db, after, [req]) && Calm(db, after)
  {
    hide Admission;
    var after, reqs := Enter(db, req, t), [req];
    forall id | id in db.ops ensures OpGrows(db, after, id) && OpCalm(db, after, id) { }
    forall id ensures NewOpGrows(db, after, reqs, id) {
      if id == req.newOp { assert Entered(after.ops[id], reqs[0]); }
    }
    forall r | r in db.rows ensures RowGrows(db, after, r) { }
    forall r ensures NewRowGrows(db, after, reqs, r) {
      if r == Target(req) { assert r == Target(reqs[0]); }
    }
    assert NewIsThere(db, after, reqs[0]) by {
      assert Target(req) in after.rows;
    }
  }

  lemma UnblockGrows(db: Db, req: Request, age: Option<nat>, t: Time)
    requires Sound(db) && Accepts(db, req, age, t)
    ensures var after := Unblocked(db, req, age, t); Grown(db, after, []) && Calm(db, after)
  {
    hide Move;
    AcceptedMeans(db, req, age, t);
    UnblockMakes(db, req, age, t);
    var busy := FindBusy(db, Target(req));
    var after := Unblocked(db, req, age, t);
    if busy.Some? {
      var op := Released(db.ops[busy.value], Expired, t);
      MoveGrows(db, op, [About(op.id, req.actor, Expired, t)], t, InSync);
      OnlyMoves(db, op, [About(op.id, req.actor, Expired, t)], t);
      forall id | id in db.ops ensures OpCalm(db, after, id) {
        assert OpGrows(db, after, id);
        assert OpSound(db, busy.value);
      }
    } else {
      SameGrows(db);
    }
  }

  lemma OnlyMoves(db: Db, op: Op, events: seq<Event>, t: Time)
    ensures forall id :: id in db.ops && id != op.id ==>
      id in Move(db, op, events, t, InSync).ops && Move(db, op, events, t, InSync).ops[id] == db.ops[id]
    ensures op.id in Move(db, op, events, t, InSync).ops && Move(db, op, events, t, InSync).ops[op.id] == op
  {
  }

  lemma SameGrows(db: Db)
    ensures Grown(db, db, []) && Calm(db, db)
  {
    forall id | id in db.ops ensures OpGrows(db, db, id) && OpCalm(db, db, id) { }
    forall r | r in db.rows ensures RowGrows(db, db, r) { }
  }

  /** A calm growth, then another. */
  lemma GrowTwice(a: Db, b: Db, c: Db, x: seq<Request>, y: seq<Request>)
    requires Grown(a, b, x) && Calm(a, b) && Grown(b, c, y) && Calm(b, c)
    ensures Grown(a, c, x + y) && Calm(a, c)
  {
    forall id | id in a.ops ensures OpGrows(a, c, id) && OpCalm(a, c, id) {
      assert OpGrows(a, b, id) && OpGrows(b, c, id) && OpCalm(a, b, id) && OpCalm(b, c, id);
    }
    forall r | r in a.rows ensures RowGrows(a, c, r) {
      assert RowGrows(a, b, r) && RowGrows(b, c, r);
      CalmRow(a, b, r);
      CalmRow(b, c, r);
      forall id ensures !NewlyDone(a, c, id, r) {
        if id in a.ops { assert OpCalm(a, b, id) && OpCalm(b, c, id); }
      }
    }
    forall id ensures NewOpGrows(a, c, x + y, id) {
      assert NewOpGrows(a, b, x, id) && NewOpGrows(b, c, y, id);
      if id in b.ops { assert OpCalm(b, c, id); }
      NewOpTwice(a, b, c, x, y, id);
    }
    forall r ensures NewRowGrows(a, c, x + y, r) {
      assert NewRowGrows(a, b, x, r) && NewRowGrows(b, c, y, r);
      if r in b.rows {
        assert RowGrows(b, c, r);
        CalmRow(b, c, r);
      }
      if r in a.rows { assert RowGrows(a, b, r); }
      NewRowTwice(a, b, c, x, y, r);
    }
    forall k | 0 <= k < |x + y| ensures NewIsThere(a, c, (x + y)[k]) {
      var req := (x + y)[k];
      if k < |x| { assert NewIsThere(a, b, x[k]); } else { assert NewIsThere(b, c, y[k - |x|]); }
      if req.newOp in b.ops { assert OpCalm(b, c, req.newOp); }
      assert req.newOp !in a.ops || OpGrows(a, b, req.newOp);
      if Target(req) in b.rows { assert RowGrows(b, c, Target(req)); }
      if Target(req) in a.rows { assert RowGrows(a, b, Target(req)); }
      NewTwice(a, b, c, req);
    }
  }

  lemma CalmRow(a: Db, b: Db, r: ResId)
    requires Calm(a, b) && RowGrows(a, b, r)
    ensures b.rows[r].state == a.rows[r].state && b.rows[r].refs == a.rows[r].refs
  {
    forall id ensures !NewlyDone(a, b, id, r) {
      if id in a.ops { assert OpCalm(a, b, id); }
    }
  }

  lemma NewOpTwice(a: Db, b: Db, c: Db, x: seq<Request>, y: seq<Request>, id: OpId)
    requires NewOpGrows(a, b, x, id) && NewOpGrows(b, c, y, id)
    requires id in b.ops ==> OpCalm(b, c, id)
    ensures NewOpGrows(a, c, x + y, id)
  {
    if id in c.ops && id !in a.ops {
      if id in b.ops {
        var k :| 0 <= k < |x| && Entered(b.ops[id], x[k]);
        assert (x + y)[k] == x[k];
      } else {
        var k :| 0 <= k < |y| && Entered(c.ops[id], y[k]);
        assert (x + y)[|x| + k] == y[k];
      }
    }
  }

  lemma NewRowTwice(a: Db, b: Db, c: Db, x: seq<Request>, y: seq<Request>, r: ResId)
    requires NewRowGrows(a, b, x, r) && NewRowGrows(b, c, y, r)
    requires r in b.rows ==> r in c.rows && c.rows[r].state == b.rows[r].state
    requires r in a.rows ==> r in b.rows
    ensures NewRowGrows(a, c, x + y, r)
  {
    if r in c.rows && r !in a.rows {
      if r in b.rows {
        var k :| 0 <= k < |x| && x[k].intent.resource.None? && r == Target(x[k]);
        assert (x + y)[k] == x[k];
      } else {
        var k :| 0 <= k < |y| && y[k].intent.resource.None? && r == Target(y[k]);
        assert (x + y)[|x| + k] == y[k];
      }
    }
  }

  lemma NewTwice(a: Db, b: Db, c: Db, req: Request)
    requires (NewIsThere(a, b, req) && (req.newOp in b.ops ==> OpCalm(b, c, req.newOp))
              && (Target(req) in b.rows ==> Target(req) in c.rows))
             || (NewIsThere(b, c, req) && (req.newOp in a.ops ==> req.newOp in b.ops)
                 && (Target(req) in a.rows ==> Target(req) in b.rows))
    ensures NewIsThere(a, c, req)
  {
  }

  // ----- Steps -----

  lemma StampGrows(db: Db, resource: ResId, unknown: bool, t: Time)
    ensures Grown(db, Stamp(db, resource, unknown, t), [])
  {
    var after := Stamp(db, resource, unknown, t);
    forall id | id in db.ops ensures OpGrows(db, after, id) { }
    forall r | r in db.rows ensures RowGrows(db, after, r) { }
  }

  lemma RemarkGrows(db: Db, e: Event)
    ensures Grown(db, db.(events := db.events + [e]), [])
  {
    var after := db.(events := db.events + [e]);
    forall id | id in db.ops ensures OpGrows(db, after, id) { }
    forall r | r in db.rows ensures RowGrows(db, after, r) { }
  }

  lemma BaseGrows(w: World, step: Step, t: Time)
    requires SoundWorld(w) && !step.Submit?
    ensures Grown(w.db, Next(w, step, t).db, [])
  {
    hide Next, Move, Stamp, Grown;
    NextMakes(w, step, t);
    assert SecondChange(w, step, t).Nothing?;
    match FirstChange(w, step, t)
    case Nothing => SameGrows(w.db);
    case Moves(op, events, clean) => MoveGrows(w.db, op, events, t, clean);
    case Enters(_) =>
    case Stamps(resource, unknown) => StampGrows(w.db, resource, unknown, t);
    case Remarks(e) => RemarkGrows(w.db, e);
  }

  predicate KeyUnused(db: Db, key: Key) {
    forall id {:trigger db.ops[id]} :: id in db.ops ==> db.ops[id].terms.key != key
  }

  /** An accepted submission. */
  lemma SubmitGrows(w: World, req: Request, age: Option<nat>, t: Time)
    requires SoundWorld(w) && Accepts(w.db, req, age, t)
    ensures var after := Next(w, Submit(req, age), t);
            SoundWorld(after) && Grown(w.db, after.db, [req]) && Calm(w.db, after.db)
  {
    hide Next, Enter, Grown, Calm, Unblocked, Enterable;
    SubmitEnters(w, req, age, t);
    UnblockGrows(w.db, req, age, t);
    var mid := Unblocked(w.db, req, age, t);
    EnterGrows(mid, req, t);
    GrowTwice(w.db, mid, Enter(mid, req, t), [], [req]);
    assert [] + [req] == [req];
  }

  /** A caller's own request: it changes nothing, or it joins. */
  lemma DirectGrows(w: World, req: Request, age: Option<nat>, t: Time)
    requires SoundWorld(w) && Link(w, req, age, t).Some?
    ensures var after := Link(w, req, age, t).value.w;
            SoundWorld(after) && (after == w || Grown(w.db, after.db, [req]))
  {
    hide Next, Grown, Calm, Accept;
    if Accept(w.db, req, age, t).Accepted? { SubmitGrows(w, req, age, t); }
  }

  lemma UnusedIsNotReplayed(w: World, req: Request, age: Option<nat>, t: Time)
    requires SoundWorld(w) && KeyUnused(w.db, req.key) && Link(w, req, age, t).Some?
    ensures Accepts(w.db, req, age, t)
    ensures Link(w, req, age, t).value == Linked(Next(w, Submit(req, age), t), [req.newOp])
  {
    FindKeyNone(w.db, req.actor, req.key);
  }

  predicate KeysApart(reqs: seq<Request>) {
    forall i, j :: 0 <= i < j < |reqs| ==> reqs[i].key != reqs[j].key
  }

  lemma UnusedStays(a: Db, b: Db, reqs: seq<Request>, key: Key)
    requires Grown(a, b, reqs) && KeyUnused(a, key)
    requires forall k :: 0 <= k < |reqs| ==> reqs[k].key != key
    ensures KeyUnused(b, key)
  {
    forall id | id in b.ops ensures b.ops[id].terms.key != key {
      if id in a.ops { assert OpGrows(a, b, id); } else { assert NewOpGrows(a, b, reqs, id); }
    }
  }

  /** Requests under unused keys, all accepted in one transaction: each became its own operation. */
  lemma {:induction false} LinkAllGrows(w: World, reqs: seq<Request>, age: Option<nat>, t: Time)
    requires SoundWorld(w) && LinkAll(w, reqs, age, t).Some? && KeysApart(reqs)
    requires forall k :: 0 <= k < |reqs| ==> KeyUnused(w.db, reqs[k].key)
    ensures var all := LinkAll(w, reqs, age, t).value;
            && SoundWorld(all.w) && Grown(w.db, all.w.db, reqs) && Calm(w.db, all.w.db)
            && |all.ids| == |reqs| && forall k :: 0 <= k < |reqs| ==> all.ids[k] == reqs[k].newOp
  {
    hide Next, Grown, Calm, Accept, Link, KeyUnused;
    if reqs == [] {
      SameGrows(w.db);
    } else {
      var n := |reqs| - 1;
      var earlier := reqs[..n];
      LinkAllGrows(w, earlier, age, t);
      var mid := LinkAll(w, earlier, age, t).value;
      forall k | 0 <= k < n ensures reqs[k].key != reqs[n].key { }
      UnusedStays(w.db, mid.w.db, earlier, reqs[n].key);
      UnusedIsNotReplayed(mid.w, reqs[n], age, t);
      SubmitGrows(mid.w, reqs[n], age, t);
      GrowTwice(w.db, mid.w.db, Link(mid.w, reqs[n], age, t).value.w.db, earlier, [reqs[n]]);
      assert earlier + [reqs[n]] == reqs;
    }
  }
}
