/** Approving several plans at once (`execute_many`), and what approving an app's gate does to the
    app. */
module Approvals {
  import opened LedgerModel
  import opened LedgerRuns
  import opened LedgerSafety
  import opened LedgerTheorems
  import opened AppModel

  datatype Item = Item(op: OpId, digest: Digest)

  /** The item that stopped a batch, and why. */
  datatype Stop = Stop(index: nat, why: Refusal)

  datatype Batch = Batch(db: Db, stop: Option<Stop>)

  /** The loop of `execute_many`: each item in order, up to the first refusal. */
  function ExecuteAll(db: Db, items: seq<Item>, actor: Actor, age: Option<nat>, t: Time): Batch {
    if items == [] then Batch(db, None)
    else
      var earlier := ExecuteAll(db, items[..|items| - 1], actor, age, t);
      if earlier.stop.Some? then earlier
      else
        var item := items[|items| - 1];
        match ExecuteAnswer(earlier.db, item.op, item.digest, age, t)
        case Refuse(why) => Batch(earlier.db, Some(Stop(|items| - 1, why)))
        case _ => Batch(Execute(earlier.db, item.op, item.digest, actor, age, t), None)
  }

  /** The transaction of `execute_many`: all of them, or a refusal rolls everything back. */
  function ExecuteTogether(db: Db, items: seq<Item>, actor: Actor, age: Option<nat>, t: Time): Batch {
    var batch := ExecuteAll(db, items, actor, age, t);
    if batch.stop.None? then batch else Batch(db, batch.stop)
  }

  predicate ItemsApart(items: seq<Item>) {
    forall i, j :: 0 <= i < j < |items| ==> items[i].op != items[j].op
  }

  predicate Executing(db: Db, id: OpId) { id in db.ops && Active(db.ops[id].state) }

  predicate Named(items: seq<Item>, id: OpId) { exists i :: 0 <= i < |items| && items[i].op == id }

  /** What a batch that went through did. */
  ghost predicate OnlyQueued(db: Db, after: Db, items: seq<Item>, t: Time) {
    && after.rows == db.rows && after.order == db.order && after.ops.Keys == db.ops.Keys
    && (forall i :: 0 <= i < |items| ==> Executing(after, items[i].op))
    && (forall i :: 0 <= i < |items| ==>
          items[i].op in db.ops && db.ops[items[i].op].planDigest == Some(items[i].digest))
    && (forall id :: id in db.ops ==>
          after.ops[id] == (if Named(items, id) && db.ops[id].state.Planned?
                            then db.ops[id].(state := ApplyQueued, updatedAt := t) else db.ops[id]))
  }

  lemma OneQueued(db: Db, item: Item, actor: Actor, age: Option<nat>, t: Time)
    requires OpsSound(db) && !ExecuteAnswer(db, item.op, item.digest, age, t).Refuse?
    ensures OnlyQueued(db, Execute(db, item.op, item.digest, actor, age, t), [item], t)
    ensures OpsSound(Execute(db, item.op, item.digest, actor, age, t))
  {
    hide Named, BadReference;
    var after := Execute(db, item.op, item.digest, actor, age, t);
    assert OpSound(db, item.op);
    assert [item][0] == item;
    forall id ensures Named([item], id) <==> id == item.op { NamedLast([], item, id); }
    forall id | id in after.ops ensures OpSound(after, id) { assert OpSound(db, id); }
  }

  lemma NamedLast(items: seq<Item>, last: Item, id: OpId)
    ensures Named(items + [last], id) <==> Named(items, id) || id == last.op
    ensures Named([last], id) <==> id == last.op
  {
    var all := items + [last];
    if Named(items, id) {
      var i :| 0 <= i < |items| && items[i].op == id;
      assert all[i].op == id;
    }
    assert all[|items|] == last && [last][0] == last;
  }

  lemma QueuedTwice(a: Db, b: Db, c: Db, items: seq<Item>, last: Item, t: Time)
    requires OnlyQueued(a, b, items, t) && OnlyQueued(b, c, [last], t)
    requires !Named(items, last.op)
    ensures OnlyQueued(a, c, items + [last], t)
  {
    hide Named;
    var all := items + [last];
    forall id
      ensures (Named(all, id) <==> Named(items, id) || id == last.op) && (Named([last], id) <==> id == last.op)
    {
      NamedLast(items, last, id);
    }
    assert [last][0] == last;
    forall i | 0 <= i < |all|
      ensures Executing(c, all[i].op) && all[i].op in a.ops && a.ops[all[i].op].planDigest == Some(all[i].digest)
    {
      if i < |items| { assert all[i] == items[i] && Executing(b, items[i].op); } else { assert all[i] == [last][0]; }
    }
  }

  lemma {:induction false} BatchQueues(db: Db, items: seq<Item>, actor: Actor, age: Option<nat>, t: Time)
    requires OpsSound(db) && ItemsApart(items)
    ensures var batch := ExecuteAll(db, items, actor, age, t);
            OpsSound(batch.db)
            && (batch.stop.None? ==> OnlyQueued(db, batch.db, items, t))
            && (batch.stop.Some? ==>
                  var k := batch.stop.value.index;
                  k < |items| && OnlyQueued(db, batch.db, items[..k], t)
                  && ExecuteAnswer(batch.db, items[k].op, items[k].digest, age, t) == Refuse(batch.stop.value.why))
  {
    hide Execute, ExecuteAnswer, OnlyQueued, OpsSound;
    if items == [] {
      NothingQueued(db, t);
    } else {
      var n := |items| - 1;
      BatchQueues(db, items[..n], actor, age, t);
      var earlier := ExecuteAll(db, items[..n], actor, age, t);
      if earlier.stop.Some? {
        assert items[..n][..earlier.stop.value.index] == items[..earlier.stop.value.index];
      } else if !ExecuteAnswer(earlier.db, items[n].op, items[n].digest, age, t).Refuse? {
        OneQueued(earlier.db, items[n], actor, age, t);
        QueuedTwice(db, earlier.db, ExecuteAll(db, items, actor, age, t).db, items[..n], items[n], t);
        assert items[..n] + [items[n]] == items;
      }
    }
  }

  lemma NothingQueued(db: Db, t: Time)
    ensures OnlyQueued(db, db, [], t)
  {
  }

  lemma SameAnswer(a: Db, b: Db, items: seq<Item>, item: Item, age: Option<nat>, t: Time)
    requires OnlyQueued(a, b, items, t) && !Named(items, item.op)
    requires ExecuteAnswer(b, item.op, item.digest, age, t).Refuse?
    requires ExecuteAnswer(b, item.op, item.digest, age, t).why.PlanTooOld?
    ensures ExecuteAnswer(a, item.op, item.digest, age, t) == Refuse(PlanTooOld)
  {
  }

  /** The transaction leaves every named operation queued, applying or succeeded and nothing else
      touched, or it changes nothing at all; a plan it names as too old is one. */
  lemma BatchIsAllOrNothing(db: Db, items: seq<Item>, actor: Actor, age: Option<nat>, t: Time)
    requires OpsSound(db) && ItemsApart(items)
    ensures var batch := ExecuteTogether(db, items, actor, age, t);
            && (batch.stop.None? ==> OnlyQueued(db, batch.db, items, t))
            && (batch.stop.Some? ==> batch.db == db && batch.stop.value.index < |items|)
            && (batch.stop.Some? && batch.stop.value.why.PlanTooOld? ==>
                  TooOld(db, items[batch.stop.value.index], age, t))
  {
    hide OnlyQueued;
    BatchQueues(db, items, actor, age, t);
    var batch := ExecuteAll(db, items, actor, age, t);
    if batch.stop.Some? && batch.stop.value.why.PlanTooOld? {
      var k := batch.stop.value.index;
      assert !Named(items[..k], items[k].op);
      SameAnswer(db, batch.db, items[..k], items[k], age, t);
    }
  }

  predicate TooOld(db: Db, item: Item, age: Option<nat>, t: Time) {
    item.op in db.ops && db.ops[item.op].planDigest == Some(item.digest) && PlanExpired(db.ops[item.op], age, t)
  }

  /** The plan found too old is then failed in a transaction of its own. Whatever happened since, and
      whoever got there first, that second transaction fails this one plan or changes nothing: it
      never queues it. */
  lemma {:induction false} ThenOnlyFailsIt(w: World, item: Item, age: Option<nat>, t: Time, run: seq<Timed>,
                                           actor: Actor, later: Time)
    requires SoundWorld(w) && TooOld(w.db, item, age, t) && t <= later
    ensures var db := Run(w, run).db;
            var after := Execute(db, item.op, item.digest, actor, age, later);
            && item.op in db.ops
            && (after == db || (TooOld(db, item, age, later)
                                && after == Release(db, db.ops[item.op], actor, Expired, later)))
  {
    hide Run, Release;
    RunsGoForward(w, run, item.op);
    RunKeepsSound(w, run);
  }

  // ----- Approving an app's gate -----

  /** The state an approval leads to. */
  function Approved(state: AppState): AppState {
    match state
    case AwaitingReplicaApproval => ApplyingReplicas
    case AwaitingRouterApproval => ApplyingRouter
    case AwaitingRouterDestroyApproval => DestroyingRouter
    case AwaitingReplicaDestroyApproval => DestroyingReplicas
    case _ => state
  }

  predicate IsGate(state: AppState) {
    state.AwaitingReplicaApproval? || state.AwaitingRouterApproval?
    || state.AwaitingRouterDestroyApproval? || state.AwaitingReplicaDestroyApproval?
  }

  /** `approve` names exactly the operations of the gate. */
  ghost predicate NamesGate(items: seq<Item>, gate: seq<OpId>) {
    forall id :: Named(items, id) <==> id in gate
  }

  lemma GateReplicas(app: App, a: Ops, b: Ops)
    requires DeriveState(app, a).AwaitingReplicaApproval? && app.members != []
    requires forall i :: 0 <= i < |app.members| ==> StateOf(b, app.members[i].op).ApplyQueued?
    ensures DeriveState(app, b).ApplyingReplicas?
  {
    assert CurrentRouter(app.routers, a).None? && app.routers == [] by {
      if app.routers != [] { CurrentIsListed(app.routers, a); }
    }
    assert forall i :: 0 <= i < |app.members| ==> MemberState(app, b, i) == StateOf(b, app.members[i].op);
    assert MemberState(app, b, 0).ApplyQueued?;
  }

  lemma {:induction false} CurrentIsListed(routers: seq<OpId>, ops: Ops)
    requires routers != []
    ensures CurrentRouter(routers, ops).Some? && CurrentRouter(routers, ops).value in routers
  {
    if |routers| > 1 { CurrentIsListed(routers[..|routers| - 1], ops); }
  }

  lemma {:induction false} CurrentStays(routers: seq<OpId>, a: Ops, b: Ops, current: OpId)
    requires CurrentRouter(routers, a) == Some(current) && !StateOf(b, current).Failed?
    requires forall k :: 0 <= k < |routers| && routers[k] != current ==>
      StateOf(b, routers[k]) == StateOf(a, routers[k])
    ensures CurrentRouter(routers, b) == Some(current)
  {
    if |routers| > 1 {
      var last := routers[|routers| - 1];
      if last != current { CurrentStays(routers[..|routers| - 1], a, b, current); }
    }
  }

  lemma {:induction false} GateRouter(app: App, a: Ops, b: Ops)
    requires DeriveState(app, a).AwaitingRouterApproval?
    requires var current := CurrentRouter(app.routers, a);
             current.Some? ==> StateOf(b, current.value).ApplyQueued?
                               && forall id :: id != current.value ==> StateOf(b, id) == StateOf(a, id)
    ensures DeriveState(app, b).ApplyingRouter?
  {
    var current := CurrentRouter(app.routers, a).value;
    CurrentStays(app.routers, a, b, current);
    forall i | 0 <= i < |app.members|
      ensures MemberState(app, b, i) == MemberState(app, a, i) || MemberState(app, b, i).ApplyQueued?
    {
    }
  }

  lemma GateRouterDestroy(app: App, a: Ops, b: Ops)
    requires app.teardown.Some? && DeriveState(app, a).AwaitingRouterDestroyApproval?
    requires app.teardown.value.router.Some? ==> StateOf(b, app.teardown.value.router.value).ApplyQueued?
    ensures DeriveState(app, b).DestroyingRouter?
  {
  }

  lemma GateReplicaDestroys(app: App, a: Ops, b: Ops)
    requires app.teardown.Some? && DeriveState(app, a).AwaitingReplicaDestroyApproval?
    requires forall id :: id in ReplicaDestroys(app) ==> StateOf(b, id).ApplyQueued?
    requires forall id :: id !in ReplicaDestroys(app) ==> StateOf(b, id) == StateOf(a, id)
    ensures DeriveState(app, b).DestroyingReplicas?
  {
    var ids := app.teardown.value.replicas.value;
    GateNotEmpty(app.teardown.value, a);
    forall i | 0 <= i < |ids| ensures StateOf(b, ids[i]).ApplyQueued? { assert ids[i] in ReplicaDestroys(app); }
    assert StateOf(b, ids[0]).ApplyQueued?;
  }

  lemma GateNotEmpty(teardown: Teardown, ops: Ops)
    requires DeriveTeardownState(teardown, ops).AwaitingReplicaDestroyApproval?
    ensures teardown.replicas.Some? && teardown.replicas.value != []
  {
  }

  /** The batch turned every planned operation of the gate into a queued apply. */
  lemma GateQueued(db: Db, after: Db, items: seq<Item>, gate: seq<OpId>, t: Time, id: OpId)
    requires OnlyQueued(db, after, items, t) && NamesGate(items, gate)
    ensures id in gate && StateOf(db.ops, id).Planned? ==> StateOf(after.ops, id).ApplyQueued?
    ensures id !in gate ==> StateOf(after.ops, id) == StateOf(db.ops, id)
  {
    assert Named(items, id) <==> id in gate;
  }

  lemma GateIsPlanned(app: App, ops: Ops, id: OpId)
    requires IsGate(DeriveState(app, ops)) && Gate(app, ops).Some? && id in Gate(app, ops).value
    ensures StateOf(ops, id).Planned?
  {
    var state := DeriveState(app, ops);
    if state.AwaitingReplicaApproval? {
      if app.routers != [] { CurrentIsListed(app.routers, ops); }
      var i :| 0 <= i < |app.members| && app.members[i].op == id;
      assert MemberState(app, ops, i).Planned?;
    } else if state.AwaitingReplicaDestroyApproval? {
      PlannedDestroys(app, ops, id);
    }
  }

  lemma PlannedDestroys(app: App, ops: Ops, id: OpId)
    requires DeriveState(app, ops).AwaitingReplicaDestroyApproval? && id in ReplicaDestroys(app)
    ensures StateOf(ops, id).Planned?
  {
    var teardown := app.teardown.value;
    var k :| 0 <= k < |teardown.replicas.value| && teardown.replicas.value[k] == id;
    assert AllIn(ops, teardown.replicas.value, Planned);
  }

  lemma TeardownGates(app: App, ops: Ops)
    ensures var state := DeriveState(app, ops);
            && (state.AwaitingRouterDestroyApproval? || state.AwaitingReplicaDestroyApproval? ==> app.teardown.Some?)
            && (state.AwaitingReplicaApproval? || state.AwaitingRouterApproval? ==> app.teardown.None?)
  {
  }

  /** Approving the gate an app is at, by naming exactly its operations with their digests, moves
      the app on to executing them: all of them, together. */
  lemma ApprovalMovesOn(app: App, db: Db, items: seq<Item>, actor: Actor, age: Option<nat>, t: Time)
    requires OpsSound(db) && ItemsApart(items) && app.members != []
    requires IsGate(DeriveState(app, db.ops)) && Gate(app, db.ops).Some? && NamesGate(items, Gate(app, db.ops).value)
    requires ExecuteTogether(db, items, actor, age, t).stop.None?
    ensures var after := ExecuteTogether(db, items, actor, age, t).db;
            && DeriveState(app, after.ops) == Approved(DeriveState(app, db.ops))
            && (forall id :: id in Gate(app, db.ops).value ==> StateOf(after.ops, id).ApplyQueued?)
            && after.rows == db.rows
  {
    hide ExecuteTogether, OnlyQueued, DeriveState, OpsSound, NamesGate;
    BatchIsAllOrNothing(db, items, actor, age, t);
    var after := ExecuteTogether(db, items, actor, age, t).db;
    var gate := Gate(app, db.ops).value;
    forall id
      ensures id in gate ==> StateOf(after.ops, id).ApplyQueued?
      ensures id !in gate ==> StateOf(after.ops, id) == StateOf(db.ops, id)
    {
      GateQueued(db, after, items, gate, t, id);
      if id in gate { GateIsPlanned(app, db.ops, id); }
    }
    RowsStay(db, after, items, t);
    TeardownGates(app, db.ops);
    match DeriveState(app, db.ops)
    case AwaitingReplicaApproval =>
      forall i | 0 <= i < |app.members| ensures app.members[i].op in gate { assert gate[i] == app.members[i].op; }
      GateReplicas(app, db.ops, after.ops);
    case AwaitingRouterApproval => GateRouter(app, db.ops, after.ops);
    case AwaitingRouterDestroyApproval => GateRouterDestroy(app, db.ops, after.ops);
    case AwaitingReplicaDestroyApproval => GateReplicaDestroys(app, db.ops, after.ops);
  }

  lemma RowsStay(db: Db, after: Db, items: seq<Item>, t: Time)
    requires OnlyQueued(db, after, items, t)
    ensures after.rows == db.rows
  {
  }
}
