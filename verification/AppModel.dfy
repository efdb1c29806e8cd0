/** Apps (app/apps.py): several replicas, then a router that reads their outputs. An app stores who
    its members are; its state is computed from their operations. */
module AppModel {
  import opened LedgerModel

  datatype Member = Member(op: OpId, resource: ResId)

  /** One entry of the router's `replica_refs`, in the order they were given. */
  datatype Wire = Wire(name: string, replica: nat, output: nat)

  datatype Failover = Failover(op: OpId, primary: nat, caller: Actor, key: nat)
  datatype TeardownEntry = TeardownEntry(caller: Actor, key: nat, router: Option<OpId>)
  datatype Teardown = Teardown(actor: Actor, router: Option<OpId>, replicas: Option<seq<OpId>>, error: bool)

  /** A row of `apps`. `routers` is every router operation, oldest first: the rollout's, then one
      per failover. `history` remembers every teardown request by caller and key. */
  datatype App = App(
    id: AppId, actor: Actor, key: nat, material: nat, members: seq<Member>, wiring: seq<Wire>,
    routers: seq<OpId>, routerResource: Option<ResId>, error: bool, failovers: seq<Failover>,
    teardown: Option<Teardown>, teardowns: nat, history: seq<TeardownEntry>, updatedAt: Time)

  datatype AppState =
    | PlanningReplicas | AwaitingReplicaApproval | ApplyingReplicas
    | PlanningRouter | AwaitingRouterApproval | ApplyingRouter | AppReady
    | PlanningRouterDestroy | AwaitingRouterDestroyApproval | DestroyingRouter
    | PlanningReplicaDestroy | AwaitingReplicaDestroyApproval | DestroyingReplicas | AppDestroyed
    | AppFailed | AppUncertain

  type Ops = map<OpId, Op>

  /** The state of a listed operation; every operation an app lists exists. */
  function StateOf(ops: Ops, id: OpId): OpState { if id in ops then ops[id].state else Queued }

  predicate Active(state: OpState) { state.ApplyQueued? || state.Applying? || state.Succeeded? }

  // ----- The derived state -----

  /** A failover that failed is skipped; the rollout's own router never is. */
  function CurrentRouter(routers: seq<OpId>, ops: Ops): Option<OpId> {
    if routers == [] then None
    else
      var last := routers[|routers| - 1];
      if |routers| == 1 || !StateOf(ops, last).Failed? then Some(last)
      else CurrentRouter(routers[..|routers| - 1], ops)
  }

  predicate AnyIn(ops: Ops, ids: seq<OpId>, state: OpState) {
    exists i :: 0 <= i < |ids| && StateOf(ops, ids[i]) == state
  }

  predicate AllIn(ops: Ops, ids: seq<OpId>, state: OpState) {
    forall i :: 0 <= i < |ids| ==> StateOf(ops, ids[i]) == state
  }

  predicate AnyActive(ops: Ops, ids: seq<OpId>) {
    exists i :: 0 <= i < |ids| && Active(StateOf(ops, ids[i]))
  }

  function DeriveTeardownState(teardown: Teardown, ops: Ops): AppState {
    var replicas := if teardown.replicas.Some? then teardown.replicas.value else [];
    var router := if teardown.router.Some? then Some(StateOf(ops, teardown.router.value)) else None;
    if router == Some(Uncertain) || AnyIn(ops, replicas, Uncertain) then AppUncertain
    else if router == Some(Failed) || AnyIn(ops, replicas, Failed) || teardown.error then AppFailed
    else if teardown.replicas.Some? then
      if AllIn(ops, replicas, Succeeded) then AppDestroyed
      else if AnyActive(ops, replicas) then DestroyingReplicas
      else if AllIn(ops, replicas, Planned) then AwaitingReplicaDestroyApproval
      else PlanningReplicaDestroy
    else if router.Some? && router != Some(Succeeded) then
      match router.value
      case Planned => AwaitingRouterDestroyApproval
      case ApplyQueued => DestroyingRouter
      case Applying => DestroyingRouter
      case _ => PlanningRouterDestroy
    else PlanningReplicaDestroy
  }

  function MemberState(app: App, ops: Ops, i: nat): OpState
    requires i < |app.members|
  {
    StateOf(ops, app.members[i].op)
  }

  function DeriveState(app: App, ops: Ops): AppState {
    if app.teardown.Some? then DeriveTeardownState(app.teardown.value, ops)
    else
      var n := |app.members|;
      var current := CurrentRouter(app.routers, ops);
      var router := if current.Some? then Some(StateOf(ops, current.value)) else None;
      if router == Some(Uncertain) || (exists i :: 0 <= i < n && MemberState(app, ops, i).Uncertain?)
      then AppUncertain
      else if router == Some(Failed) || (exists i :: 0 <= i < n && MemberState(app, ops, i).Failed?)
              || app.error
      then AppFailed
      else if router.Some? then
        match router.value
        case Planned => AwaitingRouterApproval
        case ApplyQueued => ApplyingRouter
        case Applying => ApplyingRouter
        case Succeeded => AppReady
        case _ => PlanningRouter
      else if forall i :: 0 <= i < n ==> MemberState(app, ops, i).Succeeded? then PlanningRouter
      else if exists i :: 0 <= i < n && Active(MemberState(app, ops, i)) then ApplyingReplicas
      else if forall i :: 0 <= i < n ==> MemberState(app, ops, i).Planned? then AwaitingReplicaApproval
      else PlanningReplicas
  }

  // ----- Primary and secondary -----

  const PRIMARY := "primary_"
  const SECONDARY := "secondary_"

  predicate IsPrimary(wire: Wire) { PRIMARY <= wire.name }
  predicate IsSecondary(wire: Wire) { SECONDARY <= wire.name }

  /** `initial_primary`: the replica behind the first `primary_*` reference. */
  function InitialPrimary(wiring: seq<Wire>): nat {
    if wiring == [] then 0
    else if IsPrimary(wiring[0]) then wiring[0].replica
    else InitialPrimary(wiring[1..])
  }

  function TargetOf(failovers: seq<Failover>, id: OpId): Option<nat> {
    if failovers == [] then None
    else
      var last := failovers[|failovers| - 1];
      if last.op == id then Some(last.primary) else TargetOf(failovers[..|failovers| - 1], id)
  }

  /** The newest router operation that succeeded: what is deployed. */
  function Deployed(routers: seq<OpId>, ops: Ops): Option<OpId> {
    if routers == [] then None
    else
      var last := routers[|routers| - 1];
      if StateOf(ops, last).Succeeded? then Some(last)
      else Deployed(routers[..|routers| - 1], ops)
  }

  /** The replica a router operation treats as primary. */
  function PrimaryUnder(app: App, id: OpId): nat {
    var target := TargetOf(app.failovers, id);
    if target.Some? then target.value else InitialPrimary(app.wiring)
  }

  function PrimaryOf(app: App, ops: Ops): nat {
    var deployed := Deployed(app.routers, ops);
    if deployed.Some? then PrimaryUnder(app, deployed.value) else InitialPrimary(app.wiring)
  }

  /** References of the first router: each wire to its own replica. */
  function RouterRefs(wiring: seq<Wire>, members: seq<Member>): Refs
    requires forall w :: w in wiring ==> w.replica < |members|
  {
    if wiring == [] then map[]
    else
      var last := wiring[|wiring| - 1];
      RouterRefs(wiring[..|wiring| - 1], members)
        [last.name := Ref(members[last.replica].resource, last.output)]
  }

  /** `failover_refs`: `primary_*` inputs follow `target`, `secondary_*` inputs follow `current`,
      every other reference stays. */
  function FailoverRefs(refs: Refs, wiring: seq<Wire>, members: seq<Member>, current: nat, target: nat): Refs
    requires current < |members| && target < |members|
  {
    if wiring == [] then refs
    else
      var last := wiring[|wiring| - 1];
      var earlier := FailoverRefs(refs, wiring[..|wiring| - 1], members, current, target);
      if IsPrimary(last) then earlier[last.name := Ref(members[target].resource, last.output)]
      else if IsSecondary(last) then earlier[last.name := Ref(members[current].resource, last.output)]
      else earlier
  }

  /** `replica_refs` is a dictionary whose replicas exist. */
  predicate WiringValid(wiring: seq<Wire>, members: nat) {
    && (forall w :: w in wiring ==> w.replica < members)
    && (forall i, j :: 0 <= i < j < |wiring| ==> wiring[i].name != wiring[j].name)
  }

  // ----- Which operations an app lists -----

  /** `op_ids`. */
  predicate Lists(app: App, id: OpId) {
    || (exists i :: 0 <= i < |app.members| && app.members[i].op == id)
    || id in app.routers
    || (app.teardown.Some? && app.teardown.value.router == Some(id))
    || (app.teardown.Some? && app.teardown.value.replicas.Some? && id in app.teardown.value.replicas.value)
  }

  predicate Owns(app: App, r: ResId) {
    || (exists i :: 0 <= i < |app.members| && app.members[i].resource == r)
    || app.routerResource == Some(r)
  }

  /** The operations `gate` names for approval; None when the app is at no gate. */
  function Gate(app: App, ops: Ops): Option<seq<OpId>> {
    match DeriveState(app, ops)
    case AwaitingReplicaApproval => Some(seq(|app.members|, i requires 0 <= i < |app.members| => app.members[i].op))
    case ApplyingReplicas => Some(seq(|app.members|, i requires 0 <= i < |app.members| => app.members[i].op))
    case AwaitingRouterApproval => Some(CurrentList(app, ops))
    case ApplyingRouter => Some(CurrentList(app, ops))
    case AwaitingRouterDestroyApproval => Some(RouterDestroy(app))
    case DestroyingRouter => Some(RouterDestroy(app))
    case AwaitingReplicaDestroyApproval => Some(ReplicaDestroys(app))
    case DestroyingReplicas => Some(ReplicaDestroys(app))
    case _ => None
  }

  function CurrentList(app: App, ops: Ops): seq<OpId> {
    var current := CurrentRouter(app.routers, ops);
    if current.Some? then [current.value] else []
  }

  function RouterDestroy(app: App): seq<OpId> {
    if app.teardown.Some? && app.teardown.value.router.Some? then [app.teardown.value.router.value] else []
  }

  function ReplicaDestroys(app: App): seq<OpId> {
    if app.teardown.Some? && app.teardown.value.replicas.Some? then app.teardown.value.replicas.value else []
  }
}
