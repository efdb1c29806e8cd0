/** The Terraform activities (app/operation_activities.py) and the phase workflow that starts and
    interrupts them, as processes over the ledger and one plan file per resource.

    A job is what `claim` handed a snapshot to. Jobs interleave freely with each other, with every
    ledger step and with the loss of plan files; a job may go on long after `interrupted` recorded
    its timeout, and may stop for ever at any point. Two pairs of statements are single steps:
    comparing the digest and starting `terraform apply`, and `owns` and the unlink after it. */
module Activities {
  import opened LedgerModel
  import opened LedgerRuns
  import opened LedgerSafety

  /** How far a job has come. `seen` is the file `terraform show` read. */
  datatype Stage =
    | Begun | Written | Shown(seen: PlanFile) | Measured(seen: PlanFile, digest: Digest)
    | Failing | Dropped | Ran | Unlinked | Unsure | Over

  datatype ApplyEnd = Completed | RefusedUntouched | Broke

  datatype Act =
    | Ledger(step: Step)
    | Lose(resource: ResId)
    | Begin(id: OpId, phase: Phase)
    | Prepare(i: nat, wiped: bool)
    | WritePlan(i: nat, file: PlanFile)
    | ShowPlan(i: nat)
    | MeasurePlan(i: nat)
    | ReportPlan(i: nat, drift: Findings, objects: nat)
    | GiveUp(i: nat)
    | DropPlan(i: nat)
    | ReportFailure(i: nat)
    | ApplyPlan(i: nat, end: ApplyEnd)
    | RemovePlan(i: nat)
    | ReportOutputs(i: nat, outputs: nat)
    | ReportUnsure(i: nat)
    | ReportCheck(i: nat, found: Option<Findings>)

  /** `terraform apply` was started with `file` for operation `op`, by job `job`. */
  datatype Application = Application(op: OpId, file: PlanFile, job: nat)
  datatype Approval = Approval(op: OpId, digest: Digest)

  /** What became of the jobs. Applying: their `terraform apply` broke; it was not started, or refused
      before any change; something else raised. Planning: something raised. And the operations whose
      apply phase, or plan phase, timed out. */
  datatype Ends = Ends(broken: set<nat>, untouched: set<nat>, stumbled: set<nat>, gaveUp: set<nat>,
                       timedOut: set<OpId>, planTimedOut: set<OpId>)

  /** Job `i` holds the snapshot `w.held[i]` and has come to `stages[i]`. The last four fields are
      history: the accepted executes, the applies started, the resources on which a planning phase
      was interrupted while its operation was still planning, and how applying jobs went. */
  datatype Sys = Sys(
    w: World, stages: seq<Stage>, files: map<ResId, PlanFile>,
    approved: seq<Approval>, applied: seq<Application>, displaced: set<ResId>, ends: Ends)

  const BEGIN := Sys(START, [], map[], [], [], {}, Ends({}, {}, {}, {}, {}, {}))

  // ----- What a job does next -----

  predicate IsJob(s: Sys, i: nat) { i < |s.stages| && i < |s.w.held| }

  predicate Planner(op: Op) { op.state.Planning? && !op.Action().DriftCheck? }
  predicate Applier(op: Op) { op.state.Applying? }
  predicate Checker(op: Op) { op.state.Planning? && op.Action().DriftCheck? }

  predicate BeforeResult(stage: Stage) { stage.Begun? || stage.Written? || stage.Shown? || stage.Measured? }

  predicate PlanMatches(files: map<ResId, PlanFile>, op: Op) {
    op.resource in files && op.planDigest == Some(Sha256(files[op.resource]))
  }

  /** The stage of job `op` after an act of its own. */
  function StageAfter(op: Op, stage: Stage, files: map<ResId, PlanFile>, act: Act): Stage {
    match act
    case WritePlan(_, _) => if Planner(op) && stage.Begun? then Written else stage
    case ShowPlan(_) =>
      if !(Planner(op) && stage.Written?) then stage
      else if op.resource in files then Shown(files[op.resource]) else Failing
    case MeasurePlan(_) =>
      if !(Planner(op) && stage.Shown?) then stage
      else if op.resource in files then Measured(stage.seen, Sha256(files[op.resource])) else Failing
    case ReportPlan(_, _, _) => if Planner(op) && stage.Measured? then Over else stage
    case GiveUp(_) =>
      if Planner(op) && BeforeResult(stage) then Failing
      else if Applier(op) && !stage.Over? then Unsure
      else stage
    case DropPlan(_) => if stage.Failing? then Dropped else stage
    case ReportFailure(_) => if stage.Dropped? then Over else stage
    case ApplyPlan(_, end) =>
      if !(Applier(op) && stage.Begun?) then stage
      else if !PlanMatches(files, op) then Failing
      else if end.Completed? then Ran else if end.Broke? then Unsure else Failing
    case RemovePlan(_) =>
      if !(Applier(op) && stage.Ran?) then stage
      else if op.resource in files then Unlinked else Unsure
    case ReportOutputs(_, _) => if Applier(op) && stage.Unlinked? then Over else stage
    case ReportUnsure(_) => if Applier(op) && stage.Unsure? then Over else stage
    case ReportCheck(_, _) => if Checker(op) && stage.Begun? then Over else stage
    case _ => stage
  }

  function FilesAfter(op: Op, stage: Stage, owned: bool, files: map<ResId, PlanFile>, act: Act)
    : map<ResId, PlanFile>
  {
    match act
    case Prepare(_, wiped) => if op.state.Planning? && stage.Begun? && wiped then files - {op.resource} else files
    case WritePlan(_, file) => if Planner(op) && stage.Begun? then files[op.resource := file] else files
    case DropPlan(_) => if stage.Failing? && owned then files - {op.resource} else files
    case RemovePlan(_) => if Applier(op) && stage.Ran? then files - {op.resource} else files
    case _ => files
  }

  /** The result a job reports to the ledger with this act, if any. */
  function ReportOf(op: Op, stage: Stage, act: Act): Option<Step> {
    match act
    case ReportPlan(_, drift, objects) =>
      if Planner(op) && stage.Measured?
      then Some(Deliver(op, Planned, PlanReport(stage.digest, stage.seen.changes, drift, objects)))
      else None
    case ReportFailure(_) => if stage.Dropped? then Some(Deliver(op, Failed, ErrorReport)) else None
    case ReportOutputs(_, outputs) =>
      if Applier(op) && stage.Unlinked? then Some(Deliver(op, Succeeded, ApplyReport(outputs))) else None
    case ReportUnsure(_) =>
      if Applier(op) && stage.Unsure? then Some(Deliver(op, Uncertain, ErrorReport)) else None
    case ReportCheck(_, found) =>
      if Checker(op) && stage.Begun?
      then Some(if found.Some? then Deliver(op, Succeeded, CheckReport(found.value))
                else Deliver(op, Failed, ErrorReport))
      else None
    case _ => None
  }

  // ----- One act -----

  /** The job that acts, if the act is a job's. */
  function JobOf(act: Act): Option<nat> {
    if act.Ledger? || act.Lose? || act.Begin? then None else Some(act.i)
  }

  /** The ledger step an act takes: jobs reach the ledger only through `claim` and `finish`, and
      nobody else uses those. */
  function StepOf(s: Sys, act: Act): Option<Step> {
    match act
    case Ledger(step) => if step.Take? || step.Deliver? then None else Some(step)
    case Begin(id, phase) => Some(Take(id, phase))
    case Lose(_) => None
    case _ => if IsJob(s, act.i) then ReportOf(s.w.held[act.i], s.stages[act.i], act) else None
  }

  ghost function WorldAfter(s: Sys, act: Act, t: Time): World {
    var step := StepOf(s, act);
    if step.Some? then Next(s.w, step.value, t) else s.w
  }

  function StagesAfter(s: Sys, act: Act): seq<Stage> {
    match act
    case Begin(id, phase) => if Claimable(s.w.db, id, phase) then s.stages + [Begun] else s.stages
    case Ledger(_) => s.stages
    case Lose(_) => s.stages
    case _ =>
      if !IsJob(s, act.i) then s.stages
      else s.stages[act.i := StageAfter(s.w.held[act.i], s.stages[act.i], s.files, act)]
  }

  function DiskAfter(s: Sys, act: Act): map<ResId, PlanFile> {
    match act
    case Lose(r) => s.files - {r}
    case Ledger(_) => s.files
    case Begin(_, _) => s.files
    case _ =>
      if !IsJob(s, act.i) then s.files
      else FilesAfter(s.w.held[act.i], s.stages[act.i], !Fenced(s.w.db, s.w.held[act.i]), s.files, act)
  }

  /** An accepted execute: it named this digest and queued the apply. */
  predicate Approves(db: Db, act: Act, t: Time) {
    act.Ledger? && act.step.Approve?
    && ExecuteAnswer(db, act.step.id, act.step.digest, act.step.age, t).Changed?
  }

  predicate Applies(s: Sys, act: Act) {
    act.ApplyPlan? && IsJob(s, act.i) && Applier(s.w.held[act.i]) && s.stages[act.i].Begun?
    && PlanMatches(s.files, s.w.held[act.i])
  }

  predicate Displaces(db: Db, act: Act) {
    act.Ledger? && act.step.Interrupt? && act.step.phase.PlanPhase?
    && act.step.id in db.ops && db.ops[act.step.id].state.Planning?
  }

  function EndsAfter(s: Sys, act: Act): Ends {
    var job := JobOf(act).Some? && IsJob(s, act.i);
    var applying := job && Applier(s.w.held[act.i]);
    var planning := job && Planner(s.w.held[act.i]) && BeforeResult(s.stages[act.i]);
    match act
    case ApplyPlan(i, end) =>
      if !(applying && s.stages[i].Begun?) then s.ends
      else if !PlanMatches(s.files, s.w.held[i]) || end.RefusedUntouched?
      then s.ends.(untouched := s.ends.untouched + {i})
      else if end.Broke? then s.ends.(broken := s.ends.broken + {i})
      else s.ends
    case RemovePlan(i) =>
      if applying && s.stages[i].Ran? && s.w.held[i].resource !in s.files
      then s.ends.(stumbled := s.ends.stumbled + {i}) else s.ends
    case GiveUp(i) =>
      if applying && !s.stages[i].Over? then s.ends.(stumbled := s.ends.stumbled + {i})
      else if planning then s.ends.(gaveUp := s.ends.gaveUp + {i})
      else s.ends
    case ShowPlan(i) =>
      if planning && s.stages[i].Written? && s.w.held[i].resource !in s.files
      then s.ends.(gaveUp := s.ends.gaveUp + {i}) else s.ends
    case MeasurePlan(i) =>
      if planning && s.stages[i].Shown? && s.w.held[i].resource !in s.files
      then s.ends.(gaveUp := s.ends.gaveUp + {i}) else s.ends
    case Ledger(step) =>
      if !step.Interrupt? || !Interruptible(s.w.db, step.id, step.phase) then s.ends
      else if step.phase.ApplyPhase? then s.ends.(timedOut := s.ends.timedOut + {step.id})
      else s.ends.(planTimedOut := s.ends.planTimedOut + {step.id})
    case _ => s.ends
  }

  ghost function Do(s: Sys, act: Act, t: Time): Sys {
    Sys(WorldAfter(s, act, t), StagesAfter(s, act), DiskAfter(s, act),
        if Approves(s.w.db, act, t) then s.approved + [Approval(act.step.id, act.step.digest)]
        else s.approved,
        if Applies(s, act)
        then s.applied + [Application(s.w.held[act.i].id, s.files[s.w.held[act.i].resource], act.i)]
        else s.applied,
        if Displaces(s.w.db, act) then s.displaced + {s.w.db.ops[act.step.id].resource}
        else s.displaced,
        EndsAfter(s, act))
  }

  datatype Happening = Happening(act: Act, at: Time)

  ghost function Play(acts: seq<Happening>): Sys {
    if acts == [] then BEGIN
    else Do(Play(acts[..|acts| - 1]), acts[|acts| - 1].act, acts[|acts| - 1].at)
  }

  // ----- Every play is a run of the ledger -----

  ghost function LedgerRun(acts: seq<Happening>): seq<Timed> {
    if acts == [] then []
    else
      var earlier, last := acts[..|acts| - 1], acts[|acts| - 1];
      var step := StepOf(Play(earlier), last.act);
      LedgerRun(earlier) + if step.Some? then [Timed(step.value, last.at)] else []
  }

  /** Whatever jobs and people do, the ledger sees one of its own runs: everything proved about
      runs holds while Terraform activities race. */
  lemma {:induction false} PlaysAreRuns(acts: seq<Happening>)
    ensures Play(acts).w == Run(START, LedgerRun(acts))
    ensures SoundWorld(Play(acts).w)
    ensures InTime(acts) ==> Chronological(LedgerRun(acts))
  {
    hide Next, SoundWorld, StepOf, StagesAfter, DiskAfter, Approves, Applies, Displaces;
    if acts != [] {
      var earlier, last := acts[..|acts| - 1], acts[|acts| - 1];
      PlaysAreRuns(earlier);
      var step := StepOf(Play(earlier), last.act);
      var run := LedgerRun(acts);
      if step.Some? {
        assert run[..|run| - 1] == LedgerRun(earlier);
      } else {
        assert run == LedgerRun(earlier);
      }
    }
    if InTime(acts) { LedgerRunKeepsTime(acts); }
    EveryRunIsSound(LedgerRun(acts));
  }

  ghost predicate InTime(acts: seq<Happening>) {
    forall i, j :: 0 <= i < j < |acts| ==> acts[i].at <= acts[j].at
  }

  /** And in the same order of time. */
  lemma {:induction false} LedgerRunKeepsTime(acts: seq<Happening>)
    requires InTime(acts)
    ensures Chronological(LedgerRun(acts))
    ensures forall i :: 0 <= i < |LedgerRun(acts)| ==> LedgerRun(acts)[i].at <= acts[|acts| - 1].at
  {
    hide Do, Play, StepOf;
    if acts != [] {
      var earlier := acts[..|acts| - 1];
      LedgerRunKeepsTime(earlier);
      assert earlier != [] ==> earlier[|earlier| - 1].at <= acts[|acts| - 1].at;
    }
  }
}
