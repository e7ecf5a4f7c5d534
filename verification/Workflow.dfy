/** The deployment workflow of one environment: operations that hold the
    environment's lock, the Agent jobs they queue, and the projection of finished
    jobs onto the operation, the environment and the gateway route. Every
    projection reads a snapshot first and writes later, so it may act on stale
    facts, and any number of projections of the same job may run side by side. */
module Workflow {
  import opened Common
  import JobLeases

  type OperationId = nat
  type JobRow = JobLeases.Job

  // ----- rows -----

  datatype OperationKind = DeployOperation | StartOperation | StopOperation | RemoveOperation

  datatype OperationStatus = Running | Succeeded | Failed

  datatype Phase = Queued | Assigned | Working | Verifying | Completed | Broken | Unhealthy

  datatype Operation = Operation(kind: OperationKind, version: string, status: OperationStatus, phase: Phase)

  datatype EnvironmentStatus = Empty | Deploying | Up | Down | Faulty

  datatype Environment = Environment(status: EnvironmentStatus, version: Option<string>,
                                     active: Option<OperationId>, deploymentRequired: bool)

  datatype RouteState = Absent | Active | Stopped

  /** What the route was last observed to be. */
  datatype Observation = Observation(state: RouteState, revision: Option<string>, generation: nat)

  datatype Route = Route(generation: nat, observed: Observation, reconcileJob: Option<Key>)

  /** A job's dedupe key: one workload job and one route job per operation. */
  datatype Key = Workload(operation: OperationId) | RouteOf(operation: OperationId)

  datatype Payload = WorkloadPayload | RoutePayload(generation: nat, desired: RouteState, revision: Option<string>)

  datatype Job = Job(row: JobRow, step: nat, payload: Payload)

  /** `managed`: the target publishes environments through its gateway. */
  datatype Database = Database(managed: bool, environment: Environment, route: Route,
                               operations: map<OperationId, Operation>, jobs: map<Key, Job>)

  predicate Teardown(kind: OperationKind) { kind.StopOperation? || kind.RemoveOperation? }

  function WorkloadKind(kind: OperationKind): JobLeases.Kind {
    match kind
    case DeployOperation => JobLeases.Deploy
    case StartOperation => JobLeases.Start
    case StopOperation => JobLeases.Stop
    case RemoveOperation => JobLeases.Remove
  }

  predicate IsRunning(db: Database, o: OperationId) {
    o in db.operations && db.operations[o].status.Running?
  }

  // ----- phases -----

  /** The phases from which a running operation may move to `phase`. */
  function ActivePredecessors(phase: Phase): set<Phase> {
    match phase
    case Assigned => {Queued}
    case Working => {Queued, Assigned}
    case Verifying => {Queued, Assigned, Working}
    case _ => {}
  }

  function Rank(phase: Phase): nat {
    match phase
    case Queued => 0
    case Assigned => 1
    case Working => 2
    case Verifying => 3
    case _ => 4
  }

  predicate Contains(text: string, part: string) {
    part <= text || (text != [] && Contains(text[1..], part))
  }

  function Lower(text: string): string {
    seq(|text|, i requires 0 <= i < |text| =>
      if 'A' <= text[i] <= 'Z' then text[i] - 'A' + 'a' else text[i])
  }

  /** Every message that mentions "unhealthy" mentions "health". */
  function FailedPhase(message: string): (phase: Phase)
    ensures phase in {Broken, Unhealthy}
  {
    if Contains(Lower(message), "health") then Unhealthy else Broken
  }

  // ----- single transactions -----

  /** Sets the phase of a running operation if it may move there. */
  function AdvancePhase(db: Database, o: OperationId, phase: Phase): Database {
    if IsRunning(db, o) && db.operations[o].phase in ActivePredecessors(phase)
    then db.(operations := db.operations[o := db.operations[o].(phase := phase)])
    else db
  }

  /** What the route looks like after a job with this payload succeeded. */
  function ObservationOf(payload: Payload): Observation
    requires payload.RoutePayload?
  {
    Observation(payload.desired, if payload.desired.Absent? then None else payload.revision, payload.generation)
  }

  /** Records what a finished route job did, if the route still waits for this job. */
  function ObserveRoute(db: Database, key: Key): Database {
    if key in db.jobs && key.RouteOf? && db.jobs[key].payload.RoutePayload?
       && Finished(db.jobs[key].row)
       && db.route.generation == db.jobs[key].payload.generation && db.route.reconcileJob == Some(key)
    then db.(route := db.route.(
        observed := if db.jobs[key].row.status.Succeeded? then ObservationOf(db.jobs[key].payload)
                    else db.route.observed,
        reconcileJob := None))
    else db
  }

  function NewRow(kind: JobLeases.Kind, status: JobLeases.Status): JobRow {
    JobLeases.Job(kind, status, None, None, 0, 0, 0, "queued", "Waiting for Agent", None, None)
  }

  function CancelledJob(job: Job): Job {
    job.(row := job.row.(status := JobLeases.Cancelled, stage := "cancelled"))
  }

  /** Queues the route job of an operation once: it raises the route's generation
      and cancels route jobs nobody has claimed yet. */
  function QueueRoute(db: Database, o: OperationId): Database
    requires o in db.operations
  {
    if RouteOf(o) in db.jobs then db
    else
      var operation := db.operations[o];
      var generation := db.route.generation + 1;
      var desired := if operation.kind.StopOperation? then Stopped
                     else if operation.kind.RemoveOperation? then Absent else Active;
      var payload := RoutePayload(generation, desired, if desired.Absent? then None else Some(operation.version));
      var job := Job(NewRow(JobLeases.GatewayRoute, JobLeases.Queued),
                     if Teardown(operation.kind) then 1 else 2, payload);
      db.(jobs := (map k | k in db.jobs ::
                     if k.RouteOf? && db.jobs[k].row.status.Queued? then CancelledJob(db.jobs[k]) else db.jobs[k])
                  [RouteOf(o) := job],
          route := db.route.(generation := generation, reconcileJob := Some(RouteOf(o))))
  }

  /** Creates the workload job of an operation once. The workload of a managed
      teardown waits behind the route. */
  function QueueWorkload(db: Database, o: OperationId): Database
    requires o in db.operations
  {
    if Workload(o) in db.jobs then db
    else
      var kind := db.operations[o].kind;
      var waits := db.managed && Teardown(kind);
      db.(jobs := db.jobs[Workload(o) :=
            Job(NewRow(WorkloadKind(kind), if waits then JobLeases.Blocked else JobLeases.Queued),
                if waits then 2 else 1, WorkloadPayload)])
  }

  /** Takes back the workload job of a teardown whose route step was not queued. */
  function Withdraw(db: Database, o: OperationId): Database {
    if Workload(o) in db.jobs && db.jobs[Workload(o)].row.status.Blocked?
    then db.(jobs := db.jobs[Workload(o) := CancelledJob(db.jobs[Workload(o)])])
    else db
  }

  /** Shows a queued operation on its environment. */
  function Announce(db: Database, o: OperationId): Database {
    if db.environment.active == Some(o)
    then db.(environment := db.environment.(
        status := Deploying,
        deploymentRequired := if o in db.operations && db.operations[o].kind.RemoveOperation? then false
                              else db.environment.deploymentRequired))
    else db
  }

  function PublishProgress(db: Database, o: OperationId): Database {
    if IsRunning(db, o)
    then db.(operations := db.operations[o := db.operations[o].(phase := Verifying)])
    else db
  }

  /** Ends an operation: the environment row is written if it names the operation,
      the operation row if it is running. */
  function Settle(db: Database, o: OperationId, environment: Environment, status: OperationStatus, phase: Phase)
    : Database
  {
    db.(environment := if db.environment.active == Some(o) then environment.(active := None) else db.environment,
        operations := if IsRunning(db, o)
                      then db.operations[o := db.operations[o].(status := status, phase := phase)]
                      else db.operations)
  }

  function CancelWaiting(db: Database, o: OperationId): Database {
    db.(jobs := map k | k in db.jobs ::
          if k.operation == o && (db.jobs[k].row.status.Blocked? || db.jobs[k].row.status.Queued?)
          then CancelledJob(db.jobs[k]) else db.jobs[k])
  }

  // ----- projections -----

  /** What a projection read: the finished job and the rows around it. */
  datatype Snapshot = Snapshot(key: Key, job: Job, operation: Operation, environment: Environment, route: Route)

  /** What a failed route job says about the route it left behind. */
  datatype Rollback = Unstated | Serving | LeftStopped | Unknown

  function RouteRollback(job: Job): Rollback {
    if !job.row.kind.GatewayRoute? then Unstated
    else if Contains(job.row.message, "previous serving route restored") then Serving
    else if Contains(job.row.message, "previous gateway state restored") then LeftStopped
    else Unknown
  }

  predicate PreviousStillServing(s: Snapshot, rollback: Rollback) {
    && s.route.observed.state.Active? && s.route.observed.revision.Some?
    && s.route.observed.revision == s.environment.version
    && (rollback.Unstated? || rollback.Serving?)
  }

  predicate PreviousStillStopped(s: Snapshot, rollback: Rollback) {
    && s.operation.kind.StartOperation?
    && s.route.observed.state.Stopped? && s.route.observed.revision.Some?
    && s.route.observed.revision == s.environment.version
    && (rollback.Unstated? || rollback.LeftStopped?)
  }

  /** How a failed managed operation leaves the environment row that it finds. */
  function FailedEnvironment(current: Environment, s: Snapshot, rollback: Rollback): Environment {
    if PreviousStillServing(s, rollback) then
      current.(status := Up,
               deploymentRequired := !s.operation.kind.StartOperation? && !Teardown(s.operation.kind))
    else if PreviousStillStopped(s, rollback) then current.(status := Down, deploymentRequired := false)
    else current.(status := Faulty, deploymentRequired := true)
  }

  /** Why a managed operation fails: the Agent said so, a call threw, or a job or
      its result is not what the workflow needs. */
  datatype Reason =
    | Reported(message: string)
    | Raised(message: string)
    | InvalidStep
    | RouteNotFirst
    | StepMissing
    | InvalidWorkload
    | InvalidTeardown
    | NotPublished

  function Text(reason: Reason): string {
    match reason
    case Reported(message) => message
    case Raised(message) => message
    case InvalidStep => "Agent returned an invalid managed gateway workflow step"
    case RouteNotFirst => "Managed teardown did not remove its gateway route first"
    case StepMissing => "Managed teardown workload step is missing"
    case InvalidWorkload => "Agent returned an invalid managed workload result"
    case InvalidTeardown => "Agent returned an invalid managed teardown result"
    case NotPublished => "Gateway did not publish the requested workload revision"
  }

  function PreservedMessage(s: Snapshot, reason: string, rollback: Rollback): string {
    if PreviousStillServing(s, rollback) then
      var revision := s.route.observed.revision.value;
      "Deployment failed; revision " + revision[..Min(12, |revision|)] + " remains online. " + reason
    else if PreviousStillStopped(s, rollback) then
      "Start failed; the previous revision remains stopped. " + reason
    else reason
  }

  function FailManaged(db: Database, s: Snapshot, reason: Reason, rollback: Rollback): Database {
    var o := s.key.operation;
    Settle(CancelWaiting(db, o), o, FailedEnvironment(db.environment, s, rollback), Failed,
           FailedPhase(PreservedMessage(s, Text(reason), rollback)))
  }

  /** The result a workload job must report for its operation to go on. */
  predicate ValidWorkload(managed: bool, job: Job, operation: Operation) {
    && job.row.result.Some?
    && var result := job.row.result.value;
    match operation.kind
    case StopOperation => result.state.Stopped? && result.revision == Some(operation.version)
    case RemoveOperation => result.state.Missing?
    case _ =>
      && result.state.Running? && result.revision == Some(operation.version)
      && (if managed then result.workloadSlot.Some? else result.hostPort.Some?)
  }

  function SucceededEnvironment(current: Environment, operation: Operation): Environment {
    match operation.kind
    case DeployOperation => current.(status := Up, version := Some(operation.version), deploymentRequired := false)
    case StartOperation => current.(status := Up)
    case StopOperation => current.(status := Down)
    case RemoveOperation => current.(status := Empty, version := None, deploymentRequired := false)
  }

  function Finish(db: Database, s: Snapshot): Database {
    Settle(db, s.key.operation, SucceededEnvironment(db.environment, s.operation), Succeeded, Completed)
  }

  /** The projection of a job of a target without managed gateway: one transaction. */
  function ProjectDirect(db: Database, s: Snapshot): Database {
    if s.job.row.status.Succeeded? && s.job.row.kind == WorkloadKind(s.operation.kind)
       && ValidWorkload(false, s.job, s.operation)
    then Finish(db, s)
    else
      var reason := if s.job.row.status.Failed? then s.job.row.message
                    else "Agent returned an invalid deployment result";
      Settle(db, s.key.operation, db.environment.(status := Faulty, deploymentRequired := true),
             Failed, FailedPhase(reason))
  }

  /** A route job did publish what the operation asked for. */
  predicate Published(s: Snapshot) {
    && s.job.row.kind.GatewayRoute? && s.job.payload.RoutePayload?
    && s.route.observed == Observation(Active, Some(s.operation.version), s.job.payload.generation)
  }

  // ----- handlers and runs -----

  /** Where a request handler, a replay or a delivery is, between two transactions.
      `outer` is the projection in whose error handler it runs. */
  datatype Handler =
    | Delivering(operation: OperationId)
    | DeliveringRoute(operation: OperationId)
    | Withdrawing(operation: OperationId)
    | Announcing(operation: OperationId)
    | Observing(key: Key, outer: Option<Snapshot>)
    | Projecting(key: Key, outer: Option<Snapshot>)
    | Projected(snapshot: Snapshot, outer: Option<Snapshot>)
    | Unblocked(snapshot: Snapshot)
    | Inspecting(snapshot: Snapshot)
    | RouteQueued(snapshot: Snapshot)
    | Failing(snapshot: Snapshot, reason: Reason, rollback: Rollback, outer: Option<Snapshot>, caught: bool)
    | Over

  datatype System = System(db: Database, handlers: seq<Handler>)

  datatype Event =
    | Begin(operation: OperationId, kind: OperationKind, version: string)
    | Deliver(operation: OperationId)                 // queueDeployment or queueLifecycle is called
    | Replay(key: Key)                                // a job was completed, or is replayed
    | LeaseEvent(key: Key, row: JobRow)               // the Agent claims, renews, reports, completes
    | Advance(operation: OperationId, phase: Phase)   // a claim or a report moves the phase
    | StepHandler(handler: nat)
    | Throw(handler: nat, message: string)            // its next database call fails
    | Lose(handler: nat, message: string)             // its next call commits, yet it sees an error
    | Die(handler: nat)                               // its process is gone

  /** What lease events can do to a job: nobody claims a blocked job, and a
      finished job stays as it is. */
  predicate LeaseMove(row: JobRow, next: JobRow) {
    && next.kind == row.kind
    && if row.status.Queued? then next.status.Leased?
       else row.status.Leased? && (next.status.Leased? || next.status.Succeeded? || next.status.Failed?)
  }

  predicate Finished(row: JobRow) { row.status.Succeeded? || row.status.Failed? }

  function TakeSnapshot(db: Database, key: Key): Snapshot
    requires key in db.jobs && key.operation in db.operations
  {
    Snapshot(key, db.jobs[key], db.operations[key.operation], db.environment, db.route)
  }

  /** A finished job is projected only while its operation is running. */
  function Read(db: Database, key: Key, outer: Option<Snapshot>): Handler {
    if key in db.jobs && Finished(db.jobs[key].row) && IsRunning(db, key.operation)
    then Projected(TakeSnapshot(db, key), outer)
    else Over
  }

  /** Lets the Agent claim the workload job of a teardown. */
  function Unblock(db: Database, o: OperationId): Database
    requires Workload(o) in db.jobs
  {
    var job := db.jobs[Workload(o)];
    db.(jobs := db.jobs[Workload(o) := job.(row := job.row.(status := JobLeases.Queued, stage := "queued"))])
  }

  /** The route of a teardown is gone: its workload may be removed. */
  function AfterRouteRemoved(db: Database, s: Snapshot, outer: Option<Snapshot>): (Database, Handler) {
    var key := Workload(s.key.operation);
    if !s.job.row.kind.GatewayRoute? then
      (db, Failing(s, RouteNotFirst, Unstated, outer, false))
    else if key in db.jobs && db.jobs[key].step == 2 && db.jobs[key].row.status.Blocked? then
      (Unblock(db, s.key.operation), Unblocked(s))
    else (db, Inspecting(s))
  }

  /** The workload of a deploy or start is ready: its route is queued. */
  function AfterWorkloadReady(db: Database, s: Snapshot, outer: Option<Snapshot>): (Database, Handler) {
    if QueuesRoute(s) && s.key.operation in db.operations then
      (QueueRoute(db, s.key.operation), RouteQueued(s))
    else
      (db, Failing(s, InvalidWorkload, Unstated, outer, false))
  }

  function AfterWorkloadRemoved(db: Database, s: Snapshot, outer: Option<Snapshot>): (Database, Handler) {
    if s.job.row.kind == WorkloadKind(s.operation.kind) && ValidWorkload(true, s.job, s.operation) then
      (Finish(db, s), Over)
    else
      (db, Failing(s, InvalidTeardown, Unstated, outer, false))
  }

  function AfterRoutePublished(db: Database, s: Snapshot, outer: Option<Snapshot>): (Database, Handler) {
    if Published(s) then (Finish(db, s), Over)
    else (db, Failing(s, NotPublished, Unknown, outer, false))
  }

  /** The first transaction of a managed projection, and how it goes on. */
  function ProjectManaged(db: Database, s: Snapshot, outer: Option<Snapshot>): (Database, Handler) {
    if s.job.row.status.Failed? then
      (db, Failing(s, Reported(s.job.row.message), RouteRollback(s.job), outer, false))
    else if s.job.step != 1 && s.job.step != 2 then
      (db, Failing(s, InvalidStep, Unstated, outer, false))
    else if s.job.step == 1 then
      if Teardown(s.operation.kind) then AfterRouteRemoved(db, s, outer) else AfterWorkloadReady(db, s, outer)
    else if Teardown(s.operation.kind) then AfterWorkloadRemoved(db, s, outer)
    else AfterRoutePublished(db, s, outer)
  }

  /** The next transaction of a handler. */
  function HandlerStep(db: Database, h: Handler): (Database, Handler) {
    match h
    case Delivering(o) =>
      if o !in db.operations then (db, Over)
      else
        var next := QueueWorkload(db, o);
        var status := next.jobs[Workload(o)].row.status;
        (next, if db.managed && Teardown(db.operations[o].kind)
               then (if status.Blocked? then DeliveringRoute(o) else Over)
               else (if status.Queued? || status.Leased? then Announcing(o) else Over))
    case DeliveringRoute(o) => if o in db.operations then (QueueRoute(db, o), Announcing(o)) else (db, Over)
    case Withdrawing(o) => (Withdraw(db, o), Over)
    case Announcing(o) => (Announce(db, o), Over)
    case Observing(key, outer) => (ObserveRoute(db, key), Projecting(key, outer))
    case Projecting(key, outer) => (db, Read(db, key, outer))
    case Projected(s, outer) => if db.managed then ProjectManaged(db, s, outer) else (ProjectDirect(db, s), Over)
    case Unblocked(s) => (PublishProgress(db, s.key.operation), Over)
    case Inspecting(s) =>
      var key := Workload(s.key.operation);
      if key in db.jobs && db.jobs[key].step == 2
         && (db.jobs[key].row.status.Queued? || db.jobs[key].row.status.Leased? || db.jobs[key].row.status.Succeeded?)
      then (db, if db.jobs[key].row.status.Succeeded? then Projecting(key, None) else Over)
      else (db, Failing(s, StepMissing, Unstated, None, false))
    case RouteQueued(s) =>
      var key := RouteOf(s.key.operation);
      (PublishProgress(db, s.key.operation),
       if key in db.jobs && db.jobs[key].row.status.Succeeded? then Observing(key, Some(s)) else Over)
    case Failing(s, reason, rollback, _, _) => (FailManaged(db, s, reason, rollback), Over)
    case Over => (db, Over)
  }

  /** A failed call ends a handler, with two exceptions: a managed workload
      projection fails its operation when queueing or publishing the route step
      throws, and the delivery of a teardown withdraws the waiting workload job. */
  function Thrown(db: Database, h: Handler, message: string): Handler {
    match h
    case DeliveringRoute(o) => Withdrawing(o)
    case Projected(s, None) => if db.managed && QueuesRoute(s) then Caught(s, message) else Over
    case RouteQueued(s) => Caught(s, message)
    case Observing(_, Some(s)) => Caught(s, message)
    case Projecting(_, Some(s)) => Caught(s, message)
    case Projected(_, Some(s)) => Caught(s, message)
    case Failing(_, _, _, Some(s), _) => Caught(s, message)
    case _ => Over
  }

  function Caught(s: Snapshot, message: string): Handler {
    Failing(s, Raised(message), Unstated, None, true)
  }

  /** The projection would queue the route step of a deploy or start. */
  predicate QueuesRoute(s: Snapshot) {
    && s.job.row.status.Succeeded? && s.job.step == 1 && !Teardown(s.operation.kind)
    && (s.job.row.kind.Deploy? || s.job.row.kind.Start?) && ValidWorkload(true, s.job, s.operation)
  }

  /** Events that concern one handler. */
  predicate Acts(event: Event) { event.StepHandler? || event.Throw? || event.Lose? || event.Die? }

  function Act(db: Database, h: Handler, event: Event): (Database, Handler)
    requires Acts(event)
  {
    match event
    case StepHandler(_) => HandlerStep(db, h)
    case Throw(_, message) => (db, Thrown(db, h, message))
    case Lose(_, message) => (HandlerStep(db, h).0, Thrown(db, h, message))
    case Die(_) => (db, Over)
  }

  function Step(t: System, event: Event): System {
    match event
    case Begin(o, kind, version) =>
      if t.db.environment.active.None? && o !in t.db.operations
         && (kind.StartOperation? ==> t.db.environment.version == Some(version))
      then t.(db := t.db.(operations := t.db.operations[o := Operation(kind, version, Running, Queued)],
                          environment := t.db.environment.(
                            active := Some(o), status := Deploying,
                            deploymentRequired := if kind.DeployOperation? then true
                                                  else t.db.environment.deploymentRequired)))
      else t
    case Deliver(o) => if IsRunning(t.db, o) then t.(handlers := t.handlers + [Delivering(o)]) else t
    case Replay(key) =>
      if key in t.db.jobs && Finished(t.db.jobs[key].row)
      then t.(handlers := t.handlers + [Observing(key, None)]) else t
    case LeaseEvent(key, row) =>
      if key in t.db.jobs && LeaseMove(t.db.jobs[key].row, row)
      then t.(db := t.db.(jobs := t.db.jobs[key := t.db.jobs[key].(row := row)])) else t
    case Advance(o, phase) => t.(db := AdvancePhase(t.db, o, phase))
    case _ =>
      var i := event.handler;
      if i < |t.handlers| then
        var (db, h) := Act(t.db, t.handlers[i], event);
        System(db, t.handlers[i := h])
      else t
  }

  function Run(t: System, events: seq<Event>): System
    decreases |events|
  {
    if events == [] then t else Run(Step(t, events[0]), events[1..])
  }

  /** An environment that was never deployed, with its reserved route. */
  function Initial(managed: bool): System {
    System(Database(managed, Environment(Empty, None, None, false),
                    Route(0, Observation(Absent, None, 0), None), map[], map[]), [])
  }
}
