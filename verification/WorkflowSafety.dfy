/** What every run of the deployment workflow keeps, whatever fails and however
    the handlers interleave. */
module WorkflowSafety {
  import opened Common
  import opened Workflow
  import JobLeases

  // ----- the invariant -----

  /** An operation is running exactly while its environment names it as active. */
  predicate LockInv(db: Database) {
    && (forall o | o in db.operations :: db.operations[o].status.Running? <==> db.environment.active == Some(o))
    && (db.environment.active.Some? ==> db.environment.active.value in db.operations)
    && (forall o | o in db.operations && db.operations[o].status.Running? :: Rank(db.operations[o].phase) <= 3)
  }

  function RouteGoal(operation: Operation): (RouteState, Option<string>) {
    match operation.kind
    case StopOperation => (Stopped, Some(operation.version))
    case RemoveOperation => (Absent, None)
    case _ => (Active, Some(operation.version))
  }

  /** A job belongs to an operation and has the kind, step and payload of its place. */
  predicate JobInv(db: Database, key: Key, job: Job) {
    && key.operation in db.operations
    && var operation := db.operations[key.operation];
    if key.Workload? then
      && job.row.kind == WorkloadKind(operation.kind) && job.payload.WorkloadPayload?
      && job.step == (if db.managed && Teardown(operation.kind) then 2 else 1)
    else
      && db.managed && job.row.kind.GatewayRoute? && job.payload.RoutePayload?
      && (job.payload.desired, job.payload.revision) == RouteGoal(operation)
      && 1 <= job.payload.generation <= db.route.generation
      && job.step == (if Teardown(operation.kind) then 1 else 2)
  }

  predicate RouteSucceeded(db: Database, o: OperationId) {
    RouteOf(o) in db.jobs && db.jobs[RouteOf(o)].row.status.Succeeded?
  }

  /** In a managed teardown the workload job leaves its place behind the route
      only after the route job succeeded. */
  predicate TeardownInv(db: Database, o: OperationId) {
    db.managed && o in db.operations && Teardown(db.operations[o].kind) && Workload(o) in db.jobs ==>
      || db.jobs[Workload(o)].row.status.Blocked? || db.jobs[Workload(o)].row.status.Cancelled?
      || RouteSucceeded(db, o)
  }

  predicate DatabaseInv(db: Database) {
    && LockInv(db)
    && (forall key | key in db.jobs :: JobInv(db, key, db.jobs[key]))
    && (forall o | o in db.operations :: TeardownInv(db, o))
  }

  /** What a snapshot read about its job and operation is still true. */
  predicate SnapshotInv(db: Database, s: Snapshot) {
    && s.key in db.jobs && s.key.operation in db.operations
    && Finished(s.job.row) && db.jobs[s.key] == s.job
    && s.operation.kind == db.operations[s.key.operation].kind
    && s.operation.version == db.operations[s.key.operation].version
  }

  /** The snapshot a handler works on, and the one in whose error handler it runs. */
  function Inner(h: Handler): Option<Snapshot> {
    match h
    case Projected(s, _) => Some(s)
    case Unblocked(s) => Some(s)
    case Inspecting(s) => Some(s)
    case RouteQueued(s) => Some(s)
    case Failing(s, _, _, _, _) => Some(s)
    case _ => None
  }

  function Outer(h: Handler): Option<Snapshot> {
    match h
    case Observing(_, outer) => outer
    case Projecting(_, outer) => outer
    case Projected(_, outer) => outer
    case Failing(_, _, _, outer, _) => outer
    case _ => None
  }

  predicate HandlerInv(db: Database, h: Handler) {
    && (Inner(h).Some? ==> SnapshotInv(db, Inner(h).value))
    && (Outer(h).Some? ==> SnapshotInv(db, Outer(h).value))
    && (h.DeliveringRoute? ==> db.managed && h.operation in db.operations)
  }

  predicate BaseInv(t: System) {
    DatabaseInv(t.db) && forall i | 0 <= i < |t.handlers| :: HandlerInv(t.db, t.handlers[i])
  }

  /** How one transaction may change the rows: operations only advance and end
      once, finished jobs stay as they are, and no job is blocked again. */
  predicate Forward(a: Database, b: Database) {
    && a.managed == b.managed && a.route.generation <= b.route.generation
    && (forall o | o in a.operations :: o in b.operations && Advances(a.operations[o], b.operations[o]))
    && (forall key | key in a.jobs ::
          && key in b.jobs && b.jobs[key].step == a.jobs[key].step && b.jobs[key].payload == a.jobs[key].payload
          && (JobLeases.Terminal(a.jobs[key].row.status) ==> b.jobs[key] == a.jobs[key])
          && (b.jobs[key].row.status.Blocked? ==> a.jobs[key].row.status.Blocked?))
  }

  /** An operation keeps its kind and version, its phase never falls back, and
      once it has ended it does not change again. */
  predicate Advances(a: Operation, b: Operation) {
    && a.kind == b.kind && a.version == b.version && Rank(a.phase) <= Rank(b.phase)
    && (!a.status.Running? ==> a == b)
  }

  lemma ForwardKeepsSnapshots(a: Database, b: Database, h: Handler)
    requires Forward(a, b) && HandlerInv(a, h)
    ensures HandlerInv(b, h)
  {}

  lemma ForwardOn(a: Database, b: Database, c: Database)
    requires Forward(a, b) && Forward(b, c)
    ensures Forward(a, c)
  {}

  // Transactions, one by one.

  lemma SettleKeeps(db: Database, o: OperationId, environment: Environment, status: OperationStatus, phase: Phase)
    requires DatabaseInv(db) && !status.Running? && Rank(phase) == 4
    ensures var next := Settle(db, o, environment, status, phase);
            DatabaseInv(next) && Forward(db, next) && !IsRunning(next, o)
  {
    var next := Settle(db, o, environment, status, phase);
    forall key | key in next.jobs ensures JobInv(next, key, next.jobs[key]) {
      assert JobInv(db, key, db.jobs[key]);
    }
    forall p | p in next.operations ensures TeardownInv(next, p) {
      assert TeardownInv(db, p);
    }
  }

  /** Some waiting jobs are cancelled, and nothing else happens. */
  predicate OnlyCancels(db: Database, next: Database) {
    && next == db.(jobs := next.jobs) && next.jobs.Keys == db.jobs.Keys
    && forall key | key in db.jobs ::
         || next.jobs[key] == db.jobs[key]
         || (!JobLeases.Terminal(db.jobs[key].row.status) && next.jobs[key] == CancelledJob(db.jobs[key]))
  }

  lemma OnlyCancelsKeeps(db: Database, next: Database)
    requires DatabaseInv(db) && OnlyCancels(db, next)
    ensures DatabaseInv(next) && Forward(db, next)
  {
    forall key | key in next.jobs ensures JobInv(next, key, next.jobs[key]) {
      assert JobInv(db, key, db.jobs[key]);
    }
    forall p | p in next.operations ensures TeardownInv(next, p) {
      assert TeardownInv(db, p);
    }
  }

  lemma CancelKeeps(db: Database, o: OperationId)
    requires DatabaseInv(db)
    ensures DatabaseInv(CancelWaiting(db, o)) && Forward(db, CancelWaiting(db, o))
  {
    OnlyCancelsKeeps(db, CancelWaiting(db, o));
  }

  lemma FailManagedKeeps(db: Database, s: Snapshot, reason: Reason, rollback: Rollback)
    requires DatabaseInv(db)
    ensures var next := FailManaged(db, s, reason, rollback); DatabaseInv(next) && Forward(db, next)
  {
    var cancelled := CancelWaiting(db, s.key.operation);
    CancelKeeps(db, s.key.operation);
    SettleKeeps(cancelled, s.key.operation, FailedEnvironment(db.environment, s, rollback), Failed,
                FailedPhase(PreservedMessage(s, Text(reason), rollback)));
    ForwardOn(db, cancelled, FailManaged(db, s, reason, rollback));
  }

  lemma QueueRouteIsForward(db: Database, o: OperationId)
    requires DatabaseInv(db) && o in db.operations
    ensures Forward(db, QueueRoute(db, o))
  {}

  lemma QueueRouteKeeps(db: Database, o: OperationId)
    requires DatabaseInv(db) && db.managed && o in db.operations
    ensures DatabaseInv(QueueRoute(db, o)) && Forward(db, QueueRoute(db, o))
  {
    var next := QueueRoute(db, o);
    QueueRouteIsForward(db, o);
    forall key | key in next.jobs ensures JobInv(next, key, next.jobs[key]) {
      if key in db.jobs { assert JobInv(db, key, db.jobs[key]); }
    }
    forall p | p in next.operations ensures TeardownInv(next, p) {
      assert TeardownInv(db, p);
    }
  }

  lemma QueueWorkloadKeeps(db: Database, o: OperationId)
    requires DatabaseInv(db) && o in db.operations
    ensures DatabaseInv(QueueWorkload(db, o)) && Forward(db, QueueWorkload(db, o))
  {
    var next := QueueWorkload(db, o);
    forall key | key in next.jobs ensures JobInv(next, key, next.jobs[key]) {
      assert key in db.jobs ==> JobInv(db, key, db.jobs[key]);
    }
    forall p | p in next.operations ensures TeardownInv(next, p) {
      assert TeardownInv(db, p);
    }
  }

  /** A job row moves without being finished before. */
  lemma JobMoveKeeps(db: Database, key: Key, row: JobRow)
    requires DatabaseInv(db) && key in db.jobs && row.kind == db.jobs[key].row.kind
    requires !JobLeases.Terminal(db.jobs[key].row.status) && !row.status.Blocked?
    requires db.jobs[key].row.status.Blocked? ==> row.status.Cancelled? || RouteSucceeded(db, key.operation)
    ensures var next := db.(jobs := db.jobs[key := db.jobs[key].(row := row)]);
            DatabaseInv(next) && Forward(db, next)
  {
    var next := db.(jobs := db.jobs[key := db.jobs[key].(row := row)]);
    forall k | k in next.jobs ensures JobInv(next, k, next.jobs[k]) {
      assert JobInv(db, k, db.jobs[k]);
    }
    forall p | p in next.operations ensures TeardownInv(next, p) {
      assert TeardownInv(db, p);
    }
  }

  /** Rows of operations, route and environment change, jobs do not. */
  lemma RowsKeep(db: Database, next: Database)
    requires DatabaseInv(db) && next.jobs == db.jobs && Forward(db, next) && LockInv(next)
    requires next.operations.Keys == db.operations.Keys
    ensures DatabaseInv(next)
  {
    forall k | k in next.jobs ensures JobInv(next, k, next.jobs[k]) {
      assert JobInv(db, k, db.jobs[k]);
    }
    forall p | p in next.operations ensures TeardownInv(next, p) {
      assert TeardownInv(db, p);
    }
  }

  lemma ProjectDirectKeeps(db: Database, s: Snapshot)
    requires DatabaseInv(db)
    ensures DatabaseInv(ProjectDirect(db, s)) && Forward(db, ProjectDirect(db, s))
  {
    var o := s.key.operation;
    if s.job.row.status.Succeeded? && s.job.row.kind == WorkloadKind(s.operation.kind)
       && ValidWorkload(false, s.job, s.operation) {
      SettleKeeps(db, o, SucceededEnvironment(db.environment, s.operation), Succeeded, Completed);
    } else {
      var reason := if s.job.row.status.Failed? then s.job.row.message
                    else "Agent returned an invalid deployment result";
      SettleKeeps(db, o, db.environment.(status := Faulty, deploymentRequired := true), Failed, FailedPhase(reason));
    }
  }

  lemma UnblockKeeps(db: Database, o: OperationId)
    requires DatabaseInv(db) && RouteSucceeded(db, o)
    requires Workload(o) in db.jobs && db.jobs[Workload(o)].row.status.Blocked?
    ensures DatabaseInv(Unblock(db, o)) && Forward(db, Unblock(db, o))
  {
    JobMoveKeeps(db, Workload(o), db.jobs[Workload(o)].row.(status := JobLeases.Queued, stage := "queued"));
  }

  lemma FinishKeeps(db: Database, s: Snapshot)
    requires DatabaseInv(db)
    ensures DatabaseInv(Finish(db, s)) && Forward(db, Finish(db, s)) && !IsRunning(Finish(db, s), s.key.operation)
  {
    SettleKeeps(db, s.key.operation, SucceededEnvironment(db.environment, s.operation), Succeeded, Completed);
  }

  lemma AfterRouteRemovedKeeps(db: Database, s: Snapshot, outer: Option<Snapshot>)
    requires DatabaseInv(db) && SnapshotInv(db, s) && s.job.row.status.Succeeded?
    ensures var next := AfterRouteRemoved(db, s, outer).0; DatabaseInv(next) && Forward(db, next)
  {
    var o := s.key.operation;
    assert JobInv(db, s.key, s.job);
    if s.job.row.kind.GatewayRoute? && Workload(o) in db.jobs && db.jobs[Workload(o)].row.status.Blocked? {
      UnblockKeeps(db, o);
    }
  }

  lemma AfterWorkloadReadyKeeps(db: Database, s: Snapshot, outer: Option<Snapshot>)
    requires DatabaseInv(db) && db.managed
    ensures var next := AfterWorkloadReady(db, s, outer).0; DatabaseInv(next) && Forward(db, next)
  {
    if QueuesRoute(s) && s.key.operation in db.operations { QueueRouteKeeps(db, s.key.operation); }
  }

  lemma LastStepKeeps(db: Database, s: Snapshot, outer: Option<Snapshot>)
    requires DatabaseInv(db)
    ensures DatabaseInv(AfterWorkloadRemoved(db, s, outer).0) && Forward(db, AfterWorkloadRemoved(db, s, outer).0)
    ensures DatabaseInv(AfterRoutePublished(db, s, outer).0) && Forward(db, AfterRoutePublished(db, s, outer).0)
  {
    FinishKeeps(db, s);
  }

  lemma ProjectManagedKeeps(db: Database, s: Snapshot, outer: Option<Snapshot>)
    requires DatabaseInv(db) && SnapshotInv(db, s) && db.managed
    ensures var next := ProjectManaged(db, s, outer).0; DatabaseInv(next) && Forward(db, next)
  {
    if s.job.row.status.Succeeded? && s.job.step == 1 {
      if Teardown(s.operation.kind) {
        AfterRouteRemovedKeeps(db, s, outer);
      } else {
        AfterWorkloadReadyKeeps(db, s, outer);
      }
    } else {
      LastStepKeeps(db, s, outer);
    }
  }

  lemma WithdrawKeeps(db: Database, o: OperationId)
    requires DatabaseInv(db)
    ensures DatabaseInv(Withdraw(db, o)) && Forward(db, Withdraw(db, o))
  {
    if Workload(o) in db.jobs && db.jobs[Workload(o)].row.status.Blocked? {
      JobMoveKeeps(db, Workload(o), CancelledJob(db.jobs[Workload(o)]).row);
    }
  }

  lemma AnnounceKeeps(db: Database, o: OperationId)
    requires DatabaseInv(db)
    ensures DatabaseInv(Announce(db, o)) && Forward(db, Announce(db, o))
  {
    RowsKeep(db, Announce(db, o));
  }

  lemma ObserveRouteKeeps(db: Database, key: Key)
    requires DatabaseInv(db)
    ensures DatabaseInv(ObserveRoute(db, key)) && Forward(db, ObserveRoute(db, key))
  {
    RowsKeep(db, ObserveRoute(db, key));
  }

  lemma PublishProgressKeeps(db: Database, o: OperationId)
    requires DatabaseInv(db)
    ensures DatabaseInv(PublishProgress(db, o)) && Forward(db, PublishProgress(db, o))
  {
    RowsKeep(db, PublishProgress(db, o));
  }

  lemma AdvancePhaseKeeps(db: Database, o: OperationId, phase: Phase)
    requires DatabaseInv(db)
    ensures DatabaseInv(AdvancePhase(db, o, phase)) && Forward(db, AdvancePhase(db, o, phase))
  {
    RowsKeep(db, AdvancePhase(db, o, phase));
  }

  lemma ProjectedKeeps(db: Database, s: Snapshot, outer: Option<Snapshot>)
    requires DatabaseInv(db) && SnapshotInv(db, s)
    ensures var next := HandlerStep(db, Projected(s, outer)).0; DatabaseInv(next) && Forward(db, next)
  {
    if db.managed { ProjectManagedKeeps(db, s, outer); } else { ProjectDirectKeeps(db, s); }
  }

  lemma DeliveryKeeps(db: Database, h: Handler)
    requires DatabaseInv(db) && HandlerInv(db, h)
    requires h.Delivering? || h.DeliveringRoute? || h.Withdrawing? || h.Announcing?
    ensures var next := HandlerStep(db, h).0; DatabaseInv(next) && Forward(db, next)
  {
    var o := h.operation;
    if h.Delivering? {
      if o in db.operations { QueueWorkloadKeeps(db, o); }
    } else if h.DeliveringRoute? {
      QueueRouteKeeps(db, o);
    } else if h.Withdrawing? {
      WithdrawKeeps(db, o);
    } else {
      AnnounceKeeps(db, o);
    }
  }

  lemma HandlerStepKeeps(db: Database, h: Handler)
    requires DatabaseInv(db) && HandlerInv(db, h)
    ensures var next := HandlerStep(db, h).0; DatabaseInv(next) && Forward(db, next)
  {
    match h
    case Delivering(_) => DeliveryKeeps(db, h);
    case DeliveringRoute(_) => DeliveryKeeps(db, h);
    case Withdrawing(_) => DeliveryKeeps(db, h);
    case Announcing(_) => DeliveryKeeps(db, h);
    case Observing(key, _) => ObserveRouteKeeps(db, key);
    case Projecting(_, _) =>
    case Projected(s, outer) =>
      ProjectedKeeps(db, s, outer);
    case Unblocked(s) => PublishProgressKeeps(db, s.key.operation);
    case Inspecting(_) =>
    case RouteQueued(s) => PublishProgressKeeps(db, s.key.operation);
    case Failing(s, reason, rollback, _, _) => FailManagedKeeps(db, s, reason, rollback);
    case Over =>
  }

  /** `g` starts nothing new and knows no more than `h`. */
  predicate MovesOn(g: Handler, h: Handler) {
    && !g.Projected? && !g.DeliveringRoute?
    && (Inner(g).None? || Inner(g) == Inner(h) || Inner(g) == Outer(h))
    && (Outer(g).None? || Outer(g) == Outer(h) || Outer(g) == Inner(h))
  }

  lemma ProjectedMoves(db: Database, s: Snapshot, outer: Option<Snapshot>)
    ensures MovesOn(ProjectManaged(db, s, outer).1, Projected(s, outer))
  {}

  /** A handler only carries on with snapshots it has, or with one it just read. */
  lemma HandlerMoves(db: Database, h: Handler)
    requires HandlerInv(db, h)
    ensures var g := HandlerStep(db, h).1;
            if h.Projecting? then HandlerInv(db, g)
            else MovesOn(g, h) || (h.Delivering? && HandlerInv(db, g))
  {
    match h
    case Projected(s, outer) => ProjectedMoves(db, s, outer);
    case _ =>
  }

  lemma BeginKeeps(db: Database, o: OperationId, kind: OperationKind, version: string)
    requires DatabaseInv(db)
    ensures var next := Step(System(db, []), Begin(o, kind, version)).db; DatabaseInv(next) && Forward(db, next)
  {
    var next := Step(System(db, []), Begin(o, kind, version)).db;
    if next != db {
      forall k | k in next.jobs ensures JobInv(next, k, next.jobs[k]) {
        assert JobInv(db, k, db.jobs[k]);
      }
      forall p | p in next.operations ensures TeardownInv(next, p) {
        assert p in db.operations ==> TeardownInv(db, p);
        if p == o && Workload(o) in db.jobs {
          assert JobInv(db, Workload(o), db.jobs[Workload(o)]);
        }
      }
    }
  }

  lemma ThrownMoves(db: Database, h: Handler, message: string)
    ensures MovesOn(Thrown(db, h, message), h)
  {}

  lemma MovedOnKeeps(db: Database, h: Handler, g: Handler)
    requires HandlerInv(db, h) && MovesOn(g, h)
    ensures HandlerInv(db, g)
  {}

  lemma HandlerStepLands(db: Database, h: Handler)
    requires DatabaseInv(db) && HandlerInv(db, h)
    ensures var (next, g) := HandlerStep(db, h);
            DatabaseInv(next) && Forward(db, next) && HandlerInv(next, h) && HandlerInv(next, g)
  {
    HandlerStepKeeps(db, h);
    HandlerMoves(db, h);
    var (next, g) := HandlerStep(db, h);
    ForwardKeepsSnapshots(db, next, h);
    if MovesOn(g, h) { MovedOnKeeps(next, h, g); } else { ForwardKeepsSnapshots(db, next, g); }
  }

  lemma ActKeeps(db: Database, h: Handler, event: Event)
    requires DatabaseInv(db) && HandlerInv(db, h) && Acts(event)
    ensures DatabaseInv(Act(db, h, event).0) && Forward(db, Act(db, h, event).0)
    ensures HandlerInv(Act(db, h, event).0, Act(db, h, event).1)
  {
    if event.StepHandler? || event.Lose? { HandlerStepLands(db, h); }
    if event.Throw? || event.Lose? {
      ThrownMoves(db, h, event.message);
      MovedOnKeeps(Act(db, h, event).0, h, Act(db, h, event).1);
    }
  }

  lemma RowEventKeeps(t: System, event: Event)
    requires BaseInv(t) && !Acts(event)
    ensures DatabaseInv(Step(t, event).db) && Forward(t.db, Step(t, event).db)
  {
    match event
    case Begin(o, kind, version) => BeginKeeps(t.db, o, kind, version);
    case LeaseEvent(key, row) =>
      if key in t.db.jobs && LeaseMove(t.db.jobs[key].row, row) { JobMoveKeeps(t.db, key, row); }
    case Advance(o, phase) => AdvancePhaseKeeps(t.db, o, phase);
    case _ =>
  }

  lemma StepKeeps(t: System, event: Event)
    requires BaseInv(t)
    ensures BaseInv(Step(t, event)) && Forward(t.db, Step(t, event).db)
  {
    var u := Step(t, event);
    if Acts(event) {
      if event.handler < |t.handlers| { ActKeeps(t.db, t.handlers[event.handler], event); }
    } else {
      RowEventKeeps(t, event);
    }
    forall j | 0 <= j < |u.handlers| ensures HandlerInv(u.db, u.handlers[j]) {
      if j < |t.handlers| && !(Acts(event) && event.handler == j) {
        ForwardKeepsSnapshots(t.db, u.db, t.handlers[j]);
      }
    }
  }

  lemma {:induction false} RunKeeps(t: System, events: seq<Event>)
    requires BaseInv(t)
    ensures BaseInv(Run(t, events)) && Forward(t.db, Run(t, events).db)
    decreases |events|
  {
    if events != [] {
      StepKeeps(t, events[0]);
      RunKeeps(Step(t, events[0]), events[1..]);
    }
  }

  // ----- what follows for every run from the start -----

  lemma Reachable(managed: bool, events: seq<Event>)
    ensures BaseInv(Run(Initial(managed), events))
  {
    RunKeeps(Initial(managed), events);
  }

  /** An operation is running exactly while the environment names it, its phase
      never falls back, and once settled it stays as it is and never holds the
      environment again, whatever runs, fails or is replayed afterwards. */
  lemma SettlesExactlyOnce(managed: bool, before: seq<Event>, after: seq<Event>, o: OperationId)
    requires o in Run(Initial(managed), before).db.operations
    ensures var a := Run(Initial(managed), before);
            var b := Run(a, after);
            && (IsRunning(a.db, o) <==> a.db.environment.active == Some(o))
            && o in b.db.operations && Advances(a.db.operations[o], b.db.operations[o])
            && (!IsRunning(a.db, o) ==> b.db.environment.active != Some(o))
  {
    Reachable(managed, before);
    RunKeeps(Run(Initial(managed), before), after);
  }

  /** The workload job of a managed stop or remove is never in the Agent's hands,
      nor waiting for the Agent, before the route job of that operation succeeded. */
  lemma TeardownRemovesRouteFirst(events: seq<Event>, o: OperationId)
    ensures var db := Run(Initial(true), events).db;
            o in db.operations && Teardown(db.operations[o].kind) && Workload(o) in db.jobs
            && !RouteSucceeded(db, o)
            ==> var status := db.jobs[Workload(o)].row.status; status.Blocked? || status.Cancelled?
  {
    Reachable(true, events);
    RunKeeps(Initial(true), events);
  }

  /** However often an operation is delivered, it has at most one job per step. */
  lemma OneJobPerStep(managed: bool, events: seq<Event>, a: Key, b: Key)
    ensures var jobs := Run(Initial(managed), events).db.jobs;
            a in jobs && b in jobs && a.operation == b.operation && jobs[a].step == jobs[b].step ==> a == b
  {
    Reachable(managed, events);
    var db := Run(Initial(managed), events).db;
    if a in db.jobs && b in db.jobs {
      assert JobInv(db, a, db.jobs[a]) && JobInv(db, b, db.jobs[b]);
    }
  }

  /** The operation a handler works for. */
  function Owner(h: Handler): Option<OperationId> {
    match h
    case Delivering(o) => Some(o)
    case DeliveringRoute(o) => Some(o)
    case Withdrawing(o) => Some(o)
    case Announcing(o) => Some(o)
    case Observing(key, _) => Some(key.operation)
    case Projecting(key, _) => Some(key.operation)
    case Over => None
    case _ => Some(Inner(h).value.key.operation)
  }

  /** Once an operation is settled, no handler of it touches the environment or any
      operation again: replays of its jobs are idle. */
  lemma SettledReplaysAreIdle(db: Database, h: Handler, event: Event)
    requires LockInv(db) && Acts(event)
    requires Owner(h).Some? && !IsRunning(db, Owner(h).value)
    ensures Act(db, h, event).0.environment == db.environment
    ensures Act(db, h, event).0.operations == db.operations
  {
    if h.Projected? {
      if db.managed { ProjectionOfSettledIsIdle(db, h.snapshot, h.outer); } else { DirectOfSettledIsIdle(db, h.snapshot); }
    } else if h.Failing? {
      FailureOfSettledIsIdle(db, h.snapshot, h.reason, h.rollback);
    }
  }

  lemma DirectOfSettledIsIdle(db: Database, s: Snapshot)
    requires db.environment.active != Some(s.key.operation) && !IsRunning(db, s.key.operation)
    ensures ProjectDirect(db, s).environment == db.environment && ProjectDirect(db, s).operations == db.operations
  {}

  lemma FailureOfSettledIsIdle(db: Database, s: Snapshot, reason: Reason, rollback: Rollback)
    requires db.environment.active != Some(s.key.operation) && !IsRunning(db, s.key.operation)
    ensures FailManaged(db, s, reason, rollback).environment == db.environment
    ensures FailManaged(db, s, reason, rollback).operations == db.operations
  {}

  lemma ProjectionOfSettledIsIdle(db: Database, s: Snapshot, outer: Option<Snapshot>)
    requires db.environment.active != Some(s.key.operation) && !IsRunning(db, s.key.operation)
    ensures ProjectManaged(db, s, outer).0.environment == db.environment
    ensures ProjectManaged(db, s, outer).0.operations == db.operations
  {}

  /** When the route step of a teardown fails, its workload job, which waits behind
      it, is cancelled in the same transaction. */
  lemma FailedRouteCancelsWorkload(db: Database, s: Snapshot, reason: Reason, rollback: Rollback)
    requires TeardownInv(db, s.key.operation) && SnapshotInv(db, s) && db.managed
    requires s.key.RouteOf? && s.job.row.status.Failed? && Teardown(s.operation.kind)
    requires Workload(s.key.operation) in db.jobs
    ensures var key := Workload(s.key.operation);
            var next := FailManaged(db, s, reason, rollback);
            key in next.jobs && next.jobs[key].row.status.Cancelled?
  {
    assert db.jobs[s.key] == s.job;
  }

  /** A job that is over stays as it is in every run: a cancelled workload job is
      never claimed. */
  lemma TerminalJobsStay(t: System, key: Key, events: seq<Event>)
    requires BaseInv(t) && key in t.db.jobs && JobLeases.Terminal(t.db.jobs[key].row.status)
    ensures key in Run(t, events).db.jobs && Run(t, events).db.jobs[key] == t.db.jobs[key]
  {
    RunKeeps(t, events);
  }

  /** Whatever happens to the lease of a queued or leased job is a lease event of
      this workflow: the two models fit together. */
  lemma LeaseEventsAreLeaseMoves(t: JobLeases.Table, event: JobLeases.Event, i: nat)
    requires JobLeases.Inv(t) && i < |t.jobs|
    requires event.ClaimEvent? || event.RenewEvent? || event.ProgressEvent? || event.CompleteEvent?
    ensures var u := JobLeases.Step(t, event);
            i < |u.jobs| && (u.jobs[i] == t.jobs[i] || LeaseMove(t.jobs[i], u.jobs[i]))
  {}
}
