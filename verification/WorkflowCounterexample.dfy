/** A run from the start in which a harmful error handler leaves an environment
    marked running while its route serves another revision. */
module WorkflowCounterexample {
  import opened Common
  import opened Workflow
  import WorkflowSafety
  import WorkflowServing
  import JobLeases

  const OLD := "a"
  const NEW := "b"

  function Leased(row: JobRow): JobRow { row.(status := JobLeases.Leased) }

  function Ready(row: JobRow, version: string): JobRow {
    row.(status := JobLeases.Succeeded,
         result := Some(JobLeases.Result(JobLeases.Running, Some(version), None, Some("blue"))))
  }

  function DeployRow(): JobRow { NewRow(JobLeases.Deploy, JobLeases.Queued) }

  function RouteRow(): JobRow { NewRow(JobLeases.GatewayRoute, JobLeases.Queued) }

  function DeployJob(row: JobRow): Job { Job(row, 1, WorkloadPayload) }

  function RouteJob(row: JobRow, generation: nat, version: string): Job {
    Job(row, 2, RoutePayload(generation, Active, Some(version)))
  }

  lemma {:induction false} Then(t: System, events: seq<Event>, event: Event)
    ensures Run(t, events + [event]) == Step(Run(t, events), event)
    decreases |events|
  {
    if events == [] {
      assert [event][1..] == [];
      assert Run(t, [event]) == Run(Step(t, event), []);
    } else {
      assert (events + [event])[1..] == events[1..] + [event];
      Then(Step(t, events[0]), events[1..], event);
    }
  }

  /** `t` is what a run from the start comes to. */
  ghost predicate Reached(t: System) { exists events :: Run(Initial(true), events) == t }

  lemma LockInReach(t: System)
    requires Reached(t)
    ensures WorkflowSafety.LockInv(t.db)
  {
    var events :| Run(Initial(true), events) == t;
    WorkflowSafety.Reachable(true, events);
  }

  lemma Reach(t: System, event: Event) returns (u: System)
    requires Reached(t)
    ensures u == Step(t, event) && Reached(u)
  {
    var events :| Run(Initial(true), events) == t;
    Then(Initial(true), events, event);
    u := Step(t, event);
    assert Run(Initial(true), events + [event]) == u;
  }

  function Begun(db: Database, o: OperationId, version: string): Database {
    db.(operations := db.operations[o := Operation(DeployOperation, version, Running, Queued)],
        environment := db.environment.(active := Some(o), status := Deploying, deploymentRequired := true))
  }

  function WithJob(db: Database, key: Key, job: Job): Database { db.(jobs := db.jobs[key := job]) }

  lemma Begins(t: System, o: OperationId, version: string) returns (u: System)
    requires Reached(t) && t.db.managed && t.db.environment.active.None?
    requires o !in t.db.operations && Workload(o) !in t.db.jobs
    ensures Reached(u) && u.db == WithJob(Begun(t.db, o, version), Workload(o), DeployJob(DeployRow()))
    ensures |u.handlers| == |t.handlers| + 1
  {
    u := Reach(t, Begin(o, DeployOperation, version));
    u := Reach(u, Deliver(o));
    u := Reach(u, StepHandler(|t.handlers|));
  }

  /** The Agent claims a job and finishes it. */
  lemma Works(t: System, key: Key, job: Job, version: string) returns (u: System)
    requires Reached(t) && key in t.db.jobs && t.db.jobs[key] == job && job.row.status.Queued?
    ensures Reached(u) && u.db == WithJob(t.db, key, job.(row := Ready(job.row, version)))
    ensures u.handlers == t.handlers
  {
    u := Reach(t, LeaseEvent(key, Leased(job.row)));
    u := Reach(u, LeaseEvent(key, Ready(job.row, version)));
    assert t.db.jobs[key := job.(row := Leased(job.row))][key := job.(row := Ready(job.row, version))]
        == t.db.jobs[key := job.(row := Ready(job.row, version))];
  }

  /** A replay of a finished job reads its snapshot. */
  lemma Replays(t: System, key: Key) returns (u: System)
    requires Reached(t) && key in t.db.jobs && Finished(t.db.jobs[key].row) && IsRunning(t.db, key.operation)
    ensures Reached(u) && u.db == ObserveRoute(t.db, key)
    ensures u.handlers == t.handlers + [Projected(TakeSnapshot(u.db, key), None)]
  {
    u := Reach(t, Replay(key));
    u := Reach(u, StepHandler(|t.handlers|));
    u := Reach(u, StepHandler(|t.handlers|));
  }

  /** The environment as the projection of a ready workload finds it. */
  function ReadyDatabase(db: Database, o: OperationId, version: string): Database {
    WithJob(Begun(db, o, version), Workload(o), DeployJob(Ready(DeployRow(), version)))
  }

  /** A deploy up to its queued route: the last handler has queued it and has yet to
      publish the progress. */
  lemma QueuesItsRoute(t: System, o: OperationId, version: string) returns (u: System)
    requires Reached(t) && t.db.managed && t.db.environment.active.None?
    requires o !in t.db.operations && Workload(o) !in t.db.jobs && RouteOf(o) !in t.db.jobs
    ensures Reached(u) && u.db == QueueRoute(ReadyDatabase(t.db, o, version), o)
    ensures u.handlers != []
    ensures u.handlers[|u.handlers| - 1] == RouteQueued(TakeSnapshot(ReadyDatabase(t.db, o, version), Workload(o)))
  {
    u := Begins(t, o, version);
    u := Works(u, Workload(o), DeployJob(DeployRow()), version);
    assert u.db == ReadyDatabase(t.db, o, version);
    u := Replays(u, Workload(o));
    assert u.db == ReadyDatabase(t.db, o, version);
    u := QueuesRouteOf(u, TakeSnapshot(u.db, Workload(o)));
  }

  lemma QueuesRouteOf(t: System, s: Snapshot) returns (u: System)
    requires Reached(t) && t.handlers != [] && t.handlers[|t.handlers| - 1] == Projected(s, None)
    requires t.db.managed && QueuesRoute(s) && s.key.operation in t.db.operations
    ensures Reached(u) && u.db == QueueRoute(t.db, s.key.operation)
    ensures u.handlers != [] && u.handlers[|u.handlers| - 1] == RouteQueued(s)
  {
    QueueingStep(t.db, s);
    u := StepsLast(t, Projected(s, None), QueueRoute(t.db, s.key.operation), RouteQueued(s));
  }

  lemma QueueingStep(db: Database, s: Snapshot)
    requires db.managed && QueuesRoute(s) && s.key.operation in db.operations
    ensures HandlerStep(db, Projected(s, None)) == (QueueRoute(db, s.key.operation), RouteQueued(s))
  {}

  /** The last handler takes its next step. */
  lemma StepsLast(t: System, h: Handler, db: Database, g: Handler) returns (u: System)
    requires Reached(t) && t.handlers != [] && t.handlers[|t.handlers| - 1] == h
    requires HandlerStep(t.db, h) == (db, g)
    ensures Reached(u) && u.db == db && |u.handlers| == |t.handlers| && u.handlers[|t.handlers| - 1] == g
  {
    u := System(db, t.handlers[|t.handlers| - 1 := g]);
    StepOf(t, |t.handlers| - 1, h, db, g);
    var v := Reach(t, StepHandler(|t.handlers| - 1));
  }

  lemma StepOf(t: System, i: nat, h: Handler, db: Database, g: Handler)
    requires i < |t.handlers| && t.handlers[i] == h && HandlerStep(t.db, h) == (db, g)
    ensures Step(t, StepHandler(i)) == System(db, t.handlers[i := g])
  {}

  lemma QueuedRouteJob(db: Database, o: OperationId)
    requires o in db.operations && db.operations[o].kind.DeployOperation? && RouteOf(o) !in db.jobs
    ensures var next := QueueRoute(db, o);
            && RouteOf(o) in next.jobs
            && next.jobs[RouteOf(o)] == RouteJob(RouteRow(), db.route.generation + 1, db.operations[o].version)
            && next.route == db.route.(generation := db.route.generation + 1, reconcileJob := Some(RouteOf(o)))
            && next.jobs.Keys == db.jobs.Keys + {RouteOf(o)}
  {}

  lemma FirstDeploySucceeds() returns (t: System)
    ensures Reached(t) && t.db.managed && t.db.environment == Environment(Up, Some(OLD), None, false)
    ensures t.db.operations.Keys == {0} && t.db.jobs.Keys == {Workload(0), RouteOf(0)}
    ensures t.db.route == Route(1, Observation(Active, Some(OLD), 1), None)
  {
    t := Initial(true);
    assert Run(t, []) == t;
    var ready := ReadyDatabase(t.db, 0, OLD);
    t := QueuesItsRoute(t, 0, OLD);
    QueuedRouteJob(ready, 0);
    t := Works(t, RouteOf(0), RouteJob(RouteRow(), 1, OLD), OLD);
    t := Replays(t, RouteOf(0));
    t := Reach(t, StepHandler(|t.handlers| - 1));
  }

  lemma Throws(t: System, s: Snapshot) returns (u: System)
    requires Reached(t) && t.handlers != [] && t.handlers[|t.handlers| - 1] == RouteQueued(s)
    ensures Reached(u) && u.db == t.db && u.handlers != []
    ensures u.handlers[|u.handlers| - 1] == Caught(s, "timeout")
  {
    u := Reach(t, Throw(|t.handlers| - 1, "timeout"));
  }

  lemma RecordsFailure(t: System, s: Snapshot, message: string) returns (u: System)
    requires Reached(t) && t.handlers != [] && t.handlers[|t.handlers| - 1] == Caught(s, message)
    ensures Reached(u) && u.db == FailManaged(t.db, s, Raised(message), Unstated)
  {
    FailingStep(t.db, s, message);
    u := StepsLast(t, Caught(s, message), FailManaged(t.db, s, Raised(message), Unstated), Over);
  }

  lemma FailingStep(db: Database, s: Snapshot, message: string)
    ensures HandlerStep(db, Caught(s, message)) == (FailManaged(db, s, Raised(message), Unstated), Over)
  {}

  lemma ClaimsRoute(t: System, o: OperationId, generation: nat, version: string) returns (u: System)
    requires Reached(t) && RouteOf(o) in t.db.jobs && t.db.jobs[RouteOf(o)] == RouteJob(RouteRow(), generation, version)
    ensures Reached(u) && u.handlers == t.handlers
    ensures u.db == WithJob(t.db, RouteOf(o), RouteJob(Leased(RouteRow()), generation, version))
  {
    u := Reach(t, LeaseEvent(RouteOf(o), Leased(RouteRow())));
  }

  /** The projection of a second deploy cannot publish its progress and fails the
      operation, although the Agent is already publishing the route. */
  lemma SecondDeployIsCaught() returns (t: System)
    ensures Reached(t) && WorkflowServing.GenerationInv(t.db) && t.db.route.reconcileJob == Some(RouteOf(1))
    ensures t.db.environment.active.None? && t.db.environment.status.Up? && t.db.environment.version == Some(OLD)
    ensures t.db.jobs[RouteOf(1)] == RouteJob(Leased(RouteRow()), 2, NEW)
  {
    t := FirstDeploySucceeds();
    var ready := ReadyDatabase(t.db, 1, NEW);
    t := QueuesItsRoute(t, 1, NEW);
    QueuedRouteJob(ready, 1);
    t := ClaimsRoute(t, 1, 2, NEW);
    var s := TakeSnapshot(ready, Workload(1));
    LockInReach(t);
    WorkflowServing.CatchLeavesRouteJob(t.db, s, Raised("timeout"), Unstated);
    t := Throws(t, s);
    t := RecordsFailure(t, s, "timeout");
  }

  /** Then the Agent finishes the route job: the environment is unlocked and marked
      running at the old revision, and its route serves the new one. */
  lemma RunningWithoutServing()
    ensures exists events :: !WorkflowServing.Serving(Run(Initial(true), events).db)
  {
    var t := SecondDeployIsCaught();
    var row := t.db.jobs[RouteOf(1)].row;
    WorkflowServing.RouteRunsBreaks(t, 1);
    var a, b, c := LeaseEvent(RouteOf(1), row.(status := JobLeases.Succeeded)), Replay(RouteOf(1)),
                   StepHandler(|t.handlers|);
    WorkflowServing.RunThree(t, a, b, c);
    var u := Reach(t, a);
    u := Reach(u, b);
    u := Reach(u, c);
    assert Reached(u) && !WorkflowServing.Serving(u.db);
  }
}
