/** The API's handlers as code: each database transaction may succeed, fail, fail
    after it took effect, or be the last thing its process does. Whatever happens,
    what a handler does to the rows is a run of its state machine. */
module AgentJobs {
  import opened Common
  import opened Workflow
  import opened WorkflowSafety
  import JobLeases

  const ERROR := "database unavailable"

  /** What a call that ends like this does to the handler that made it. */
  function EventOf(fate: Fate): (event: Event)
    ensures Acts(event)
  {
    match fate
    case Done => StepHandler(0)
    case Refused => Throw(0, ERROR)
    case Late => Lose(0, ERROR)
    case Killed => Die(0)
  }

  /** What a handler does next: one call, or, without a call, the decision of a
      projection that its operation has failed. */
  datatype Move = Call(fate: Fate) | Decide

  /** A decision is a step that changes no row and goes on to record the failure. */
  function Decided(db: Database, h: Handler): Handler {
    var (next, g) := HandlerStep(db, h);
    if next == db && g.Failing? then g else h
  }

  function Made(db: Database, h: Handler, move: Move): (Database, Handler) {
    if move.Call? then Act(db, h, EventOf(move.fate)) else (db, Decided(db, h))
  }

  function Drive(db: Database, h: Handler, moves: seq<Move>): (Database, Handler)
    decreases |moves|
  {
    if moves == [] then (db, h)
    else
      var (next, g) := Made(db, h, moves[0]);
      Drive(next, g, moves[1..])
  }

  lemma {:induction false} DriveOn(db: Database, h: Handler, first: seq<Move>, second: seq<Move>)
    ensures var (next, g) := Drive(db, h, first); Drive(db, h, first + second) == Drive(next, g, second)
    decreases |first|
  {
    if first == [] {
      assert first + second == second;
    } else {
      var (next, g) := Made(db, h, first[0]);
      assert (first + second)[1..] == first[1..] + second;
      DriveOn(next, g, first[1..], second);
    }
  }

  lemma DriveOne(db: Database, h: Handler, fate: Fate)
    ensures Drive(db, h, [Call(fate)]) == Act(db, h, EventOf(fate))
  {
    assert [Call(fate)][1..] == [];
  }

  lemma DriveCons(db: Database, h: Handler, fate: Fate, rest: seq<Move>)
    ensures var (next, g) := Act(db, h, EventOf(fate)); Drive(db, h, [Call(fate)] + rest) == Drive(next, g, rest)
  {
    assert ([Call(fate)] + rest)[1..] == rest;
  }

  lemma DriveDecided(db: Database, h: Handler, g: Handler, rest: seq<Move>)
    requires HandlerStep(db, h) == (db, g) && g.Failing?
    ensures Drive(db, h, [Decide] + rest) == Drive(db, g, rest)
  {
    assert ([Decide] + rest)[1..] == rest;
  }

  lemma MadeKeeps(db: Database, h: Handler, move: Move)
    requires DatabaseInv(db) && HandlerInv(db, h)
    ensures var (next, g) := Made(db, h, move); DatabaseInv(next) && Forward(db, next) && HandlerInv(next, g)
  {
    ActKeeps(db, h, if move.Call? then EventOf(move.fate) else StepHandler(0));
  }

  /** A driven handler keeps what every run keeps. */
  lemma {:induction false} DriveKeeps(db: Database, h: Handler, moves: seq<Move>)
    requires DatabaseInv(db) && HandlerInv(db, h)
    ensures var (next, g) := Drive(db, h, moves); DatabaseInv(next) && Forward(db, next) && HandlerInv(next, g)
    decreases |moves|
  {
    if moves != [] {
      MadeKeeps(db, h, moves[0]);
      var (next, g) := Made(db, h, moves[0]);
      DriveKeeps(next, g, moves[1..]);
      ForwardOn(db, next, Drive(next, g, moves[1..]).0);
    }
  }

  /** The calls among the moves are those of the tape from `from` up to `to`. */
  predicate Spends(moves: seq<Move>, tape: seq<Fate>, from: nat, to: nat)
    decreases |moves|
  {
    if moves == [] then from == to
    else if moves[0].Decide? then Spends(moves[1..], tape, from, to)
    else moves[0].fate == At(tape, from) && Spends(moves[1..], tape, from + 1, to)
  }

  /** A method that made these moves died exactly if a call killed the process, and
      returned if no call failed. */
  predicate Ends(moves: seq<Move>, exit: Exit) {
    && (exit.Died? <==> Call(Killed) in moves)
    && (exit.Threw? ==> Call(Refused) in moves || Call(Late) in moves)
  }

  /** Both: `moves` are the calls a method made until it ended like this. */
  predicate Makes(moves: seq<Move>, tape: seq<Fate>, from: nat, to: nat, exit: Exit) {
    Spends(moves, tape, from, to) && Ends(moves, exit)
  }

  lemma MakesOne(tape: seq<Fate>, at: nat)
    ensures Makes([Call(At(tape, at))], tape, at, at + 1, ExitOf(At(tape, at)))
  {
    assert [Call(At(tape, at))][1..] == [];
  }

  /** A call that did not kill the process, and what came after it. */
  lemma MakesCons(tape: seq<Fate>, at: nat, rest: seq<Move>, to: nat, exit: Exit)
    requires if At(tape, at).Killed? then rest == [] && to == at + 1 && exit.Died?
             else Spends(rest, tape, at + 1, to) && (exit.Died? <==> Call(Killed) in rest)
                  && (At(tape, at).Done? ==> Ends(rest, exit))
    ensures Makes([Call(At(tape, at))] + rest, tape, at, to, exit)
  {
    assert ([Call(At(tape, at))] + rest)[1..] == rest;
  }

  lemma MakesDecided(tape: seq<Fate>, from: nat, rest: seq<Move>, to: nat, exit: Exit)
    requires Makes(rest, tape, from, to, exit)
    ensures Makes([Decide] + rest, tape, from, to, exit)
  {
    assert ([Decide] + rest)[1..] == rest;
  }

  /** The moves until an error was caught, and those of the error handler. */
  lemma {:induction false} SpendsOn(first: seq<Move>, second: seq<Move>, tape: seq<Fate>, from: nat, between: nat, to: nat)
    requires Spends(first, tape, from, between) && Spends(second, tape, between, to)
    ensures Spends(first + second, tape, from, to)
    decreases |first|
  {
    if first == [] {
      assert first + second == second;
    } else {
      assert (first + second)[1..] == first[1..] + second;
      SpendsOn(first[1..], second, tape, if first[0].Decide? then from else from + 1, between, to);
    }
  }

  /** Where a handler is left when a method ends: an error reaches the error
      handler of the projection around it, if there is one. */
  function Landed(exit: Exit, outer: Option<Snapshot>): Handler {
    if exit.Threw? && outer.Some? then Caught(outer.value, ERROR) else Over
  }

  /** How many jobs of its operation a projection of this job can still go on to. */
  function StepsAfter(key: Key, kind: OperationKind): nat {
    if key.RouteOf? <==> Teardown(kind) then 1 else 0
  }

  lemma QueueingHolds(db: Database, s: Snapshot)
    requires db.managed && DatabaseInv(db) && SnapshotInv(db, s) && QueuesRoute(s)
    ensures var next := QueueRoute(db, s.key.operation);
            && DatabaseInv(next) && SnapshotInv(next, s)
            && s.key.Workload? && RouteOf(s.key.operation) in next.jobs
  {
    assert JobInv(db, s.key, s.job);
    QueueRouteKeeps(db, s.key.operation);
    ForwardKeepsSnapshots(db, QueueRoute(db, s.key.operation), Projected(s, None));
  }

  lemma PublishingHolds(db: Database, s: Snapshot)
    requires DatabaseInv(db) && SnapshotInv(db, s)
    ensures var next := PublishProgress(db, s.key.operation); DatabaseInv(next) && SnapshotInv(next, s)
  {
    PublishProgressKeeps(db, s.key.operation);
    ForwardKeepsSnapshots(db, PublishProgress(db, s.key.operation), RouteQueued(s));
  }

  lemma PublishingActs(db: Database, s: Snapshot, fate: Fate)
    ensures var (next, g) := Act(db, RouteQueued(s), EventOf(fate));
            var key := RouteOf(s.key.operation);
            && next == (if Commits(fate) then PublishProgress(db, s.key.operation) else db)
            && g == (match fate
                     case Done =>
                       if key in db.jobs && db.jobs[key].row.status.Succeeded? then Observing(key, Some(s)) else Over
                     case Killed => Over
                     case _ => Caught(s, ERROR))
  {}

  lemma QueueingActs(db: Database, s: Snapshot, fate: Fate)
    requires db.managed && QueuesRoute(s) && s.key.operation in db.operations
    ensures var (next, g) := Act(db, Projected(s, None), EventOf(fate));
            && next == (if Commits(fate) then QueueRoute(db, s.key.operation) else db)
            && g == (match fate case Done => RouteQueued(s) case Killed => Over case _ => Caught(s, ERROR))
  {}

  predicate Commits(fate: Fate) { fate.Done? || fate.Late? }

  function ExitOf(fate: Fate): Exit {
    match fate
    case Done => Returned
    case Killed => Died
    case _ => Threw
  }

  /** The phase that a reported stage stands for. */
  function StagePhase(stage: string): (phase: Phase)
    ensures phase in {Assigned, Working, Verifying}
  {
    if stage == "verifying" then Verifying else if stage == "working" then Working else Assigned
  }

  lemma SnapshotHolds(db: Database, key: Key, outer: Option<Snapshot>)
    requires key in db.jobs && key.operation in db.operations && Finished(db.jobs[key].row)
    requires HandlerInv(db, Projecting(key, outer))
    ensures HandlerInv(db, Projected(TakeSnapshot(db, key), outer))
  {}

  class AgentJobsService {
    var managed: bool
    var environment: Environment
    var route: Route
    var operations: map<OperationId, Operation>
    var jobs: map<Key, Job>
    const tape: seq<Fate>
    var next: nat              // the next call to be made

    constructor (rows: Database, tape: seq<Fate>)
      ensures Rows() == rows && this.tape == tape && next == 0
    {
      this.managed, this.environment, this.route := rows.managed, rows.environment, rows.route;
      this.operations, this.jobs, this.tape, this.next := rows.operations, rows.jobs, tape, 0;
    }

    function Rows(): Database
      reads this
    {
      Database(managed, environment, route, operations, jobs)
    }

    method NextFate() returns (fate: Fate)
      modifies `next
      ensures fate == At(tape, old(next)) && next == old(next) + 1
    {
      fate := At(tape, next);
      next := next + 1;
    }

    // ----- transactions -----

    /** Moves a running operation on to `phase`, never back: a report that was
        delayed or repeated leaves it where it is. */
    method AdvanceDeploymentPhase(o: OperationId, phase: Phase) returns (fate: Fate)
      requires phase in {Assigned, Working, Verifying}
      requires IsRunning(Rows(), o) ==> Rank(operations[o].phase) <= 3
      modifies `operations, `next
      ensures fate == At(tape, old(next)) && next == old(next) + 1
      ensures Rows() == if Commits(fate) then AdvancePhase(old(Rows()), o, phase) else old(Rows())
      ensures old(IsRunning(Rows(), o)) ==>
                Rank(operations[o].phase)
                   == if Commits(fate) then Max(Rank(old(operations)[o].phase), Rank(phase))
                      else Rank(old(operations)[o].phase)
    {
      fate := NextFate();
      if Commits(fate) && o in operations && operations[o].status.Running?
         && operations[o].phase in ActivePredecessors(phase) {
        operations := operations[o := operations[o].(phase := phase)];
      }
    }

    /** A progress report that was accepted: an advance of the workflow, after which
        the operation's phase is the later one of what it was and what the stage says. */
    method MirrorDeploymentProgress(key: Key, stage: string) returns (exit: Exit)
      requires DatabaseInv(Rows()) && key in jobs
      modifies `operations, `next
      ensures var first := At(tape, old(next));
              exit == if first.Done? then ExitOf(At(tape, old(next) + 1)) else ExitOf(first)
      ensures Rows() == old(Rows()) || Rows() == AdvancePhase(old(Rows()), key.operation, StagePhase(stage))
      ensures exit.Returned? && old(IsRunning(Rows(), key.operation)) ==>
                && IsRunning(Rows(), key.operation)
                && Rank(operations[key.operation].phase)
                   == Max(Rank(old(operations)[key.operation].phase), Rank(StagePhase(stage)))
    {
      var fate := NextFate();
      if !fate.Done? { return ExitOf(fate); }
      fate := AdvanceDeploymentPhase(key.operation, StagePhase(stage));
      return ExitOf(fate);
    }

    method ReconcileGatewayRoute(key: Key) returns (fate: Fate)
      modifies this
      ensures fate == At(tape, old(next)) && next == old(next) + 1
      ensures Rows() == if Commits(fate) then ObserveRoute(old(Rows()), key) else old(Rows())
    {
      fate := NextFate();
      if Commits(fate) && key in jobs && key.RouteOf? && jobs[key].payload.RoutePayload? {
        var job := jobs[key];
        if route.generation == job.payload.generation && route.reconcileJob == Some(key) {
          if job.row.status.Succeeded? {
            route := route.(observed := ObservationOf(job.payload), reconcileJob := None);
          } else if job.row.status.Failed? {
            route := route.(reconcileJob := None);
          }
        }
      }
    }

    method PublishManagedProgress(o: OperationId) returns (fate: Fate)
      modifies this
      ensures fate == At(tape, old(next)) && next == old(next) + 1
      ensures Rows() == if Commits(fate) then PublishProgress(old(Rows()), o) else old(Rows())
    {
      fate := NextFate();
      if Commits(fate) && o in operations && operations[o].status.Running? {
        operations := operations[o := operations[o].(phase := Verifying)];
      }
    }

    method QueueReconcile(o: OperationId) returns (fate: Fate)
      requires o in operations
      modifies this
      ensures fate == At(tape, old(next)) && next == old(next) + 1
      ensures Rows() == if Commits(fate) then QueueRoute(old(Rows()), o) else old(Rows())
    {
      fate := NextFate();
      if Commits(fate) && RouteOf(o) !in jobs {
        var operation := operations[o];
        route := route.(generation := route.generation + 1);
        jobs := map k | k in jobs ::
          if k.RouteOf? && jobs[k].row.status.Queued? then CancelledJob(jobs[k]) else jobs[k];
        var desired := if operation.kind.StopOperation? then Stopped
                       else if operation.kind.RemoveOperation? then Absent else Active;
        jobs := jobs[RouteOf(o) := Job(NewRow(JobLeases.GatewayRoute, JobLeases.Queued),
                                       if Teardown(operation.kind) then 1 else 2,
                                       RoutePayload(route.generation, desired,
                                                    if desired.Absent? then None else Some(operation.version)))];
        route := route.(reconcileJob := Some(RouteOf(o)));
      }
    }

    method CancelWaitingJobs(o: OperationId)
      modifies `jobs
      ensures Rows() == CancelWaiting(old(Rows()), o)
    {
      jobs := map k | k in jobs ::
        if k.operation == o && (jobs[k].row.status.Blocked? || jobs[k].row.status.Queued?)
        then CancelledJob(jobs[k]) else jobs[k];
    }

    method ReleaseFailedEnvironment(s: Snapshot, rollback: Rollback)
      modifies `environment
      ensures environment == if old(environment).active == Some(s.key.operation)
                             then FailedEnvironment(old(environment), s, rollback).(active := None)
                             else old(environment)
    {
      if environment.active == Some(s.key.operation) {
        if PreviousStillServing(s, rollback) {
          environment := environment.(status := Up, active := None,
            deploymentRequired := !s.operation.kind.StartOperation? && !Teardown(s.operation.kind));
        } else if PreviousStillStopped(s, rollback) {
          environment := environment.(status := Down, deploymentRequired := false, active := None);
        } else {
          environment := environment.(status := Faulty, deploymentRequired := true, active := None);
        }
      }
    }

    method EndOperation(o: OperationId, status: OperationStatus, phase: Phase)
      modifies `operations
      ensures operations == if IsRunning(old(Rows()), o)
                            then old(operations)[o := old(operations)[o].(status := status, phase := phase)]
                            else old(operations)
    {
      if o in operations && operations[o].status.Running? {
        operations := operations[o := operations[o].(status := status, phase := phase)];
      }
    }

    method FailManagedOperation(s: Snapshot, reason: Reason, rollback: Rollback) returns (fate: Fate)
      modifies this
      ensures fate == At(tape, old(next)) && next == old(next) + 1
      ensures Rows() == if Commits(fate) then FailManaged(old(Rows()), s, reason, rollback) else old(Rows())
    {
      fate := NextFate();
      if Commits(fate) {
        CancelWaitingJobs(s.key.operation);
        ReleaseFailedEnvironment(s, rollback);
        EndOperation(s.key.operation, Failed, FailedPhase(PreservedMessage(s, Text(reason), rollback)));
      }
    }

    method FinishOperation(s: Snapshot) returns (fate: Fate)
      modifies this
      ensures fate == At(tape, old(next)) && next == old(next) + 1
      ensures Rows() == if Commits(fate) then Finish(old(Rows()), s) else old(Rows())
    {
      var o := s.key.operation;
      fate := NextFate();
      if Commits(fate) {
        if environment.active == Some(o) {
          environment := SucceededEnvironment(environment, s.operation).(active := None);
        }
        EndOperation(o, OperationStatus.Succeeded, Completed);
      }
    }

    /** Queues the blocked workload job of a teardown; `count` says whether there was one. */
    method UnblockWorkload(o: OperationId) returns (fate: Fate, count: nat)
      modifies this
      ensures fate == At(tape, old(next)) && next == old(next) + 1
      ensures var was := old(Rows());
              var waiting := Workload(o) in was.jobs && was.jobs[Workload(o)].step == 2
                             && was.jobs[Workload(o)].row.status.Blocked?;
              && Rows() == (if Commits(fate) && waiting then Unblock(was, o) else was)
              && count == if waiting then 1 else 0
    {
      var key := Workload(o);
      count := if key in jobs && jobs[key].step == 2 && jobs[key].row.status.Blocked? then 1 else 0;
      fate := NextFate();
      if Commits(fate) && count == 1 {
        jobs := jobs[key := jobs[key].(row := jobs[key].row.(status := JobLeases.Queued, stage := "queued"))];
      }
    }

    // ----- handlers -----

    method Fail(s: Snapshot, reason: Reason, rollback: Rollback, outer: Option<Snapshot>, caught: bool)
      returns (exit: Exit, ghost moves: seq<Move>)
      modifies this
      ensures Drive(old(Rows()), Failing(s, reason, rollback, outer, caught), moves) == (Rows(), Landed(exit, outer))
      ensures Makes(moves, tape, old(next), next, exit)
    {
      var fate := FailManagedOperation(s, reason, rollback);
      DriveOne(old(Rows()), Failing(s, reason, rollback, outer, caught), fate);
      MakesOne(tape, old(next));
      return ExitOf(fate), [Call(fate)];
    }

    /** A projection decides that its operation has failed. */
    method Reject(s: Snapshot, reason: Reason, rollback: Rollback, outer: Option<Snapshot>)
      returns (exit: Exit, ghost moves: seq<Move>)
      requires ProjectManaged(Rows(), s, outer) == (Rows(), Failing(s, reason, rollback, outer, false)) && managed
      modifies this
      ensures Drive(old(Rows()), Projected(s, outer), moves) == (Rows(), Landed(exit, outer))
      ensures Makes(moves, tape, old(next), next, exit)
    {
      ghost var rest;
      exit, rest := Fail(s, reason, rollback, outer, false);
      moves := [Decide] + rest;
      DriveDecided(old(Rows()), Projected(s, outer), Failing(s, reason, rollback, outer, false), rest);
      MakesDecided(tape, old(next), rest, next, exit);
    }

    method Accept(s: Snapshot, outer: Option<Snapshot>) returns (exit: Exit, ghost moves: seq<Move>)
      requires ProjectManaged(Rows(), s, outer) == (Finish(Rows(), s), Over) && managed
      requires !QueuesRoute(s)
      modifies this
      ensures Drive(old(Rows()), Projected(s, outer), moves) == (Rows(), Landed(exit, outer))
      ensures Makes(moves, tape, old(next), next, exit)
    {
      var fate := FinishOperation(s);
      DriveOne(old(Rows()), Projected(s, outer), fate);
      MakesOne(tape, old(next));
      return ExitOf(fate), [Call(fate)];
    }

    method ProjectDirectJob(s: Snapshot) returns (fate: Fate)
      modifies this
      ensures fate == At(tape, old(next)) && next == old(next) + 1
      ensures Rows() == if Commits(fate) then ProjectDirect(old(Rows()), s) else old(Rows())
    {
      var o := s.key.operation;
      var succeeded := s.job.row.status.Succeeded? && s.job.row.kind == WorkloadKind(s.operation.kind)
                       && ValidWorkload(false, s.job, s.operation);
      if succeeded {
        fate := FinishOperation(s);
      } else {
        fate := NextFate();
        if Commits(fate) {
          if environment.active == Some(o) {
            environment := environment.(status := Faulty, deploymentRequired := true, active := None);
          }
          var reason := if s.job.row.status.Failed? then s.job.row.message
                        else "Agent returned an invalid deployment result";
          EndOperation(o, Failed, FailedPhase(reason));
        }
      }
    }

    /** The route of a teardown is gone: queues the workload job, or finds out what
        became of it. */
    method ProjectRouteRemoved(s: Snapshot) returns (exit: Exit, ghost moves: seq<Move>)
      requires managed && DatabaseInv(Rows()) && SnapshotInv(Rows(), s)
      requires s.key.RouteOf? && Teardown(s.operation.kind) && s.job.row.status.Succeeded?
      modifies this
      ensures Drive(old(Rows()), Projected(s, None), moves) == (Rows(), Over)
      ensures Makes(moves, tape, old(next), next, exit)
      decreases StepsAfter(s.key, s.operation.kind), 1
    {
      var o := s.key.operation;
      assert JobInv(Rows(), s.key, s.job);
      var fate, count := UnblockWorkload(o);
      if !fate.Done? {
        DriveOne(old(Rows()), Projected(s, None), fate);
        MakesOne(tape, old(next));
        return ExitOf(fate), [Call(fate)];
      }
      ghost var rest;
      if count == 1 {
        exit, rest := PublishUnblocked(s);
      } else {
        exit, rest := InspectWorkload(s);
      }
      moves := [Call(fate)] + rest;
      DriveCons(old(Rows()), Projected(s, None), fate, rest);
      MakesCons(tape, old(next), rest, next, exit);
    }

    method PublishUnblocked(s: Snapshot) returns (exit: Exit, ghost moves: seq<Move>)
      modifies this
      ensures Drive(old(Rows()), Unblocked(s), moves) == (Rows(), Over)
      ensures Makes(moves, tape, old(next), next, exit)
    {
      var fate := PublishManagedProgress(s.key.operation);
      DriveOne(old(Rows()), Unblocked(s), fate);
      MakesOne(tape, old(next));
      return ExitOf(fate), [Call(fate)];
    }

    method InspectWorkload(s: Snapshot) returns (exit: Exit, ghost moves: seq<Move>)
      requires managed && DatabaseInv(Rows()) && SnapshotInv(Rows(), s)
      requires s.key.RouteOf? && Teardown(s.operation.kind)
      modifies this
      ensures Drive(old(Rows()), Inspecting(s), moves) == (Rows(), Over)
      ensures Makes(moves, tape, old(next), next, exit)
      decreases StepsAfter(s.key, s.operation.kind), 0
    {
      var key := Workload(s.key.operation);
      var fate := NextFate();
      if !fate.Done? {
        DriveOne(old(Rows()), Inspecting(s), fate);
        MakesOne(tape, old(next));
        return ExitOf(fate), [Call(fate)];
      }
      ghost var rest;
      if key !in jobs || jobs[key].step != 2
         || !(jobs[key].row.status.Queued? || jobs[key].row.status.Leased? || jobs[key].row.status.Succeeded?) {
        exit, rest := Fail(s, StepMissing, Unstated, None, false);
      } else if jobs[key].row.status.Succeeded? {
        exit, rest := ReconcileTerminalJob(key, None);
      } else {
        exit, rest := Returned, [];
      }
      moves := [Call(fate)] + rest;
      DriveCons(old(Rows()), Inspecting(s), fate, rest);
      MakesCons(tape, old(next), rest, next, exit);
    }

    /** The workload of a deploy or start is ready: queues its route. What throws in
        here fails the operation. */
    method ProjectWorkloadReady(s: Snapshot) returns (exit: Exit, ghost moves: seq<Move>)
      requires managed && DatabaseInv(Rows()) && SnapshotInv(Rows(), s) && QueuesRoute(s)
      modifies this
      ensures Drive(old(Rows()), Projected(s, None), moves) == (Rows(), Over)
      ensures Makes(moves, tape, old(next), next, exit)
      decreases StepsAfter(s.key, s.operation.kind), 1
    {
      var fate := QueueReconcile(s.key.operation);
      QueueingActs(old(Rows()), s, fate);
      ghost var rest;
      if fate.Killed? {
        exit, rest := Died, [];
      } else if fate.Done? {
        QueueingHolds(old(Rows()), s);
        exit, rest := PublishQueuedRoute(s);
      } else {
        exit, rest := Fail(s, Raised(ERROR), Unstated, None, true);
      }
      moves := [Call(fate)] + rest;
      DriveCons(old(Rows()), Projected(s, None), fate, rest);
      MakesCons(tape, old(next), rest, next, exit);
    }

    method PublishQueuedRoute(s: Snapshot) returns (exit: Exit, ghost moves: seq<Move>)
      requires managed && DatabaseInv(Rows()) && SnapshotInv(Rows(), s) && QueuesRoute(s) && s.key.Workload?
      requires RouteOf(s.key.operation) in jobs
      modifies this
      ensures Drive(old(Rows()), RouteQueued(s), moves) == (Rows(), Over)
      ensures Makes(moves, tape, old(next), next, exit)
      decreases StepsAfter(s.key, s.operation.kind), 0
    {
      var key := RouteOf(s.key.operation);
      var fate := PublishManagedProgress(s.key.operation);
      PublishingActs(old(Rows()), s, fate);
      ghost var rest := [];
      if fate.Killed? {
        exit := Died;
      } else if !fate.Done? {
        exit, rest := Fail(s, Raised(ERROR), Unstated, None, true);
      } else if jobs[key].row.status.Succeeded? {
        PublishingHolds(old(Rows()), s);
        exit, rest := ReconcileOwnRoute(s, key);
      } else {
        exit := Returned;
      }
      moves := [Call(fate)] + rest;
      DriveCons(old(Rows()), RouteQueued(s), fate, rest);
      MakesCons(tape, old(next), rest, next, exit);
    }

    method ReconcileOwnRoute(s: Snapshot, key: Key) returns (exit: Exit, ghost moves: seq<Move>)
      requires managed && DatabaseInv(Rows()) && SnapshotInv(Rows(), s)
      requires key == RouteOf(s.key.operation) && key in jobs && QueuesRoute(s) && s.key.Workload?
      modifies this
      ensures Drive(old(Rows()), Observing(key, Some(s)), moves) == (Rows(), Over)
      ensures Makes(moves, tape, old(next), next, exit)
      decreases StepsAfter(key, s.operation.kind), 6
    {
      exit, moves := Reconcile(key, Some(s));
      if exit.Threw? {
        ghost var between := next;
        ghost var rest;
        exit, rest := Fail(s, Raised(ERROR), Unstated, None, true);
        DriveOn(old(Rows()), Observing(key, Some(s)), moves, rest);
        SpendsOn(moves, rest, tape, old(next), between, next);
        moves := moves + rest;
      }
    }

    /** After a job was completed, and for every replay of it. */
    method Reconcile(key: Key, outer: Option<Snapshot>) returns (exit: Exit, ghost moves: seq<Move>)
      requires DatabaseInv(Rows()) && key in jobs && HandlerInv(Rows(), Observing(key, outer))
      requires outer.Some? ==> managed && key.RouteOf? && !Teardown(operations[key.operation].kind)
      modifies this
      ensures Drive(old(Rows()), Observing(key, outer), moves) == (Rows(), Landed(exit, outer))
      ensures Makes(moves, tape, old(next), next, exit)
      decreases StepsAfter(key, operations[key.operation].kind), 5
    {
      var fate := ReconcileGatewayRoute(key);
      if !fate.Done? {
        DriveOne(old(Rows()), Observing(key, outer), fate);
        MakesOne(tape, old(next));
        return ExitOf(fate), [Call(fate)];
      }
      ObserveRouteKeeps(old(Rows()), key);
      ForwardKeepsSnapshots(old(Rows()), Rows(), Observing(key, outer));
      ghost var rest;
      exit, rest := ReconcileTerminalJob(key, outer);
      moves := [Call(fate)] + rest;
      DriveCons(old(Rows()), Observing(key, outer), fate, rest);
      MakesCons(tape, old(next), rest, next, exit);
    }

    method ReconcileTerminalJob(key: Key, outer: Option<Snapshot>) returns (exit: Exit, ghost moves: seq<Move>)
      requires DatabaseInv(Rows()) && key in jobs && HandlerInv(Rows(), Projecting(key, outer))
      requires outer.Some? ==> managed && key.RouteOf? && !Teardown(operations[key.operation].kind)
      modifies this
      ensures Drive(old(Rows()), Projecting(key, outer), moves) == (Rows(), Landed(exit, outer))
      ensures Makes(moves, tape, old(next), next, exit)
      decreases StepsAfter(key, operations[key.operation].kind), 4
    {
      var fate := NextFate();
      if !fate.Done? {
        DriveOne(old(Rows()), Projecting(key, outer), fate);
        MakesOne(tape, old(next));
        return ExitOf(fate), [Call(fate)];
      }
      ghost var rest := [];
      assert JobInv(Rows(), key, jobs[key]);
      if Finished(jobs[key].row) && operations[key.operation].status.Running? {
        SnapshotHolds(Rows(), key, outer);
        exit, rest := ProjectJob(TakeSnapshot(Rows(), key), outer);
      } else {
        exit := Returned;
      }
      moves := [Call(fate)] + rest;
      DriveCons(old(Rows()), Projecting(key, outer), fate, rest);
      MakesCons(tape, old(next), rest, next, exit);
    }

    /** The projection of what was read, with or without managed gateway. */
    method ProjectJob(s: Snapshot, outer: Option<Snapshot>) returns (exit: Exit, ghost moves: seq<Move>)
      requires DatabaseInv(Rows()) && HandlerInv(Rows(), Projected(s, outer))
      requires outer.Some? ==> managed && s.key.RouteOf? && !Teardown(s.operation.kind)
      modifies this
      ensures Drive(old(Rows()), Projected(s, outer), moves) == (Rows(), Landed(exit, outer))
      ensures Makes(moves, tape, old(next), next, exit)
      decreases StepsAfter(s.key, s.operation.kind), 3
    {
      if managed {
        exit, moves := ProjectManagedJob(s, outer);
      } else {
        var fate := ProjectDirectJob(s);
        DriveOne(old(Rows()), Projected(s, outer), fate);
        MakesOne(tape, old(next));
        exit, moves := ExitOf(fate), [Call(fate)];
      }
    }

    method ProjectManagedJob(s: Snapshot, outer: Option<Snapshot>) returns (exit: Exit, ghost moves: seq<Move>)
      requires managed && DatabaseInv(Rows()) && HandlerInv(Rows(), Projected(s, outer))
      requires outer.Some? ==> s.key.RouteOf? && !Teardown(s.operation.kind)
      modifies this
      ensures Drive(old(Rows()), Projected(s, outer), moves) == (Rows(), Landed(exit, outer))
      ensures Makes(moves, tape, old(next), next, exit)
      decreases StepsAfter(s.key, s.operation.kind), 2
    {
      assert JobInv(Rows(), s.key, s.job);
      if s.job.row.status.Failed? {
        exit, moves := Reject(s, Reported(s.job.row.message), RouteRollback(s.job), outer);
      } else if s.job.step == 1 && Teardown(s.operation.kind) {
        exit, moves := ProjectRouteRemoved(s);
      } else if s.job.step == 1 && QueuesRoute(s) {
        exit, moves := ProjectWorkloadReady(s);
      } else if s.job.step == 1 {
        exit, moves := Reject(s, InvalidWorkload, Unstated, outer);
      } else if Teardown(s.operation.kind) {
        if s.job.row.kind == WorkloadKind(s.operation.kind) && ValidWorkload(true, s.job, s.operation) {
          exit, moves := Accept(s, outer);
        } else {
          exit, moves := Reject(s, InvalidTeardown, Unstated, outer);
        }
      } else if Workflow.Published(s) {
        exit, moves := Accept(s, outer);
      } else {
        exit, moves := Reject(s, NotPublished, Unknown, outer);
      }
    }

    /** A completion or a replay of a finished job: whatever fails, the rows end in a
        state that every run may reach from where they were. */
    method ReplayJob(key: Key) returns (exit: Exit, ghost moves: seq<Move>)
      requires DatabaseInv(Rows()) && key in jobs
      modifies this
      ensures Drive(old(Rows()), Observing(key, None), moves) == (Rows(), Over)
      ensures Makes(moves, tape, old(next), next, exit)
      ensures DatabaseInv(Rows()) && Forward(old(Rows()), Rows())
    {
      exit, moves := Reconcile(key, None);
      DriveKeeps(old(Rows()), Observing(key, None), moves);
    }

    // ----- delivery -----

    /** Creates the workload job of an operation unless it exists. */
    method UpsertWorkload(o: OperationId) returns (fate: Fate)
      requires o in operations
      modifies this
      ensures fate == At(tape, old(next)) && next == old(next) + 1
      ensures Rows() == if Commits(fate) then QueueWorkload(old(Rows()), o) else old(Rows())
    {
      fate := NextFate();
      if Commits(fate) && Workload(o) !in jobs {
        var kind := operations[o].kind;
        var step, status := 1, JobLeases.Queued;
        if managed && Teardown(kind) { step, status := 2, JobLeases.Blocked; }
        jobs := jobs[Workload(o) := Job(NewRow(WorkloadKind(kind), status), step, WorkloadPayload)];
      }
    }

    method WithdrawWorkload(o: OperationId) returns (fate: Fate)
      modifies this
      ensures fate == At(tape, old(next)) && next == old(next) + 1
      ensures Rows() == if Commits(fate) then Withdraw(old(Rows()), o) else old(Rows())
    {
      fate := NextFate();
      if Commits(fate) && Workload(o) in jobs && jobs[Workload(o)].row.status.Blocked? {
        jobs := jobs[Workload(o) := CancelledJob(jobs[Workload(o)])];
      }
    }

    method PublishQueued(o: OperationId) returns (exit: Exit, ghost moves: seq<Move>)
      modifies this
      ensures Drive(old(Rows()), Announcing(o), moves) == (Rows(), Over)
      ensures Makes(moves, tape, old(next), next, exit)
    {
      var fate := NextFate();
      if Commits(fate) && environment.active == Some(o) {
        environment := environment.(status := Deploying);
        if o in operations && operations[o].kind.RemoveOperation? {
          environment := environment.(deploymentRequired := false);
        }
      }
      DriveOne(old(Rows()), Announcing(o), fate);
      MakesOne(tape, old(next));
      return ExitOf(fate), [Call(fate)];
    }

    method QueueRouteFirst(o: OperationId) returns (exit: Exit, ghost moves: seq<Move>)
      requires o in operations
      modifies this
      ensures Drive(old(Rows()), DeliveringRoute(o), moves) == (Rows(), Over)
      ensures Makes(moves, tape, old(next), next, exit)
    {
      var fate := QueueReconcile(o);
      ghost var rest := [];
      ghost var queued := Rows();
      if fate.Killed? {
        exit := Died;
      } else if fate.Done? {
        exit, rest := PublishQueued(o);
      } else {
        var last := WithdrawWorkload(o);
        DriveOne(queued, Withdrawing(o), last);
        MakesOne(tape, old(next) + 1);
        exit, rest := if last.Killed? then Died else Threw, [Call(last)];
      }
      moves := [Call(fate)] + rest;
      DriveCons(old(Rows()), DeliveringRoute(o), fate, rest);
      MakesCons(tape, old(next), rest, next, exit);
    }

    /** Hands an operation to the Agent: the workload job at once, or, for a managed
        teardown, behind its route job. Refuses an operation that is over. */
    method DeliverOperation(o: OperationId) returns (exit: Exit, ghost moves: seq<Move>)
      requires DatabaseInv(Rows())
      modifies this
      ensures DatabaseInv(Rows()) && Forward(old(Rows()), Rows())
      ensures if IsRunning(old(Rows()), o) then Drive(old(Rows()), Delivering(o), moves) == (Rows(), Over)
                                               && Makes(moves, tape, old(next), next, exit)
              else exit.Threw? && Rows() == old(Rows())
    {
      if o !in operations || !operations[o].status.Running? { return Threw, []; }
      exit, moves := Deliver(o);
      DriveKeeps(old(Rows()), Delivering(o), moves);
    }

    method Deliver(o: OperationId) returns (exit: Exit, ghost moves: seq<Move>)
      requires o in operations
      modifies this
      ensures Drive(old(Rows()), Delivering(o), moves) == (Rows(), Over)
      ensures Makes(moves, tape, old(next), next, exit)
    {
      var fate := UpsertWorkload(o);
      ghost var rest := [];
      if !fate.Done? {
        exit := ExitOf(fate);
      } else {
        var status := jobs[Workload(o)].row.status;
        if managed && Teardown(operations[o].kind) {
          if status.Blocked? { exit, rest := QueueRouteFirst(o); } else { exit := Returned; }
        } else if status.Queued? || status.Leased? {
          exit, rest := PublishQueued(o);
        } else {
          exit := Returned;
        }
      }
      moves := [Call(fate)] + rest;
      DriveCons(old(Rows()), Delivering(o), fate, rest);
      MakesCons(tape, old(next), rest, next, exit);
    }
  }
}
