/** What an unlocked managed environment that is marked running promises: its
    route was last observed active at exactly its version. The promise survives
    every failure and replay, except one kind of error handler. It is kept in every
    run in which those handlers are harmless, and harmless means exactly that the
    invariant behind the promise is kept; a handler that is not harmless may still
    break nothing, if the Agent fails the route job it leaves behind. */
module WorkflowServing {
  import opened Common
  import opened Workflow
  import opened WorkflowSafety
  import JobLeases

  predicate Serves(observed: Observation, version: Option<string>) {
    observed.state.Active? && observed.revision.Some? && observed.revision == version
  }

  predicate Serving(db: Database) {
    db.environment.active.None? && db.environment.status.Up? ==>
      Serves(db.route.observed, db.environment.version)
  }

  // ----- the invariant -----

  /** The workload of a deploy or start is ready for its route. */
  predicate CanQueue(db: Database, o: OperationId) {
    && o in db.operations && !Teardown(db.operations[o].kind) && Workload(o) in db.jobs
    && db.jobs[Workload(o)].row.status.Succeeded?
    && ValidWorkload(true, db.jobs[Workload(o)], db.operations[o])
  }

  /** The workload of a teardown is in the Agent's hands, or about to be. */
  predicate Released(db: Database, o: OperationId) {
    && o in db.operations && Teardown(db.operations[o].kind) && Workload(o) in db.jobs
    && !db.jobs[Workload(o)].row.status.Blocked? && !db.jobs[Workload(o)].row.status.Cancelled?
  }

  /** The route waits for the job that raised its generation last. */
  predicate GenerationInv(db: Database) {
    db.route.reconcileJob.Some? ==>
      var key := db.route.reconcileJob.value;
      && key.RouteOf? && key in db.jobs && db.jobs[key].payload.RoutePayload?
      && db.jobs[key].payload.generation == db.route.generation
  }

  /** The route waits for no job but the running operation's, and has seen its
      outcome once it stopped waiting. */
  predicate OwnRouteInv(db: Database, o: OperationId) {
    IsRunning(db, o) && RouteOf(o) in db.jobs ==>
      var job := db.jobs[RouteOf(o)];
      && (db.route.reconcileJob.None? || db.route.reconcileJob == Some(RouteOf(o)))
      && (db.route.reconcileJob.None? ==>
            && Finished(job.row) && job.payload.RoutePayload?
            && (job.row.status.Succeeded? ==> db.route.observed == ObservationOf(job.payload)))
  }

  predicate OrderInv(db: Database, o: OperationId) {
    && (RouteOf(o) in db.jobs ==> Workload(o) in db.jobs)
    && (RouteOf(o) in db.jobs && o in db.operations && !Teardown(db.operations[o].kind) ==> CanQueue(db, o))
    && (IsRunning(db, o) && Released(db, o) ==> db.route.reconcileJob.None?)
    && (!IsRunning(db, o) && Workload(o) in db.jobs ==> JobLeases.Terminal(db.jobs[Workload(o)].row.status))
    && (IsRunning(db, o) && db.operations[o].kind.StartOperation? ==>
          db.environment.version == Some(db.operations[o].version))
  }

  /** A route job may outlive its operation, but then what it publishes is no
      surprise: it cannot take away what serves the environment's version. */
  predicate OrphanInv(db: Database) {
    db.route.reconcileJob.Some? ==>
      var key := db.route.reconcileJob.value;
      key in db.jobs && key.operation in db.operations && !IsRunning(db, key.operation)
      && !db.jobs[key].row.status.Cancelled? && !db.jobs[key].row.status.Failed? ==>
        && !Teardown(db.operations[key.operation].kind)
        && (Serves(db.route.observed, db.environment.version) ==>
              db.environment.version == Some(db.operations[key.operation].version))
  }

  predicate OperationsInv(db: Database) {
    forall o | o in db.operations :: OwnRouteInv(db, o) && OrderInv(db, o)
  }

  predicate RouteInv(db: Database) {
    db.managed && GenerationInv(db) && OperationsInv(db) && OrphanInv(db) && Serving(db)
  }

  /** While its operation runs, what a snapshot says about the environment's version
      is true, and what it says about the route is true enough for what the
      handler will conclude from it. */
  predicate FreshEnough(db: Database, s: Snapshot) {
    var o := s.key.operation;
    && (s.key.RouteOf? ==> db.route.reconcileJob != Some(s.key))
    && (IsRunning(db, o) ==>
          && s.environment.version == db.environment.version
          && (RouteOf(o) !in db.jobs && Serves(s.route.observed, s.environment.version) ==>
                Serves(db.route.observed, db.environment.version))
          && (db.route.reconcileJob.None? && RouteOf(o) in db.jobs
              && (s.key.RouteOf? || Teardown(s.operation.kind)) ==>
                s.route.observed == db.route.observed))
  }

  /** What a handler may rely on at the point where it is. */
  predicate PlaceInv(db: Database, h: Handler) {
    match h
    case Delivering(o) => IsRunning(db, o) || Workload(o) in db.jobs
    case DeliveringRoute(o) =>
      && o in db.operations && Teardown(db.operations[o].kind) && Workload(o) in db.jobs
      && (IsRunning(db, o) || RouteOf(o) in db.jobs)
    case Observing(key, _) => key in db.jobs && Finished(db.jobs[key].row)
    case Projecting(key, _) => key in db.jobs && (key.RouteOf? ==> db.route.reconcileJob != Some(key))
    case Projected(s, _) =>
      QueuesRoute(s) ==> IsRunning(db, s.key.operation) || RouteOf(s.key.operation) in db.jobs
    case Inspecting(s) =>
      && s.key.RouteOf? && Workload(s.key.operation) in db.jobs
      && !db.jobs[Workload(s.key.operation)].row.status.Blocked?
    case RouteQueued(s) => QueuesRoute(s)
    case Failing(s, _, _, _, caught) =>
      && (caught <==> QueuesRoute(s))
      && (s.key.RouteOf? && Teardown(s.operation.kind) && s.job.row.status.Succeeded? ==>
            var key := Workload(s.key.operation);
            key in db.jobs && JobLeases.Terminal(db.jobs[key].row.status))
    case _ => true
  }

  predicate KnowsInv(db: Database, h: Handler) {
    && (Inner(h).Some? ==> FreshEnough(db, Inner(h).value))
    && (Outer(h).Some? ==> FreshEnough(db, Outer(h).value) && QueuesRoute(Outer(h).value))
  }

  predicate Fits(db: Database, h: Handler) { KnowsInv(db, h) && PlaceInv(db, h) }

  predicate ServingInv(t: System) {
    && BaseInv(t) && RouteInv(t.db)
    && forall i | 0 <= i < |t.handlers| :: Fits(t.db, t.handlers[i])
  }

  lemma QueuesRouteMeansReady(db: Database, s: Snapshot)
    requires DatabaseInv(db) && db.managed && SnapshotInv(db, s)
    ensures QueuesRoute(s) <==> s.key.Workload? && CanQueue(db, s.key.operation)
  {
    assert JobInv(db, s.key, db.jobs[s.key]);
  }

  // ----- transactions that leave the route alone -----

  /** Nothing about the route, the environment's version or who is running changes. */
  predicate Quiet(db: Database, next: Database) {
    && Forward(db, next) && next.route == db.route && next.operations.Keys == db.operations.Keys
    && next.environment.version == db.environment.version && next.environment.active == db.environment.active
    && (next.environment.status == db.environment.status || next.environment.active.Some?)
    && (forall o | o in db.operations :: IsRunning(next, o) == IsRunning(db, o))
    && (forall key | key in next.jobs && (key.RouteOf? || !IsRunning(db, key.operation)) :: key in db.jobs)
    && (forall o | o in db.operations ::
          IsRunning(next, o) && Released(next, o) ==> Released(db, o) || db.route.reconcileJob.None?)
  }

  lemma QuietKeepsOwnRoute(db: Database, next: Database, o: nat)
    requires DatabaseInv(db) && o in db.operations && OwnRouteInv(db, o) && Quiet(db, next)
    ensures OwnRouteInv(next, o)
  {}

  lemma QuietKeepsOrder(db: Database, next: Database, o: nat)
    requires DatabaseInv(db) && o in db.operations && OrderInv(db, o) && Quiet(db, next)
    ensures OrderInv(next, o)
  {}

  lemma QuietKeepsOperations(db: Database, next: Database)
    requires DatabaseInv(db) && OperationsInv(db) && Quiet(db, next)
    ensures OperationsInv(next)
  {
    forall o | o in next.operations ensures OwnRouteInv(next, o) && OrderInv(next, o) {
      QuietKeepsOwnRoute(db, next, o);
      QuietKeepsOrder(db, next, o);
    }
  }

  lemma QuietKeepsRoute(db: Database, next: Database)
    requires DatabaseInv(db) && RouteInv(db) && Quiet(db, next)
    ensures RouteInv(next)
  {
    QuietKeepsOperations(db, next);
  }

  lemma QuietKeepsHandler(db: Database, next: Database, h: Handler)
    requires Quiet(db, next) && HandlerInv(db, h) && KnowsInv(db, h) && PlaceInv(db, h)
    ensures KnowsInv(next, h) && PlaceInv(next, h)
  {}

  // ----- observing the route -----

  lemma ObserveKeepsOperations(db: Database, key: Key)
    requires DatabaseInv(db) && RouteInv(db)
    ensures OperationsInv(ObserveRoute(db, key))
  {
    var next := ObserveRoute(db, key);
    forall o | o in next.operations ensures OwnRouteInv(next, o) && OrderInv(next, o) {
      assert OwnRouteInv(db, o) && OrderInv(db, o);
    }
  }

  lemma ObserveKeepsRoute(db: Database, key: Key)
    requires DatabaseInv(db) && RouteInv(db)
    ensures RouteInv(ObserveRoute(db, key))
  {
    ObserveKeepsOperations(db, key);
    if key in db.jobs { assert JobInv(db, key, db.jobs[key]); }
  }

  lemma ObserveKeepsSnapshot(db: Database, key: Key, s: Snapshot)
    requires DatabaseInv(db) && RouteInv(db) && SnapshotInv(db, s) && FreshEnough(db, s)
    ensures FreshEnough(ObserveRoute(db, key), s)
  {
    var o := s.key.operation;
    assert OwnRouteInv(db, o) && OrderInv(db, o) && TeardownInv(db, o) && JobInv(db, s.key, db.jobs[s.key]);
    if key in db.jobs { assert JobInv(db, key, db.jobs[key]); }
  }

  lemma ObserveKeepsHandler(db: Database, key: Key, h: Handler)
    requires DatabaseInv(db) && RouteInv(db) && HandlerInv(db, h) && KnowsInv(db, h) && PlaceInv(db, h)
    ensures KnowsInv(ObserveRoute(db, key), h) && PlaceInv(ObserveRoute(db, key), h)
  {
    if Inner(h).Some? { ObserveKeepsSnapshot(db, key, Inner(h).value); }
    if Outer(h).Some? { ObserveKeepsSnapshot(db, key, Outer(h).value); }
  }

  /** After it was observed, the route does not wait for this job any more. */
  lemma ObservedIsNotAwaited(db: Database, key: Key)
    requires GenerationInv(db) && key in db.jobs && Finished(db.jobs[key].row)
    ensures ObserveRoute(db, key).route.reconcileJob != Some(key)
  {}

  // ----- queueing the route -----

  /** The running operation may queue its route: first now, for a teardown, or once
      its workload is ready. */
  predicate MayQueueRoute(db: Database, o: OperationId) {
    && IsRunning(db, o) && RouteOf(o) !in db.jobs && Workload(o) in db.jobs
    && (Teardown(db.operations[o].kind) || CanQueue(db, o))
  }

  lemma QueueKeepsOperations(db: Database, o: OperationId)
    requires DatabaseInv(db) && RouteInv(db) && MayQueueRoute(db, o)
    ensures OperationsInv(QueueRoute(db, o))
  {
    var next := QueueRoute(db, o);
    forall p | p in next.operations ensures OwnRouteInv(next, p) && OrderInv(next, p) {
      assert OwnRouteInv(db, p) && OrderInv(db, p) && TeardownInv(db, p);
      assert IsRunning(db, p) ==> p == o;
    }
  }

  lemma QueueKeepsRoute(db: Database, o: OperationId)
    requires DatabaseInv(db) && RouteInv(db) && MayQueueRoute(db, o)
    ensures RouteInv(QueueRoute(db, o))
  {
    QueueKeepsOperations(db, o);
  }

  lemma QueueKeepsSnapshot(db: Database, o: OperationId, s: Snapshot)
    requires DatabaseInv(db) && RouteInv(db) && MayQueueRoute(db, o) && SnapshotInv(db, s) && FreshEnough(db, s)
    ensures FreshEnough(QueueRoute(db, o), s)
  {
    assert TeardownInv(db, o);
    assert JobInv(db, s.key, db.jobs[s.key]);
    assert IsRunning(db, s.key.operation) ==> s.key.operation == o;
  }

  lemma QueueKeepsPlace(db: Database, o: OperationId, h: Handler)
    requires MayQueueRoute(db, o) && HandlerInv(db, h) && PlaceInv(db, h)
    requires DatabaseInv(db)
    ensures PlaceInv(QueueRoute(db, o), h)
  {
    if h.Observing? { QueueRouteIsForward(db, o); }
  }

  lemma QueueKeepsHandler(db: Database, o: OperationId, h: Handler)
    requires DatabaseInv(db) && RouteInv(db) && MayQueueRoute(db, o)
    requires HandlerInv(db, h) && KnowsInv(db, h) && PlaceInv(db, h)
    ensures KnowsInv(QueueRoute(db, o), h) && PlaceInv(QueueRoute(db, o), h)
  {
    if Inner(h).Some? { QueueKeepsSnapshot(db, o, Inner(h).value); }
    if Outer(h).Some? { QueueKeepsSnapshot(db, o, Outer(h).value); }
    QueueKeepsPlace(db, o, h);
  }

  // ----- settling -----

  /** The running operation `o` ends; the route stays, and of the jobs only waiting
      ones of `o` change. */
  predicate Ends(db: Database, next: Database, o: OperationId) {
    && IsRunning(db, o) && Forward(db, next) && next.route == db.route
    && next.operations.Keys == db.operations.Keys && next.jobs.Keys == db.jobs.Keys
    && next.environment.active.None? && (forall p | p in db.operations :: !IsRunning(next, p))
    && Workload(o) in next.jobs && JobLeases.Terminal(next.jobs[Workload(o)].row.status)
  }

  lemma EndKeepsOperations(db: Database, next: Database, o: OperationId)
    requires LockInv(db) && OperationsInv(db) && Ends(db, next, o)
    ensures OperationsInv(next)
  {
    forall p | p in next.operations ensures OwnRouteInv(next, p) && OrderInv(next, p) {
      assert OrderInv(db, p);
    }
  }

  lemma EndKeepsRoute(db: Database, next: Database, o: OperationId)
    requires LockInv(db) && RouteInv(db) && Ends(db, next, o)
    ensures RouteInv(next) <==> Serving(next) && OrphanInv(next)
  {
    EndKeepsOperations(db, next, o);
  }

  /** A handler that would still queue the route of `o`. */
  predicate Rival(db: Database, h: Handler, o: OperationId) {
    h.Projected? && h.snapshot.key.operation == o && QueuesRoute(h.snapshot) && RouteOf(o) !in db.jobs
  }

  /** After `o` ended, a handler is in its place exactly if it will not queue a
      route for `o` that nobody waits for. */
  lemma EndKeepsHandler(db: Database, next: Database, o: OperationId, h: Handler)
    requires Ends(db, next, o) && LockInv(db)
    requires HandlerInv(db, h) && KnowsInv(db, h) && PlaceInv(db, h)
    requires Teardown(db.operations[o].kind) ==> RouteOf(o) in db.jobs
    ensures KnowsInv(next, h)
    ensures PlaceInv(next, h) <==> !Rival(db, h, o)
  {
    assert forall p :: IsRunning(db, p) ==> p == o;
  }

  // ----- what each transaction is -----

  datatype Move = Stay | Observe(key: Key) | Queue(operation: OperationId) | End(operation: OperationId)

  predicate Explains(move: Move, db: Database, next: Database) {
    match move
    case Stay => Quiet(db, next)
    case Observe(key) => next == ObserveRoute(db, key)
    case Queue(o) => MayQueueRoute(db, o) && next == QueueRoute(db, o)
    case End(o) =>
      && Ends(db, next, o) && Serving(next) && OrphanInv(next)
      && (RouteOf(o) in db.jobs || (!Teardown(db.operations[o].kind) && !CanQueue(db, o)))
  }

  lemma MoveKeepsRoute(move: Move, db: Database, next: Database)
    requires DatabaseInv(db) && RouteInv(db) && Explains(move, db, next)
    ensures RouteInv(next)
  {
    match move
    case Stay => QuietKeepsRoute(db, next);
    case Observe(key) => ObserveKeepsRoute(db, key);
    case Queue(o) => QueueKeepsRoute(db, o);
    case End(o) => EndKeepsRoute(db, next, o);
  }

  lemma NoRivalWhenOver(db: Database, h: Handler, o: OperationId)
    requires DatabaseInv(db) && db.managed && HandlerInv(db, h)
    requires RouteOf(o) in db.jobs || !CanQueue(db, o)
    ensures !Rival(db, h, o)
  {
    if h.Projected? { QueuesRouteMeansReady(db, h.snapshot); }
  }

  lemma MoveKeepsHandler(move: Move, db: Database, next: Database, h: Handler)
    requires DatabaseInv(db) && RouteInv(db) && Explains(move, db, next)
    requires HandlerInv(db, h) && KnowsInv(db, h) && PlaceInv(db, h)
    ensures KnowsInv(next, h) && PlaceInv(next, h)
  {
    match move
    case Stay => QuietKeepsHandler(db, next, h);
    case Observe(key) => ObserveKeepsHandler(db, key, h);
    case Queue(o) => QueueKeepsHandler(db, o, h);
    case End(o) =>
      EndKeepsHandler(db, next, o, h);
      NoRivalWhenOver(db, h, o);
  }

  /** One job row changes, and nothing is queued for the Agent that was not before. */
  lemma JobMoveIsQuiet(db: Database, key: Key, row: JobRow)
    requires DatabaseInv(db) && key in db.jobs && row.kind == db.jobs[key].row.kind
    requires !JobLeases.Terminal(db.jobs[key].row.status) && !row.status.Blocked?
    requires db.jobs[key].row.status.Blocked? ==>
               row.status.Cancelled? || (IsRunning(db, key.operation) ==> db.route.reconcileJob.None?)
    ensures Quiet(db, db.(jobs := db.jobs[key := db.jobs[key].(row := row)]))
  {}

  lemma QueueWorkloadIsQuiet(db: Database, o: OperationId)
    requires DatabaseInv(db) && db.managed && IsRunning(db, o) && (RouteOf(o) in db.jobs ==> Workload(o) in db.jobs)
    ensures Quiet(db, QueueWorkload(db, o))
  {}

  lemma CancelWaitingIsQuiet(db: Database, o: OperationId)
    requires DatabaseInv(db)
    ensures Quiet(db, CancelWaiting(db, o))
  {
    CancelKeeps(db, o);
  }

  lemma SettledFailIsQuiet(db: Database, s: Snapshot, reason: Reason, rollback: Rollback)
    requires DatabaseInv(db) && !IsRunning(db, s.key.operation)
    ensures Quiet(db, FailManaged(db, s, reason, rollback))
  {
    CancelWaitingIsQuiet(db, s.key.operation);
    assert FailManaged(db, s, reason, rollback) == CancelWaiting(db, s.key.operation);
  }

  /** Where a running operation stands when one of its jobs is over. */
  lemma WhatIsOver(db: Database, s: Snapshot)
    requires DatabaseInv(db) && RouteInv(db) && SnapshotInv(db, s) && FreshEnough(db, s)
    requires IsRunning(db, s.key.operation)
    ensures var o := s.key.operation;
            && Workload(o) in db.jobs
            && (s.key.RouteOf? || Teardown(s.operation.kind) ==>
                  && db.route.reconcileJob.None? && RouteOf(o) in db.jobs
                  && s.route.observed == db.route.observed)
            && (s.key.Workload? && !Teardown(s.operation.kind) && !QueuesRoute(s) ==>
                  RouteOf(o) !in db.jobs && !CanQueue(db, o))
            && (s.key.Workload? && Teardown(s.operation.kind) ==> !db.route.observed.state.Active?)
  {
    var o := s.key.operation;
    assert OwnRouteInv(db, o) && OrderInv(db, o) && TeardownInv(db, o) && JobInv(db, s.key, db.jobs[s.key]);
    QueuesRouteMeansReady(db, s);
    if s.key.Workload? && Teardown(s.operation.kind) {
      assert JobInv(db, RouteOf(o), db.jobs[RouteOf(o)]);
    }
  }

  /** When a managed operation fails, its workload job is over or still waits. */
  lemma WorkloadIsOver(db: Database, s: Snapshot)
    requires DatabaseInv(db) && RouteInv(db) && SnapshotInv(db, s) && IsRunning(db, s.key.operation)
    requires s.key.RouteOf? && Teardown(s.operation.kind) && s.job.row.status.Succeeded? ==>
               var key := Workload(s.key.operation);
               key in db.jobs && JobLeases.Terminal(db.jobs[key].row.status)
    ensures var key := Workload(s.key.operation);
            key in db.jobs && (db.jobs[key].row.status.Blocked? || JobLeases.Terminal(db.jobs[key].row.status))
  {
    var o := s.key.operation;
    assert OrderInv(db, o) && TeardownInv(db, o) && JobInv(db, s.key, db.jobs[s.key]);
  }

  lemma FailIsAnEnd(db: Database, s: Snapshot, reason: Reason, rollback: Rollback)
    requires DatabaseInv(db) && IsRunning(db, s.key.operation)
    requires var key := Workload(s.key.operation);
             key in db.jobs && (db.jobs[key].row.status.Blocked? || JobLeases.Terminal(db.jobs[key].row.status))
    ensures Ends(db, FailManaged(db, s, reason, rollback), s.key.operation)
  {
    FailShape(db, s, reason, rollback);
    FailReleases(db, s, reason, rollback);
  }

  lemma FailReleases(db: Database, s: Snapshot, reason: Reason, rollback: Rollback)
    requires DatabaseInv(db) && IsRunning(db, s.key.operation)
    ensures var next := FailManaged(db, s, reason, rollback);
            Forward(db, next) && next.environment.active.None? && forall p | p in db.operations :: !IsRunning(next, p)
  {
    FailManagedKeeps(db, s, reason, rollback);
  }

  lemma FailShape(db: Database, s: Snapshot, reason: Reason, rollback: Rollback)
    requires var key := Workload(s.key.operation);
             key in db.jobs && (db.jobs[key].row.status.Blocked? || JobLeases.Terminal(db.jobs[key].row.status))
    ensures var next := FailManaged(db, s, reason, rollback);
            var key := Workload(s.key.operation);
            && next.route == db.route && next.operations.Keys == db.operations.Keys && next.jobs.Keys == db.jobs.Keys
            && JobLeases.Terminal(next.jobs[key].row.status)
  {}

  lemma FailKeepsOrphans(db: Database, s: Snapshot, reason: Reason, rollback: Rollback)
    requires DatabaseInv(db) && OrphanInv(db) && IsRunning(db, s.key.operation)
    requires db.route.reconcileJob != Some(RouteOf(s.key.operation)) && GenerationInv(db)
    ensures OrphanInv(FailManaged(db, s, reason, rollback))
  {
    if db.route.reconcileJob.Some? {
      FailLeavesOthers(db, s, reason, rollback, db.route.reconcileJob.value);
    }
  }

  /** A recorded failure leaves the jobs of other operations alone, and the route. */
  lemma FailLeavesOthers(db: Database, s: Snapshot, reason: Reason, rollback: Rollback, key: Key)
    requires key in db.jobs && key.operation != s.key.operation
    ensures var next := FailManaged(db, s, reason, rollback);
            && key in next.jobs && next.jobs[key] == db.jobs[key] && next.route == db.route
            && next.environment.version == db.environment.version
            && (key.operation in next.operations <==> key.operation in db.operations)
            && (key.operation in db.operations ==> next.operations[key.operation] == db.operations[key.operation])
  {}

  /** A failure that says "remains online" is right exactly if the route still
      serves the environment's version when the failure is recorded. */
  lemma FailServes(db: Database, s: Snapshot, reason: Reason, rollback: Rollback)
    requires LockInv(db) && IsRunning(db, s.key.operation)
    ensures Serving(FailManaged(db, s, reason, rollback))
            <==> (PreviousStillServing(s, rollback) ==> Serves(db.route.observed, db.environment.version))
  {}

  lemma FailIsRight(db: Database, s: Snapshot, rollback: Rollback)
    requires DatabaseInv(db) && RouteInv(db) && IsRunning(db, s.key.operation)
    requires SnapshotInv(db, s) && FreshEnough(db, s) && !QueuesRoute(s)
    requires PreviousStillServing(s, rollback)
    ensures Serves(db.route.observed, db.environment.version)
  {
    WhatIsOver(db, s);
  }

  lemma FailEndsWell(db: Database, s: Snapshot, reason: Reason, rollback: Rollback, outer: Option<Snapshot>)
    requires DatabaseInv(db) && RouteInv(db) && IsRunning(db, s.key.operation)
    requires SnapshotInv(db, s) && FreshEnough(db, s) && PlaceInv(db, Failing(s, reason, rollback, outer, false))
    ensures Explains(End(s.key.operation), db, FailManaged(db, s, reason, rollback))
  {
    var next := FailManaged(db, s, reason, rollback);
    assert Ends(db, next, s.key.operation) by {
      WorkloadIsOver(db, s);
      FailIsAnEnd(db, s, reason, rollback);
    }
    assert Serving(next) by {
      if PreviousStillServing(s, rollback) { FailIsRight(db, s, rollback); }
      FailServes(db, s, reason, rollback);
    }
    WhatIsOver(db, s);
    FailKeepsOrphans(db, s, reason, rollback);
  }

  lemma FinishEndsWell(db: Database, s: Snapshot)
    requires DatabaseInv(db) && RouteInv(db) && IsRunning(db, s.key.operation)
    requires SnapshotInv(db, s) && FreshEnough(db, s) && s.job.row.status.Succeeded?
    requires if Teardown(s.operation.kind) then s.key.Workload? else s.key.RouteOf? && Published(s)
    ensures Explains(End(s.key.operation), db, Finish(db, s))
  {
    var o := s.key.operation;
    FinishKeeps(db, s);
    WhatIsOver(db, s);
    assert OrderInv(db, o) && JobInv(db, s.key, db.jobs[s.key]);
  }

  // ----- one step of a handler -----

  /** Executing the error handler of a managed workload projection. */
  predicate Catches(db: Database, h: Handler) {
    h.Failing? && h.caught && IsRunning(db, h.snapshot.key.operation)
  }

  lemma RouteRemovedMove(db: Database, s: Snapshot, outer: Option<Snapshot>)
    requires DatabaseInv(db) && RouteInv(db) && SnapshotInv(db, s) && FreshEnough(db, s)
    requires s.job.row.status.Succeeded? && s.job.step == 1 && Teardown(s.operation.kind)
    ensures Quiet(db, AfterRouteRemoved(db, s, outer).0)
  {
    var key := Workload(s.key.operation);
    assert JobInv(db, s.key, db.jobs[s.key]);
    if key in db.jobs && db.jobs[key].row.status.Blocked? {
      if IsRunning(db, s.key.operation) { WhatIsOver(db, s); }
      JobMoveIsQuiet(db, key, db.jobs[key].row.(status := JobLeases.Queued, stage := "queued"));
    }
  }

  lemma WorkloadReadyMove(db: Database, s: Snapshot, outer: Option<Snapshot>) returns (move: Move)
    requires DatabaseInv(db) && RouteInv(db) && SnapshotInv(db, s) && PlaceInv(db, Projected(s, outer))
    ensures Explains(move, db, AfterWorkloadReady(db, s, outer).0)
  {
    move := Stay;
    if QueuesRoute(s) && RouteOf(s.key.operation) !in db.jobs {
      QueuesRouteMeansReady(db, s);
      move := Queue(s.key.operation);
    }
  }

  lemma FinishMove(db: Database, s: Snapshot) returns (move: Move)
    requires DatabaseInv(db) && RouteInv(db) && SnapshotInv(db, s) && FreshEnough(db, s)
    requires s.job.row.status.Succeeded?
    requires if Teardown(s.operation.kind) then s.key.Workload? else s.key.RouteOf? && Published(s)
    ensures Explains(move, db, Finish(db, s))
  {
    move := Stay;
    if IsRunning(db, s.key.operation) {
      FinishEndsWell(db, s);
      move := End(s.key.operation);
    }
  }

  lemma ProjectedMove(db: Database, s: Snapshot, outer: Option<Snapshot>) returns (move: Move)
    requires DatabaseInv(db) && RouteInv(db) && SnapshotInv(db, s) && FreshEnough(db, s)
    requires PlaceInv(db, Projected(s, outer))
    ensures Explains(move, db, ProjectManaged(db, s, outer).0)
  {
    move := Stay;
    assert JobInv(db, s.key, db.jobs[s.key]);
    if s.job.row.status.Succeeded? {
      if s.job.step == 1 {
        if Teardown(s.operation.kind) {
          RouteRemovedMove(db, s, outer);
        } else {
          move := WorkloadReadyMove(db, s, outer);
        }
      } else if ProjectManaged(db, s, outer).1 == Over {
        move := FinishMove(db, s);
      }
    }
  }

  lemma DeliveryMove(db: Database, h: Handler) returns (move: Move)
    requires DatabaseInv(db) && RouteInv(db) && HandlerInv(db, h) && PlaceInv(db, h)
    requires h.Delivering? || h.DeliveringRoute? || h.Withdrawing?
    ensures Explains(move, db, HandlerStep(db, h).0)
  {
    var o := h.operation;
    move := Stay;
    if h.Delivering? {
      if IsRunning(db, o) {
        assert OrderInv(db, o);
        QueueWorkloadIsQuiet(db, o);
      }
    } else if h.DeliveringRoute? {
      if RouteOf(o) !in db.jobs { move := Queue(o); }
    } else if Workload(o) in db.jobs && db.jobs[Workload(o)].row.status.Blocked? {
      JobMoveIsQuiet(db, Workload(o), CancelledJob(db.jobs[Workload(o)]).row);
    }
  }

  lemma FailMove(db: Database, s: Snapshot, reason: Reason, rollback: Rollback, outer: Option<Snapshot>)
    returns (move: Move)
    requires DatabaseInv(db) && RouteInv(db) && SnapshotInv(db, s) && FreshEnough(db, s)
    requires IsRunning(db, s.key.operation) ==> PlaceInv(db, Failing(s, reason, rollback, outer, false))
    ensures Explains(move, db, FailManaged(db, s, reason, rollback))
  {
    if IsRunning(db, s.key.operation) {
      FailEndsWell(db, s, reason, rollback, outer);
      move := End(s.key.operation);
    } else {
      SettledFailIsQuiet(db, s, reason, rollback);
      move := Stay;
    }
  }

  lemma ProgressIsQuiet(db: Database, o: OperationId)
    requires DatabaseInv(db)
    ensures Quiet(db, PublishProgress(db, o))
  {}

  lemma AnnounceIsQuiet(db: Database, o: OperationId)
    requires DatabaseInv(db)
    ensures Quiet(db, Announce(db, o))
  {}

  lemma NothingIsQuiet(db: Database)
    requires DatabaseInv(db)
    ensures Quiet(db, db)
  {}

  lemma QuietSteps(db: Database, h: Handler)
    requires DatabaseInv(db)
    requires h.Announcing? || h.Projecting? || h.Unblocked? || h.Inspecting? || h.RouteQueued? || h.Over?
    ensures Quiet(db, HandlerStep(db, h).0)
  {
    if h.Announcing? {
      AnnounceIsQuiet(db, h.operation);
    } else if h.Unblocked? || h.RouteQueued? {
      ProgressIsQuiet(db, h.snapshot.key.operation);
    } else {
      NothingIsQuiet(db);
    }
  }

  lemma HandlerStepMove(db: Database, h: Handler) returns (move: Move)
    requires DatabaseInv(db) && RouteInv(db) && HandlerInv(db, h) && KnowsInv(db, h) && PlaceInv(db, h)
    requires !Catches(db, h)
    ensures Explains(move, db, HandlerStep(db, h).0)
  {
    match h
    case Observing(key, _) => move := Observe(key);
    case Projected(s, outer) => move := ProjectedMove(db, s, outer);
    case Failing(s, reason, rollback, outer, _) => move := FailMove(db, s, reason, rollback, outer);
    case _ =>
      if h.Delivering? || h.DeliveringRoute? || h.Withdrawing? {
        move := DeliveryMove(db, h);
      } else {
        QuietSteps(db, h);
        move := Stay;
      }
  }

  // Where the handler goes next.

  lemma RouteRemovedNext(db: Database, s: Snapshot, outer: Option<Snapshot>)
    requires DatabaseInv(db) && RouteInv(db) && SnapshotInv(db, s)
    requires s.job.row.status.Succeeded? && s.job.step == 1 && Teardown(s.operation.kind)
    ensures var (next, g) := AfterRouteRemoved(db, s, outer); PlaceInv(next, g)
  {
    var o := s.key.operation;
    assert JobInv(db, s.key, db.jobs[s.key]) && OrderInv(db, o);
    assert JobInv(db, Workload(o), db.jobs[Workload(o)]);
  }

  lemma OtherwiseNext(db: Database, s: Snapshot, outer: Option<Snapshot>)
    requires DatabaseInv(db) && db.managed && SnapshotInv(db, s)
    requires !(s.job.row.status.Succeeded? && s.job.step == 1 && Teardown(s.operation.kind))
    ensures var (next, g) := ProjectManaged(db, s, outer);
            g == Over || (g == RouteQueued(s) && QueuesRoute(s)) || (g.Failing? && PlaceInv(next, g))
  {
    assert JobInv(db, s.key, db.jobs[s.key]);
  }

  lemma ProjectedNext(db: Database, s: Snapshot, outer: Option<Snapshot>)
    requires DatabaseInv(db) && RouteInv(db) && SnapshotInv(db, s)
    ensures var (next, g) := ProjectManaged(db, s, outer); PlaceInv(next, g)
  {
    if s.job.row.status.Succeeded? && s.job.step == 1 && Teardown(s.operation.kind) {
      RouteRemovedNext(db, s, outer);
    } else {
      OtherwiseNext(db, s, outer);
    }
  }

  lemma PlacesNext(db: Database, h: Handler)
    requires DatabaseInv(db) && RouteInv(db) && HandlerInv(db, h) && KnowsInv(db, h) && PlaceInv(db, h)
    requires !h.Projected?
    ensures var (next, g) := HandlerStep(db, h); PlaceInv(next, g)
  {
    if h.Delivering? || h.DeliveringRoute? || h.Withdrawing? || h.Announcing? {
      DeliveryPlaces(db, h);
    } else {
      ReadingPlaces(db, h);
    }
  }

  lemma DeliveryPlaces(db: Database, h: Handler)
    requires RouteInv(db) && PlaceInv(db, h)
    requires h.Delivering? || h.DeliveringRoute? || h.Withdrawing? || h.Announcing?
    ensures var (next, g) := HandlerStep(db, h); PlaceInv(next, g)
  {
    if h.Delivering? { assert h.operation in db.operations ==> OrderInv(db, h.operation); }
  }

  lemma ReadingPlaces(db: Database, h: Handler)
    requires DatabaseInv(db) && RouteInv(db) && HandlerInv(db, h) && KnowsInv(db, h) && PlaceInv(db, h)
    requires !h.Delivering? && !h.DeliveringRoute? && !h.Withdrawing? && !h.Announcing? && !h.Projected?
    ensures var (next, g) := HandlerStep(db, h); PlaceInv(next, g)
  {
    if h.Observing? {
      ObservedIsNotAwaited(db, h.key);
    } else if h.Projecting? {
      ReadPlace(db, h.key, h.outer);
    } else if h.Inspecting? {
      InspectedPlace(db, h.snapshot);
    }
  }

  lemma ReadPlace(db: Database, key: Key, outer: Option<Snapshot>)
    ensures PlaceInv(db, Read(db, key, outer))
  {}

  lemma InspectedPlace(db: Database, s: Snapshot)
    requires DatabaseInv(db) && SnapshotInv(db, s) && FreshEnough(db, s) && PlaceInv(db, Inspecting(s))
    ensures PlaceInv(db, HandlerStep(db, Inspecting(s)).1)
  {
    assert JobInv(db, s.key, db.jobs[s.key]);
  }

  lemma ThrownNext(db: Database, next: Database, h: Handler, message: string)
    requires KnowsInv(db, h) && PlaceInv(db, h)
    ensures PlaceInv(next, Thrown(db, h, message))
  {}

  lemma KnowsNext(next: Database, h: Handler, g: Handler)
    requires MovesOn(g, h) && KnowsInv(next, h)
    requires Outer(g).Some? ==> QueuesRoute(Outer(g).value)
    ensures KnowsInv(next, g)
  {}

  lemma OuterNext(db: Database, h: Handler)
    requires PlaceInv(db, h) && (Outer(h).Some? ==> QueuesRoute(Outer(h).value))
    ensures var g := HandlerStep(db, h).1; Outer(g).Some? ==> QueuesRoute(Outer(g).value)
  {}

  lemma ReadNext(db: Database, key: Key, outer: Option<Snapshot>)
    requires KnowsInv(db, Projecting(key, outer)) && PlaceInv(db, Projecting(key, outer))
    ensures KnowsInv(db, Read(db, key, outer))
  {}

  lemma StepNext(db: Database, h: Handler)
    requires DatabaseInv(db) && RouteInv(db) && HandlerInv(db, h) && KnowsInv(db, h) && PlaceInv(db, h)
    requires KnowsInv(HandlerStep(db, h).0, h)
    ensures KnowsInv(HandlerStep(db, h).0, HandlerStep(db, h).1)
  {
    if h.Projecting? {
      ReadNext(db, h.key, h.outer);
    } else if !h.Delivering? {
      HandlerMoves(db, h);
      OuterNext(db, h);
      KnowsNext(HandlerStep(db, h).0, h, HandlerStep(db, h).1);
    }
  }

  lemma PlaceNext(db: Database, h: Handler)
    requires DatabaseInv(db) && RouteInv(db) && HandlerInv(db, h) && KnowsInv(db, h) && PlaceInv(db, h)
    ensures PlaceInv(HandlerStep(db, h).0, HandlerStep(db, h).1)
  {
    if h.Projected? { ProjectedNext(db, h.snapshot, h.outer); } else { PlacesNext(db, h); }
  }

  /** Does this event execute the transaction that handler `h` is about to send? */
  predicate Sends(event: Event) { event.StepHandler? || event.Lose? }

  lemma ActMove(db: Database, h: Handler, event: Event) returns (move: Move)
    requires DatabaseInv(db) && RouteInv(db) && HandlerInv(db, h) && KnowsInv(db, h) && PlaceInv(db, h)
    requires Acts(event) && (Sends(event) ==> !Catches(db, h))
    ensures Explains(move, db, Act(db, h, event).0)
  {
    if Sends(event) { move := HandlerStepMove(db, h); } else { move := Stay; }
  }

  lemma ActNext(db: Database, h: Handler, event: Event)
    requires DatabaseInv(db) && RouteInv(db) && HandlerInv(db, h) && KnowsInv(db, h) && PlaceInv(db, h)
    requires Acts(event) && KnowsInv(Act(db, h, event).0, h)
    ensures KnowsInv(Act(db, h, event).0, Act(db, h, event).1)
    ensures PlaceInv(Act(db, h, event).0, Act(db, h, event).1)
  {
    if event.StepHandler? {
      StepNext(db, h);
      PlaceNext(db, h);
    } else if !event.Die? {
      var next := Act(db, h, event).0;
      ThrownMoves(db, h, event.message);
      ThrownNext(db, next, h, event.message);
      KnowsNext(next, h, Thrown(db, h, event.message));
    }
  }

  // ----- the error handlers -----

  /** The operation's route job may still publish its revision. */
  predicate MayPublish(db: Database, o: OperationId) {
    && db.route.reconcileJob == Some(RouteOf(o)) && RouteOf(o) in db.jobs
    && (db.jobs[RouteOf(o)].row.status.Leased? || db.jobs[RouteOf(o)].row.status.Succeeded?)
  }

  /** When the error handler of a managed workload projection may record its
      failure: what it read about the route still holds if it will say so; the
      route job it leaves behind cannot replace what serves the environment; and
      no other projection of the same job is about to queue the route anyway. */
  predicate HarmlessCatch(t: System, i: nat)
    requires i < |t.handlers| && Catches(t.db, t.handlers[i])
  {
    var s := t.handlers[i].snapshot;
    var o := s.key.operation;
    && (PreviousStillServing(s, t.handlers[i].rollback) ==>
          Serves(t.db.route.observed, t.db.environment.version))
    && (MayPublish(t.db, o) && Serves(t.db.route.observed, t.db.environment.version) ==>
          t.db.environment.version == Some(t.db.operations[o].version))
    && (forall j | 0 <= j < |t.handlers| && j != i :: !Rival(t.db, t.handlers[j], o))
  }

  /** The rows a failure leaves behind, as far as the route is concerned. */
  lemma FailRows(db: Database, s: Snapshot, reason: Reason, rollback: Rollback, key: Key)
    requires LockInv(db) && IsRunning(db, s.key.operation) && key in db.jobs && key.operation in db.operations
    ensures var next := FailManaged(db, s, reason, rollback);
            && next.route == db.route && next.environment.version == db.environment.version
            && key in next.jobs && key.operation in next.operations && !IsRunning(next, key.operation)
            && next.operations[key.operation].kind == db.operations[key.operation].kind
            && next.operations[key.operation].version == db.operations[key.operation].version
            && var status := db.jobs[key].row.status;
               next.jobs[key].row.status == if key.operation == s.key.operation && (status.Blocked? || status.Queued?)
                                            then JobLeases.Cancelled else status
  {}

  lemma CatchLeavesOrphan(db: Database, s: Snapshot, reason: Reason, rollback: Rollback)
    requires DatabaseInv(db) && GenerationInv(db) && OrphanInv(db) && QueuesRoute(s) && SnapshotInv(db, s)
    requires IsRunning(db, s.key.operation)
    ensures var o := s.key.operation;
            OrphanInv(FailManaged(db, s, reason, rollback))
            <==> (MayPublish(db, o) && Serves(db.route.observed, db.environment.version) ==>
                    db.environment.version == Some(db.operations[o].version))
  {
    if db.route.reconcileJob.Some? {
      var key := db.route.reconcileJob.value;
      assert JobInv(db, key, db.jobs[key]);
      OrphanAfterCatch(db, s, reason, rollback, key);
    }
  }

  lemma OrphanAfterCatch(db: Database, s: Snapshot, reason: Reason, rollback: Rollback, key: Key)
    requires LockInv(db) && GenerationInv(db) && OrphanInv(db) && QueuesRoute(s) && SnapshotInv(db, s)
    requires IsRunning(db, s.key.operation)
    requires db.route.reconcileJob == Some(key) && JobInv(db, key, db.jobs[key])
    ensures var o := s.key.operation;
            OrphanInv(FailManaged(db, s, reason, rollback))
            <==> (MayPublish(db, o) && Serves(db.route.observed, db.environment.version) ==>
                    db.environment.version == Some(db.operations[o].version))
  {
    FailRows(db, s, reason, rollback, key);
  }

  lemma CatchEnds(db: Database, s: Snapshot, reason: Reason, rollback: Rollback)
    requires DatabaseInv(db) && RouteInv(db) && SnapshotInv(db, s) && QueuesRoute(s)
    requires IsRunning(db, s.key.operation)
    ensures Ends(db, FailManaged(db, s, reason, rollback), s.key.operation)
  {
    QueuesRouteMeansReady(db, s);
    FailIsAnEnd(db, s, reason, rollback);
  }

  lemma CatchKeepsRoute(t: System, i: nat, next: Database)
    requires ServingInv(t) && i < |t.handlers| && Catches(t.db, t.handlers[i])
    requires next == HandlerStep(t.db, t.handlers[i]).0
    ensures Ends(t.db, next, t.handlers[i].snapshot.key.operation)
    ensures (RouteInv(next)
             && forall j | 0 <= j < |t.handlers| && j != i :: !Rival(t.db, t.handlers[j], t.handlers[i].snapshot.key.operation))
            <==> HarmlessCatch(t, i)
  {
    var h := t.handlers[i];
    var s := h.snapshot;
    assert HandlerInv(t.db, h) && PlaceInv(t.db, h);
    CatchEnds(t.db, s, h.reason, h.rollback);
    EndKeepsRoute(t.db, next, s.key.operation);
    FailServes(t.db, s, h.reason, h.rollback);
    CatchLeavesOrphan(t.db, s, h.reason, h.rollback);
  }

  lemma CatchKeepsOther(t: System, i: nat, next: Database, j: nat)
    requires ServingInv(t) && i < |t.handlers| && j < |t.handlers| && Catches(t.db, t.handlers[i])
    requires Ends(t.db, next, t.handlers[i].snapshot.key.operation)
    ensures KnowsInv(next, t.handlers[j])
    ensures PlaceInv(next, t.handlers[j]) <==> !Rival(t.db, t.handlers[j], t.handlers[i].snapshot.key.operation)
  {
    var s := t.handlers[i].snapshot;
    assert HandlerInv(t.db, t.handlers[i]) && PlaceInv(t.db, t.handlers[i]);
    assert HandlerInv(t.db, t.handlers[j]);
    assert Fits(t.db, t.handlers[j]);
    EndKeepsHandler(t.db, next, s.key.operation, t.handlers[j]);
  }

  lemma CatchNext(t: System, event: Event)
    requires ServingInv(t) && Sends(event) && event.handler < |t.handlers|
    requires Catches(t.db, t.handlers[event.handler])
    ensures var (next, g) := Act(t.db, t.handlers[event.handler], event); Fits(next, g)
  {
    var i := event.handler;
    assert HandlerInv(t.db, t.handlers[i]) && Fits(t.db, t.handlers[i]);
    CatchKeepsRoute(t, i, Act(t.db, t.handlers[i], event).0);
    CatchKeepsOther(t, i, Act(t.db, t.handlers[i], event).0, i);
    ActNext(t.db, t.handlers[i], event);
  }

  lemma CatchLands(t: System, event: Event)
    requires ServingInv(t) && Sends(event) && event.handler < |t.handlers|
    requires Catches(t.db, t.handlers[event.handler])
    ensures var next := Act(t.db, t.handlers[event.handler], event).0;
            (RouteInv(next) && forall j | 0 <= j < |t.handlers| && j != event.handler :: Fits(next, t.handlers[j]))
            <==> HarmlessCatch(t, event.handler)
  {
    var i := event.handler;
    var next := Act(t.db, t.handlers[i], event).0;
    CatchKeepsRoute(t, i, next);
    forall j | 0 <= j < |t.handlers|
      ensures Fits(next, t.handlers[j]) <==> !Rival(t.db, t.handlers[j], t.handlers[i].snapshot.key.operation)
    {
      CatchKeepsOther(t, i, next, j);
    }
  }

  lemma BaseAfter(t: System, event: Event)
    requires ServingInv(t)
    ensures BaseInv(Step(t, event))
  {
    StepKeeps(t, event);
  }

  lemma OneHandlerChanged(handlers: seq<Handler>, i: nat, db: Database, g: Handler)
    requires i < |handlers| && Fits(db, g) && BaseInv(System(db, handlers[i := g]))
    ensures ServingInv(System(db, handlers[i := g]))
            <==> (RouteInv(db) && forall j | 0 <= j < |handlers| && j != i :: Fits(db, handlers[j]))
  {
    assert forall j | 0 <= j < |handlers| && j != i :: handlers[i := g][j] == handlers[j];
  }

  lemma StepIsAct(t: System, event: Event) returns (next: Database, g: Handler)
    requires ServingInv(t) && Acts(event) && event.handler < |t.handlers|
    ensures (next, g) == Act(t.db, t.handlers[event.handler], event)
    ensures Step(t, event) == System(next, t.handlers[event.handler := g]) && BaseInv(Step(t, event))
  {
    BaseAfter(t, event);
    next := Act(t.db, t.handlers[event.handler], event).0;
    g := Act(t.db, t.handlers[event.handler], event).1;
  }

  /** The error handler keeps the invariant exactly if it is harmless. */
  lemma CatchIsHarmless(t: System, event: Event)
    requires ServingInv(t) && Sends(event) && event.handler < |t.handlers|
    requires Catches(t.db, t.handlers[event.handler])
    ensures ServingInv(Step(t, event)) <==> HarmlessCatch(t, event.handler)
  {
    var next, g := StepIsAct(t, event);
    CatchNext(t, event);
    CatchLands(t, event);
    OneHandlerChanged(t.handlers, event.handler, next, g);
  }

  // ----- every step, every run -----

  predicate HarmlessEvent(t: System, event: Event) {
    Sends(event) && event.handler < |t.handlers| && Catches(t.db, t.handlers[event.handler]) ==>
      HarmlessCatch(t, event.handler)
  }

  predicate HarmlessRun(t: System, events: seq<Event>)
    decreases |events|
  {
    events == [] || (HarmlessEvent(t, events[0]) && HarmlessRun(Step(t, events[0]), events[1..]))
  }

  lemma BeginKeepsOperations(db: Database, next: Database, o: OperationId, kind: OperationKind, version: string)
    requires DatabaseInv(db) && RouteInv(db) && o !in db.operations
    requires next == Step(System(db, []), Begin(o, kind, version)).db != db
    ensures OperationsInv(next)
  {
    forall p | p in next.operations ensures OwnRouteInv(next, p) && OrderInv(next, p) {
      if p == o {
        assert forall key :: key in db.jobs ==> JobInv(db, key, db.jobs[key]);
      } else {
        assert OwnRouteInv(db, p) && OrderInv(db, p);
      }
    }
  }

  lemma BeginKeepsHandler(db: Database, next: Database, o: OperationId, kind: OperationKind, version: string,
                          h: Handler)
    requires DatabaseInv(db) && o !in db.operations
    requires next == Step(System(db, []), Begin(o, kind, version)).db != db
    requires HandlerInv(db, h) && KnowsInv(db, h) && PlaceInv(db, h)
    ensures KnowsInv(next, h) && PlaceInv(next, h)
  {
    BeginKeepsPlace(db, next, o, kind, version, h);
  }

  lemma BeginKeepsPlace(db: Database, next: Database, o: OperationId, kind: OperationKind, version: string,
                        h: Handler)
    requires LockInv(db) && o !in db.operations && PlaceInv(db, h)
    requires next == Step(System(db, []), Begin(o, kind, version)).db != db
    ensures PlaceInv(next, h)
  {}

  lemma BeginKeepsServing(t: System, o: OperationId, kind: OperationKind, version: string)
    requires ServingInv(t)
    ensures ServingInv(Step(t, Begin(o, kind, version)))
  {
    var u := Step(t, Begin(o, kind, version));
    StepKeeps(t, Begin(o, kind, version));
    if u != t {
      BeginKeepsOperations(t.db, u.db, o, kind, version);
      forall j | 0 <= j < |u.handlers| ensures Fits(u.db, u.handlers[j]) {
        assert HandlerInv(t.db, t.handlers[j]);
        BeginKeepsHandler(t.db, u.db, o, kind, version, t.handlers[j]);
      }
    }
  }

  lemma MoveKeepsOthers(t: System, u: System, move: Move)
    requires ServingInv(t) && Explains(move, t.db, u.db)
    ensures RouteInv(u.db)
    ensures forall j | 0 <= j < |t.handlers| :: Fits(u.db, t.handlers[j])
  {
    MoveKeepsRoute(move, t.db, u.db);
    forall j | 0 <= j < |t.handlers| ensures Fits(u.db, t.handlers[j]) {
      assert HandlerInv(t.db, t.handlers[j]);
      MoveKeepsHandler(move, t.db, u.db, t.handlers[j]);
    }
  }

  lemma LeaseEventMove(t: System, key: Key, row: JobRow)
    requires ServingInv(t)
    ensures Quiet(t.db, Step(t, LeaseEvent(key, row)).db)
  {
    if key in t.db.jobs && LeaseMove(t.db.jobs[key].row, row) { JobMoveIsQuiet(t.db, key, row); }
  }

  lemma AdvanceMove(db: Database, o: OperationId, phase: Phase)
    requires DatabaseInv(db)
    ensures Quiet(db, AdvancePhase(db, o, phase))
  {
    AdvancePhaseKeeps(db, o, phase);
  }

  lemma SameHandlers(t: System, db: Database)
    requires ServingInv(t) && Quiet(t.db, db) && BaseInv(System(db, t.handlers))
    ensures ServingInv(System(db, t.handlers))
  {
    MoveKeepsOthers(t, System(db, t.handlers), Stay);
  }

  lemma LeaseEventKeepsServing(t: System, event: Event)
    requires ServingInv(t) && event.LeaseEvent?
    ensures ServingInv(Step(t, event))
  {
    StepKeeps(t, event);
    LeaseEventMove(t, event.key, event.row);
    SameHandlers(t, Step(t, event).db);
  }

  lemma AdvanceKeepsServing(t: System, event: Event)
    requires ServingInv(t) && event.Advance?
    ensures ServingInv(Step(t, event))
  {
    StepKeeps(t, event);
    AdvanceMove(t.db, event.operation, event.phase);
    SameHandlers(t, Step(t, event).db);
  }

  lemma RowEventKeepsServing(t: System, event: Event)
    requires ServingInv(t) && !Acts(event) && !event.Begin?
    ensures ServingInv(Step(t, event))
  {
    if event.LeaseEvent? {
      LeaseEventKeepsServing(t, event);
    } else if event.Advance? {
      AdvanceKeepsServing(t, event);
    } else {
      StepKeeps(t, event);
    }
  }

  lemma ActLands(t: System, i: nat, event: Event)
    requires ServingInv(t) && Acts(event) && i < |t.handlers|
    requires Sends(event) ==> !Catches(t.db, t.handlers[i])
    ensures var (db, g) := Act(t.db, t.handlers[i], event);
            && RouteInv(db) && Fits(db, g)
            && forall j | 0 <= j < |t.handlers| :: Fits(db, t.handlers[j])
  {
    assert HandlerInv(t.db, t.handlers[i]) && Fits(t.db, t.handlers[i]);
    var move := ActMove(t.db, t.handlers[i], event);
    MoveKeepsOthers(t, System(Act(t.db, t.handlers[i], event).0, []), move);
    ActNext(t.db, t.handlers[i], event);
  }

  lemma ActKeepsServing(t: System, event: Event)
    requires ServingInv(t) && Acts(event) && event.handler < |t.handlers|
    requires Sends(event) ==> !Catches(t.db, t.handlers[event.handler])
    ensures ServingInv(Step(t, event))
  {
    ActLands(t, event.handler, event);
    BaseAfter(t, event);
  }

  lemma StepKeepsServing(t: System, event: Event)
    requires ServingInv(t) && HarmlessEvent(t, event)
    ensures ServingInv(Step(t, event))
  {
    if Acts(event) {
      if event.handler < |t.handlers| {
        if Sends(event) && Catches(t.db, t.handlers[event.handler]) {
          CatchIsHarmless(t, event);
        } else {
          ActKeepsServing(t, event);
        }
      }
    } else if event.Begin? {
      BeginKeepsServing(t, event.operation, event.kind, event.version);
    } else {
      RowEventKeepsServing(t, event);
    }
  }

  lemma {:induction false} RunKeepsServing(t: System, events: seq<Event>)
    requires ServingInv(t) && HarmlessRun(t, events)
    ensures ServingInv(Run(t, events))
    decreases |events|
  {
    if events != [] {
      StepKeepsServing(t, events[0]);
      RunKeepsServing(Step(t, events[0]), events[1..]);
    }
  }

  /** Through every success, failure, crash and replay: whenever the environment is
      unlocked and marked running, its route was last observed active at exactly
      its version, as long as the error handlers that ran were harmless. */
  lemma RunningMeansServing(events: seq<Event>)
    requires HarmlessRun(Initial(true), events)
    ensures Serving(Run(Initial(true), events).db)
  {
    RunKeepsServing(Initial(true), events);
  }

  // ----- and the harmful ones -----

  /** Seen from a state that keeps the promise, an error handler that says the
      previous revision remains online breaks it: at once, if the route serves
      something else by now, or later, if the route job it leaves behind belongs
      to another revision. */
  lemma FalseClaimBreaks(t: System, i: nat)
    requires ServingInv(t) && i < |t.handlers| && Catches(t.db, t.handlers[i])
    requires PreviousStillServing(t.handlers[i].snapshot, t.handlers[i].rollback)
    requires !Serves(t.db.route.observed, t.db.environment.version)
    ensures !Serving(Step(t, StepHandler(i)).db)
  {
    var h := t.handlers[i];
    FailServes(t.db, h.snapshot, h.reason, h.rollback);
  }

  /** The Agent finishes the route job, unless it has, and the API observes that. */
  function RouteRuns(o: OperationId, row: JobRow, handlers: nat): seq<Event> {
    (if row.status.Succeeded? then [] else [LeaseEvent(RouteOf(o), row.(status := JobLeases.Succeeded))])
    + [Replay(RouteOf(o)), StepHandler(handlers)]
  }

  /** The route job is in the Agent's hands, or it succeeded and nobody has looked yet. */
  predicate UnderWay(job: Job) { job.row.status.Leased? || job.row.status.Succeeded? }

  lemma RunTwo(t: System, a: Event, b: Event)
    ensures Run(t, [a, b]) == Step(Step(t, a), b)
  {
    assert [a, b][1..] == [b] && [b][1..] == [];
    assert Run(t, [a, b]) == Run(Step(t, a), [b]);
    assert Run(Step(t, a), [b]) == Run(Step(Step(t, a), b), []);
  }

  lemma RunThree(t: System, a: Event, b: Event, c: Event)
    ensures Run(t, [a, b, c]) == Step(Step(Step(t, a), b), c)
  {
    assert [a, b, c][1..] == [b, c] && [b, c][1..] == [c] && [c][1..] == [];
    assert Run(t, [a, b, c]) == Run(Step(t, a), [b, c]);
    assert Run(Step(t, a), [b, c]) == Run(Step(Step(t, a), b), [c]);
    assert Run(Step(Step(t, a), b), [c]) == Run(Step(Step(Step(t, a), b), c), []);
  }

  lemma RouteRunsChangesTheRoute(t: System, o: OperationId)
    requires GenerationInv(t.db) && t.db.route.reconcileJob == Some(RouteOf(o))
    requires var job := t.db.jobs[RouteOf(o)];
             UnderWay(job) && job.payload.desired.Active?
    ensures var db := Run(t, RouteRuns(o, t.db.jobs[RouteOf(o)].row, |t.handlers|)).db;
            && db.environment == t.db.environment
            && db.route.observed.state.Active?
            && db.route.observed.revision == t.db.jobs[RouteOf(o)].payload.revision
  {
    var job := t.db.jobs[RouteOf(o)];
    var row := job.row.(status := JobLeases.Succeeded);
    if job.row.status.Succeeded? {
      assert RouteRuns(o, job.row, |t.handlers|) == [Replay(RouteOf(o)), StepHandler(|t.handlers|)];
      RunTwo(t, Replay(RouteOf(o)), StepHandler(|t.handlers|));
      RouteIsObserved(t, o);
    } else {
      assert RouteRuns(o, job.row, |t.handlers|)
          == [LeaseEvent(RouteOf(o), row), Replay(RouteOf(o)), StepHandler(|t.handlers|)];
      RunThree(t, LeaseEvent(RouteOf(o), row), Replay(RouteOf(o)), StepHandler(|t.handlers|));
      RouteIsObserved(Step(t, LeaseEvent(RouteOf(o), row)), o);
    }
  }

  lemma RouteIsObserved(t: System, o: OperationId)
    requires GenerationInv(t.db) && t.db.route.reconcileJob == Some(RouteOf(o))
    requires var job := t.db.jobs[RouteOf(o)];
             job.row.status.Succeeded? && job.payload.desired.Active?
    ensures var db := Step(Step(t, Replay(RouteOf(o))), StepHandler(|t.handlers|)).db;
            && db.environment == t.db.environment
            && db.route.observed.state.Active?
            && db.route.observed.revision == t.db.jobs[RouteOf(o)].payload.revision
  {
    var u := Step(t, Replay(RouteOf(o)));
    assert u.db == t.db && u.handlers[|t.handlers|] == Observing(RouteOf(o), None);
  }

  lemma LeftoverRouteIsActive(db: Database, h: Handler)
    requires DatabaseInv(db) && HandlerInv(db, h) && PlaceInv(db, h) && Catches(db, h)
    requires RouteOf(h.snapshot.key.operation) in db.jobs
    ensures var o := h.snapshot.key.operation;
            var payload := db.jobs[RouteOf(o)].payload;
            payload.RoutePayload? && payload.desired.Active? && payload.revision == Some(db.operations[o].version)
  {
    var o := h.snapshot.key.operation;
    assert JobInv(db, RouteOf(o), db.jobs[RouteOf(o)]) && SnapshotInv(db, h.snapshot);
  }

  lemma CatchLeavesRouteJob(db: Database, s: Snapshot, reason: Reason, rollback: Rollback)
    requires LockInv(db) && IsRunning(db, s.key.operation) && PreviousStillServing(s, rollback)
    requires RouteOf(s.key.operation) in db.jobs && UnderWay(db.jobs[RouteOf(s.key.operation)])
    ensures var next := FailManaged(db, s, reason, rollback);
            var key := RouteOf(s.key.operation);
            && next.route == db.route && key in next.jobs && next.jobs[key] == db.jobs[key]
            && next.environment.active.None? && next.environment.status.Up?
            && next.environment.version == db.environment.version
  {}

  lemma RouteRunsBreaks(u: System, o: OperationId)
    requires GenerationInv(u.db) && u.db.route.reconcileJob == Some(RouteOf(o))
    requires var job := u.db.jobs[RouteOf(o)];
             && UnderWay(job) && job.payload.desired.Active?
             && job.payload.revision != u.db.environment.version
    requires u.db.environment.active.None? && u.db.environment.status.Up?
    ensures !Serving(Run(u, RouteRuns(o, u.db.jobs[RouteOf(o)].row, |u.handlers|)).db)
  {
    RouteRunsChangesTheRoute(u, o);
  }

  lemma LeftoverRouteBreaks(t: System, i: nat)
    requires ServingInv(t) && i < |t.handlers| && Catches(t.db, t.handlers[i])
    requires var s := t.handlers[i].snapshot;
             var o := s.key.operation;
             && PreviousStillServing(s, t.handlers[i].rollback)
             && t.db.route.reconcileJob == Some(RouteOf(o)) && UnderWay(t.db.jobs[RouteOf(o)])
             && t.db.environment.version != Some(t.db.operations[o].version)
    ensures var o := t.handlers[i].snapshot.key.operation;
            !Serving(Run(Step(t, StepHandler(i)), RouteRuns(o, t.db.jobs[RouteOf(o)].row, |t.handlers|)).db)
  {
    var h := t.handlers[i];
    var s := h.snapshot;
    var o := s.key.operation;
    var u := Step(t, StepHandler(i));
    assert u.db == FailManaged(t.db, s, h.reason, h.rollback) && |u.handlers| == |t.handlers|;
    assert HandlerInv(t.db, h) && Fits(t.db, h);
    CatchLeavesRouteJob(t.db, s, h.reason, h.rollback);
    LeftoverRouteIsActive(t.db, h);
    RouteRunsBreaks(u, o);
  }

  lemma CatchLeavesUp(db: Database, s: Snapshot, reason: Reason, rollback: Rollback)
    requires LockInv(db) && IsRunning(db, s.key.operation) && PreviousStillServing(s, rollback)
    requires RouteOf(s.key.operation) !in db.jobs
    ensures var next := FailManaged(db, s, reason, rollback);
            && next.environment.active.None? && next.environment.status.Up?
            && next.environment.version == db.environment.version && next.managed == db.managed
            && s.key.operation in next.operations && RouteOf(s.key.operation) !in next.jobs
            && next.operations[s.key.operation].kind == db.operations[s.key.operation].kind
            && next.operations[s.key.operation].version == db.operations[s.key.operation].version
  {}

  /** The rival projection queues the route of an operation that is over, and the
      Agent claims it. */
  lemma RivalQueues(u: System, j: nat, s: Snapshot, outer: Option<Snapshot>) returns (v: System)
    requires u.db.managed && j < |u.handlers| && u.handlers[j] == Projected(s, outer) && QueuesRoute(s)
    requires var o := s.key.operation;
             o in u.db.operations && !Teardown(u.db.operations[o].kind) && RouteOf(o) !in u.db.jobs
    ensures var o := s.key.operation;
            var row := NewRow(JobLeases.GatewayRoute, JobLeases.Queued);
            && v == Step(Step(u, StepHandler(j)), LeaseEvent(RouteOf(o), row.(status := JobLeases.Leased)))
            && v.db.environment == u.db.environment
            && GenerationInv(v.db) && v.db.route.reconcileJob == Some(RouteOf(o))
            && v.db.jobs[RouteOf(o)].row.status.Leased? && v.db.jobs[RouteOf(o)].payload.desired.Active?
            && v.db.jobs[RouteOf(o)].payload.revision == Some(u.db.operations[o].version)
  {
    var o := s.key.operation;
    var row := NewRow(JobLeases.GatewayRoute, JobLeases.Queued);
    var w := Step(u, StepHandler(j));
    assert w.db == QueueRoute(u.db, o);
    v := Step(w, LeaseEvent(RouteOf(o), row.(status := JobLeases.Leased)));
  }

  /** The third condition: a rival projection that queues the route after the failure
      was recorded with another version online breaks the promise, once the Agent has
      published that route. */
  lemma RivalBreaks(t: System, i: nat, j: nat) returns (v: System)
    requires ServingInv(t) && i < |t.handlers| && j < |t.handlers| && i != j && Catches(t.db, t.handlers[i])
    requires var s := t.handlers[i].snapshot;
             var o := s.key.operation;
             && PreviousStillServing(s, t.handlers[i].rollback) && Rival(t.db, t.handlers[j], o)
             && t.db.environment.version != Some(t.db.operations[o].version)
    ensures var o := t.handlers[i].snapshot.key.operation;
            var row := NewRow(JobLeases.GatewayRoute, JobLeases.Queued);
            && v == Step(Step(Step(t, StepHandler(i)), StepHandler(j)),
                         LeaseEvent(RouteOf(o), row.(status := JobLeases.Leased)))
            && RouteOf(o) in v.db.jobs
            && !Serving(Run(v, RouteRuns(o, v.db.jobs[RouteOf(o)].row, |v.handlers|)).db)
  {
    var h := t.handlers[i];
    var o := h.snapshot.key.operation;
    assert HandlerInv(t.db, h) && Fits(t.db, h);
    CatchLeavesUp(t.db, h.snapshot, h.reason, h.rollback);
    var u := AfterCatch(t, i, j);
    v := RivalQueues(u, j, t.handlers[j].snapshot, t.handlers[j].outer);
    RouteRunsBreaks(v, o);
  }

  lemma AfterCatch(t: System, i: nat, j: nat) returns (u: System)
    requires i < |t.handlers| && j < |t.handlers| && i != j && Catches(t.db, t.handlers[i])
    ensures u == Step(t, StepHandler(i)) && |u.handlers| == |t.handlers| && u.handlers[j] == t.handlers[j]
    ensures u.db == FailManaged(t.db, t.handlers[i].snapshot, t.handlers[i].reason, t.handlers[i].rollback)
  {
    var h := t.handlers[i];
    u := Step(t, StepHandler(i));
    assert u == System(HandlerStep(t.db, h).0, t.handlers[i := HandlerStep(t.db, h).1]);
    assert HandlerStep(t.db, h).0 == FailManaged(t.db, h.snapshot, h.reason, h.rollback);
  }
}
