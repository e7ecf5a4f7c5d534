/** Publication of one build artifact under a generation-fenced, renewable lease:
    any number of API replicas claim, renew, publish, fail, recover and accept the
    row again, in any order. */
module ArtifactFence {
  import opened Common

  const EXECUTION_LEASE_MS := 90_000

  type Instance = nat

  datatype Status = Accepted | Ingesting | Available | Failed

  datatype Row = Row(status: Status, owner: Option<Instance>, generation: nat, expires: Option<int>,
                     storageRef: Option<string>, created: int)

  /** What a worker got with its claim. */
  datatype Worker = Worker(instance: Instance, generation: nat)

  datatype Event =
    | Accept
    | Claim(instance: Instance, now: int)
    | Renew(worker: Worker, now: int)
    | Publish(worker: Worker, storageRef: string)
    | Fail(worker: Worker)
    | Release(worker: Worker)
    | Recover(seen: Row, now: int)   // `seen` was read before

  predicate Holds(row: Row, worker: Worker) {
    row.status.Ingesting? && row.owner == Some(worker.instance) && row.generation == worker.generation
  }

  predicate MayClaim(row: Row) { (row.status.Accepted? || row.status.Failed?) && row.owner.None? }

  predicate MayRenew(row: Row, worker: Worker, now: int) {
    Holds(row, worker) && row.expires.Some? && row.expires.value > now
  }

  predicate Abandoned(row: Row, now: int) {
    || (row.expires.Some? && row.expires.value <= now)
    || (row.owner.None? && row.expires.None? && row.created <= now - EXECUTION_LEASE_MS)
  }

  /** Which rows recovery looks at, and what it then checks again. */
  predicate Interrupted(row: Row, now: int) {
    || (row.status.Ingesting? && Abandoned(row, now))
    || (row.status.Accepted? && row.owner.None? && row.expires.None? && row.created <= now - EXECUTION_LEASE_MS)
  }

  predicate MayRecover(row: Row, seen: Row, now: int) {
    && Interrupted(seen, now)
    && row.status == seen.status && row.owner == seen.owner && row.generation == seen.generation
    && Abandoned(row, now)
  }

  function Step(row: Row, event: Event): Row {
    match event
    case Accept => row.(status := Accepted, owner := None, expires := None, storageRef := None)
    case Claim(instance, now) =>
      if MayClaim(row)
      then row.(status := Ingesting, owner := Some(instance), generation := row.generation + 1,
                expires := Some(now + EXECUTION_LEASE_MS))
      else row
    case Renew(worker, now) =>
      if MayRenew(row, worker, now) then row.(expires := Some(now + EXECUTION_LEASE_MS)) else row
    case Publish(worker, storageRef) =>
      if Holds(row, worker)
      then row.(status := Available, storageRef := Some(storageRef), owner := None, expires := None) else row
    case Fail(worker) =>
      if Holds(row, worker)
      then row.(status := Failed, storageRef := None, owner := None, expires := None) else row
    case Release(worker) => if Holds(row, worker) then row.(owner := None, expires := None) else row
    case Recover(seen, now) =>
      if MayRecover(row, seen, now)
      then row.(status := Failed, storageRef := None, owner := None, expires := None) else row
  }

  function Run(row: Row, events: seq<Event>): Row
    decreases |events|
  {
    if events == [] then row else Run(Step(row, events[0]), events[1..])
  }

  lemma {:induction false} RunOn(row: Row, first: seq<Event>, second: seq<Event>)
    ensures Run(row, first + second) == Run(Run(row, first), second)
    decreases |first|
  {
    if first == [] {
      assert first + second == second;
    } else {
      assert (first + second)[1..] == first[1..] + second;
      RunOn(Step(row, first[0]), first[1..], second);
    }
  }

  // ----- what every run keeps -----

  /** An object is referenced exactly while the artifact is available; an owner has a
      lease and is at work. */
  predicate Inv(row: Row) {
    && (row.storageRef.Some? <==> row.status.Available?)
    && (row.owner.Some? <==> row.expires.Some?)
    && (row.owner.Some? ==> row.status.Ingesting?)
  }

  lemma {:induction false} RunKeeps(row: Row, events: seq<Event>)
    requires Inv(row)
    ensures Inv(Run(row, events)) && row.generation <= Run(row, events).generation
    decreases |events|
  {
    if events != [] { RunKeeps(Step(row, events[0]), events[1..]); }
  }

  /** Who may move the row to available or to failed: the worker that holds it now,
      or, to failed only, recovery once nobody works on it under a live lease. */
  lemma OnlyTheHolderSettles(row: Row, event: Event)
    requires Inv(row)
    ensures var next := Step(row, event);
            && (next.status.Available? && !row.status.Available? ==>
                  event.Publish? && Holds(row, event.worker) && next.storageRef == Some(event.storageRef))
            && (next.status.Failed? && !row.status.Failed? ==>
                  || (event.Fail? && Holds(row, event.worker))
                  || (event.Recover? && (row.owner.Some? ==> row.expires.value <= event.now)
                      && (row.status.Ingesting? || row.status.Accepted?)))
  {}

  // ----- stale workers -----

  predicate WorkerOf(event: Event, worker: Worker) {
    (event.Renew? || event.Publish? || event.Fail? || event.Release?) && event.worker == worker
  }

  /** The worker was issued its generation, and does not hold the row any more. */
  predicate Stale(row: Row, worker: Worker) { worker.generation <= row.generation && !Holds(row, worker) }

  lemma StaleChangesNothing(row: Row, event: Event, worker: Worker)
    requires Stale(row, worker) && WorkerOf(event, worker)
    ensures Step(row, event) == row
  {}

  /** A worker that lost the row never gets it back, so nothing it sends, whenever it
      arrives, changes the row. */
  lemma {:induction false} StaleForever(row: Row, worker: Worker, events: seq<Event>, late: Event)
    requires Stale(row, worker) && WorkerOf(late, worker)
    ensures Stale(Run(row, events), worker) && Step(Run(row, events), late) == Run(row, events)
    decreases |events|
  {
    if events == [] {
      StaleChangesNothing(row, late, worker);
    } else {
      StaleForever(Step(row, events[0]), worker, events[1..], late);
    }
  }

  // ----- each generation settles once -----

  /** A worker's own publication or failure, taken by the row. */
  predicate Settles(row: Row, event: Event) {
    (event.Publish? || event.Fail?) && Holds(row, event.worker)
  }

  /** The generations that workers settled in a run, in order. */
  function Settled(row: Row, events: seq<Event>): seq<nat>
    decreases |events|
  {
    if events == [] then []
    else (if Settles(row, events[0]) then [row.generation] else []) + Settled(Step(row, events[0]), events[1..])
  }

  predicate Increasing(s: seq<nat>) { forall i, j | 0 <= i < j < |s| :: s[i] < s[j] }

  /** The first generation that can still be settled. */
  function Next(row: Row): nat {
    if row.status.Ingesting? && row.owner.Some? then row.generation else row.generation + 1
  }

  lemma NextGrows(row: Row, event: Event)
    requires Inv(row)
    ensures Inv(Step(row, event)) && Next(row) <= Next(Step(row, event))
    ensures Settles(row, event) ==> row.generation == Next(row) < Next(Step(row, event))
  {}

  /** In every run the generations settled by workers strictly increase: no
      generation is settled twice, whoever tries. */
  lemma {:induction false} GenerationsSettleOnce(row: Row, events: seq<Event>)
    requires Inv(row)
    ensures Increasing(Settled(row, events))
    ensures forall i | 0 <= i < |Settled(row, events)| :: Next(row) <= Settled(row, events)[i]
    decreases |events|
  {
    if events != [] {
      NextGrows(row, events[0]);
      GenerationsSettleOnce(Step(row, events[0]), events[1..]);
    }
  }

  /** Recovery decides on a row it read earlier: it changes nothing if the row was
      claimed, settled or renewed in between. */
  lemma RecoveryIsNotFooled(seen: Row, events: seq<Event>, now: int)
    requires Inv(seen)
    ensures var row := Run(seen, events);
            Step(row, Recover(seen, now)) != row ==>
              && row.generation == seen.generation && row.status == seen.status && row.owner == seen.owner
              && (row.owner.Some? ==> row.expires.value <= now)
  {
    RunKeeps(seen, events);
  }

  // ----- a worker at work -----

  /** One call of a worker: how it ends, and what others do to the row before it. */
  datatype Turn = Turn(fate: Fate, others: seq<Event>, now: int)

  /** The turn of call `i`; when the turns are used up, nobody interferes any more. */
  function TurnAt(turns: seq<Turn>, i: nat): Turn {
    if i < |turns| then turns[i] else Turn(Done, [], 0)
  }

  /** The `n` calls from call `from` on succeed, and nobody interferes. */
  predicate Calm(turns: seq<Turn>, from: nat, n: nat) {
    forall i | from <= i < from + n :: TurnAt(turns, i).fate.Done? && TurnAt(turns, i).others == []
  }

  /** This call alone fails. */
  predicate Fails(turns: seq<Turn>, i: nat) {
    (TurnAt(turns, i).fate.Refused? || TurnAt(turns, i).fate.Late?) && TurnAt(turns, i).others == []
  }

  /** Of the calls from `from` on, the one that is `after` calls later fails, nobody
      interferes, and the others succeed up to the three that record the failure. */
  predicate FailsAlone(turns: seq<Turn>, from: nat, after: nat) {
    Calm(turns, from, after) && Fails(turns, from + after) && Calm(turns, from + after + 1, 3)
  }

  function ExitOf(fate: Fate): Exit {
    match fate
    case Done => Returned
    case Killed => Died
    case _ => Threw
  }

  datatype Verdict = Stored | Rejected | Abandons | Crashed

  /** A worker from its claim to its release. `trace` is everything that happened to
      the row meanwhile. */
  class ArtifactIngestion {
    var row: Row
    const turns: seq<Turn>
    var next: nat             // the next call to be made
    var lost: bool
    var completed: bool
    ghost var trace: seq<Event>
    ghost const origin: Row

    ghost predicate Valid()
      reads this
    {
      row == Run(origin, trace)
    }

    method Happen(events: seq<Event>)
      requires Valid()
      modifies `row, `trace
      ensures Valid() && trace == old(trace) + events && row == Run(old(row), events)
    {
      ghost var before := row;
      for i := 0 to |events|
        invariant row == Run(before, events[..i]) && trace == old(trace)
      {
        RunOn(before, events[..i], [events[i]]);
        assert events[..i + 1] == events[..i] + [events[i]];
        assert [events[i]][1..] == [];
        row := Step(row, events[i]);
      }
      assert events[..|events|] == events;
      RunOn(origin, trace, events);
      trace := trace + events;
    }

    /** Others act, then this call arrives. */
    method Arrive() returns (turn: Turn)
      requires Valid()
      modifies `row, `next, `trace
      ensures Valid() && old(trace) <= trace && turn == TurnAt(turns, old(next)) && next == old(next) + 1
      ensures TurnAt(turns, old(next)).others == [] ==> row == old(row)
    {
      turn := TurnAt(turns, next);
      next := next + 1;
      Happen(turn.others);
    }

    /** One guarded write of this worker. */
    method Send(event: Event) returns (exit: Exit, count: nat)
      requires Valid()
      modifies `row, `next, `trace
      ensures Valid() && old(trace) <= trace
      ensures exit.Returned? ==>
                && trace != [] && trace[|trace| - 1] == event && count <= 1
                && (count == 1 <==> Run(origin, trace[..|trace| - 1]) != row)
      ensures next == old(next) + 1
      ensures exit.Returned? <==> TurnAt(turns, old(next)).fate.Done?
      ensures Calm(turns, old(next), 1) ==> row == Step(old(row), event) && (count == 1 <==> row != old(row))
    {
      count := 0;
      assert Calm(turns, next, 1) ==> TurnAt(turns, next).others == [];
      var turn := Arrive();
      if turn.fate.Killed? { return Died, count; }
      if turn.fate.Refused? { return Threw, count; }
      var before := row;
      Happen([event]);
      assert trace[..|trace| - 1] + [event] == trace;
      RunOn(origin, trace[..|trace| - 1], [event]);
      assert [event][1..] == [];
      assert Run(before, [event]) == Run(Step(before, event), []);
      count := if before != row then 1 else 0;
      exit := if turn.fate.Done? then Returned else Threw;
    }

    /** The last thing in the trace is a renewal, and the row took it. */
    ghost predicate JustRenewed(worker: Worker, now: int)
      reads this
    {
      && trace != [] && trace[|trace| - 1] == Renew(worker, now)
      && MayRenew(Run(origin, trace[..|trace| - 1]), worker, now)
    }

    /** Renews, or notes that the row is lost. */
    method Assert(worker: Worker, now: int) returns (exit: Exit)
      requires Valid()
      modifies this
      ensures Valid() && old(trace) <= trace && completed == old(completed) && (old(lost) ==> lost)
      ensures exit.Returned? && !completed ==> !lost && JustRenewed(worker, now)
      ensures Calm(turns, old(next), 1) && !completed && !old(lost) && MayRenew(old(row), worker, now) ==>
                exit.Returned? && next == old(next) + 1 && MayRenew(row, worker, now)
    {
      if completed { return Returned; }
      if lost { return Threw; }
      assert Calm(turns, next, 1) ==> TurnAt(turns, next).fate.Done? && TurnAt(turns, next).others == [];
      var turn := Arrive();
      if turn.fate.Killed? { return Died; }
      if turn.fate.Refused? { return Threw; }
      var renewed := MayRenew(row, worker, now);
      if renewed {
        ghost var before := trace;
        ghost var seen := row;
        Happen([Renew(worker, now)]);
        assert trace[..|trace| - 1] == before;
        assert [Renew(worker, now)][1..] == [];
        assert row == Run(Step(seen, Renew(worker, now)), []);
      }
      if turn.fate.Late? { return Threw; }
      lost := !renewed;
      return if renewed then Returned else Threw;
    }

    /** A call outside the database. */
    method Outside() returns (exit: Exit)
      requires Valid()
      modifies `row, `next, `trace
      ensures Valid() && old(trace) <= trace
      ensures next == old(next) + 1 && exit == ExitOf(TurnAt(turns, old(next)).fate)
      ensures TurnAt(turns, old(next)).others == [] ==> row == old(row)
    {
      var turn := Arrive();
      exit := ExitOf(turn.fate);
    }

    /** This worker holds the row under a live lease, and has not noticed otherwise. */
    ghost predicate Owns(worker: Worker, now: int)
      reads this
    {
      !lost && MayRenew(row, worker, now)
    }

    /** Downloads, verifies, uploads, warms the local daemon: each followed by a renewal;
        then publishes. `keyed` says that the object has its key by then. */
    method Attempt(worker: Worker, storageRef: string, now: int, ghost fault: nat) returns (exit: Exit, keyed: bool)
      requires Valid() && !completed
      modifies this
      ensures Valid() && old(trace) <= trace
      ensures completed ==> exit.Returned? && TookOwn(Publish(worker, storageRef))
      ensures exit.Returned? ==> completed
      ensures old(Owns(worker, now)) && Calm(turns, old(next), 9) ==> exit.Returned?
      ensures old(Owns(worker, now)) && fault < 4 && Calm(turns, old(next), 2 * fault)
              && Fails(turns, old(next) + 2 * fault) ==>
                exit.Threw? && next == old(next) + 2 * fault + 1 && Owns(worker, now) && keyed == (fault >= 2)
    {
      ghost var began := next;
      keyed := false;
      for i := 0 to 4
        invariant Valid() && old(trace) <= trace && !completed && keyed == (i > 2)
        invariant old(Owns(worker, now)) && Calm(turns, began, 2 * i) ==> next == began + 2 * i && Owns(worker, now)
        invariant fault < i ==>
                    !(old(Owns(worker, now)) && Calm(turns, began, 2 * fault) && Fails(turns, began + 2 * fault))
      {
        keyed := keyed || i == 2;
        assert Calm(turns, began, 2 * i + 2) ==>
            && Calm(turns, began, 2 * i) && Calm(turns, began + 2 * i + 1, 1)
            && TurnAt(turns, began + 2 * i).fate.Done?;
        assert fault > i && Calm(turns, began, 2 * fault) ==>
            Calm(turns, began, 2 * i) && TurnAt(turns, began + 2 * i).fate.Done?;
        exit := Outside();
        if !exit.Returned? { return; }
        exit := Assert(worker, now);
        if !exit.Returned? { return; }
      }
      assert Calm(turns, began, 9) ==> Calm(turns, began, 8) && Calm(turns, began + 8, 1);
      var count;
      exit, count := Send(Publish(worker, storageRef));
      if !exit.Returned? { return; }
      if count != 1 { return Threw, keyed; }
      completed := true;
      SettledByOwnWrite(Publish(worker, storageRef));
    }

    /** The last thing in the trace is this write, and the row took it. */
    ghost predicate TookOwn(event: Event)
      reads this
    {
      && trace != [] && trace[|trace| - 1] == event
      && Settles(Run(origin, trace[..|trace| - 1]), event)
    }

    lemma SettledByOwnWrite(event: Event)
      requires Valid() && trace != [] && trace[|trace| - 1] == event && (event.Publish? || event.Fail?)
      requires Run(origin, trace[..|trace| - 1]) != row
      ensures TookOwn(event)
    {
      RunOn(origin, trace[..|trace| - 1], [event]);
      assert trace[..|trace| - 1] + [event] == trace;
      assert [event][1..] == [];
    }

    /** Publishes, or records the failure if the row is still held. What it reports
        is what it did: a stored or rejected artifact was settled by this worker's
        own write while it held the row, and afterwards the worker is done. A worker
        that holds the row, with nobody interfering, stores its artifact if no call
        fails, and records the failure if one outside the database does. */
    method IngestOwned(worker: Worker, storageRef: string, now: int, ghost fault: nat) returns (verdict: Verdict)
      requires Valid() && !completed
      modifies this
      ensures Valid() && old(trace) <= trace
      ensures verdict.Stored? ==> completed && TookOwn(Publish(worker, storageRef))
      ensures verdict.Rejected? ==> completed && TookOwn(Fail(worker))
      ensures verdict.Abandons? || verdict.Crashed? ==> !completed
      ensures old(Owns(worker, now)) && Calm(turns, old(next), 9) ==> verdict.Stored?
      ensures old(Owns(worker, now)) && fault < 4 && FailsAlone(turns, old(next), 2 * fault) ==> verdict.Rejected?
    {
      ghost var failed := next + 2 * fault;
      assert FailsAlone(turns, next, 2 * fault) ==>
          Calm(turns, failed + 1, 1) && Calm(turns, failed + 2, 1) && Calm(turns, failed + 3, 1);
      var exit, keyed := Attempt(worker, storageRef, now, fault);
      if exit.Returned? { return Stored; }
      if exit.Died? { return Crashed; }
      exit := Assert(worker, now);
      if !exit.Returned? { return if exit.Died? then Crashed else Abandons; }
      if keyed {
        exit := Outside();   // take the partial object away
        if exit.Died? { return Crashed; }
      }
      var count;
      exit, count := Send(Fail(worker));
      if exit.Died? { return Crashed; }
      if !exit.Returned? || count != 1 { return Abandons; }
      completed := true;
      SettledByOwnWrite(Fail(worker));
      return Rejected;
    }

    /** Claims the row, ingests, and lets go of the row unless it settled it. */
    method Execute(instance: Instance, storageRef: string, now: int, ghost fault: nat)
      returns (verdict: Option<Verdict>, worker: Worker)
      requires Valid()
      modifies this
      ensures Valid() && old(trace) <= trace
      ensures verdict == Some(Stored) ==> TookOwn(Publish(worker, storageRef))
      ensures verdict == Some(Rejected) ==> TookOwn(Fail(worker))
      ensures worker.instance == instance
      // What it abandons it releases, if that call succeeds.
      ensures verdict == Some(Abandons) && next > 0 && TurnAt(turns, next - 1).fate.Done? ==>
                trace != [] && trace[|trace| - 1] == Release(worker) && !Holds(row, worker)
      ensures MayClaim(old(row)) && Calm(turns, old(next), 10) ==> verdict == Some(Stored)
      ensures MayClaim(old(row)) && Calm(turns, old(next), 1)
              && fault < 4 && FailsAlone(turns, old(next) + 1, 2 * fault) ==>
                verdict == Some(Rejected)
    {
      assert Calm(turns, next, 10) ==> Calm(turns, next, 1) && Calm(turns, next + 1, 9);
      lost, completed := false, false;
      worker := Worker(instance, row.generation);
      var exit, count := Send(Claim(instance, now));
      if !exit.Returned? || count != 1 { return None, worker; }
      worker := Worker(instance, row.generation);
      var answer := IngestOwned(worker, storageRef, now, fault);
      verdict := Some(answer);
      if !completed && !answer.Crashed? {
        exit, count := Send(Release(worker));
        if exit.Returned? { Released(worker); }
      }
    }

    lemma Released(worker: Worker)
      requires Valid() && trace != [] && trace[|trace| - 1] == Release(worker)
      ensures !Holds(row, worker)
    {
      RunOn(origin, trace[..|trace| - 1], [Release(worker)]);
      assert trace[..|trace| - 1] + [Release(worker)] == trace;
      assert [Release(worker)][1..] == [];
      var before := Run(origin, trace[..|trace| - 1]);
      assert Run(before, [Release(worker)]) == Run(Step(before, Release(worker)), []);
    }

    constructor (row: Row, turns: seq<Turn>)
      ensures Valid() && this.row == row && trace == []
    {
      this.row, this.turns, this.next, this.lost, this.completed := row, turns, 0, false, false;
      this.trace, this.origin := [], row;
    }
  }
}
