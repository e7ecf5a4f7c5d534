/** Delivery of queued e-mail: rows are claimed with a lock that goes stale, sent, or
    scheduled again with growing delays. */
module MailOutbox {
  import opened Common

  const LEASE_TIMEOUT_MS := 300_000
  const MAX_ATTEMPTS := 8
  const MAX_BATCH_SIZE := 20
  const FIRST_DELAY_MS := 15_000
  const LONGEST_DELAY_MS := 3_600_000

  type Worker = nat

  datatype Status = Pending | Sending | Sent | Failed

  datatype Row = Row(status: Status, attempts: nat, payload: string, availableAt: int,
                     lockedAt: Option<int>, lockOwner: Option<Worker>)

  function Power(n: nat): nat { if n == 0 then 1 else 2 * Power(n - 1) }

  /** The delay after the `attempts`-th attempt failed. */
  function Delay(attempts: nat): int {
    Min(LONGEST_DELAY_MS, FIRST_DELAY_MS * Power(if attempts == 0 then 0 else attempts - 1))
  }

  /** The delays after the first `n` attempts. */
  function Delays(n: nat): int { if n == 0 then 0 else Delays(n - 1) + Delay(n) }

  predicate Claimable(row: Row, now: int) {
    || (row.status.Pending? && row.availableAt <= now)
    || (row.status.Sending? && row.lockedAt.Some? && row.lockedAt.value <= now - LEASE_TIMEOUT_MS)
  }

  predicate Holds(row: Row, worker: Worker) { row.status.Sending? && row.lockOwner == Some(worker) }

  function Claimed(row: Row, worker: Worker, now: int): Row {
    row.(status := Sending, lockedAt := Some(now), lockOwner := Some(worker), attempts := row.attempts + 1)
  }

  function Delivered(row: Row): Row {
    row.(status := Sent, payload := "", lockedAt := None, lockOwner := None)
  }

  /** `message` is the row as the worker read it after its claim. */
  function Bounced(row: Row, message: Row, now: int): Row {
    if message.attempts >= MAX_ATTEMPTS
    then row.(status := Failed, availableAt := message.availableAt, payload := "", lockedAt := None, lockOwner := None)
    else row.(status := Pending, availableAt := now + Delay(message.attempts), payload := message.payload,
              lockedAt := None, lockOwner := None)
  }

  // ----- one row and all its workers -----

  datatype Event =
    | Claim(worker: Worker, now: int)
    | Read(worker: Worker)
    | Deliver(worker: Worker)
    | Bounce(worker: Worker, now: int)

  /** `messages`: what each worker last read. `scheduled`: the delays granted so far. */
  datatype System = System(row: Row, messages: map<Worker, Row>, scheduled: int)

  function Step(t: System, event: Event): System {
    match event
    case Claim(worker, now) =>
      if Claimable(t.row, now)
      then t.(row := Claimed(t.row, worker, now), messages := t.messages - {worker}) else t
    case Read(worker) => t.(messages := t.messages[worker := t.row])
    case Deliver(worker) => if Holds(t.row, worker) then t.(row := Delivered(t.row)) else t
    case Bounce(worker, now) =>
      if worker in t.messages && Holds(t.row, worker)
      then t.(row := Bounced(t.row, t.messages[worker], now),
              scheduled := if t.messages[worker].attempts >= MAX_ATTEMPTS then t.scheduled
                           else t.scheduled + Delay(t.messages[worker].attempts))
      else t
  }

  function Run(t: System, events: seq<Event>): System
    decreases |events|
  {
    if events == [] then t else Run(Step(t, events[0]), events[1..])
  }

  predicate Queued(t: System) {
    && t.row.status.Pending? && t.row.attempts == 0 && t.row.payload != "" && t.row.lockOwner.None?
    && t.row.lockedAt.None? && t.messages == map[] && t.scheduled == 0
  }

  /** A row has a payload exactly while it waits or is being sent, a lock exactly while
      it is being sent, and its holder has read it as it is. */
  predicate Inv(t: System) {
    && (t.row.payload != "" <==> t.row.status.Pending? || t.row.status.Sending?)
    && (t.row.status.Sending? <==> t.row.lockOwner.Some?)
    && (t.row.lockOwner.Some? <==> t.row.lockedAt.Some?)
    && (forall worker | worker in t.messages && Holds(t.row, worker) :: t.messages[worker] == t.row)
  }

  lemma {:induction false} RunKeeps(t: System, events: seq<Event>)
    requires Inv(t)
    ensures Inv(Run(t, events))
    decreases |events|
  {
    if events != [] { RunKeeps(Step(t, events[0]), events[1..]); }
  }

  /** Once sent or failed, a message stays so, without its payload. */
  lemma {:induction false} OverIsOver(t: System, events: seq<Event>)
    requires Inv(t) && (t.row.status.Sent? || t.row.status.Failed?)
    ensures Run(t, events).row == t.row && t.row.payload == ""
    decreases |events|
  {
    if events != [] { OverIsOver(Step(t, events[0]), events[1..]); }
  }

  /** A worker that lost its claim changes nothing until it claims again, whatever
      happens in between. */
  lemma {:induction false} LostClaimIsHarmless(t: System, worker: Worker, events: seq<Event>, late: Event)
    requires !Holds(t.row, worker)
    requires forall i | 0 <= i < |events| :: !(events[i].Claim? && events[i].worker == worker)
    requires (late.Deliver? || late.Bounce?) && late.worker == worker
    ensures Step(Run(t, events), late) == Run(t, events)
    decreases |events|
  {
    if events != [] { LostClaimIsHarmless(Step(t, events[0]), worker, events[1..], late); }
  }

  // ----- crash-free runs -----

  /** No lock goes stale: every claim is of a row that waits. */
  predicate CrashFree(t: System, events: seq<Event>)
    decreases |events|
  {
    events == []
    || ((events[0].Claim? && Claimable(t.row, events[0].now) ==> t.row.status.Pending?)
        && CrashFree(Step(t, events[0]), events[1..]))
  }

  /** How many attempts were made, and what was scheduled for them. */
  predicate Budget(t: System) {
    && t.row.attempts <= MAX_ATTEMPTS
    && (t.row.status.Pending? ==> t.row.attempts < MAX_ATTEMPTS && t.scheduled == Delays(t.row.attempts))
    && (!t.row.status.Pending? ==>
          t.row.attempts > 0 && t.scheduled == Delays(t.row.attempts - 1))
  }

  lemma {:induction false} CrashFreeKeepsBudget(t: System, events: seq<Event>)
    requires Inv(t) && Budget(t) && CrashFree(t, events)
    ensures Budget(Run(t, events))
    decreases |events|
  {
    if events != [] {
      RunKeeps(t, [events[0]]);
      OneStep(t, events[0]);
      CrashFreeKeepsBudget(Step(t, events[0]), events[1..]);
    }
  }

  lemma OneStep(t: System, event: Event)
    ensures Run(t, [event]) == Step(t, event)
  {
    assert [event][1..] == [];
    assert Run(t, [event]) == Run(Step(t, event), []);
  }

  lemma {:induction false} DelaysGrow(a: nat, b: nat)
    requires a <= b
    ensures 0 <= Delays(a) <= Delays(b)
    decreases b
  {
    PowerIsPositive(if b == 0 then 0 else b - 1);
    if a < b { DelaysGrow(a, b - 1); } else if b > 0 { DelaysGrow(b - 1, b - 1); }
  }

  lemma {:induction false} PowerIsPositive(n: nat)
    ensures Power(n) > 0
  {
    if n > 0 { PowerIsPositive(n - 1); }
  }

  lemma SevenDelays()
    ensures Delays(7) == 1_905_000
  {
    assert Power(0) == 1 && Power(1) == 2 && Power(2) == 4 && Power(3) == 8;
    assert Power(4) == 16 && Power(5) == 32 && Power(6) == 64;
    assert Delays(1) == 15_000 && Delays(2) == 45_000 && Delays(3) == 105_000;
    assert Delays(4) == 225_000 && Delays(5) == 465_000 && Delays(6) == 945_000;
  }

  /** Without crashes a message takes at most eight attempts, the last of which ends
      it, and at most 1905 seconds of scheduled delays. */
  lemma EightAttempts(t: System, events: seq<Event>)
    requires Queued(t) && CrashFree(t, events)
    ensures var u := Run(t, events);
            && u.row.attempts <= MAX_ATTEMPTS && 0 <= u.scheduled <= 1_905_000
            && (u.row.attempts == MAX_ATTEMPTS ==> !u.row.status.Pending?)
            && (u.row.payload != "" <==> u.row.status.Pending? || u.row.status.Sending?)
  {
    RunKeeps(t, events);
    CrashFreeKeepsBudget(t, events);
    var u := Run(t, events);
    var n: nat := if u.row.status.Pending? then u.row.attempts else u.row.attempts - 1;
    DelaysGrow(n, 7);
    SevenDelays();
  }

  // ----- runs with crashes -----

  /** Claims by a worker that dies each time before it has sent anything. */
  function Crashes(worker: Worker, start: int, n: nat): seq<Event>
    decreases n
  {
    if n == 0 then [] else [Claim(worker, start)] + Crashes(worker, start + LEASE_TIMEOUT_MS, n - 1)
  }

  lemma {:induction false} CrashesClaim(t: System, worker: Worker, start: int, n: nat)
    requires Claimable(t.row, start)
    ensures Run(t, Crashes(worker, start, n)).row.attempts == t.row.attempts + n
    decreases n
  {
    if n > 0 {
      assert Crashes(worker, start, n)[1..] == Crashes(worker, start + LEASE_TIMEOUT_MS, n - 1);
      CrashesClaim(Step(t, Claim(worker, start)), worker, start + LEASE_TIMEOUT_MS, n - 1);
    }
  }

  /** A worker that dies while sending costs an attempt, and nothing bounds how often:
      from a queued message every number of attempts is reached. */
  lemma CrashesAddAttempts(t: System, worker: Worker, n: nat)
    requires Queued(t)
    ensures exists events :: Run(t, events).row.attempts == n
  {
    CrashesClaim(t, worker, t.row.availableAt, n);
  }

  /** Some event claims a row whose last attempt is being made, because its lock has
      gone stale. */
  predicate ClaimsBeyond(t: System, events: seq<Event>)
    decreases |events|
  {
    events != []
    && ((events[0].Claim? && Claimable(t.row, events[0].now) && t.row.status.Sending?
         && t.row.attempts == MAX_ATTEMPTS)
        || ClaimsBeyond(Step(t, events[0]), events[1..]))
  }

  /** A message takes more than eight attempts exactly if the lock of its eighth goes
      stale and is claimed. */
  lemma MoreThanEightAttempts(t: System, events: seq<Event>)
    requires Queued(t)
    ensures Run(t, events).row.attempts > MAX_ATTEMPTS <==> ClaimsBeyond(t, events)
  {
    BeyondIffClaimed(t, events);
  }

  lemma {:induction false} BeyondIffClaimed(t: System, events: seq<Event>)
    requires Inv(t) && t.row.attempts <= MAX_ATTEMPTS && (t.row.status.Pending? ==> t.row.attempts < MAX_ATTEMPTS)
    ensures Run(t, events).row.attempts > MAX_ATTEMPTS <==> ClaimsBeyond(t, events)
    decreases |events|
  {
    if events != [] {
      var u := Step(t, events[0]);
      RunKeeps(t, [events[0]]);
      OneStep(t, events[0]);
      if u.row.attempts <= MAX_ATTEMPTS {
        BeyondIffClaimed(u, events[1..]);
      } else {
        AttemptsGrow(u, events[1..]);
      }
    }
  }

  lemma {:induction false} AttemptsGrow(t: System, events: seq<Event>)
    ensures Run(t, events).row.attempts >= t.row.attempts
    decreases |events|
  {
    if events != [] { AttemptsGrow(Step(t, events[0]), events[1..]); }
  }

  // ----- the service -----

  /** What becomes of one message. */
  datatype Outcome = Accepted | Refused

  class MailDeliveryService {
    var rows: seq<Row>
    const workerId: Worker

    /** The claimable row that has waited longest, now claimed. */
    method ClaimNext(now: int) returns (claimed: Option<nat>)
      modifies `rows
      ensures |rows| == |old(rows)|
      ensures claimed.None? ==> rows == old(rows) && forall i | 0 <= i < |rows| :: !Claimable(rows[i], now)
      ensures claimed.Some? ==>
                && claimed.value < |rows| && Claimable(old(rows)[claimed.value], now)
                && rows == old(rows)[claimed.value := Claimed(old(rows)[claimed.value], workerId, now)]
                && forall i | 0 <= i < |rows| && Claimable(old(rows)[i], now) ::
                     old(rows)[claimed.value].availableAt <= old(rows)[i].availableAt
    {
      claimed := None;
      for i := 0 to |rows|
        invariant claimed.None? ==> forall j | 0 <= j < i :: !Claimable(rows[j], now)
        invariant claimed.Some? ==>
                    && claimed.value < i && Claimable(rows[claimed.value], now)
                    && forall j | 0 <= j < i && Claimable(rows[j], now) ::
                         rows[claimed.value].availableAt <= rows[j].availableAt
      {
        if Claimable(rows[i], now)
           && (claimed.None? || rows[i].availableAt < rows[claimed.value].availableAt) {
          claimed := Some(i);
        }
      }
      if claimed.Some? {
        rows := rows[claimed.value := Claimed(rows[claimed.value], workerId, now)];
      }
    }

    /** Sends a claimed message and records how that went. */
    method DeliverMessage(i: nat, outcome: Outcome, now: int)
      requires i < |rows| && Holds(rows[i], workerId)
      modifies `rows
      ensures rows == old(rows)[i := if outcome.Accepted? then Delivered(old(rows)[i])
                                     else Bounced(old(rows)[i], old(rows)[i], now)]
    {
      var message := rows[i];
      if outcome.Accepted? {
        rows := rows[i := rows[i].(status := Sent, payload := "", lockedAt := None, lockOwner := None)];
      } else {
        var terminal := message.attempts >= MAX_ATTEMPTS;
        var exponent := if message.attempts == 0 then 0 else message.attempts - 1;
        var retryDelayMs := Min(LONGEST_DELAY_MS, FIRST_DELAY_MS * Power(exponent));
        rows := rows[i := rows[i].(status := if terminal then Failed else Pending,
                                   availableAt := if terminal then message.availableAt else now + retryDelayMs,
                                   payload := if terminal then "" else message.payload,
                                   lockedAt := None, lockOwner := None)];
      }
    }

    /** What a row can become by one attempt of a drain, or by none. */
    static predicate Attempted(before: Row, after: Row, now: int) {
      || after == before
      || (Claimable(before, now) && after.attempts == before.attempts + 1
          && (after.status.Sent? || after.status.Failed? || (after.status.Pending? && after.availableAt > now)))
    }

    /** A claim and what follows it are one attempt, after which the row is not due. */
    static lemma AttemptIsMade(before: Row, worker: Worker, outcome: Outcome, now: int)
      requires Claimable(before, now)
      ensures var claimed := Claimed(before, worker, now);
              var after := if outcome.Accepted? then Delivered(claimed) else Bounced(claimed, claimed, now);
              Attempted(before, after, now) && !Claimable(after, now)
    {
      PowerIsPositive(before.attempts);
    }

    /** How many rows are due. */
    static function Due(rows: seq<Row>, now: int): nat {
      if rows == [] then 0 else Due(rows[..|rows| - 1], now) + if Claimable(rows[|rows| - 1], now) then 1 else 0
    }

    static lemma {:induction false} OneLessDue(rows: seq<Row>, i: nat, row: Row, now: int)
      requires i < |rows| && Claimable(rows[i], now) && !Claimable(row, now)
      ensures Due(rows[i := row], now) == Due(rows, now) - 1
      decreases |rows|
    {
      var last := |rows| - 1;
      if i < last {
        OneLessDue(rows[..last], i, row, now);
        assert rows[i := row][..last] == rows[..last][i := row];
      } else {
        assert rows[i := row][..last] == rows[..last];
      }
    }

    static lemma {:induction false} NoneDue(rows: seq<Row>, now: int)
      ensures Due(rows, now) == 0 <==> forall i | 0 <= i < |rows| :: !Claimable(rows[i], now)
      decreases |rows|
    {
      if rows != [] { NoneDue(rows[..|rows| - 1], now); }
    }

    /** One drain at one time: at most a batch of messages, each at most once, and
        all that were due if they fit one batch. */
    method Drain(outcomes: seq<Outcome>, now: int) returns (processed: nat)
      requires |outcomes| >= MAX_BATCH_SIZE
      modifies `rows
      ensures |rows| == |old(rows)| && processed <= MAX_BATCH_SIZE
      ensures forall i | 0 <= i < |rows| :: Attempted(old(rows)[i], rows[i], now)
      ensures processed == Min(MAX_BATCH_SIZE, Due(old(rows), now))
      ensures Due(rows, now) == Due(old(rows), now) - processed
      ensures Due(old(rows), now) <= MAX_BATCH_SIZE ==> forall i | 0 <= i < |rows| :: !Claimable(rows[i], now)
    {
      processed := 0;
      while processed < MAX_BATCH_SIZE
        invariant processed <= MAX_BATCH_SIZE && |rows| == |old(rows)|
        invariant forall i | 0 <= i < |rows| :: Attempted(old(rows)[i], rows[i], now)
        invariant Due(rows, now) == Due(old(rows), now) - processed
      {
        ghost var before := rows;
        var claimed := ClaimNext(now);
        NoneDue(rows, now);
        if claimed.None? { return; }
        AttemptIsMade(before[claimed.value], workerId, outcomes[processed], now);
        DeliverMessage(claimed.value, outcomes[processed], now);
        OneLessDue(before, claimed.value, rows[claimed.value], now);
        assert rows == before[claimed.value := rows[claimed.value]];
        processed := processed + 1;
      }
      NoneDue(rows, now);
    }
  }
}
