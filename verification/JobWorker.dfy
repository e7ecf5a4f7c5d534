/** The Agent's side of a lease: protocol calls that are retried while the lease
    lasts, and the loop that renews it. */
module JobWorker {
  import opened Common
  import JobLeases

  const FIRST_RETRY_MS := 500
  const LONGEST_RETRY_MS := 2_000

  /** What the control plane answers: a lease expiry, a refusal (a status of 400 to
      499), or nothing usable. */
  datatype Reply = Answer(expiry: int) | Refusal | Trouble

  /** One call: its reply, how long it takes, and the deadline that another renewal
      has recorded meanwhile, if one has. */
  datatype Turn = Turn(reply: Reply, took: nat, moved: Option<int>)

  datatype Verdict = Answered(expiry: int) | Refused | GaveUp | Interrupted

  /** When a call was made, and the deadline recorded at that time. */
  datatype Start = Start(at: int, deadline: int)

  /** The pause after call `k`: it doubles up to its limit. */
  function Backoff(k: nat): nat {
    if k == 0 then FIRST_RETRY_MS else if k == 1 then 2 * FIRST_RETRY_MS else LONGEST_RETRY_MS
  }

  /** The deadline on record after the turns from `from` up to `to` of a renewal loop:
      the last one that a renewal, its own or another, was answered. */
  function Recorded(deadline: int, turns: seq<Turn>, from: nat, to: nat): int
    requires to <= |turns|
  {
    if to <= from then deadline
    else
      var turn := turns[to - 1];
      if turn.reply.Answer? then turn.reply.expiry
      else if turn.moved.Some? then turn.moved.value
      else Recorded(deadline, turns, from, to - 1)
  }

  lemma {:induction false} RecordedOn(deadline: int, turns: seq<Turn>, from: nat, between: nat, end: nat)
    requires from <= between <= end <= |turns|
    ensures Recorded(deadline, turns, from, end) == Recorded(Recorded(deadline, turns, from, between), turns, between, end)
    decreases end
  {
    if between < end { RecordedOn(deadline, turns, from, between, end - 1); }
  }

  /** A renewal that ends the job: refused, or not to be had in time. */
  predicate Fatal(verdict: Verdict) { verdict.Refused? || verdict.GaveUp? }

  /** The deadlines that a turn brings were granted. */
  predicate Grants(granted: set<int>, turn: Turn) {
    && (turn.reply.Answer? ==> turn.reply.expiry in granted)
    && (turn.moved.Some? ==> turn.moved.value in granted)
  }

  class JobExecution {
    const turns: seq<Turn>
    var next: nat             // the next turn; at the end the job is aborted from outside
    var now: int
    var leaseDeadline: int
    var aborted: bool
    ghost const granted: set<int>      // the deadlines the control plane granted for this claim
    ghost var starts: seq<Start>       // the calls of the last retry loop
    ghost var verdicts: seq<Verdict>   // how each retry loop ended

    /** Whatever is or will be recorded as deadline was granted. */
    ghost predicate Valid()
      reads this
    {
      next <= |turns| && leaseDeadline in granted && forall k | 0 <= k < |turns| :: Grants(granted, turns[k])
    }

    constructor (turns: seq<Turn>, now: int, leaseExpiresAt: int, ghost granted: set<int>)
      requires leaseExpiresAt in granted
      requires forall turn | turn in turns :: Grants(granted, turn)
      ensures Valid() && this.turns == turns && this.granted == granted
      ensures leaseDeadline == leaseExpiresAt && this.now == now && next == 0 && !aborted && verdicts == []
    {
      this.turns, this.next, this.now, this.leaseDeadline := turns, 0, now, leaseExpiresAt;
      this.aborted, this.granted, this.starts, this.verdicts := false, granted, [], [];
    }

    ghost method Conclude(verdict: Verdict)
      modifies `verdicts
      ensures verdicts == old(verdicts) + [verdict]
    {
      verdicts := verdicts + [verdict];
    }

    /** The pause after the last call is over, and the deadline is not. */
    ghost predicate Due()
      requires starts != []
      reads this
    {
      now < leaseDeadline && now >= starts[|starts| - 1].at + Backoff(|starts| - 1)
    }

    /** One protocol call. */
    method Call() returns (reply: Reply)
      requires Valid() && next < |turns|
      requires Paced() && (starts != [] ==> Due())
      modifies `next, `now, `leaseDeadline, `starts
      ensures Valid() && Paced() && next == old(next) + 1 && reply == turns[old(next)].reply
      ensures now == old(now) + turns[old(next)].took
      ensures leaseDeadline == if turns[old(next)].moved.Some? then turns[old(next)].moved.value else old(leaseDeadline)
      ensures starts == old(starts) + [Start(old(now), old(leaseDeadline))]
    {
      reply := turns[next].reply;
      starts := starts + [Start(now, leaseDeadline)];
      now := now + turns[next].took;
      if turns[next].moved.Some? { leaseDeadline := turns[next].moved.value; }
      next := next + 1;
    }

    /** Later calls pause for their backoff, and start before the deadline that was
        recorded when they started. */
    ghost predicate Paced()
      reads this
    {
      forall j, k | 0 <= j < |starts| && 0 <= k < |starts| && k == j + 1 ::
        starts[k].at >= starts[j].at + Backoff(j) && starts[k].at < starts[k].deadline
    }

    /** A retry loop that began at turn `from` ended like this: only its last call can
        have met anything but trouble, and it gave up because the next pause, right
        after the last reply, would have outlasted the lease. */
    ghost predicate Ends(verdict: Verdict, from: nat, began: int, deadline: int)
      requires next <= |turns|
      reads this
    {
      && from <= next && next - from == |starts|
      && (starts != [] ==> starts[0] == Start(began, deadline))
      && (forall k | from <= k < next - 1 :: turns[k].reply.Trouble?)
      && (verdict.Interrupted? || starts != [])
      && (match verdict
          case Answered(expiry) =>
            turns[next - 1].reply == Answer(expiry) && Recorded(deadline, turns, from, next) == expiry
          case Refused => turns[next - 1].reply.Refusal? && leaseDeadline == Recorded(deadline, turns, from, next)
          case GaveUp =>
            && turns[next - 1].reply.Trouble? && leaseDeadline == Recorded(deadline, turns, from, next)
            && now + Backoff(|starts| - 1) >= leaseDeadline
            && now == starts[|starts| - 1].at + turns[next - 1].took
          case Interrupted =>
            && next == |turns| && leaseDeadline == Recorded(deadline, turns, from, next)
            && forall k | from <= k < next :: turns[k].reply.Trouble?)
    }

    /** Retries a call after trouble, with growing pauses, but never into the end of
        the lease: no retry starts at or after the recorded deadline. A refusal is
        final, and it gives up exactly when the next pause would outlast the lease. */
    method Retry() returns (verdict: Verdict)
      requires Valid()
      modifies `next, `now, `leaseDeadline, `starts
      ensures Valid() && next == old(next) + |starts| && Paced()
      ensures Ends(verdict, old(next), old(now), old(leaseDeadline))
    {
      var retryMs := FIRST_RETRY_MS;
      starts := [];
      while next < |turns|
        invariant Valid() && next == old(next) + |starts| && Paced()
        invariant retryMs == Backoff(|starts|)
        invariant if starts == [] then now == old(now) && leaseDeadline == old(leaseDeadline)
                  else starts[0] == Start(old(now), old(leaseDeadline)) && Due()
        invariant forall k | old(next) <= k < next :: turns[k].reply.Trouble?
        invariant leaseDeadline == Recorded(old(leaseDeadline), turns, old(next), next)
      {
        var reply := Call();
        match reply {
          case Answer(expiry) =>
            return Answered(expiry);
          case Refusal =>
            return Verdict.Refused;
          case Trouble =>
            if now + retryMs >= leaseDeadline {
              return GaveUp;
            }
            now := now + retryMs;
            retryMs := Min(LONGEST_RETRY_MS, retryMs * 2);
        }
      }
      return Interrupted;
    }

    /** And notes how it ended. */
    method RetryProtocolCall() returns (verdict: Verdict)
      requires Valid()
      modifies `next, `now, `leaseDeadline, `starts, `verdicts
      ensures Valid() && next == old(next) + |starts| && Paced()
      ensures Ends(verdict, old(next), old(now), old(leaseDeadline))
      ensures verdicts == old(verdicts) + [verdict]
    {
      verdict := Retry();
      Conclude(verdict);
    }

    /** Renews until the job is over, or until a renewal is refused or not to be had
        in time: it aborts the job exactly then. */
    method RenewLeaseLoop(renewEveryMs: nat)
      requires Valid() && !aborted && verdicts == []
      modifies this
      ensures Valid() && (!aborted ==> next == |turns|)
      ensures aborted <==> exists k :: 0 <= k < |verdicts| && Fatal(verdicts[k])
      ensures aborted ==> next > 0 && verdicts != [] && Fatal(verdicts[|verdicts| - 1]) && !turns[next - 1].reply.Answer?
      ensures !aborted ==> forall k | old(next) <= k < next :: !turns[k].reply.Refusal?
      ensures leaseDeadline == Recorded(old(leaseDeadline), turns, old(next), next)
      ensures aborted && turns[next - 1].reply.Trouble? ==>
                starts != [] && now + Backoff(|starts| - 1) >= leaseDeadline
    {
      while next < |turns|
        invariant Valid() && !aborted && old(next) <= next
        invariant forall k | 0 <= k < |verdicts| :: !Fatal(verdicts[k])
        invariant forall k | old(next) <= k < next :: !turns[k].reply.Refusal?
        invariant leaseDeadline == Recorded(old(leaseDeadline), turns, old(next), next)
      {
        ghost var between := next;
        now := now + renewEveryMs;
        var verdict := RetryProtocolCall();
        RecordedOn(old(leaseDeadline), turns, old(next), between, next);
        assert verdicts[|verdicts| - 1] == verdict;
        match verdict {
          case Answered(expiry) => leaseDeadline := expiry;
          case Interrupted =>
          case _ =>
            aborted := true;
            assert Fatal(verdicts[|verdicts| - 1]);
            return;
        }
      }
    }
  }

  function Deadlines(grants: seq<JobLeases.Grant>, i: nat, token: JobLeases.Token): set<int> {
    set g | g in grants && g.i == i && g.token == token :: g.deadline
  }

  /** Both sides together, under one clock: while a job execution has not reached the
      deadline it recorded, nobody else can claim its job, unless the job was taken
      from its token before. */
  lemma DeadlineExcludes(execution: JobExecution, agent: JobLeases.AgentRow, clock: int, events: seq<JobLeases.Event>,
                         i: nat, token: JobLeases.Token, seen: JobLeases.Job, caller: JobLeases.Hash, now: int)
    requires execution.Valid() && JobLeases.Ordered(clock, events)
    requires var l := JobLeases.RunLeases(JobLeases.Leases(JobLeases.Table([], agent, 0), []), events);
             && execution.granted <= Deadlines(l.grants, i, token)
             && JobLeases.Holds(l.table, JobLeases.Grant(i, token, execution.leaseDeadline))
             && now < execution.leaseDeadline
    ensures var l := JobLeases.RunLeases(JobLeases.Leases(JobLeases.Table([], agent, 0), []), events);
            !JobLeases.MayClaim(l.table, i, seen, caller, now)
  {
    var l := JobLeases.RunLeases(JobLeases.Leases(JobLeases.Table([], agent, 0), []), events);
    if JobLeases.MayClaim(l.table, i, seen, caller, now) {
      var g := JobLeases.Grant(i, token, execution.leaseDeadline);
      assert execution.leaseDeadline in Deadlines(l.grants, i, token);
      assert g in l.grants;
      JobLeases.OneClockExclusion(agent, clock, events, g, seen, caller, now);
    }
  }
}
