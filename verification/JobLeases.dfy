/** Agent jobs under fenced leases: claim, renewal, progress and completion.
    Every write is one guarded update; the time a request compares with was read
    when the request arrived, so it may be older than the write. */
module JobLeases {
  import opened Common
  import CredentialRotation

  type AgentRow = CredentialRotation.AgentRow
  type Hash = CredentialRotation.Hash
  type Token = CredentialRotation.Credential

  const LEASE_MS := 30_000

  datatype Kind =
    | Probe | LifecycleTest | GatewayPreflight | GatewayRoute | Deploy | Start | Stop | Remove
    | Logs | AgentUpdate

  datatype Status = Blocked | Queued | Leased | Succeeded | Failed | Cancelled

  datatype WorkloadState = Running | Stopped | Missing

  datatype Result = Result(state: WorkloadState, revision: Option<string>, hostPort: Option<nat>,
                           workloadSlot: Option<string>)

  datatype Job = Job(kind: Kind, status: Status, leaseHash: Option<Hash>, leaseExpiresAt: Option<int>,
                     attempt: nat, sequence: nat, percent: nat, stage: string, message: string,
                     resultCode: Option<string>, result: Option<Result>)

  datatype Report = Report(sequence: nat, percent: nat, stage: string, message: string)

  /** What the Agent reports when a job is over. The gateway fingerprint goes to
      the target, not to the job row. */
  datatype Completion = Completion(succeeded: bool, message: string, resultCode: Option<string>,
                                   result: Option<Result>, gatewayFingerprint: Option<string>)

  /** The job rows of one target, oldest first, and the row of its Agent. */
  datatype Table = Table(jobs: seq<Job>, agent: AgentRow, next: Token)

  predicate Terminal(status: Status) {
    status.Succeeded? || status.Failed? || status.Cancelled?
  }

  // ----- fences -----

  function HashOf(token: Token): Hash { CredentialRotation.HashOf(token) }

  predicate BoundLease(t: Table, i: nat, caller: Hash, token: Token) {
    && i < |t.jobs| && t.jobs[i].leaseHash == Some(HashOf(token))
    && CredentialRotation.Authorises(t.agent, caller)
  }

  predicate ActiveLease(t: Table, i: nat, caller: Hash, token: Token, now: int) {
    && BoundLease(t, i, caller, token)
    && t.jobs[i].status.Leased? && t.jobs[i].leaseExpiresAt.Some? && t.jobs[i].leaseExpiresAt.value > now
  }

  predicate Lapsed(job: Job, now: int) {
    job.status.Leased? && job.leaseExpiresAt.Some? && job.leaseExpiresAt.value <= now
  }

  predicate Claimable(job: Job, now: int) {
    job.status.Queued? || Lapsed(job, now)
  }

  /** The guard of a claim whose candidate was read as `seen`. */
  predicate MayClaim(t: Table, i: nat, seen: Job, caller: Hash, now: int) {
    && i < |t.jobs| && CredentialRotation.Authorises(t.agent, caller)
    && if seen.status.Queued? then t.jobs[i].status.Queued?
       else Lapsed(t.jobs[i], now) && t.jobs[i].leaseHash == seen.leaseHash
  }

  // ----- guarded writes -----

  function ClaimedJob(job: Job, token: Token, now: int): Job {
    job.(status := Leased, leaseHash := Some(HashOf(token)), leaseExpiresAt := Some(now + LEASE_MS),
         attempt := job.attempt + 1, sequence := 0, percent := 0, stage := "assigned",
         message := "Claimed by Agent", resultCode := None, result := None)
  }

  function CompletedJob(job: Job, completion: Completion): Job {
    job.(status := if completion.succeeded then Succeeded else Failed,
         percent := if completion.succeeded then 100 else job.percent,
         stage := if completion.succeeded then "succeeded" else "failed",
         message := completion.message, resultCode := completion.resultCode,
         result := completion.result, leaseExpiresAt := None)
  }

  function Put(t: Table, i: nat, job: Job): Table
    requires i < |t.jobs|
  {
    t.(jobs := t.jobs[i := job])
  }

  function Claim(t: Table, i: nat, seen: Job, caller: Hash, now: int): Table {
    if MayClaim(t, i, seen, caller, now)
    then Put(t, i, ClaimedJob(t.jobs[i], t.next, now)).(next := t.next + 1)
    else t
  }

  function Renew(t: Table, i: nat, caller: Hash, token: Token, now: int): Table {
    if ActiveLease(t, i, caller, token, now)
    then Put(t, i, t.jobs[i].(leaseExpiresAt := Some(now + LEASE_MS)))
    else t
  }

  function Progress(t: Table, i: nat, caller: Hash, token: Token, now: int, report: Report): Table {
    if ActiveLease(t, i, caller, token, now) && t.jobs[i].sequence < report.sequence
    then Put(t, i, t.jobs[i].(sequence := report.sequence, percent := report.percent,
                              stage := report.stage, message := report.message))
    else t
  }

  /** A gateway fingerprint comes from a gateway preflight only. */
  predicate Admissible(kind: Kind, completion: Completion) {
    completion.gatewayFingerprint.Some? ==> kind.GatewayPreflight?
  }

  function Complete(t: Table, i: nat, caller: Hash, token: Token, now: int, completion: Completion): Table {
    if ActiveLease(t, i, caller, token, now) && Admissible(t.jobs[i].kind, completion)
    then Put(t, i, CompletedJob(t.jobs[i], completion))
    else t
  }

  /** Whether the stored outcome of a job is the one the Agent reports again. */
  predicate SameOutcome(job: Job, completion: Completion) {
    && job.status == (if completion.succeeded then Succeeded else Failed)
    && job.message == completion.message && job.resultCode == completion.resultCode
    && job.result == completion.result
  }

  datatype Answer = Accepted(job: Job) | LostLease | BadRequest

  /** What `complete` answers to a caller who holds or held the lease: a fingerprint
      for another kind of job is refused at once; then a first completion is stored,
      and a repeated one is compared with what is stored. */
  function CompleteAnswer(t: Table, i: nat, caller: Hash, token: Token, now: int, completion: Completion): Answer {
    if !BoundLease(t, i, caller, token) then LostLease
    else if !Admissible(t.jobs[i].kind, completion) then BadRequest
    else if ActiveLease(t, i, caller, token, now) then Accepted(CompletedJob(t.jobs[i], completion))
    else if SameOutcome(t.jobs[i], completion) then Accepted(t.jobs[i])
    else LostLease
  }

  // ----- all that can happen to the rows -----

  datatype Event =
    | Create(job: Job)                                        // a job is queued, or blocked
    | Unblock(i: nat)
    | Cancel(i: nat)
    | ClaimEvent(i: nat, seen: Job, caller: Hash, now: int)
    | RenewEvent(i: nat, caller: Hash, token: Token, now: int)
    | ProgressEvent(i: nat, caller: Hash, token: Token, now: int, report: Report)
    | CompleteEvent(i: nat, caller: Hash, token: Token, now: int, completion: Completion)
    | Rotate(agent: AgentRow)                                 // the Agent's credentials change

  predicate Unclaimed(job: Job) {
    && (job.status.Queued? || job.status.Blocked?) && job.attempt == job.sequence == 0
    && job.leaseHash.None? && job.leaseExpiresAt.None?
  }

  function Step(t: Table, event: Event): Table {
    match event
    case Create(job) => if Unclaimed(job) then t.(jobs := t.jobs + [job]) else t
    case Unblock(i) =>
      if i < |t.jobs| && t.jobs[i].status.Blocked? then Put(t, i, t.jobs[i].(status := Queued)) else t
    case Cancel(i) =>
      if i < |t.jobs| && !Terminal(t.jobs[i].status)
      then Put(t, i, t.jobs[i].(status := Cancelled, leaseExpiresAt := None)) else t
    case ClaimEvent(i, seen, caller, now) => Claim(t, i, seen, caller, now)
    case RenewEvent(i, caller, token, now) => Renew(t, i, caller, token, now)
    case ProgressEvent(i, caller, token, now, report) => Progress(t, i, caller, token, now, report)
    case CompleteEvent(i, caller, token, now, completion) => Complete(t, i, caller, token, now, completion)
    case Rotate(agent) => t.(agent := agent)
  }

  function Run(t: Table, events: seq<Event>): Table
    decreases |events|
  {
    if events == [] then t else Run(Step(t, events[0]), events[1..])
  }

  /** Tokens are drawn afresh for every claim, so no two jobs share one. */
  predicate Inv(t: Table) {
    && (forall i | 0 <= i < |t.jobs| && t.jobs[i].leaseHash.Some? :: t.jobs[i].leaseHash.value.credential < t.next)
    && (forall i, j | 0 <= i < j < |t.jobs| && t.jobs[i].leaseHash.Some? ::
          t.jobs[i].leaseHash != t.jobs[j].leaseHash)
    && (forall i | 0 <= i < |t.jobs| && t.jobs[i].status.Leased? ::
          t.jobs[i].leaseHash.Some? && t.jobs[i].leaseExpiresAt.Some?)
  }

  /** Rewriting one job without touching its lease token. */
  lemma PutKeeps(t: Table, i: nat, job: Job)
    requires Inv(t) && i < |t.jobs| && job.leaseHash == t.jobs[i].leaseHash
    requires job.status.Leased? ==> t.jobs[i].status.Leased? && job.leaseExpiresAt.Some?
    ensures Inv(Put(t, i, job))
  {}

  lemma ClaimKeeps(t: Table, i: nat, seen: Job, caller: Hash, now: int)
    requires Inv(t)
    ensures Inv(Claim(t, i, seen, caller, now))
  {}

  lemma StepKeeps(t: Table, event: Event)
    requires Inv(t)
    ensures Inv(Step(t, event)) && Step(t, event).next >= t.next
    ensures |Step(t, event).jobs| >= |t.jobs|
  {
    match event
    case Create(_) =>
    case Rotate(_) =>
    case ClaimEvent(i, seen, caller, now) => ClaimKeeps(t, i, seen, caller, now);
    case _ =>
      if event.i < |t.jobs| && Step(t, event) != t {
        PutKeeps(t, event.i, Step(t, event).jobs[event.i]);
      }
  }

  lemma {:induction false} RunKeeps(t: Table, events: seq<Event>)
    requires Inv(t)
    ensures Inv(Run(t, events)) && Run(t, events).next >= t.next && |Run(t, events).jobs| >= |t.jobs|
    decreases |events|
  {
    if events != [] {
      StepKeeps(t, events[0]);
      RunKeeps(Step(t, events[0]), events[1..]);
    }
  }

  // ----- progress only moves forward, and the end is the end -----

  /** (attempt, progress sequence), compared lexicographically. */
  predicate Before(a: Job, b: Job) {
    a.attempt < b.attempt || (a.attempt == b.attempt && a.sequence < b.sequence)
  }

  predicate NotAfter(a: Job, b: Job) {
    a.attempt < b.attempt || (a.attempt == b.attempt && a.sequence <= b.sequence)
  }

  /** An accepted claim or progress report moves the job strictly forward; nothing
      else changes its position, and a finished job never changes at all. */
  lemma StepAdvances(t: Table, event: Event, i: nat)
    requires Inv(t) && i < |t.jobs|
    ensures var u := Step(t, event);
            && i < |u.jobs|
            && (Terminal(t.jobs[i].status) ==> u.jobs[i] == t.jobs[i])
            && (if (event.ClaimEvent? || event.ProgressEvent?) && event.i == i && u != t
                then Before(t.jobs[i], u.jobs[i])
                else t.jobs[i].attempt == u.jobs[i].attempt && t.jobs[i].sequence == u.jobs[i].sequence)
  {
    if event.ClaimEvent? && event.i == i && MayClaim(t, i, event.seen, event.caller, event.now) {
      assert Step(t, event).next == t.next + 1;
    }
  }

  lemma {:induction false} RunAdvances(t: Table, events: seq<Event>, i: nat)
    requires Inv(t) && i < |t.jobs|
    ensures var u := Run(t, events);
            && i < |u.jobs| && NotAfter(t.jobs[i], u.jobs[i])
            && (Terminal(t.jobs[i].status) ==> u.jobs[i] == t.jobs[i])
    decreases |events|
  {
    if events != [] {
      StepKeeps(t, events[0]);
      StepAdvances(t, events[0], i);
      RunAdvances(Step(t, events[0]), events[1..], i);
    }
  }

  /** No job fell back, and what was over has stayed as it was. */
  predicate Progressed(t: Table, u: Table) {
    && |t.jobs| <= |u.jobs|
    && forall i | 0 <= i < |t.jobs| ::
         NotAfter(t.jobs[i], u.jobs[i]) && (Terminal(t.jobs[i].status) ==> u.jobs[i] == t.jobs[i])
  }

  lemma RunProgresses(t: Table, events: seq<Event>)
    requires Inv(t)
    ensures Inv(Run(t, events)) && Progressed(t, Run(t, events))
  {
    RunKeeps(t, events);
    forall i: nat | i < |t.jobs|
      ensures NotAfter(t.jobs[i], Run(t, events).jobs[i])
              && (Terminal(t.jobs[i].status) ==> Run(t, events).jobs[i] == t.jobs[i])
    {
      RunAdvances(t, events, i);
    }
  }

  lemma ClaimProgresses(t: Table, i: nat, seen: Job, caller: Hash, now: int)
    requires Inv(t)
    ensures Inv(Claim(t, i, seen, caller, now)) && Progressed(t, Claim(t, i, seen, caller, now))
  {
    var claim := ClaimEvent(i, seen, caller, now);
    assert [claim][1..] == [];
    assert Run(t, [claim]) == Run(Step(t, claim), []);
    RunProgresses(t, [claim]);
  }

  lemma ProgressedOn(t: Table, u: Table, v: Table)
    requires Progressed(t, u) && Progressed(u, v)
    ensures Progressed(t, v)
  {}

  // ----- a token that lost its job -----

  /** `token` was drawn before, and job `i` is not leased under it any more. */
  predicate Superseded(t: Table, i: nat, token: Token) {
    token < t.next && i < |t.jobs| && t.jobs[i].leaseHash != Some(HashOf(token))
  }

  /** A claim supersedes the token under which the job was leased before. */
  lemma ClaimSupersedes(t: Table, i: nat, seen: Job, caller: Hash, now: int, token: Token)
    requires Inv(t) && MayClaim(t, i, seen, caller, now) && t.jobs[i].leaseHash == Some(HashOf(token))
    ensures Superseded(Claim(t, i, seen, caller, now), i, token)
  {
    assert t.jobs[i].leaseHash.value.credential < t.next;
  }

  /** A superseded token never passes a fence of the job again, in any run and
      with any clock. */
  lemma {:induction false} SupersededForever(t: Table, i: nat, token: Token, events: seq<Event>)
    requires Inv(t) && Superseded(t, i, token)
    ensures Superseded(Run(t, events), i, token)
    ensures forall caller :: !BoundLease(Run(t, events), i, caller, token)
    decreases |events|
  {
    if events != [] {
      StepKeeps(t, events[0]);
      SupersededForever(Step(t, events[0]), i, token, events[1..]);
    }
  }

  // ----- completion happens once -----

  predicate SameUpToFingerprint(a: Completion, b: Completion) {
    a.(gatewayFingerprint := b.gatewayFingerprint) == b
  }

  /** After a completion was accepted, and whatever happens to the rows then, the
      job keeps its outcome, completing it again changes nothing, and an
      authorised repetition is answered with that outcome exactly if it is the same
      report, or one of a gateway preflight that differs in the fingerprint only. */
  lemma CompletionIsFinal(t: Table, i: nat, caller: Hash, token: Token, now: int, completion: Completion,
                          events: seq<Event>, again: Hash, later: int, repeated: Completion)
    requires Inv(t) && ActiveLease(t, i, caller, token, now) && Admissible(t.jobs[i].kind, completion)
    ensures var done := CompletedJob(t.jobs[i], completion);
            var u := Run(Complete(t, i, caller, token, now, completion), events);
            var answer := CompleteAnswer(u, i, again, token, later, repeated);
            && i < |u.jobs| && u.jobs[i] == done
            && CompleteAnswer(t, i, caller, token, now, completion) == Accepted(done)
            && Complete(u, i, again, token, later, repeated) == u
            && (answer.Accepted? ==> answer == Accepted(done))
            && (answer.Accepted? <==>
                  && CredentialRotation.Authorises(u.agent, again)
                  && (repeated == completion
                      || (done.kind.GatewayPreflight? && SameUpToFingerprint(completion, repeated))))
  {
    var done := Complete(t, i, caller, token, now, completion);
    StepKeeps(t, CompleteEvent(i, caller, token, now, completion));
    RunAdvances(done, events, i);
  }

  /** The fingerprint is the exception: a repetition that reports another one is
      accepted although it differs from the first report. */
  lemma DifferingFingerprintIsAccepted()
    ensures exists t: Table, caller, first, second ::
              && ActiveLease(t, 0, caller, 7, 0) && first != second
              && var u := Complete(t, 0, caller, 7, 0, first);
                 CompleteAnswer(u, 0, caller, 7, 1, second).Accepted?
  {
    var caller := HashOf(1);
    var job := Job(GatewayPreflight, Leased, Some(HashOf(7)), Some(LEASE_MS), 1, 0, 0, "assigned", "", None, None);
    var t := Table([job], CredentialRotation.AgentRow(caller, 1, 0, None), 8);
    var first := Completion(true, "ready", None, None, Some("a"));
    var second := first.(gatewayFingerprint := Some("b"));
    assert ActiveLease(t, 0, caller, 7, 0);
    var u := Complete(t, 0, caller, 7, 0, first);
    assert CompleteAnswer(u, 0, caller, 7, 1, second).Accepted?;
  }

  // ----- the lease deadline the Agent records -----

  /** A lease expiry the control plane handed out. The deadline an Agent records
      for a job is always one of the grants of its token. */
  datatype Grant = Grant(i: nat, token: Token, deadline: int)

  datatype Leases = Leases(table: Table, grants: seq<Grant>)

  function Granted(t: Table, event: Event): seq<Grant> {
    match event
    case ClaimEvent(i, seen, caller, now) =>
      if MayClaim(t, i, seen, caller, now) then [Grant(i, t.next, now + LEASE_MS)] else []
    case RenewEvent(i, caller, token, now) =>
      if ActiveLease(t, i, caller, token, now) then [Grant(i, token, now + LEASE_MS)] else []
    case _ => []
  }

  function StepLeases(l: Leases, event: Event): Leases {
    Leases(Step(l.table, event), l.grants + Granted(l.table, event))
  }

  function RunLeases(l: Leases, events: seq<Event>): Leases
    decreases |events|
  {
    if events == [] then l else RunLeases(StepLeases(l, events[0]), events[1..])
  }

  predicate Holds(t: Table, g: Grant) {
    g.i < |t.jobs| && t.jobs[g.i].status.Leased? && t.jobs[g.i].leaseHash == Some(HashOf(g.token))
  }

  /** No grant of a current lease reaches beyond the expiry in the database. */
  predicate Covered(l: Leases)
    requires Inv(l.table)
  {
    && (forall g | g in l.grants :: g.token < l.table.next && g.i < |l.table.jobs|)
    && (forall g | g in l.grants && Holds(l.table, g) :: g.deadline <= l.table.jobs[g.i].leaseExpiresAt.value)
    && (forall i | 0 <= i < |l.table.jobs| && l.table.jobs[i].status.Leased? ::
          Grant(i, l.table.jobs[i].leaseHash.value.credential, l.table.jobs[i].leaseExpiresAt.value) in l.grants)
  }

  /** A renewal is timely if its request is not so old that it would shorten the lease. */
  predicate Timely(t: Table, event: Event) {
    event.RenewEvent? && ActiveLease(t, event.i, event.caller, event.token, event.now) ==>
      t.jobs[event.i].leaseExpiresAt.value <= event.now + LEASE_MS
  }

  predicate AllTimely(t: Table, events: seq<Event>)
    decreases |events|
  {
    events == [] || (Timely(t, events[0]) && AllTimely(Step(t, events[0]), events[1..]))
  }

  lemma TimelyKeepsCovered(l: Leases, event: Event)
    requires Inv(l.table) && Covered(l) && Timely(l.table, event)
    ensures Covered(StepLeases(l, event))
  {
    StepKeeps(l.table, event);
    var m := StepLeases(l, event);
    forall g | g in m.grants ensures g.token < m.table.next && g.i < |m.table.jobs| {}
    forall g | g in m.grants && Holds(m.table, g)
      ensures g.deadline <= m.table.jobs[g.i].leaseExpiresAt.value
    {
      assert g in l.grants || g in Granted(l.table, event);
    }
    forall i | 0 <= i < |m.table.jobs| && m.table.jobs[i].status.Leased?
      ensures Grant(i, m.table.jobs[i].leaseHash.value.credential, m.table.jobs[i].leaseExpiresAt.value) in m.grants
    {
      if i < |l.table.jobs| && m.table.jobs[i] == l.table.jobs[i] {
        assert l.table.jobs[i].status.Leased?;
      }
    }
  }

  /** One event keeps the grants covered if and only if it is timely. */
  lemma CoveredIffTimely(l: Leases, event: Event)
    requires Inv(l.table) && Covered(l)
    ensures Inv(StepLeases(l, event).table)
    ensures Covered(StepLeases(l, event)) <==> Timely(l.table, event)
  {
    StepKeeps(l.table, event);
    if Timely(l.table, event) {
      TimelyKeepsCovered(l, event);
    } else {
      var m := StepLeases(l, event);
      var i := event.i;
      var g := Grant(i, event.token, l.table.jobs[i].leaseExpiresAt.value);
      assert g in l.grants && g in m.grants && Holds(m.table, g);
    }
  }

  lemma {:induction false} TimelyRunsAreCovered(l: Leases, events: seq<Event>)
    requires Inv(l.table) && Covered(l) && AllTimely(l.table, events)
    ensures Inv(RunLeases(l, events).table) && Covered(RunLeases(l, events))
    decreases |events|
  {
    if events != [] {
      CoveredIffTimely(l, events[0]);
      TimelyRunsAreCovered(StepLeases(l, events[0]), events[1..]);
    }
  }

  /** Lease exclusion: after a run of timely renewals, another claim of a leased
      job succeeds only at or after every deadline an Agent recorded for it. */
  lemma LeaseExclusion(agent: AgentRow, events: seq<Event>, g: Grant, seen: Job, caller: Hash, now: int)
    requires var start := Table([], agent, 0); AllTimely(start, events)
    requires var l := RunLeases(Leases(Table([], agent, 0), []), events);
             g in l.grants && Holds(l.table, g) && MayClaim(l.table, g.i, seen, caller, now)
    ensures g.deadline <= now
  {
    TimelyRunsAreCovered(Leases(Table([], agent, 0), []), events);
  }

  // ----- one clock for all requests -----

  function TimeOf(event: Event): Option<int> {
    match event
    case ClaimEvent(_, _, _, now) => Some(now)
    case RenewEvent(_, _, _, now) => Some(now)
    case ProgressEvent(_, _, _, now, _) => Some(now)
    case CompleteEvent(_, _, _, now, _) => Some(now)
    case _ => None
  }

  function Later(clock: int, event: Event): int {
    if TimeOf(event).Some? then TimeOf(event).value else clock
  }

  /** The requests take effect in the order in which their times were read from one
      clock, which shows `clock` at first. */
  predicate Ordered(clock: int, events: seq<Event>)
    decreases |events|
  {
    events == [] || (clock <= Later(clock, events[0]) && Ordered(Later(clock, events[0]), events[1..]))
  }

  /** No lease lasts longer than one granted just now. */
  predicate Current(t: Table, clock: int) {
    forall i | 0 <= i < |t.jobs| && t.jobs[i].status.Leased? ::
      t.jobs[i].leaseExpiresAt.Some? && t.jobs[i].leaseExpiresAt.value <= clock + LEASE_MS
  }

  lemma StepStaysCurrent(t: Table, clock: int, event: Event)
    requires Inv(t) && Current(t, clock) && clock <= Later(clock, event)
    ensures Timely(t, event) && Current(Step(t, event), Later(clock, event))
  {
    var u := Step(t, event);
    forall i | 0 <= i < |u.jobs| && u.jobs[i].status.Leased?
      ensures u.jobs[i].leaseExpiresAt.Some? && u.jobs[i].leaseExpiresAt.value <= Later(clock, event) + LEASE_MS
    {
      if i < |t.jobs| && t.jobs[i].status.Leased? {
        assert t.jobs[i].leaseExpiresAt.value <= clock + LEASE_MS;
      }
    }
  }

  /** Under one clock every renewal is timely. */
  lemma {:induction false} OneClockIsTimely(t: Table, clock: int, events: seq<Event>)
    requires Inv(t) && Current(t, clock) && Ordered(clock, events)
    ensures AllTimely(t, events)
    decreases |events|
  {
    if events != [] {
      StepStaysCurrent(t, clock, events[0]);
      StepKeeps(t, events[0]);
      OneClockIsTimely(Step(t, events[0]), Later(clock, events[0]), events[1..]);
    }
  }

  /** Lease exclusion under one clock: no other claim of a leased job succeeds before
      a deadline that an Agent recorded for it. */
  lemma OneClockExclusion(agent: AgentRow, clock: int, events: seq<Event>, g: Grant, seen: Job, caller: Hash, now: int)
    requires Ordered(clock, events)
    requires var l := RunLeases(Leases(Table([], agent, 0), []), events);
             g in l.grants && Holds(l.table, g) && MayClaim(l.table, g.i, seen, caller, now)
    ensures g.deadline <= now
  {
    OneClockIsTimely(Table([], agent, 0), clock, events);
    LeaseExclusion(agent, events, g, seen, caller, now);
  }

  /** A lapsed lease is not revived: whatever happens after its expiry, the job is as
      it was, or cancelled, or lost to another claim, and its token opens no fence. */
  lemma {:induction false} LapsedIsNotRevived(t: Table, i: nat, token: Token, clock: int, events: seq<Event>,
                                              caller: Hash, now: int)
    requires Inv(t) && i < |t.jobs| && Lapsed(t.jobs[i], clock) && t.jobs[i].leaseHash == Some(HashOf(token))
    requires Ordered(clock, events) && now >= clock
    ensures var u := Run(t, events);
            && i < |u.jobs|
            && (u.jobs[i] == t.jobs[i] || u.jobs[i] == t.jobs[i].(status := Cancelled, leaseExpiresAt := None)
                || Superseded(u, i, token))
            && !ActiveLease(u, i, caller, token, now)
    decreases |events|
  {
    if events != [] {
      var u := Step(t, events[0]);
      StepKeeps(t, events[0]);
      if u.jobs[i] == t.jobs[i] {
        LapsedIsNotRevived(u, i, token, Later(clock, events[0]), events[1..], caller, Max(now, Later(clock, events[0])));
      } else if events[0].Cancel? {
        RunAdvances(u, events[1..], i);
      } else {
        assert t.jobs[i].leaseHash.value.credential < t.next;
        SupersededForever(u, i, token, events[1..]);
      }
    }
  }

  /** Without timeliness it fails: a renewal that was delayed on its way to the
      database shortens the lease, and the job is claimed again while the Agent
      believes that it holds it for another fifteen seconds. */
  lemma DelayedRenewalBreaksExclusion()
    ensures exists t: Table, caller, events, g: Grant, seen: Job, now ::
              && Inv(t) && var l := RunLeases(Leases(t, []), events);
              && g in l.grants && Holds(l.table, g)
              && MayClaim(l.table, g.i, seen, caller, now) && now + 15_000 <= g.deadline
  {
    var t, caller, events, g := DelayedRenewal();
    var l := RunLeases(Leases(t, []), events);
    assert MayClaim(l.table, g.i, l.table.jobs[0], caller, 31_000);
  }

  lemma DelayedRenewal() returns (t: Table, caller: Hash, events: seq<Event>, g: Grant)
    ensures Inv(t) && g.i == 0 && g.deadline == 46_000
    ensures var l := RunLeases(Leases(t, []), events);
            && g in l.grants && Holds(l.table, g)
            && Lapsed(l.table.jobs[0], 31_000) && CredentialRotation.Authorises(l.table.agent, caller)
  {
    caller := HashOf(1);
    var queued := Job(Probe, Queued, None, None, 0, 0, 0, "queued", "", None, None);
    t := Table([queued], CredentialRotation.AgentRow(caller, 1, 0, None), 7);
    var claim := ClaimEvent(0, queued, caller, 0);
    var prompt := RenewEvent(0, caller, 7, 16_000);
    var delayed := RenewEvent(0, caller, 7, 1_000);
    events := [claim, prompt, delayed];
    g := Grant(0, 7, 46_000);
    var l1 := StepLeases(Leases(t, []), claim);
    var l2 := StepLeases(l1, prompt);
    var l3 := StepLeases(l2, delayed);
    assert l2.grants[1] == g;
    assert RunLeases(Leases(t, []), events) == l3 by {
      assert events[1..] == [prompt, delayed];
      assert [prompt, delayed][1..] == [delayed];
      assert RunLeases(l3, []) == l3;
      assert RunLeases(l2, [delayed]) == l3;
      assert RunLeases(l1, [prompt, delayed]) == l3;
    }
  }

  // ----- the service -----

  datatype ClaimAttempt = Empty | Raced | Claimed(i: nat, token: Token, leaseExpiresAt: int)

  class AgentJobTable {
    var table: Table

    constructor (agent: AgentRow)
      ensures table == Table([], agent, 0)
    {
      table := Table([], agent, 0);
    }

    /** Other requests and other replicas change the rows. */
    method Interfere(events: seq<Event>)
      modifies this
      ensures table == Run(old(table), events)
    {
      table := Run(table, events);
    }

    /** The oldest job that can be claimed. */
    method FindCandidate(caller: Hash, now: int) returns (candidate: Option<nat>)
      ensures candidate.None? ==>
                CredentialRotation.Authorises(table.agent, caller) ==>
                  forall k | 0 <= k < |table.jobs| :: !Claimable(table.jobs[k], now)
      ensures candidate.Some? ==>
                && candidate.value < |table.jobs|
                && MayClaim(table, candidate.value, table.jobs[candidate.value], caller, now)
                && forall k | 0 <= k < candidate.value :: !Claimable(table.jobs[k], now)
    {
      if !CredentialRotation.Authorises(table.agent, caller) { return None; }
      for i := 0 to |table.jobs|
        invariant forall k | 0 <= k < i :: !Claimable(table.jobs[k], now)
      {
        if Claimable(table.jobs[i], now) { return Some(i); }
      }
      candidate := None;
    }

    /** A claim at this time is overtaken: some job could be claimed, and no longer can
        once the others have acted. */
    static predicate Overtaken(t: Table, caller: Hash, now: int, others: seq<Event>) {
      exists i: nat | i < |t.jobs| && Claimable(t.jobs[i], now) :: !MayClaim(Run(t, others), i, t.jobs[i], caller, now)
    }

    /** An authorised caller would have found nothing to claim. */
    static predicate NothingFor(t: Table, caller: Hash, now: int) {
      CredentialRotation.Authorises(t.agent, caller) ==> forall i | 0 <= i < |t.jobs| :: !Claimable(t.jobs[i], now)
    }

    /** The rows after the first `n` rounds in which only others acted. */
    static function Rounds(t: Table, others: seq<seq<Event>>, n: nat): Table
      requires n <= |others|
    {
      if n == 0 then t else Run(Rounds(t, others, n - 1), others[n - 1])
    }

    /** Reads a candidate and leases it, unless `others` were faster in between. */
    method ClaimOnce(caller: Hash, now: int, others: seq<Event>) returns (attempt: ClaimAttempt)
      requires Inv(table)
      modifies this
      ensures Inv(table) && Progressed(old(table), table)
      ensures attempt.Empty? ==> table == old(table) && NothingFor(table, caller, now)
      ensures attempt.Raced? ==> table == Run(old(table), others) && Overtaken(old(table), caller, now, others)
      ensures attempt.Claimed? ==>
                var before := Run(old(table), others);
                var i := attempt.i;
                && i < |old(table).jobs| && Claimable(old(table).jobs[i], now)
                && MayClaim(before, i, old(table).jobs[i], caller, now)
                && table == Claim(before, i, old(table).jobs[i], caller, now)
                && attempt.token == before.next && attempt.leaseExpiresAt == now + LEASE_MS
      ensures attempt.Claimed? ==> ActiveLease(table, attempt.i, caller, attempt.token, now)
    {
      var candidate := FindCandidate(caller, now);
      if candidate.None? { return Empty; }
      var i := candidate.value;
      var seen := table.jobs[i];
      RunProgresses(table, others);
      Interfere(others);
      if !MayClaim(table, i, seen, caller, now) { return Raced; }
      attempt := Claimed(i, table.next, now + LEASE_MS);
      ClaimProgresses(table, i, seen, caller, now);
      ProgressedOn(old(table), table, Claim(table, i, seen, caller, now));
      table := Claim(table, i, seen, caller, now);
    }

    /** Tries again when another claim was faster, at most three times. */
    method ClaimNext(caller: Hash, nows: seq<int>, others: seq<seq<Event>>)
      returns (attempt: ClaimAttempt, ghost round: nat)
      requires Inv(table) && |nows| == |others| == 3
      modifies this
      ensures Inv(table) && Progressed(old(table), table)
      ensures round < 3
      ensures attempt.Claimed? ==>
                && ActiveLease(table, attempt.i, caller, attempt.token, nows[round])
                && attempt.leaseExpiresAt == nows[round] + LEASE_MS
      // It comes back without a job only if there is none, or three claims were overtaken.
      ensures attempt.Empty? ==> table == Rounds(old(table), others, round) && NothingFor(table, caller, nows[round])
      ensures attempt.Raced? ==>
                && table == Rounds(old(table), others, 3)
                && forall k | 0 <= k < 3 :: Overtaken(Rounds(old(table), others, k), caller, nows[k], others[k])
    {
      attempt, round := Raced, 0;
      for k := 0 to 3
        invariant Inv(table) && attempt.Raced? && Progressed(old(table), table)
        invariant table == Rounds(old(table), others, k)
        invariant forall j | 0 <= j < k :: Overtaken(Rounds(old(table), others, j), caller, nows[j], others[j])
      {
        ghost var before := table;
        round := k;
        attempt := ClaimOnce(caller, nows[k], others[k]);
        ProgressedOn(old(table), before, table);
        if !attempt.Raced? { return; }
      }
    }

    method RenewLease(i: nat, caller: Hash, token: Token, now: int) returns (renewed: Option<int>)
      modifies this
      ensures table == Renew(old(table), i, caller, token, now)
      ensures renewed == if old(ActiveLease(table, i, caller, token, now)) then Some(now + LEASE_MS) else None
    {
      renewed := None;
      if ActiveLease(table, i, caller, token, now) {
        table := Put(table, i, table.jobs[i].(leaseExpiresAt := Some(now + LEASE_MS)));
        renewed := Some(now + LEASE_MS);
      }
    }

    /** A report that is not newer than the stored one is answered, not stored. */
    method ReportProgress(i: nat, caller: Hash, token: Token, now: int, report: Report) returns (answer: Answer)
      modifies this
      ensures table == Progress(old(table), i, caller, token, now, report)
      ensures answer == if old(ActiveLease(table, i, caller, token, now)) then Accepted(table.jobs[i]) else LostLease
    {
      if ActiveLease(table, i, caller, token, now) && table.jobs[i].sequence < report.sequence {
        table := Put(table, i, table.jobs[i].(sequence := report.sequence, percent := report.percent,
                                              stage := report.stage, message := report.message));
        return Accepted(table.jobs[i]);
      }
      answer := if ActiveLease(table, i, caller, token, now) then Accepted(table.jobs[i]) else LostLease;
    }

    method CompleteJob(i: nat, caller: Hash, token: Token, now: int, completion: Completion)
      returns (answer: Answer)
      modifies this
      ensures table == Complete(old(table), i, caller, token, now, completion)
      ensures answer == CompleteAnswer(old(table), i, caller, token, now, completion)
    {
      if !BoundLease(table, i, caller, token) { return LostLease; }
      if completion.gatewayFingerprint.Some? && !table.jobs[i].kind.GatewayPreflight? { return BadRequest; }
      if ActiveLease(table, i, caller, token, now) {
        table := Put(table, i, CompletedJob(table.jobs[i], completion));
        return Accepted(table.jobs[i]);
      }
      if SameOutcome(table.jobs[i], completion) {
        return Accepted(table.jobs[i]);
      }
      answer := LostLease;
    }
  }
}
