/** Rotation of the Agent's credential between the control plane, which keeps an
    active and a pending credential, and the Agent, whose disk keeps a current
    and a previous one. Requests may be delayed and answered late or never, the
    Agent may crash anywhere, and a stale pending credential is reissued. */
module CredentialRotation {
  import opened Common

  /** Credentials are random; the model numbers them in the order they are drawn. */
  type Credential = nat

  /** The database only sees hashes, and hashing is injective. */
  datatype Hash = HashOf(credential: Credential)

  const ROTATE_AFTER_MS := 30 * 24 * 60 * 60_000
  const REISSUE_AFTER_MS := 24 * 60 * 60_000

  // ----- the Agent row and its guarded writes -----

  datatype Pending = Pending(hash: Hash, generation: nat, issuedAt: int)

  /** The row of an enrolled, enabled Agent. */
  datatype AgentRow = AgentRow(hash: Hash, generation: nat, activatedAt: int, pending: Option<Pending>)

  datatype Slot = ActiveSlot | PendingSlot

  /** What authentication read about the Agent. It may be stale when it is used. */
  datatype Identity = Identity(hash: Hash, generation: nat, slot: Slot, activatedAt: int)

  datatype Rotation = Rotation(credential: Credential, generation: nat)

  datatype Reply = Unauthorized | Accepted(generation: nat, confirmed: bool, rotation: Option<Rotation>)

  /** Looks a credential up in both slots; generation 0 never authenticates. */
  function Authenticate(row: AgentRow, credential: Credential): Option<Identity> {
    var hash := HashOf(credential);
    if row.pending.Some? && row.pending.value.hash == hash then
      if row.pending.value.generation == 0 then None
      else Some(Identity(hash, row.pending.value.generation, PendingSlot, row.activatedAt))
    else if row.hash == hash && row.generation != 0 then
      Some(Identity(hash, row.generation, ActiveSlot, row.activatedAt))
    else
      None
  }

  /** The guard under which a pending credential becomes the active one. */
  predicate MayActivate(row: AgentRow, identity: Identity) {
    && row.pending.Some? && row.pending.value.hash == identity.hash
    && row.pending.value.generation == identity.generation
  }

  function Activated(identity: Identity, now: int): AgentRow {
    AgentRow(identity.hash, identity.generation, now, None)
  }

  /** The guard under which a new pending credential is issued. */
  predicate MayIssue(row: AgentRow, identity: Identity, now: int) {
    && identity.activatedAt <= now - ROTATE_AFTER_MS
    && row.hash == identity.hash && row.generation == identity.generation
    && (row.pending.None? || row.pending.value.issuedAt <= now - REISSUE_AFTER_MS)
  }

  function Issued(row: AgentRow, identity: Identity, now: int, next: Credential): AgentRow {
    row.(pending := Some(Pending(HashOf(next), identity.generation + 1, now)))
  }

  /** Whether job requests authenticated with `hash` still pass the row's fence. */
  predicate Authorises(row: AgentRow, hash: Hash) {
    row.hash == hash || (row.pending.Some? && row.pending.value.hash == hash)
  }

  // ----- the Agent's configuration -----

  datatype Previous = Previous(credential: Credential, generation: nat)

  datatype Config = Config(credential: Credential, generation: nat, previous: Option<Previous>)

  /** What the Agent checks before it saves a configuration. */
  predicate ValidConfig(config: Config) {
    && config.generation >= 1
    && (config.previous.Some? ==> 1 <= config.previous.value.generation < config.generation)
  }

  function WithPending(config: Config, rotation: Rotation): Config {
    Config(rotation.credential, rotation.generation, Some(Previous(config.credential, config.generation)))
  }

  function Stable(config: Config): Config {
    config.(previous := None)
  }

  function Fallback(config: Config): Config
    requires config.previous.Some?
  {
    Config(config.previous.value.credential, config.previous.value.generation, None)
  }

  // ----- the two parties and the requests between them -----

  /** A heartbeat request inside the control plane, between its database calls. */
  datatype Request =
    | Arrived(credential: Credential)
    | Identified(credential: Credential, identity: Identity)
    | Recorded(credential: Credential, identity: Identity, now: int)
    | Replied(credential: Credential, reply: Reply)

  /** Where the Agent is in one heartbeat; `Rejected`: it found the reply inconsistent. */
  datatype Phase =
    | Idle
    | AwaitHeartbeat(request: nat)
    | AwaitFallback(request: nat)
    | SavingFallback(reply: Reply)
    | UsingFallback(reply: Reply)
    | Reconciling(reply: Reply)
    | SavingPending(rotation: Rotation)
    | UsingPending(rotation: Rotation)
    | AwaitConfirmation(request: nat)
    | SavingStable
    | UsingStable
    | Rejected

  datatype System = System(row: AgentRow, next: Credential, requests: seq<Request>,
                           disk: Config, memory: Config, phase: Phase)

  datatype Event =
    | Identify(request: nat)                        // the control plane authenticates a request,
    | Record(request: nat, now: int)                // records the heartbeat,
    | Answer(request: nat, rotates: bool)           // issues a rotation if due, and replies
    | Proceed                                       // the Agent takes its next step
    | GiveUp                                        // its request timed out, or a save failed
    | Crash                                         // the Agent restarts from disk

  function Initial(credential: Credential, generation: nat, now: int): System
    requires generation >= 1
  {
    var config := Config(credential, generation, None);
    System(AgentRow(HashOf(credential), generation, now, None), credential + 1, [], config, config, Idle)
  }

  function IdentifyStep(s: System, i: nat): System {
    if i < |s.requests| && s.requests[i].Arrived? then
      var credential := s.requests[i].credential;
      var found := Authenticate(s.row, credential);
      s.(requests := s.requests[i := if found.Some? then Identified(credential, found.value)
                                     else Replied(credential, Unauthorized)])
    else s
  }

  function RecordStep(s: System, i: nat, now: int): System {
    if i < |s.requests| && s.requests[i].Identified? then
      var Identified(credential, identity) := s.requests[i];
      if identity.slot.PendingSlot? then
        if MayActivate(s.row, identity) then
          s.(row := Activated(identity, now),
             requests := s.requests[i := Replied(credential, Accepted(identity.generation, true, None))])
        else
          s.(requests := s.requests[i := Replied(credential, Unauthorized)])
      else if s.row.hash == identity.hash then
        s.(requests := s.requests[i := Recorded(credential, identity, now)])
      else
        s.(requests := s.requests[i := Replied(credential, Unauthorized)])
    else s
  }

  function AnswerStep(s: System, i: nat, rotates: bool): System {
    if i < |s.requests| && s.requests[i].Recorded? then
      var Recorded(credential, identity, now) := s.requests[i];
      if rotates && MayIssue(s.row, identity, now) then
        var rotation := Rotation(s.next, identity.generation + 1);
        s.(row := Issued(s.row, identity, now, s.next), next := s.next + 1,
           requests := s.requests[i := Replied(credential,
                                               Accepted(identity.generation, true, Some(rotation)))])
      else
        s.(requests := s.requests[i := Replied(credential, Accepted(identity.generation, true, None))])
    else s
  }

  function Send(s: System, credential: Credential, phase: Phase): System {
    s.(requests := s.requests + [Arrived(credential)], phase := phase)
  }

  /** The reply the Agent is waiting for, once it is there. */
  function Received(s: System): Option<Reply> {
    if (s.phase.AwaitHeartbeat? || s.phase.AwaitFallback? || s.phase.AwaitConfirmation?)
       && s.phase.request < |s.requests| && s.requests[s.phase.request].Replied?
    then Some(s.requests[s.phase.request].reply) else None
  }

  function ProceedStep(s: System): System {
    match s.phase
    case Idle => Send(s, s.memory.credential, AwaitHeartbeat(|s.requests|))
    case AwaitHeartbeat(_) =>
      (match Received(s)
       case None => s
       case Some(Unauthorized) =>
         if s.memory.previous.Some?
         then Send(s, s.memory.previous.value.credential, AwaitFallback(|s.requests|))
         else s.(phase := Idle)
       case Some(reply) => s.(phase := Reconciling(reply)))
    case AwaitFallback(_) =>
      (match Received(s)
       case None => s
       case Some(Unauthorized) => s.(phase := Idle)
       case Some(reply) => s.(phase := SavingFallback(reply)))
    case SavingFallback(reply) =>
      if s.memory.previous.Some? then s.(disk := Fallback(s.memory), phase := UsingFallback(reply)) else s
    case UsingFallback(reply) =>
      if s.memory.previous.Some? then s.(memory := Fallback(s.memory), phase := Reconciling(reply)) else s
    case Reconciling(reply) => s.(phase := Reconciled(s.memory, reply))
    case SavingPending(rotation) => s.(disk := WithPending(s.memory, rotation), phase := UsingPending(rotation))
    case UsingPending(rotation) =>
      Send(s.(memory := WithPending(s.memory, rotation)), rotation.credential, AwaitConfirmation(|s.requests|))
    case AwaitConfirmation(_) =>
      (match Received(s)
       case None => s
       case Some(Unauthorized) => s.(phase := Idle)
       case Some(reply) =>
         s.(phase := if reply.generation == s.memory.generation && reply.confirmed then SavingStable
                     else Rejected))
    case SavingStable => s.(disk := Stable(s.memory), phase := UsingStable)
    case UsingStable => s.(memory := Stable(s.memory), phase := Idle)
    case Rejected => s
  }

  /** What the Agent does with an accepted heartbeat. */
  function Reconciled(config: Config, reply: Reply): Phase
  {
    if reply.Unauthorized? || reply.generation != config.generation then Rejected
    else if reply.rotation.Some? then
      if reply.rotation.value.generation != config.generation + 1 then Rejected
      else SavingPending(reply.rotation.value)
    else if reply.confirmed && config.previous.Some? then SavingStable
    else Idle
  }

  function Step(s: System, event: Event): System {
    match event
    case Identify(i) => IdentifyStep(s, i)
    case Record(i, now) => RecordStep(s, i, now)
    case Answer(i, rotates) => AnswerStep(s, i, rotates)
    case Proceed => ProceedStep(s)
    case GiveUp => if s.phase.Rejected? then s else s.(phase := Idle)
    case Crash => s.(memory := s.disk, phase := Idle)
  }

  function Run(s: System, events: seq<Event>): System
    decreases |events|
  {
    if events == [] then s else Run(Step(s, events[0]), events[1..])
  }

  // ----- the invariant -----

  function Active(s: System): Credential { s.row.hash.credential }

  /** `credential` would become active if a request carrying it got through. */
  predicate IsPending(s: System, credential: Credential) {
    s.row.pending.Some? && s.row.pending.value.hash == HashOf(credential)
  }

  predicate RowInv(s: System) {
    && s.row.generation >= 1 && Active(s) < s.next
    && (s.row.pending.Some? ==>
          && Active(s) < s.row.pending.value.hash.credential < s.next
          && s.row.pending.value.generation == s.row.generation + 1)
  }

  /** The configuration contains the active credential under its generation. */
  predicate Anchored(s: System, config: Config) {
    && config.credential < s.next && ValidConfig(config)
    && match config.previous
       case None => config.credential == Active(s) && config.generation == s.row.generation
       case Some(previous) =>
         && previous.credential < config.credential && config.generation == previous.generation + 1
         && (|| (config.credential == Active(s) && config.generation == s.row.generation)
             || (previous.credential == Active(s) && previous.generation == s.row.generation))
  }

  predicate ReplyInv(s: System, reply: Reply) {
    reply.Accepted? ==>
      && reply.generation == s.row.generation && reply.confirmed
      && (reply.rotation.Some? ==> RotationInv(s, reply.rotation.value))
  }

  predicate RotationInv(s: System, rotation: Rotation) {
    rotation.generation == s.row.generation + 1 && Active(s) < rotation.credential < s.next
  }

  predicate RequestInv(s: System, request: Request) {
    && request.credential < s.next
    && (!request.Replied? && IsPending(s, request.credential) ==>
          s.disk.credential == request.credential && s.memory.credential == request.credential)
    && (request.Identified? || request.Recorded? ==> request.identity.hash == HashOf(request.credential))
    && match request
       case Arrived(_) => true
       case Identified(credential, identity) =>
         && (identity.slot.ActiveSlot? ==> credential <= Active(s))
         && (identity.slot.ActiveSlot? && credential == Active(s) ==> identity.generation == s.row.generation)
         && (IsPending(s, credential) ==> identity.generation == s.row.pending.value.generation)
       case Recorded(credential, identity, _) =>
         && credential <= Active(s)
         && (credential == Active(s) ==> identity.generation == s.row.generation)
       case Replied(credential, reply) =>
         && !IsPending(s, credential)
         && (reply.Accepted? ==> credential <= Active(s))
         && (credential == Active(s) ==> ReplyInv(s, reply))
  }

  predicate Succeeding(request: Request) {
    request.Recorded? || (request.Replied? && request.reply.Accepted?)
  }

  predicate PhaseInv(s: System) {
    match s.phase
    case Idle => true
    case AwaitHeartbeat(i) =>
      && i < |s.requests| && s.requests[i].credential == s.memory.credential
      && (Succeeding(s.requests[i]) ==> Active(s) == s.memory.credential)
    case AwaitConfirmation(i) =>
      && i < |s.requests| && s.requests[i].credential == s.memory.credential
      && (Succeeding(s.requests[i]) ==> Active(s) == s.memory.credential)
    case AwaitFallback(i) =>
      && i < |s.requests| && s.memory.previous.Some?
      && s.requests[i].credential == s.memory.previous.value.credential
      && !IsPending(s, s.memory.credential)
      && (Succeeding(s.requests[i]) ==> Active(s) == s.memory.previous.value.credential)
    case SavingFallback(reply) => FallbackInv(s, reply)
    case UsingFallback(reply) => FallbackInv(s, reply)
    case Reconciling(reply) => Active(s) == s.memory.credential && reply.Accepted? && ReplyInv(s, reply)
    case SavingPending(rotation) => Active(s) == s.memory.credential && RotationInv(s, rotation)
    case UsingPending(rotation) =>
      && Active(s) == s.memory.credential && RotationInv(s, rotation)
      && s.disk == WithPending(s.memory, rotation)
    case SavingStable => Active(s) == s.memory.credential
    case UsingStable => Active(s) == s.memory.credential
    case Rejected => false
  }

  predicate FallbackInv(s: System, reply: Reply) {
    && s.memory.previous.Some? && Active(s) == s.memory.previous.value.credential
    && !IsPending(s, s.memory.credential) && reply.Accepted? && ReplyInv(s, reply)
  }

  /** The part of the invariant that does not depend on the Agent's phase. */
  predicate Core(s: System) {
    && RowInv(s) && Anchored(s, s.disk) && Anchored(s, s.memory)
    && (s.disk.credential != s.memory.credential ==> !IsPending(s, s.memory.credential))
    && (forall i | 0 <= i < |s.requests| :: RequestInv(s, s.requests[i]))
  }

  predicate Inv(s: System) {
    Core(s) && PhaseInv(s)
  }

  // ----- the control plane's events -----

  /** Replacing one request, with the row and the Agent as they were. */
  lemma RequestMoves(s: System, i: nat, request: Request)
    requires Inv(s) && i < |s.requests| && request.credential == s.requests[i].credential
    requires RequestInv(s, request)
    requires Succeeding(request) ==> Succeeding(s.requests[i]) || s.row.hash == HashOf(request.credential)
    ensures Inv(s.(requests := s.requests[i := request]))
  {
    var t := s.(requests := s.requests[i := request]);
    forall j | 0 <= j < |t.requests| ensures RequestInv(t, t.requests[j]) {
      assert RequestInv(s, if j == i then request else s.requests[j]);
    }
  }

  lemma IdentifyKeeps(s: System, i: nat)
    requires Inv(s)
    ensures Inv(IdentifyStep(s, i))
  {
    if i < |s.requests| && s.requests[i].Arrived? {
      var credential := s.requests[i].credential;
      var found := Authenticate(s.row, credential);
      assert RequestInv(s, s.requests[i]);
      RequestMoves(s, i, if found.Some? then Identified(credential, found.value)
                         else Replied(credential, Unauthorized));
    }
  }

  /** The pending credential can only become active while both configurations
      carry it as their current one. */
  lemma ActivationKeeps(s: System, i: nat, now: int)
    requires Inv(s) && i < |s.requests| && s.requests[i].Identified?
    requires s.requests[i].identity.slot.PendingSlot? && MayActivate(s.row, s.requests[i].identity)
    ensures Inv(RecordStep(s, i, now))
  {
    var t := RecordStep(s, i, now);
    assert RequestInv(s, s.requests[i]);
    assert s.disk.credential == s.memory.credential == s.requests[i].credential == Active(t);
    forall j | 0 <= j < |t.requests| ensures RequestInv(t, t.requests[j]) {
      assert RequestInv(s, s.requests[j]);
    }
  }

  lemma RecordKeeps(s: System, i: nat, now: int)
    requires Inv(s)
    ensures Inv(RecordStep(s, i, now))
  {
    if i < |s.requests| && s.requests[i].Identified? {
      var Identified(credential, identity) := s.requests[i];
      assert RequestInv(s, s.requests[i]);
      if identity.slot.PendingSlot? {
        if MayActivate(s.row, identity) {
          ActivationKeeps(s, i, now);
        } else {
          RequestMoves(s, i, Replied(credential, Unauthorized));
        }
      } else if s.row.hash == identity.hash {
        RequestMoves(s, i, Recorded(credential, identity, now));
      } else {
        RequestMoves(s, i, Replied(credential, Unauthorized));
      }
    }
  }

  /** Issuing replaces the pending credential by one nobody has used yet. */
  lemma IssueKeeps(s: System, i: nat)
    requires Inv(s) && i < |s.requests| && s.requests[i].Recorded?
    requires MayIssue(s.row, s.requests[i].identity, s.requests[i].now)
    ensures Inv(AnswerStep(s, i, true))
  {
    var t := AnswerStep(s, i, true);
    forall j | 0 <= j < |t.requests| ensures RequestInv(t, t.requests[j]) {
      assert RequestInv(s, s.requests[j]);
    }
  }

  lemma AnswerKeeps(s: System, i: nat, rotates: bool)
    requires Inv(s)
    ensures Inv(AnswerStep(s, i, rotates))
  {
    if i < |s.requests| && s.requests[i].Recorded? {
      var Recorded(credential, identity, now) := s.requests[i];
      assert RequestInv(s, s.requests[i]);
      if rotates && MayIssue(s.row, identity, now) {
        IssueKeeps(s, i);
      } else {
        RequestMoves(s, i, Replied(credential, Accepted(identity.generation, true, None)));
      }
    }
  }

  // ----- the Agent's events -----

  lemma SendKeeps(s: System, credential: Credential, phase: Phase)
    requires Core(s) && credential < s.next
    requires IsPending(s, credential) ==> s.disk.credential == s.memory.credential == credential
    ensures Core(Send(s, credential, phase))
  {
    var t := Send(s, credential, phase);
    forall j | 0 <= j < |t.requests| ensures RequestInv(t, t.requests[j]) {
      if j < |s.requests| { assert RequestInv(s, s.requests[j]); }
    }
  }

  /** Changing the configurations, when no unanswered request can activate anything. */
  lemma ConfigsKeep(s: System, disk: Config, memory: Config, phase: Phase)
    requires Core(s) && Anchored(s, disk) && Anchored(s, memory)
    requires !IsPending(s, s.memory.credential) || !IsPending(s, s.disk.credential)
    requires !IsPending(s, memory.credential) || memory.credential == disk.credential
    ensures Core(s.(disk := disk, memory := memory, phase := phase))
  {
    var t := s.(disk := disk, memory := memory, phase := phase);
    forall j | 0 <= j < |t.requests| ensures RequestInv(t, t.requests[j]) {
      assert RequestInv(s, s.requests[j]);
    }
  }

  /** A change of phase alone. */
  lemma PhaseKeeps(s: System, phase: Phase)
    requires Core(s)
    ensures Core(s.(phase := phase))
  {
    var t := s.(phase := phase);
    forall j | 0 <= j < |t.requests| ensures RequestInv(t, t.requests[j]) {
      assert RequestInv(s, s.requests[j]);
    }
  }

  lemma ReceiveKeeps(s: System)
    requires Inv(s)
    requires s.phase.AwaitHeartbeat? || s.phase.AwaitFallback? || s.phase.AwaitConfirmation?
    ensures Inv(ProceedStep(s))
  {
    if Received(s).Some? {
      assert RequestInv(s, s.requests[s.phase.request]);
      PhaseKeeps(s, ProceedStep(s).phase);
      if s.phase.AwaitHeartbeat? && Received(s) == Some(Unauthorized) && s.memory.previous.Some? {
        SendKeeps(s, s.memory.previous.value.credential, AwaitFallback(|s.requests|));
      }
    }
  }

  lemma SaveKeeps(s: System)
    requires Inv(s)
    requires s.phase.SavingFallback? || s.phase.SavingPending? || s.phase.SavingStable?
    ensures Inv(ProceedStep(s))
  {
    var t := ProceedStep(s);
    ConfigsKeep(s, t.disk, s.memory, t.phase);
  }

  lemma UseKeeps(s: System)
    requires Inv(s)
    requires s.phase.UsingFallback? || s.phase.UsingPending? || s.phase.UsingStable?
    ensures Inv(ProceedStep(s))
  {
    match s.phase
    case UsingFallback(reply) => ConfigsKeep(s, s.disk, Fallback(s.memory), Reconciling(reply));
    case UsingPending(rotation) =>
      var memory := WithPending(s.memory, rotation);
      ConfigsKeep(s, s.disk, memory, s.phase);
      SendKeeps(s.(memory := memory), rotation.credential, AwaitConfirmation(|s.requests|));
    case UsingStable => ConfigsKeep(s, s.disk, Stable(s.memory), Idle);
  }

  lemma ProceedKeeps(s: System)
    requires Inv(s)
    ensures Inv(ProceedStep(s))
  {
    match s.phase
    case Idle => SendKeeps(s, s.memory.credential, AwaitHeartbeat(|s.requests|));
    case AwaitHeartbeat(_) => ReceiveKeeps(s);
    case AwaitFallback(_) => ReceiveKeeps(s);
    case AwaitConfirmation(_) => ReceiveKeeps(s);
    case Reconciling(reply) => PhaseKeeps(s, Reconciled(s.memory, reply));
    case SavingFallback(_) => SaveKeeps(s);
    case SavingPending(_) => SaveKeeps(s);
    case SavingStable => SaveKeeps(s);
    case UsingFallback(_) => UseKeeps(s);
    case UsingPending(_) => UseKeeps(s);
    case UsingStable => UseKeeps(s);
  }

  lemma CrashKeeps(s: System)
    requires Inv(s)
    ensures Inv(Step(s, Crash))
  {
    var t := Step(s, Crash);
    forall j | 0 <= j < |t.requests| ensures RequestInv(t, t.requests[j]) {
      assert RequestInv(s, s.requests[j]);
    }
  }

  lemma StepKeeps(s: System, event: Event)
    requires Inv(s)
    ensures Inv(Step(s, event))
  {
    match event
    case Identify(i) => IdentifyKeeps(s, i);
    case Record(i, now) => RecordKeeps(s, i, now);
    case Answer(i, rotates) => AnswerKeeps(s, i, rotates);
    case Proceed => ProceedKeeps(s);
    case GiveUp => PhaseKeeps(s, Idle);
    case Crash => CrashKeeps(s);
  }

  lemma {:induction false} RunKeeps(s: System, events: seq<Event>)
    requires Inv(s)
    ensures Inv(Run(s, events))
    decreases |events|
  {
    if events != [] {
      StepKeeps(s, events[0]);
      RunKeeps(Step(s, events[0]), events[1..]);
    }
  }

  // ----- the theorems -----

  /** Whether the Agent's disk still holds the credential the control plane accepts. */
  predicate Reachable(s: System) {
    || s.disk.credential == Active(s)
    || (s.disk.previous.Some? && s.disk.previous.value.credential == Active(s))
  }

  /** In every run the Agent's disk holds the active credential, as its current
      or its previous one, and no consistency check of an accepted heartbeat
      ever fails. */
  lemma NeverStranded(credential: Credential, generation: nat, now: int, events: seq<Event>)
    requires generation >= 1
    ensures var s := Run(Initial(credential, generation, now), events);
            Reachable(s) && !s.phase.Rejected?
  {
    RunKeeps(Initial(credential, generation, now), events);
  }

  /** In every reachable state, once the Agent has restarted and its earlier
      requests are gone, it is ready for a heartbeat: see HeartbeatOnce. */
  lemma RestartIsReady(credential: Credential, generation: nat, now: int, events: seq<Event>)
    requires generation >= 1
    ensures var s := Run(Initial(credential, generation, now), events);
            Core(System(s.row, s.next, [], s.disk, s.disk, Idle))
  {
    RunKeeps(Initial(credential, generation, now), events);
  }

  // ----- the code of the two parties -----

  /** One heartbeat handled without interruption: the new row, the next fresh
      credential and the reply. */
  function Heartbeat(row: AgentRow, next: Credential, credential: Credential, now: int, rotates: bool)
    : (AgentRow, Credential, Reply)
  {
    var found := Authenticate(row, credential);
    if found.None? then (row, next, Unauthorized)
    else
      var identity := found.value;
      if identity.slot.PendingSlot? then
        (Activated(identity, now), next, Accepted(identity.generation, true, None))
      else if rotates && MayIssue(row, identity, now) then
        (Issued(row, identity, now, next), next + 1,
         Accepted(identity.generation, true, Some(Rotation(next, identity.generation + 1))))
      else
        (row, next, Accepted(identity.generation, true, None))
  }

  /** Handled without interruption, a request goes through exactly the three
      database steps of the protocol. */
  lemma HeartbeatIsThreeSteps(s: System, i: nat, now: int, rotates: bool)
    requires i < |s.requests| && s.requests[i].Arrived?
    ensures var t := Run(s, [Identify(i), Record(i, now), Answer(i, rotates)]);
            var (row, next, reply) := Heartbeat(s.row, s.next, s.requests[i].credential, now, rotates);
            && t.row == row && t.next == next
            && t.requests == s.requests[i := Replied(s.requests[i].credential, reply)]
            && (t.disk, t.memory, t.phase) == (s.disk, s.memory, s.phase)
  {
    var a := IdentifyStep(s, i);
    var b := RecordStep(a, i, now);
    var c := AnswerStep(b, i, rotates);
    calc {
      Run(s, [Identify(i), Record(i, now), Answer(i, rotates)]);
    ==
      Run(a, [Record(i, now), Answer(i, rotates)]);
    ==  { assert [Record(i, now), Answer(i, rotates)][1..] == [Answer(i, rotates)]; }
      Run(b, [Answer(i, rotates)]);
    ==
      Run(c, []);
    ==
      c;
    }
  }

  /** What a reply to `credential` says about the row: an accepted one is the
      active credential, a rotation in it is the pending one. */
  predicate Answers(s: System, credential: Credential, reply: Reply) {
    if reply.Unauthorized? then Active(s) != credential
    else
      && Active(s) == credential && ReplyInv(s, reply)
      && (reply.rotation.Some? ==> IsPending(s, reply.rotation.value.credential))
  }

  lemma HeartbeatKeeps(s: System, credential: Credential, now: int, rotates: bool)
    requires Core(s) && s.requests == []
    requires credential == s.memory.credential
             || (s.memory.previous.Some? && credential == s.memory.previous.value.credential)
    ensures var (row, next, reply) := Heartbeat(s.row, s.next, credential, now, rotates);
            var t := s.(row := row, next := next);
            && Core(t) && Answers(t, credential, reply)
            && (reply.Unauthorized? ==> row == s.row)
            && (IsPending(s, credential) ==> reply.Accepted?)
            && (IsPending(t, s.memory.credential) ==> IsPending(s, s.memory.credential))
  {
    var (row, next, reply) := Heartbeat(s.row, s.next, credential, now, rotates);
    var t := s.(row := row, next := next);
    if IsPending(s, credential) {
      assert s.disk.credential == s.memory.credential == credential;
    }
    assert RowInv(t);
  }

  /** The control plane's side. */
  class AgentsService {
    var row: AgentRow
    var next: Credential

    constructor (credential: Credential, generation: nat, now: int)
      ensures row == AgentRow(HashOf(credential), generation, now, None) && next == credential + 1
    {
      row, next := AgentRow(HashOf(credential), generation, now, None), credential + 1;
    }

    /** Promotes the pending credential, if the row still has it. */
    method Activate(identity: Identity, now: int) returns (accepted: bool)
      modifies this`row
      ensures accepted == old(MayActivate(row, identity))
      ensures row == if accepted then Activated(identity, now) else old(row)
    {
      accepted := MayActivate(row, identity);
      if accepted {
        row := Activated(identity, now);
      }
    }

    /** Stores a fresh pending credential, if a rotation is due and none is recent. */
    method IssueRotation(identity: Identity, now: int) returns (rotation: Option<Rotation>)
      modifies this
      ensures rotation.Some? == old(MayIssue(row, identity, now))
      ensures rotation.Some? ==>
                && rotation.value == Rotation(old(next), identity.generation + 1)
                && row == Issued(old(row), identity, now, old(next)) && next == old(next) + 1
      ensures rotation.None? ==> row == old(row) && next == old(next)
    {
      rotation := None;
      if MayIssue(row, identity, now) {
        rotation := Some(Rotation(next, identity.generation + 1));
        row, next := Issued(row, identity, now, next), next + 1;
      }
    }

    method Respond(credential: Credential, now: int, rotates: bool) returns (reply: Reply)
      modifies this
      ensures (row, next, reply) == Heartbeat(old(row), old(next), credential, now, rotates)
    {
      var found := Authenticate(row, credential);
      if found.None? { return Unauthorized; }
      var identity := found.value;
      if identity.slot.PendingSlot? {
        var accepted := Activate(identity, now);
        if !accepted { return Unauthorized; }
        return Accepted(identity.generation, true, None);
      }
      if row.hash != identity.hash { return Unauthorized; }
      reply := Accepted(identity.generation, true, None);
      if rotates {
        var rotation := IssueRotation(identity, now);
        reply := reply.(rotation := rotation);
      }
    }
  }

  datatype Outcome = Answered(reply: Reply) | Failed | Killed

  /** The Agent's side: its configuration in memory and on disk. */
  class AgentRuntime {
    var config: Config
    var disk: Config
    // Faults of the network and of the file system still to come.
    var network: seq<Fate>
    var files: seq<Fate>

    constructor (config: Config)
      ensures this.config == disk == config && network == files == []
    {
      this.config, disk, network, files := config, config, [], [];
    }

    /** The two parties with no request under way. */
    function Parties(service: AgentsService): System
      reads this, service
    {
      System(service.row, service.next, [], disk, config, Idle)
    }

    /** The parties as they are once the Agent has restarted. */
    function Restarted(service: AgentsService): System
      reads this, service
    {
      Parties(service).(memory := disk)
    }

    predicate FaultFree()
      reads this
    {
      network == [] && files == []
    }

    /** One request with one of the Agent's credentials: it is answered, its
        request or its answer is lost, or the Agent dies. */
    method Post(service: AgentsService, credential: Credential, now: int, rotates: bool)
      returns (outcome: Outcome)
      requires Core(Parties(service))
      requires credential == config.credential
               || (config.previous.Some? && credential == config.previous.value.credential)
      modifies this`network, service
      ensures Core(Parties(service)) && network == Tail(old(network))
      ensures old(IsPending(Parties(service), credential)) && outcome.Answered? ==> outcome.reply.Accepted?
      ensures IsPending(Parties(service), config.credential) ==> old(IsPending(Parties(service), config.credential))
      ensures outcome.Answered? ==> Answers(Parties(service), credential, outcome.reply)
      ensures outcome.Answered? && outcome.reply.Unauthorized? ==> service.row == old(service.row)
      ensures old(network) == [] ==> outcome.Answered?
    {
      HeartbeatKeeps(Parties(service), credential, now, rotates);
      var fate := Head(network);
      network := Tail(network);
      match fate {
        case Done =>
          var reply := service.Respond(credential, now, rotates);
          outcome := Answered(reply);
        case Late =>
          var _ := service.Respond(credential, now, rotates);
          outcome := Failed;
        case Refused => outcome := Failed;
        case Killed => outcome := Outcome.Killed;
      }
    }

    method SaveConfig(next: Config) returns (fate: Fate)
      modifies this`disk, this`files
      ensures files == Tail(old(files))
      ensures disk == if fate.Done? || fate.Late? then next else old(disk)
      ensures old(files) == [] && ValidConfig(next) ==> fate.Done?
    {
      fate := Head(files);
      files := Tail(files);
      if !ValidConfig(next) { return if fate.Killed? then fate else Refused; }
      if fate.Done? || fate.Late? {
        disk := next;
      }
    }

    /** Forgets the previous credential on disk and then in memory. */
    method Settle(service: AgentsService) returns (exit: Exit)
      requires Core(Parties(service)) && config.credential == Active(Parties(service))
      modifies this`config, this`disk, this`files
      ensures exit.Died? ==> Core(Restarted(service))
      ensures !exit.Died? ==> Core(Parties(service))
      ensures old(files) == [] ==> exit.Returned? && files == []
      ensures exit.Returned? ==> config == disk == Stable(old(config))
    {
      var fate := SaveConfig(Stable(config));
      if fate.Killed? { return Died; }
      if !fate.Done? { return Threw; }
      config := Stable(config);
      exit := Returned;
    }

    /** Uses a credential that is already saved, until the control plane confirms it. */
    method Confirm(service: AgentsService, now: int, rotates: bool) returns (exit: Exit)
      requires Core(Parties(service)) && disk == config
      modifies this, service
      ensures exit.Died? ==> Core(Restarted(service))
      ensures !exit.Died? ==> Core(Parties(service))
      ensures old(FaultFree()) && old(IsPending(Parties(service), config.credential)) ==> exit.Returned?
      ensures exit.Returned? ==> config.previous.None? && config.credential == Active(Parties(service))
    {
      var outcome := Post(service, config.credential, now, rotates);
      if outcome.Killed? { return Died; }
      if outcome.Failed? || outcome.reply.Unauthorized? { return Threw; }
      if outcome.reply.generation != config.generation || !outcome.reply.confirmed { return Threw; }
      exit := Settle(service);
    }

    /** Saves a rotated credential next to the one it replaces, then uses it. */
    method Install(service: AgentsService, rotation: Rotation) returns (exit: Exit)
      requires Core(Parties(service)) && config.credential == Active(Parties(service))
      requires RotationInv(Parties(service), rotation)
      modifies this`config, this`disk, this`files
      ensures exit.Died? ==> Core(Restarted(service))
      ensures !exit.Died? ==> Core(Parties(service))
      ensures old(files) == [] ==> exit.Returned? && files == []
      ensures exit.Returned? ==> config == disk == WithPending(old(config), rotation)
    {
      var pending := WithPending(config, rotation);
      var fate := SaveConfig(pending);
      if fate.Killed? { return Died; }
      if !fate.Done? { return Threw; }
      config := pending;
      exit := Returned;
    }

    /** Handles an accepted heartbeat: saves a rotated credential before using it
        and drops the old one only after the control plane confirmed the new. */
    method ReconcileCredentialRotation(service: AgentsService, reply: Reply, now: int, rotates: bool)
      returns (exit: Exit)
      requires Core(Parties(service)) && config.credential == Active(Parties(service))
      requires reply.Accepted? && ReplyInv(Parties(service), reply)
      modifies this, service
      ensures exit.Died? ==> Core(Restarted(service))
      ensures !exit.Died? ==> Core(Parties(service))
      ensures old(FaultFree()) && old(Answers(Parties(service), config.credential, reply)) ==> exit.Returned?
      ensures exit.Returned? ==> config.previous.None? && config.credential == Active(Parties(service))
    {
      if reply.generation != config.generation { return Threw; }
      if reply.rotation.Some? {
        var rotation := reply.rotation.value;
        if rotation.generation != config.generation + 1 { return Threw; }
        exit := Install(service, rotation);
        if !exit.Returned? { return; }
        exit := Confirm(service, now, rotates);
        return;
      }
      if reply.confirmed && config.previous.Some? {
        exit := Settle(service);
        return;
      }
      exit := Returned;
    }

    /** Makes the previous credential the current one again, on disk and then in memory. */
    method Adopt(service: AgentsService) returns (exit: Exit)
      requires Core(Parties(service)) && config.previous.Some?
      requires Active(Parties(service)) == config.previous.value.credential
      requires !IsPending(Parties(service), config.credential)
      modifies this`config, this`disk, this`files
      ensures exit.Died? ==> Core(Restarted(service))
      ensures !exit.Died? ==> Core(Parties(service))
      ensures old(files) == [] ==> exit.Returned? && files == []
      ensures exit.Returned? ==> config == Fallback(old(config))
    {
      var fallback := Fallback(config);
      var fate := SaveConfig(fallback);
      if fate.Killed? { return Died; }
      if !fate.Done? { return Threw; }
      config := fallback;
      exit := Returned;
    }

    /** Falls back to the previous credential after the current one was refused. */
    method UsePrevious(service: AgentsService, now: int, rotates: bool) returns (exit: Exit, outcome: Outcome)
      requires Core(Parties(service)) && config.previous.Some?
      requires config.credential != Active(Parties(service)) && !IsPending(Parties(service), config.credential)
      modifies this, service
      ensures exit.Died? ==> Core(Restarted(service))
      ensures !exit.Died? ==> Core(Parties(service))
      ensures old(FaultFree()) ==> exit.Returned? && FaultFree()
      ensures exit.Returned? ==>
                && outcome.Answered? && outcome.reply.Accepted?
                && Answers(Parties(service), config.credential, outcome.reply)
    {
      outcome := Post(service, config.previous.value.credential, now, rotates);
      if outcome.Killed? { return Died, outcome; }
      if outcome.Failed? || outcome.reply.Unauthorized? { return Threw, outcome; }
      exit := Adopt(service);
    }

    /** One heartbeat: if the current credential is refused the previous one is
        tried, and becomes the current one when it is accepted. Whatever the
        network and the disk do, both configurations keep the active credential;
        without faults the heartbeat succeeds and leaves no previous credential. */
    method HeartbeatOnce(service: AgentsService, now: int, rotates: bool) returns (exit: Exit)
      requires Core(Parties(service))
      modifies this, service
      ensures exit.Died? ==> Core(Restarted(service))
      ensures !exit.Died? ==> Core(Parties(service))
      ensures old(FaultFree()) ==> exit.Returned?
      ensures exit.Returned? ==> config.previous.None? && config.credential == Active(Parties(service))
    {
      var outcome := Post(service, config.credential, now, rotates);
      if outcome.Killed? { return Died; }
      if outcome.Failed? { return Threw; }
      if outcome.reply.Unauthorized? {
        if config.previous.None? { return Threw; }
        exit, outcome := UsePrevious(service, now, rotates);
        if !exit.Returned? { return; }
      }
      exit := ReconcileCredentialRotation(service, outcome.reply, now, rotates);
    }
  }
}
