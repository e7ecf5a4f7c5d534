/** One gateway job on the Agent: connect the gateway to the workload, switch the
    owned Caddy route, verify it in public, then retire old revisions or go back.
    Every call may fail, fail late, or be the last one before the Agent dies, so
    what a method ensures holds at every step. */
module GatewayActivation {
  import opened Common

  type Id = nat

  datatype Upstream = Upstream(container: Id, port: nat)

  datatype Name = Scoped(slot: string) | LegacyScoped(slot: string) | Legacy

  /** A workload container of this environment. */
  datatype Container = Container(name: Name, running: bool, revision: string, slot: Option<string>)

  /** A network of this environment, and whether the gateway is attached to it. */
  datatype Network = Network(members: set<Id>, gateway: bool)

  datatype Activation = Deploy | Start

  datatype Payload = Payload(activation: Activation, slot: string, revision: string, port: nat)

  datatype Outcome =
    | Published(cleanupComplete: bool)   // active and verified in public
    | Withdrawn                          // inactive, gateway detached
    | ServingRestored                    // failed, "previous serving route restored"
    | StateRestored                      // failed, "previous gateway state restored"
    | Incomplete                         // failed, "rollback incomplete"
    | Interrupted                        // failed before anything changed, or after publication
    | Lost                               // the Agent died

  // ----- which container a payload means -----

  predicate Matches(c: Container, payload: Payload) {
    && c.running && c.revision == payload.revision
    && (((c.name == Scoped(payload.slot) || c.name == LegacyScoped(payload.slot)) && c.slot == Some(payload.slot))
        || (c.name == Legacy && c.slot == None))
  }

  function Candidates(containers: map<Id, Container>, payload: Payload): set<Id> {
    set id | id in containers && Matches(containers[id], payload)
  }

  /** The workload of the payload is `id`, and no other container could be meant. */
  predicate IsActive(containers: map<Id, Container>, payload: Payload, id: Id) {
    Candidates(containers, payload) == {id}
  }

  lemma OnlyElement<T>(s: set<T>, x: T)
    requires |s| == 1 && x in s
    ensures s == {x}
  {
    assert |s - {x}| == 0;
  }

  lemma ActiveIsRunning(containers: map<Id, Container>, payload: Payload, id: Id)
    requires IsActive(containers, payload, id)
    ensures id in containers && containers[id].running && Matches(containers[id], payload)
  {
    assert id in Candidates(containers, payload);
  }

  function Without(containers: map<Id, Container>, id: Id): map<Id, Container> {
    map k | k in containers && k != id :: containers[k]
  }

  function Discarded(containers: map<Id, Container>, payload: Payload, id: Id): map<Id, Container> {
    if payload.activation.Deploy? then Without(containers, id)
    else if id in containers then containers[id := containers[id].(running := false)]
    else containers
  }

  /** Nothing but the payload's own workload was touched. */
  predicate OthersKept(before: map<Id, Container>, after: map<Id, Container>, payload: Payload) {
    forall id | id in before && !IsActive(before, payload, id) :: id in after && after[id] == before[id]
  }

  predicate Runs(containers: map<Id, Container>, dial: Option<Upstream>) {
    dial.Some? ==> dial.value.container in containers && containers[dial.value.container].running
  }

  predicate Attached(networks: seq<Network>, id: Id) {
    exists n | 0 <= n < |networks| :: networks[n].gateway && id in networks[n].members
  }

  /** How many of the first `n` networks the gateway is attached to. */
  function Attachments(networks: seq<Network>, n: nat): nat
    requires n <= |networks|
  {
    if n == 0 then 0 else Attachments(networks, n - 1) + if networks[n - 1].gateway then 1 else 0
  }

  /** A workload and its network. */
  datatype Home = Home(id: Id, network: nat)

  /** The payload's workload is `id`, and `n` is the one network it is in. */
  predicate Situated(containers: map<Id, Container>, networks: seq<Network>, payload: Payload, id: Id, n: nat) {
    && IsActive(containers, payload, id) && n < |networks|
    && forall m | 0 <= m < |networks| :: id in networks[m].members <==> m == n
  }

  function ExitOf(fate: Fate): Exit {
    match fate
    case Done => Returned
    case Killed => Died
    case _ => Threw
  }

  function Refusal(fate: Fate): Exit { if fate.Killed? then Died else Threw }

  predicate Commits(fate: Fate) { fate.Done? || fate.Late? }

  // ----- the calls of a job, in order -----

  /** Locating the workload and its network; attaching the gateway, if it is not. */
  function ConnectCalls(networks: seq<Network>, n: nat): nat
    requires n < |networks|
  {
    if networks[n].gateway then 3 else 5
  }

  /** Finding the gateway and the networks; two calls for each network to detach. */
  function DisconnectCalls(networks: seq<Network>): nat {
    2 + 2 * Attachments(networks, |networks|)
  }

  /** Resolve, report, switch, report, verify. */
  const SWITCH_CALLS := 5

  class Gateway {
    const tape: seq<Fate>
    var next: nat                          // the next call to be made
    var dial: Option<Upstream>             // what the owned Caddy route dials
    var containers: map<Id, Container>     // the environment's workload containers
    var networks: seq<Network>             // its networks: the scoped one, and a legacy one
    ghost var healthy: bool                // the public health check of this job has passed

    constructor (dial: Option<Upstream>, containers: map<Id, Container>, networks: seq<Network>, tape: seq<Fate>)
      ensures this.dial == dial && this.containers == containers && this.networks == networks
      ensures this.tape == tape && next == 0
    {
      this.dial, this.containers, this.networks := dial, containers, networks;
      this.tape, this.next, this.healthy := tape, 0, false;
    }

    /** Whatever the route dials is running. */
    predicate Serving()
      reads this
    {
      Runs(containers, dial)
    }

    /** And the gateway reaches it. */
    predicate Reachable()
      reads this
    {
      dial.Some? ==> Attached(networks, dial.value.container)
    }

    method NextFate() returns (fate: Fate)
      modifies `next
      ensures fate == At(tape, old(next)) && next == old(next) + 1
    {
      fate := At(tape, next);
      next := next + 1;
    }

    /** A call that changes nothing: a read, a progress report, a health check. */
    method Ask() returns (exit: Exit)
      modifies `next
      ensures next == old(next) + 1 && exit == ExitOf(At(tape, old(next)))
    {
      var fate := NextFate();
      exit := ExitOf(fate);
    }

    /** Some calls in a row that change nothing. */
    method AskAll(calls: nat) returns (exit: Exit)
      modifies `next
      ensures var k := FirstFault(tape, old(next), calls);
              && k <= calls && exit == (if k == calls then Returned else ExitOf(At(tape, old(next) + k)))
              && (exit.Returned? <==> k == calls)
              && next == old(next) + (if k == calls then calls else k + 1)
      ensures exit.Returned? <==> AllDone(tape, old(next), calls)
    {
      exit := Returned;
      for i := 0 to calls
        invariant next == old(next) + i && AllDone(tape, old(next), i) && exit.Returned?
      {
        exit := Ask();
        if !exit.Returned? {
          FirstFaultIs(tape, old(next), calls, i);
          return;
        }
      }
      FirstFaultIs(tape, old(next), calls, calls);
    }

    /** The application answers at its public address. */
    method VerifyPublicHealth() returns (exit: Exit)
      modifies `next, `healthy
      ensures next == old(next) + 1 && exit == ExitOf(At(tape, old(next)))
      ensures healthy <==> old(healthy) || exit.Returned?
    {
      exit := Ask();
      healthy := healthy || exit.Returned?;
    }

    /** The reconciliation of the owned route, which nobody else edits. */
    method SetRoute(upstream: Option<Upstream>) returns (exit: Exit)
      modifies `dial, `next
      ensures next == old(next) + 1 && exit == ExitOf(At(tape, old(next)))
      ensures dial == if Commits(At(tape, old(next))) then upstream else old(dial)
    {
      var fate := NextFate();
      if Commits(fate) { dial := upstream; }
      exit := ExitOf(fate);
    }

    method ActiveWorkload(payload: Payload) returns (exit: Exit, id: Id)
      modifies `next
      ensures next == old(next) + 1
      ensures exit.Returned? ==> IsActive(containers, payload, id)
      ensures exit == if |Candidates(containers, payload)| == 1 then ExitOf(At(tape, old(next)))
                      else Refusal(At(tape, old(next)))
    {
      id := 0;
      exit := Ask();
      if exit.Returned? {
        var candidates := Candidates(containers, payload);
        if |candidates| != 1 { return Threw, id; }
        id :| id in candidates;
        OnlyElement(candidates, id);
      }
    }

    // ----- the gateway's networks -----

    /** Finds the payload's workload and the one network it is in. */
    method Locate(payload: Payload) returns (exit: Exit, id: Id, n: nat)
      modifies `next
      ensures exit.Returned? ==> Situated(containers, networks, payload, id, n)
      ensures forall i: Id, m: nat :: Situated(containers, networks, payload, i, m) ==>
                var k := FirstFault(tape, old(next), 3);
                && k <= 3 && exit == (if k == 3 then Returned else ExitOf(At(tape, old(next) + k)))
                && (exit.Returned? <==> k == 3) && next == old(next) + (if k == 3 then 3 else k + 1)
                && (exit.Returned? ==> id == i && n == m)
    {
      id, n := 0, 0;
      exit := Ask();
      if !exit.Returned? {
        FirstFaultIs(tape, old(next), 3, 0);
        return;
      }
      exit, id := ActiveWorkload(payload);
      if !exit.Returned? {
        NoneSituated(payload, old(next));
        return;
      }
      exit := Ask();
      FirstFaultIs(tape, old(next), 3, if exit.Returned? then 3 else 2);
      if !exit.Returned? { return; }
      var matches := set m: nat | m < |networks| && id in networks[m].members;
      forall m: nat | Situated(containers, networks, payload, id, m) ensures |matches| == 1 {
        assert matches == {m};
      }
      if |matches| != 1 {
        exit := Threw;
        assert forall i: Id :: IsActive(containers, payload, i) ==> i in {id};
        return;
      }
      n :| n in matches;
      OnlyElement(matches, n);
      assert forall m | 0 <= m < |networks| :: id in networks[m].members <==> m in matches;
      assert forall i: Id :: IsActive(containers, payload, i) ==> i in {id};
    }

    /** A workload that could not be identified was not there, or the call failed. */
    lemma NoneSituated(payload: Payload, from: nat)
      requires At(tape, from).Done?
      requires !At(tape, from + 1).Done? || |Candidates(containers, payload)| != 1
      ensures forall i: Id, m: nat :: Situated(containers, networks, payload, i, m) ==>
                FirstFault(tape, from, 3) == 1 && |Candidates(containers, payload)| == 1
    {
      if !At(tape, from + 1).Done? { FirstFaultIs(tape, from, 3, 1); }
    }

    method Attach(n: nat) returns (exit: Exit)
      requires n < |networks| && !networks[n].gateway
      modifies `networks, `next
      ensures var k := FirstFault(tape, old(next), 2);
              && k <= 2 && exit == (if k == 2 then Returned else ExitOf(At(tape, old(next) + k)))
              && (exit.Returned? <==> k == 2) && next == old(next) + (if k == 2 then 2 else k + 1)
      ensures networks == old(networks) || networks == old(networks)[n := old(networks)[n].(gateway := true)]
      ensures exit.Returned? ==> networks == old(networks)[n := old(networks)[n].(gateway := true)]
    {
      var fate := NextFate();
      if Commits(fate) { networks := networks[n := networks[n].(gateway := true)]; }
      if !fate.Done? {
        FirstFaultIs(tape, old(next), 2, 0);
        return ExitOf(fate);
      }
      exit := Ask();
      FirstFaultIs(tape, old(next), 2, if exit.Returned? then 2 else 1);
    }

    /** Attaches the gateway to the network of the payload's workload. */
    method Connect(payload: Payload) returns (exit: Exit)
      modifies `networks, `next
      ensures |networks| == |old(networks)|
      ensures forall n | 0 <= n < |networks| ::
                && networks[n].members == old(networks)[n].members
                && (old(networks)[n].gateway ==> networks[n].gateway)
      ensures exit.Returned? ==>
                exists id: Id :: IsActive(containers, payload, id) && Attached(networks, id)
      ensures forall id: Id, n: nat :: Situated(containers, old(networks), payload, id, n) ==>
                var calls := ConnectCalls(old(networks), n);
                var k := FirstFault(tape, old(next), calls);
                && k <= calls && exit == (if k == calls then Returned else ExitOf(At(tape, old(next) + k)))
                && (exit.Returned? <==> k == calls)
                && next == old(next) + (if k == calls then calls else k + 1)
    {
      var id, n;
      FirstFaultOn(tape, next, 3, 2);
      exit, id, n := Locate(payload);
      if !exit.Returned? { return; }
      if networks[n].gateway {
        assert Attached(networks, id);
        return;
      }
      exit := Attach(n);
      assert exit.Returned? ==> networks[n].gateway && id in networks[n].members && Attached(networks, id);
    }

    /** Detaches the gateway from all its networks. With `k` calls successful in a row,
        a network is detached exactly if the call that detaches it was among them, or
        was the next one and took effect late. */
    method Disconnect() returns (exit: Exit)
      modifies `networks, `next
      ensures var calls := DisconnectCalls(old(networks));
              var k := FirstFault(tape, old(next), calls);
              && k <= calls && exit == (if k == calls then Returned else ExitOf(At(tape, old(next) + k)))
              && (exit.Returned? <==> k == calls)
              && next == old(next) + (if k == calls then calls else k + 1)
              && Left(old(networks), networks, tape, old(next), k, 2)
    {
      ghost var calls := DisconnectCalls(networks);
      exit := AskAll(2);
      FirstFaultOn(tape, old(next), 2, calls - 2);
      if !exit.Returned? {
        LeftAlone(networks, tape, old(next), FirstFault(tape, old(next), 2), 2);
        return;
      }
      exit := DetachAll();
      LeftEarlier(old(networks), networks, tape, old(next), FirstFault(tape, old(next) + 2, calls - 2), 0, 2);
    }

    method DetachAll() returns (exit: Exit)
      modifies `networks, `next
      ensures var calls := 2 * Attachments(old(networks), |old(networks)|);
              var k := FirstFault(tape, old(next), calls);
              && k <= calls && exit == (if k == calls then Returned else ExitOf(At(tape, old(next) + k)))
              && (exit.Returned? <==> k == calls)
              && next == old(next) + (if k == calls then calls else k + 1)
              && Left(old(networks), networks, tape, old(next), k, 0)
    {
      ghost var before := networks;
      exit := Returned;
      for i := 0 to |networks|
        invariant |networks| == |before| && exit.Returned?
        invariant next == old(next) + 2 * Attachments(before, i)
        invariant AllDone(tape, old(next), 2 * Attachments(before, i))
        invariant forall n | 0 <= n < |networks| ::
                    networks[n] == if n < i then before[n].(gateway := false) else before[n]
      {
        if networks[i].gateway {
          exit := Detach(i);
          if !exit.Returned? {
            FaultWhileDetaching(before, i, old(next), next);
            return;
          }
        }
      }
      FirstFaultIs(tape, old(next), 2 * Attachments(before, |before|), 2 * Attachments(before, |before|));
      Earlier(before, |before|);
    }

    method Detach(n: nat) returns (exit: Exit)
      requires n < |networks|
      modifies `networks, `next
      ensures networks == if Commits(At(tape, old(next))) then old(networks)[n := old(networks)[n].(gateway := false)]
                          else old(networks)
      ensures exit == if At(tape, old(next)).Done? then ExitOf(At(tape, old(next) + 1)) else ExitOf(At(tape, old(next)))
      ensures next == old(next) + if At(tape, old(next)).Done? then 2 else 1
    {
      var fate := NextFate();
      if Commits(fate) { networks := networks[n := networks[n].(gateway := false)]; }
      if !fate.Done? { return ExitOf(fate); }
      exit := Ask();
    }

    lemma FaultWhileDetaching(before: seq<Network>, i: nat, from: nat, after: nat)
      requires i < |before| && before[i].gateway
      requires var done := 2 * Attachments(before, i);
               && AllDone(tape, from, done)
               && ((after == from + done + 1 && !At(tape, from + done).Done?)
                   || (after == from + done + 2 && At(tape, from + done).Done? && !At(tape, from + done + 1).Done?))
      ensures var calls := 2 * Attachments(before, |before|);
              FirstFault(tape, from, calls) == after - from - 1 < calls
      ensures forall n {:trigger Attachments(before, n)} | 0 <= n < i ::
                Attachments(before, n) + (if before[n].gateway then 1 else 0) <= Attachments(before, i)
      ensures forall n {:trigger Attachments(before, n)} | i < n < |before| ::
                Attachments(before, n) > Attachments(before, i)
    {
      Earlier(before, i);
      forall n | i < n <= |before| ensures Attachments(before, n) > Attachments(before, i) {
        Earlier(before, n);
      }
      FirstFaultIs(tape, from, 2 * Attachments(before, |before|), after - from - 1);
    }

    // ----- the workload containers -----

    method Remove(id: Id) returns (exit: Exit)
      modifies `containers, `next
      ensures next == old(next) + 1 && exit == ExitOf(At(tape, old(next)))
      ensures containers == if Commits(At(tape, old(next))) then Without(old(containers), id) else old(containers)
    {
      var fate := NextFate();
      if Commits(fate) { containers := Without(containers, id); }
      exit := ExitOf(fate);
    }

    method RemoveOthers(active: Id) returns (exit: Exit)
      requires active in containers
      modifies `containers, `next
      ensures active in containers && containers[active] == old(containers)[active]
      ensures containers.Keys <= old(containers).Keys
      ensures exit.Returned? ==> containers.Keys == {active}
      ensures next >= old(next) && (|tape| <= old(next) ==> exit.Returned?)
    {
      var todo := containers.Keys - {active};
      exit := Returned;
      while todo != {}
        invariant exit.Returned? && active !in todo && active in containers && next >= old(next)
        invariant containers[active] == old(containers)[active]
        invariant containers.Keys == todo + {active} && containers.Keys <= old(containers).Keys
        decreases |todo|
      {
        var id :| id in todo;
        exit := Remove(id);
        if !exit.Returned? { return; }
        todo := todo - {id};
        exit := Ask();   // the image of the removed container
        if !exit.Returned? { return; }
      }
    }

    /** Removes the superseded revisions; the active one stays. */
    method Commit(payload: Payload) returns (exit: Exit)
      modifies `containers, `next
      ensures containers.Keys <= old(containers).Keys
      ensures forall id: Id :: IsActive(old(containers), payload, id) ==>
                id in containers && containers[id] == old(containers)[id]
      ensures exit.Returned? && payload.activation.Deploy? ==>
                exists id: Id :: IsActive(old(containers), payload, id) && containers.Keys == {id}
      ensures payload.activation.Start? ==> containers == old(containers)
      ensures next >= old(next)
      ensures |tape| <= old(next) && |Candidates(old(containers), payload)| == 1 ==> exit.Returned?
    {
      if !payload.activation.Deploy? {
        forall id: Id | IsActive(containers, payload, id) ensures id in containers {
          ActiveIsRunning(containers, payload, id);
        }
        return Returned;
      }
      var active;
      exit, active := ActiveWorkload(payload);
      forall id: Id | IsActive(containers, payload, id) ensures id in containers && (exit.Returned? ==> id == active) {
        ActiveIsRunning(containers, payload, id);
        assert exit.Returned? ==> active in {id};
      }
      if !exit.Returned? { return; }
      exit := Ask();
      if !exit.Returned? { return; }
      exit := RemoveOthers(active);
    }

    /** Discards the workload of a failed activation. */
    method Rollback(payload: Payload) returns (exit: Exit, ghost discarded: bool)
      modifies `containers, `next
      ensures !discarded ==> containers == old(containers) && !exit.Returned?
      ensures discarded ==> exists id: Id :: && IsActive(old(containers), payload, id)
                                         && containers == Discarded(old(containers), payload, id)
      ensures discarded <==>
                && |Candidates(old(containers), payload)| == 1
                && At(tape, old(next)).Done? && Commits(At(tape, old(next) + 1))
      ensures discarded && At(tape, old(next) + 1).Done? ==> exit.Returned? && next == old(next) + 2
    {
      var active;
      discarded := false;
      exit, active := ActiveWorkload(payload);
      if !exit.Returned? { return; }
      assert |Candidates(containers, payload)| == 1;
      ActiveIsRunning(containers, payload, active);
      var fate := NextFate();
      if Commits(fate) {
        discarded := true;
        containers := if payload.activation.Deploy? then Without(containers, active)
                      else containers[active := containers[active].(running := false)];
      }
      exit := ExitOf(fate);
    }

    // ----- activation -----

    method ResolveUpstream(payload: Payload) returns (exit: Exit, upstream: Option<Upstream>)
      modifies `next
      ensures next == old(next) + 1
      ensures exit.Returned? <==> upstream.Some?
      ensures upstream.Some? ==> upstream.value.port == payload.port
      ensures upstream.Some? ==> IsActive(containers, payload, upstream.value.container)
      ensures forall id: Id :: IsActive(containers, payload, id) ==>
                exit == ExitOf(At(tape, old(next))) && (upstream.Some? ==> upstream.value.container == id)
    {
      var id;
      upstream := None;
      exit, id := ActiveWorkload(payload);
      if exit.Returned? { upstream := Some(Upstream(id, payload.port)); }
      assert exit.Returned? ==> forall i: Id :: IsActive(containers, payload, i) ==> i in {id};
    }

    /** Resolve, report, switch, report, verify. */
    method SwitchOver(payload: Payload) returns (exit: Exit, upstream: Option<Upstream>)
      requires !healthy
      modifies `dial, `next, `healthy
      ensures healthy <==> exit.Returned?
      ensures upstream.Some? ==> upstream.value.port == payload.port
      ensures upstream.Some? ==> IsActive(containers, payload, upstream.value.container)
      ensures dial == old(dial) || (upstream.Some? && dial == upstream)
      ensures exit.Returned? ==> upstream.Some? && dial == upstream
      ensures forall id: Id :: IsActive(containers, payload, id) ==>
                var k := FirstFault(tape, old(next), SWITCH_CALLS);
                && k <= SWITCH_CALLS
                && exit == (if k == SWITCH_CALLS then Returned else ExitOf(At(tape, old(next) + k)))
                && (exit.Returned? <==> k == SWITCH_CALLS)
                && next == old(next) + (if k == SWITCH_CALLS then SWITCH_CALLS else k + 1)
                && upstream == (if k > 0 then Some(Upstream(id, payload.port)) else None)
                && dial == if k > 2 || (k == 2 && At(tape, old(next) + 2).Late?) then upstream else old(dial)
    {
      exit, upstream := ResolveUpstream(payload);
      if !exit.Returned? {
        if exists id: Id :: IsActive(containers, payload, id) { FirstFaultIs(tape, old(next), 5, 0); }
        return;
      }
      exit := Ask();   // report
      if !exit.Returned? {
        if exists id: Id :: IsActive(containers, payload, id) { FirstFaultIs(tape, old(next), 5, 1); }
        return;
      }
      exit := SetRoute(upstream);
      if !exit.Returned? {
        if exists id: Id :: IsActive(containers, payload, id) { FirstFaultIs(tape, old(next), 5, 2); }
        return;
      }
      exit := Ask();   // report
      if !exit.Returned? {
        if exists id: Id :: IsActive(containers, payload, id) { FirstFaultIs(tape, old(next), 5, 3); }
        return;
      }
      exit := VerifyPublicHealth();
      if exists id: Id :: IsActive(containers, payload, id) {
        FirstFaultIs(tape, old(next), 5, if exit.Returned? then 5 else 4);
      }
    }

    /** Connect, then switch over. For a workload at home in one network the first call
        that fails decides what is left: whether the upstream was known by then, and
        what the route dials. */
    method TryActivation(payload: Payload, ghost home: Home) returns (exit: Exit, upstream: Option<Upstream>)
      requires !healthy
      modifies `dial, `networks, `next, `healthy
      ensures healthy <==> exit.Returned?
      ensures upstream.Some? ==> upstream.value.port == payload.port
      ensures upstream.Some? ==> IsActive(containers, payload, upstream.value.container)
      ensures dial == old(dial) || (upstream.Some? && dial == upstream)
      ensures exit.Returned? ==>
                upstream.Some? && dial == upstream && Attached(networks, upstream.value.container)
      ensures Situated(containers, old(networks), payload, home.id, home.network) ==>
                var conn := ConnectCalls(old(networks), home.network);
                var k := FirstFault(tape, old(next), conn + SWITCH_CALLS);
                && k <= conn + SWITCH_CALLS
                && exit == (if k == conn + SWITCH_CALLS then Returned else ExitOf(At(tape, old(next) + k)))
                && (exit.Returned? <==> k == conn + SWITCH_CALLS)
                && next == old(next) + (if k == conn + SWITCH_CALLS then k else k + 1)
                && upstream == (if k > conn then Some(Upstream(home.id, payload.port)) else None)
                && dial == if k > conn + 2 || (k == conn + 2 && At(tape, old(next) + k).Late?) then upstream
                           else old(dial)
    {
      upstream := None;
      if home.network < |networks| {
        FirstFaultOn(tape, next, ConnectCalls(networks, home.network), SWITCH_CALLS);
      }
      exit := Connect(payload);
      if !exit.Returned? { return; }
      exit, upstream := SwitchOver(payload);
      assert upstream.Some? ==> forall id: Id :: IsActive(containers, payload, id) ==> id in {upstream.value.container};
    }

    /** Restores the route, and discards the workload unless the previous route dials
        just what was attempted. The state is safe afterwards exactly if what was
        discarded is not what the route dials; a restore that succeeded makes that
        a question about the previous route only. */
    method RollbackActivation(payload: Payload, previous: Option<Upstream>, attempted: Option<Upstream>)
      returns (outcome: Outcome, ghost restored: bool, ghost discarded: bool)
      requires Serving() && Runs(containers, previous)
      modifies `dial, `containers, `networks, `next
      ensures outcome in {ServingRestored, StateRestored, Incomplete, Lost}
      ensures dial == if restored then previous else old(dial)
      ensures Commits(At(tape, old(next))) ==> restored
      ensures discarded ==> previous.None? || previous != attempted
      ensures !discarded ==> containers == old(containers)
      ensures OthersKept(old(containers), containers, payload)
      ensures Serving() <==> !(discarded && dial.Some? && IsActive(old(containers), payload, dial.value.container))
      ensures outcome.ServingRestored? ==> restored && previous.Some?
      ensures outcome.StateRestored? ==>
                && restored && previous.None? && discarded
                && forall n | 0 <= n < |networks| :: !networks[n].gateway
      ensures previous.Some? && |Candidates(old(containers), payload)| == 1
              && AllDone(tape, old(next), if previous != attempted then 3 else 1) ==>
                outcome.ServingRestored? && (discarded <==> previous != attempted)
      ensures previous.None? && |Candidates(old(containers), payload)| == 1
              && AllDone(tape, old(next), 3 + DisconnectCalls(old(networks))) ==>
                outcome.StateRestored? && discarded
    {
      restored, discarded := false, false;
      var failures := false;
      ghost var from := next;
      assert previous.Some? && AllDone(tape, from, if previous != attempted then 3 else 1) ==>
          && At(tape, from).Done?
          && (previous != attempted ==> At(tape, from + 1).Done? && At(tape, from + 2).Done?);
      assert AllDone(tape, from, 3 + DisconnectCalls(networks)) ==>
          At(tape, from).Done? && At(tape, from + 1).Done? && At(tape, from + 2).Done?;
      var exit := SetRoute(previous);
      restored := Commits(At(tape, from)) || dial == previous;
      if exit.Died? { return Lost, restored, discarded; }
      failures := !exit.Returned?;
      if previous.None? || previous != attempted {
        exit, discarded := Rollback(payload);
        DiscardIsSeen(old(containers), containers, payload, dial, discarded);
        if exit.Died? { return Lost, restored, discarded; }
        failures := failures || !exit.Returned?;
      }
      if previous.None? {
        ghost var before, calls := next, DisconnectCalls(networks);
        if AllDone(tape, from, 3 + calls) && before == from + 3 { FirstFaultIs(tape, before, calls, calls); }
        exit := Disconnect();
        if exit.Returned? {
          NoneLeft(old(networks), networks, tape, before, DisconnectCalls(old(networks)), 2);
        }
        if exit.Died? { return Lost, restored, discarded; }
        failures := failures || !exit.Returned?;
      }
      outcome := if failures then Incomplete else if previous.Some? then ServingRestored else StateRestored;
    }

    /** Retires old revisions once the new one is public. A cleanup that fails is
        left for later. */
    method Retire(payload: Payload) returns (outcome: Outcome)
      requires dial.Some? && IsActive(containers, payload, dial.value.container)
      modifies `containers, `next
      ensures outcome in {Published(true), Published(false), Interrupted, Lost}
      ensures dial.value.container in containers
      ensures containers[dial.value.container] == old(containers)[dial.value.container]
      ensures outcome == Published(true) && payload.activation.Deploy? ==>
                containers.Keys == {dial.value.container}
      ensures |tape| <= old(next) ==> outcome == Published(true)
    {
      ActiveIsRunning(containers, payload, dial.value.container);
      assert Candidates(containers, payload) == {dial.value.container};
      var exit := Ask();   // report
      if !exit.Returned? { return if exit.Died? then Lost else Interrupted; }
      exit := Commit(payload);
      assert exit.Returned? && payload.activation.Deploy? ==>
          forall id: Id :: IsActive(old(containers), payload, id) ==> id in {dial.value.container};
      if exit.Died? { return Lost; }
      var cleanupComplete := exit.Returned?;
      exit := Ask();   // report
      if !exit.Returned? { return if exit.Died? then Lost else Interrupted; }
      return Published(cleanupComplete);
    }

    /** A gateway job that makes a workload public. Whatever fails and wherever the
        Agent dies, the route dials a running container, unless a rollback has
        discarded the very container it dials. */
    method RunActive(payload: Payload, ghost home: Home)
      returns (outcome: Outcome, ghost attempted: Option<Upstream>, ghost restored: bool, ghost discarded: bool)
      requires Serving()
      modifies this
      ensures Serving() || (discarded && dial.Some? && IsActive(old(containers), payload, dial.value.container))
      ensures discarded && restored ==> dial == old(dial)
      ensures restored && (old(dial).None? || !IsActive(old(containers), payload, old(dial).value.container)) ==>
                Serving()
      // Continuity of what is activated again: once the upstream was resolved, a
      // restored route serves.
      ensures attempted.Some? && restored && (old(dial).Some? ==> old(dial).value.port == payload.port) ==> Serving()
      ensures outcome.Published? ==>
                && healthy && dial.Some? && Serving() && Reachable() && !discarded
                && IsActive(old(containers), payload, dial.value.container)
                && (outcome.cleanupComplete && payload.activation.Deploy? ==>
                      containers.Keys == {dial.value.container})
      ensures outcome.ServingRestored? ==> restored && dial == old(dial) && dial.Some?
      ensures outcome.StateRestored? ==>
                && restored && dial == old(dial) == None
                && forall n | 0 <= n < |networks| :: !networks[n].gateway
      // Until its public health check has passed, no other revision is touched.
      ensures !healthy ==> OthersKept(old(containers), containers, payload)
      // Which failure stops serving: when `k` calls after the first three succeed in a
      // row, the rollback discards what the restored route dials exactly if the route
      // dialed this workload and the upstream was not resolved yet, or the port changes.
      ensures Situated(old(containers), old(networks), payload, home.id, home.network) ==>
                var conn := ConnectCalls(old(networks), home.network);
                var from := old(next) + 3;
                var k := FirstFault(tape, from, conn + SWITCH_CALLS);
                var discards := k <= conn || old(dial) != Some(Upstream(home.id, payload.port));
                && (attempted.Some? <==> AllDone(tape, old(next), 3) && k > conn)
                && (old(dial).Some? && AllDone(tape, old(next), 3) && k < conn + SWITCH_CALLS
                    && !At(tape, from + k).Killed?
                    && AllDone(tape, from + k + 1, if discards then 3 else 1) ==>
                      && outcome.ServingRestored? && dial == old(dial)
                      && (Serving() <==> !(discards && old(dial).value.container == home.id)))
      ensures |tape| <= old(next) && Situated(old(containers), old(networks), payload, home.id, home.network) ==>
                outcome == Published(true)
    {
      attempted, restored, discarded, healthy := None, false, false, false;
      var exit := AskAll(3);   // two reports, and the current route
      if !exit.Returned? {
        outcome := if exit.Died? then Lost else Interrupted;
        return;
      }
      var previous := dial;
      var upstream;
      exit, upstream := TryActivation(payload, home);
      attempted := upstream;
      if upstream.Some? { ActiveIsRunning(containers, payload, upstream.value.container); }
      if exit.Died? {
        outcome := Lost;
        return;
      }
      if exit.Threw? {
        outcome, restored, discarded := RollbackActivation(payload, previous, upstream);
      } else {
        outcome := Retire(payload);
      }
    }

    // ----- deactivation -----

    /** Publishes the previous route again. It does not attach the gateway again. */
    method RestoreInactiveRoute(previous: Option<Upstream>) returns (outcome: Outcome)
      modifies `dial, `next
      ensures dial == if previous.Some? && Commits(At(tape, old(next))) then previous else old(dial)
      ensures outcome == if previous.None? then Incomplete
                         else match At(tape, old(next))
                              case Done => ServingRestored
                              case Killed => Lost
                              case _ => Incomplete
    {
      if previous.None? { return Incomplete; }
      var exit := SetRoute(previous);
      return if exit.Died? then Lost else if exit.Threw? then Incomplete else ServingRestored;
    }

    /** A gateway job that takes a workload out of public. It never touches a
        container. A failure restores the route but not the network: what it reports
        as serving is reached exactly if some network of it was still attached when
        the first call failed. */
    method RunInactive() returns (outcome: Outcome)
      modifies `dial, `networks, `next
      ensures old(Serving()) ==> Serving()
      ensures outcome in {Withdrawn, ServingRestored, Incomplete, Interrupted, Lost}
      ensures var calls := 5 + DisconnectCalls(old(networks));
              var k := FirstFault(tape, old(next), calls);
              && (outcome.Withdrawn? <==> k == calls && At(tape, old(next) + calls).Done?)
              && (outcome.ServingRestored? <==>
                    old(dial).Some? && 2 <= k < calls && !At(tape, old(next) + k).Killed?
                    && At(tape, old(next) + k + 1).Done?)
              && (outcome.ServingRestored? ==>
                    && dial == old(dial)
                    && (Reachable() <==> StaysAttached(old(networks), dial.value.container, tape, old(next), k, 7))
                    && (k < 7 && old(Reachable()) ==> Reachable()))
      ensures outcome.Withdrawn? ==> dial == None && forall n | 0 <= n < |networks| :: !networks[n].gateway
    {
      ghost var calls := 3 + DisconnectCalls(networks);
      FirstFaultOn(tape, next, 2, calls);
      var exit := AskAll(2);   // a report, and the current route
      if !exit.Returned? { return if exit.Died? then Lost else Interrupted; }
      var previous := dial;
      exit := TryWithdrawal();
      ghost var k := FirstFault(tape, old(next) + 2, calls);
      LeftEarlier(old(networks), networks, tape, old(next), k, 5, 2);
      if exit.Died? { return Lost; }
      if exit.Threw? {
        if previous.Some? {
          LeftAttached(old(networks), networks, previous.value.container, tape, old(next), 2 + k, 7);
        }
        outcome := RestoreInactiveRoute(previous);
        return;
      }
      NoneLeft(old(networks), networks, tape, old(next), 2 + k, 7);
      exit := Ask();           // report
      return if exit.Died? then Lost else if exit.Threw? then Interrupted else Withdrawn;
    }

    /** Report, remove the route, report. */
    method RemoveRoute() returns (exit: Exit)
      modifies `dial, `next
      ensures dial == old(dial) || dial == None
      ensures var k := FirstFault(tape, old(next), 3);
              && k <= 3 && exit == (if k == 3 then Returned else ExitOf(At(tape, old(next) + k)))
              && (exit.Returned? <==> k == 3) && next == old(next) + (if k == 3 then 3 else k + 1)
              && (k == 3 ==> dial == None)
    {
      exit := Ask();       // report
      if !exit.Returned? {
        FirstFaultIs(tape, old(next), 3, 0);
        return;
      }
      exit := SetRoute(None);
      if !exit.Returned? {
        FirstFaultIs(tape, old(next), 3, 1);
        return;
      }
      exit := Ask();       // report
      FirstFaultIs(tape, old(next), 3, if exit.Returned? then 3 else 2);
    }

    /** Remove the route, disconnect. */
    method TryWithdrawal() returns (exit: Exit)
      modifies `dial, `networks, `next
      ensures dial == old(dial) || dial == None
      ensures var calls := 3 + DisconnectCalls(old(networks));
              var k := FirstFault(tape, old(next), calls);
              && k <= calls && exit == (if k == calls then Returned else ExitOf(At(tape, old(next) + k)))
              && (exit.Returned? <==> k == calls)
              && next == old(next) + (if k == calls then calls else k + 1)
              && (k == calls ==> dial == None)
              && Left(old(networks), networks, tape, old(next), k, 5)
    {
      ghost var calls := DisconnectCalls(networks);
      FirstFaultOn(tape, next, 3, calls);
      exit := RemoveRoute();
      if !exit.Returned? {
        LeftAlone(networks, tape, old(next), FirstFault(tape, old(next), 3), 5);
        return;
      }
      exit := Disconnect();
      LeftEarlier(old(networks), networks, tape, old(next), FirstFault(tape, old(next) + 3, calls), 2, 3);
    }
  }

  /** Of the calls from call `from` on, `k` succeeded in a row: whether call `c` has
      taken effect. */
  predicate Detaches(tape: seq<Fate>, from: nat, k: nat, c: nat) {
    c < k || (c == k && At(tape, from + k).Late?)
  }

  /** What is left of `before` when `k` calls from call `from` on succeeded in a row:
      the network attached as number `i` is detached by call `offset + 2 * i`. */
  predicate Left(before: seq<Network>, after: seq<Network>, tape: seq<Fate>, from: nat, k: nat, offset: nat) {
    && |after| == |before|
    && forall n {:trigger Attachments(before, n)} | 0 <= n < |before| ::
         && after[n].members == before[n].members
         && (after[n].gateway <==>
               before[n].gateway && !Detaches(tape, from, k, offset + 2 * Attachments(before, n)))
  }

  /** Before the first detaching call everything is left. */
  lemma LeftAlone(networks: seq<Network>, tape: seq<Fate>, from: nat, k: nat, offset: nat)
    requires k < offset
    ensures Left(networks, networks, tape, from, k, offset)
  {
  }

  /** Counting some successful calls before `from` too. */
  lemma LeftEarlier(before: seq<Network>, after: seq<Network>, tape: seq<Fate>, from: nat, k: nat, offset: nat, d: nat)
    requires Left(before, after, tape, from + d, k, offset)
    ensures Left(before, after, tape, from, d + k, d + offset)
  {
    forall n | 0 <= n < |before|
      ensures after[n].members == before[n].members
      ensures after[n].gateway <==>
                before[n].gateway && !Detaches(tape, from, d + k, d + offset + 2 * Attachments(before, n))
    {
      assert Attachments(before, n) >= 0;
      assert from + d + k == from + (d + k);
    }
  }

  /** Some network of the container is attached, and is not detached by the first `k`
      of the calls, nor by the next one. */
  predicate StaysAttached(networks: seq<Network>, id: Id, tape: seq<Fate>, from: nat, k: nat, offset: nat) {
    exists n {:trigger Attachments(networks, n)} | 0 <= n < |networks| ::
      networks[n].gateway && id in networks[n].members
      && !Detaches(tape, from, k, offset + 2 * Attachments(networks, n))
  }

  lemma LeftAttached(before: seq<Network>, after: seq<Network>, id: Id, tape: seq<Fate>, from: nat, k: nat, offset: nat)
    requires Left(before, after, tape, from, k, offset)
    ensures Attached(after, id) <==> StaysAttached(before, id, tape, from, k, offset)
    ensures k < offset && Attached(before, id) ==> Attached(after, id)
  {
    if Attached(after, id) {
      var n :| 0 <= n < |after| && after[n].gateway && id in after[n].members;
      assert Attachments(before, n) >= 0;
      assert before[n].gateway && id in before[n].members;
    }
    if StaysAttached(before, id, tape, from, k, offset) {
      var n :| 0 <= n < |before| && before[n].gateway && id in before[n].members
               && !Detaches(tape, from, k, offset + 2 * Attachments(before, n));
      assert after[n].gateway && id in after[n].members;
    }
    if k < offset && Attached(before, id) {
      var n :| 0 <= n < |before| && before[n].gateway && id in before[n].members;
      assert Attachments(before, n) >= 0;
      assert after[n].gateway && id in after[n].members;
    }
  }

  lemma {:induction false} EarlierAt(networks: seq<Network>, m: nat, n: nat)
    requires m < n <= |networks|
    ensures Attachments(networks, m) + (if networks[m].gateway then 1 else 0) <= Attachments(networks, n)
    decreases n
  {
    if m < n - 1 { EarlierAt(networks, m, n - 1); }
  }

  lemma Earlier(networks: seq<Network>, n: nat)
    requires n <= |networks|
    ensures forall m {:trigger Attachments(networks, m)} | 0 <= m < n ::
              Attachments(networks, m) + (if networks[m].gateway then 1 else 0) <= Attachments(networks, n)
  {
    forall m | 0 <= m < n
      ensures Attachments(networks, m) + (if networks[m].gateway then 1 else 0) <= Attachments(networks, n)
    {
      EarlierAt(networks, m, n);
    }
  }

  /** Once every detaching call was successful no network is attached. */
  lemma NoneLeft(before: seq<Network>, after: seq<Network>, tape: seq<Fate>, from: nat, k: nat, offset: nat)
    requires Left(before, after, tape, from, k, offset) && k == offset + 2 * Attachments(before, |before|)
    ensures forall n | 0 <= n < |after| :: !after[n].gateway
  {
    forall n | 0 <= n < |after| ensures !after[n].gateway {
      EarlierAt(before, n, |before|);
    }
  }

  /** Discarding a workload stops what the route dials exactly if that is it. */
  lemma DiscardIsSeen(before: map<Id, Container>, after: map<Id, Container>, payload: Payload,
                      dial: Option<Upstream>, discarded: bool)
    requires Runs(before, dial)
    requires if discarded
             then exists id: Id :: IsActive(before, payload, id) && after == Discarded(before, payload, id)
             else after == before
    ensures Runs(after, dial) <==> !(discarded && dial.Some? && IsActive(before, payload, dial.value.container))
  {
    if discarded {
      var id: Id :| IsActive(before, payload, id) && after == Discarded(before, payload, id);
      ActiveIsRunning(before, payload, id);
      assert dial.Some? && IsActive(before, payload, dial.value.container) ==> dial.value.container in {id};
    }
  }

  // ----- two jobs that leave less than they report -----

  const SERVING := Container(Scoped("blue"), true, "a", Some("blue"))

  /** Deploying again what is serving, when the gateway cannot be inspected: the
      rollback restores the route and removes the container it dials. */
  method FailedRedeployStopsServing(gateway: Gateway) returns (outcome: Outcome)
    requires gateway.dial == Some(Upstream(1, 80)) && gateway.containers == map[1 := SERVING]
    requires gateway.networks == [Network({1}, true)]
    requires gateway.tape == [Done, Done, Done, Refused] && gateway.next == 0
    modifies gateway
    ensures old(gateway.Serving()) && outcome.ServingRestored? && gateway.dial == old(gateway.dial)
    ensures !gateway.Serving()
  {
    var payload := Payload(Deploy, "blue", "a", 80);
    assert Candidates(gateway.containers, payload) == {1};
    assert Situated(gateway.containers, gateway.networks, payload, 1, 0);
    FirstFaultIs(gateway.tape, 3, 8, 0);
    ghost var attempted, restored, discarded;
    outcome, attempted, restored, discarded := gateway.RunActive(payload, Home(1, 0));
  }

  /** Deactivating when the disconnect takes effect although the call fails: the
      previous route is reported as serving, and the gateway does not reach it. */
  method RestoredButUnreachable(gateway: Gateway) returns (outcome: Outcome)
    requires gateway.dial == Some(Upstream(1, 80)) && gateway.containers == map[1 := SERVING]
    requires gateway.networks == [Network({1}, true)]
    requires gateway.tape == [Done, Done, Done, Done, Done, Done, Done, Late] && gateway.next == 0
    modifies gateway
    ensures old(gateway.Reachable()) && outcome.ServingRestored? && gateway.dial == old(gateway.dial)
    ensures gateway.Serving() && !gateway.Reachable()
  {
    assert gateway.networks[0].gateway && 1 in gateway.networks[0].members;
    assert Attachments(gateway.networks, 1) == 1;
    FirstFaultIs(gateway.tape, 0, 9, 7);
    outcome := gateway.RunInactive();
  }
}
