/** Publishing a workload on Docker: a candidate is created beside the published
    container, probed, and takes over its name. The table of containers is all that
    survives a crash of the Agent; running the deployment again finishes the job. */
module DockerDeploy {
  import opened Common

  datatype Container = Container(owner: string, revision: string, fingerprint: string, image: string,
                                 running: bool, durable: bool)

  type Table = map<string, Container>

  /** A deployment of one workload: who owns it, what it is, and the two names it uses.
      `managed` workloads have a name per immutable slot. */
  datatype Payload = Payload(owner: string, revision: string, fingerprint: string, image: string, managed: bool,
                             base: string, candidate: string)
  {
    predicate Valid() { base != candidate }
  }

  predicate BelongsToWorkload(c: Container, p: Payload) { c.owner == p.owner }

  /** An empty fingerprint in the payload matches every container. */
  predicate Matches(c: Container, p: Payload) {
    && BelongsToWorkload(c, p) && c.revision == p.revision
    && (p.fingerprint == "" || c.fingerprint == p.fingerprint) && c.image == p.image
  }

  function Created(p: Payload): Container {
    Container(p.owner, p.revision, p.fingerprint, p.image, false, false)
  }

  predicate Foreign(t: Table, name: string, p: Payload) { name in t && !BelongsToWorkload(t[name], p) }

  predicate Published(t: Table, p: Payload) { p.base in t && Matches(t[p.base], p) }

  /** What the deployment refuses without touching anything. */
  predicate Collides(t: Table, p: Payload) {
    || Foreign(t, p.base, p)
    || (p.managed && p.base in t && !Matches(t[p.base], p))
    || (!Published(t, p) && Foreign(t, p.candidate, p))
  }

  /** Where an uninterrupted deployment ends. */
  predicate Deployed(t: Table, p: Payload) {
    Published(t, p) && t[p.base].running && t[p.base].durable && p.candidate !in t
  }

  /** From here a deployment without faults ends where it should. */
  predicate Resumable(t: Table, p: Payload) {
    && !Collides(t, p)
    && (Published(t, p) ==> t[p.base].durable && p.candidate !in t)
  }

  ghost predicate OthersUntouched(before: Table, after: Table, p: Payload) {
    forall name :: name != p.base && name != p.candidate ==>
      (name in after <==> name in before) && (name in before ==> after[name] == before[name])
  }

  /** What was published before is still there, or was started; or the candidate was
      found healthy first and now stands for it. */
  predicate Continuous(before: Table, after: Table, p: Payload, probed: bool) {
    p.base in before ==>
      || (p.base in after && after[p.base] == before[p.base])
      || (p.base in after && Matches(before[p.base], p) && after[p.base] == before[p.base].(running := true))
      || (probed && p.base !in after && p.candidate in after && Ready(after[p.candidate], p))
      || (probed && p.base in after && Ready(after[p.base], p))
  }

  predicate Ready(c: Container, p: Payload) { Matches(c, p) && c.running && c.durable }

  function Without(t: Table, name: string): Table { map k | k in t && k != name :: t[k] }

  class DockerLifecycle {
    var table: Table
    var tape: seq<Fate>
    ghost var passed: set<string>   // which names passed a health check in this deployment

    method NextFate() returns (fate: Fate)
      modifies `tape
      ensures fate == Head(old(tape)) && tape == Tail(old(tape))
    {
      fate := Head(tape);
      tape := Tail(tape);
    }

    /** A call that changes nothing. */
    method Ask() returns (exit: Exit)
      modifies `tape
      ensures old(tape) == [] ==> exit.Returned? && tape == []
    {
      var fate := NextFate();
      exit := ExitOf(fate);
    }

    static function ExitOf(fate: Fate): Exit {
      if fate.Done? then Returned else if fate.Killed? then Died else Threw
    }

    /** The probe of a container: it does not throw. */
    method WaitHealthy(name: string) returns (exit: Exit, healthy: bool)
      modifies `tape, `passed
      ensures passed == if healthy then old(passed) + {name} else old(passed)
      ensures exit.Returned? || exit.Died?
      ensures healthy ==> exit.Returned? && name in table && table[name].running
      ensures name in table && table[name].running ==>
                && tape == Tail(old(tape)) && (healthy <==> Head(old(tape)).Done?)
                && (exit.Died? <==> Head(old(tape)).Killed?)
      ensures old(tape) == [] ==> exit.Returned? && tape == [] && healthy == (name in table && table[name].running)
    {
      if name !in table || !table[name].running { return Returned, false; }
      var fate := NextFate();
      exit := if fate.Killed? then Died else Returned;
      healthy := fate.Done?;
      if healthy { passed := passed + {name}; }
    }

    method Put(name: string, c: Container) returns (exit: Exit)
      modifies `table, `tape
      ensures table == old(table)[name := c] || (table == old(table) && !exit.Returned?)
      ensures old(tape) == [] ==> exit.Returned? && tape == []
    {
      var fate := NextFate();
      if fate.Done? || fate.Late? { table := table[name := c]; }
      exit := ExitOf(fate);
    }

    /** POST /containers/create refuses a name that is taken. */
    method Create(name: string, c: Container) returns (exit: Exit)
      modifies `table, `tape
      ensures name in old(table) ==> table == old(table) && !exit.Returned?
      ensures table == old(table)[name := c] || (table == old(table) && !exit.Returned?)
      ensures old(tape) == [] && name !in old(table) ==> exit.Returned? && tape == []
    {
      if name in table {
        exit := Ask();
        return if exit.Died? then Died else Threw;
      }
      exit := Put(name, c);
    }

    method Start(name: string) returns (exit: Exit)
      requires name in table
      modifies `table, `tape
      ensures table == old(table)[name := old(table)[name].(running := true)]
              || (table == old(table) && !exit.Returned?)
      ensures old(tape) == [] ==> exit.Returned? && tape == []
    {
      exit := Put(name, table[name].(running := true));
    }

    method SetDurable(name: string) returns (exit: Exit)
      requires name in table
      modifies `table, `tape
      ensures table == old(table)[name := old(table)[name].(durable := true)]
              || (table == old(table) && !exit.Returned?)
      ensures old(tape) == [] ==> exit.Returned? && tape == []
    {
      exit := Put(name, table[name].(durable := true));
    }

    method Remove(name: string) returns (exit: Exit)
      modifies `table, `tape
      ensures table == if Head(old(tape)).Done? || Head(old(tape)).Late? then Without(old(table), name) else old(table)
      ensures exit == ExitOf(Head(old(tape))) && tape == Tail(old(tape))
    {
      var fate := NextFate();
      if fate.Done? || fate.Late? { table := Without(table, name); }
      exit := ExitOf(fate);
    }

    /** Docker refuses to rename onto a name that is taken. */
    method Rename(name: string, to: string) returns (exit: Exit)
      requires name in table && name != to
      modifies `table, `tape
      ensures to in old(table) ==> table == old(table) && !exit.Returned?
      ensures table == Without(old(table), name)[to := old(table)[name]] || (table == old(table) && !exit.Returned?)
      ensures old(tape) == [] && to !in old(table) ==> exit.Returned? && tape == []
    {
      if to in table {
        exit := Ask();
        return if exit.Died? then Died else Threw;
      }
      var fate := NextFate();
      if fate.Done? || fate.Late? { table := Without(table, name)[to := table[name]]; }
      exit := ExitOf(fate);
    }

    // ----- the deployment -----

    /** The container that is published already, if it is this deployment's own. */
    method Current(p: Payload) returns (exit: Exit)
      modifies `tape
      ensures exit.Returned? ==> !Foreign(table, p.base, p) && (p.managed && p.base in table ==> Matches(table[p.base], p))
      ensures (old(tape) == [] && !Foreign(table, p.base, p)
               && !(p.managed && p.base in table && !Matches(table[p.base], p))) ==> exit.Returned? && tape == []
    {
      exit := Ask();
      if !exit.Returned? { return; }
      if Foreign(table, p.base, p) { return Threw; }
      if p.managed && p.base in table && !Matches(table[p.base], p) { return Threw; }
    }

    /** The deployment was done before: makes sure that it runs. */
    method Resume(p: Payload) returns (exit: Exit)
      requires p.Valid() && Published(table, p)
      modifies this
      ensures table == old(table) || table == old(table)[p.base := old(table)[p.base].(running := true)]
      ensures exit.Returned? ==>
                p.base in passed && table == old(table)[p.base := old(table)[p.base].(running := true)]
      ensures old(tape) == [] ==> exit.Returned?
    {
      if !table[p.base].running {
        exit := Start(p.base);
        if !exit.Returned? { return; }
      }
      var healthy;
      exit, healthy := WaitHealthy(p.base);
      if !exit.Returned? { return; }
      if !healthy { return Threw; }
      exit := Ask();   // status
      assert table[p.base].running;
      assert old(table)[p.base].running ==> old(table)[p.base := old(table)[p.base].(running := true)] == old(table);
    }

    /** Brings a candidate of this deployment into the table, started. */
    method PrepareCandidate(p: Payload) returns (exit: Exit)
      requires p.Valid() && !Foreign(table, p.candidate, p)
      modifies this
      ensures OnlyCandidate(old(table), table, p)
      ensures p.candidate in table ==> BelongsToWorkload(table[p.candidate], p)
      ensures exit.Returned? ==> p.candidate in table && Matches(table[p.candidate], p) && table[p.candidate].running
      ensures old(tape) == [] ==> exit.Returned? && tape == []
    {
      exit := Ask();   // inspect the candidate's name
      if !exit.Returned? { return; }
      if p.candidate in table && !Matches(table[p.candidate], p) {
        exit := Remove(p.candidate);
        if !exit.Returned? { return; }
      }
      exit := Ask();   // inspect again
      if !exit.Returned? { return; }
      if p.candidate !in table {
        exit := Create(p.candidate, Created(p));
        if !exit.Returned? { return; }
      }
      if !table[p.candidate].running {
        exit := Start(p.candidate);
        if !exit.Returned? { return; }
      }
      exit := Ask();   // inspect what was started
    }

    /** Only the candidate's row differs. */
    static ghost predicate OnlyCandidate(before: Table, after: Table, p: Payload) {
      forall name :: name != p.candidate ==>
        (name in after <==> name in before) && (name in before ==> after[name] == before[name])
    }

    /** Probes the candidate; a candidate that is not healthy is taken away again. */
    method ProbeCandidate(p: Payload) returns (exit: Exit)
      requires p.Valid() && p.candidate in table && table[p.candidate].running
      modifies this
      ensures var probe, removal := Head(old(tape)), Head(Tail(old(tape)));
              && (exit.Returned? <==> probe.Done?)
              && table == if (probe.Refused? || probe.Late?) && (removal.Done? || removal.Late?)
                          then Without(old(table), p.candidate) else old(table)
      ensures exit.Returned? ==> p.candidate in passed
      ensures old(tape) == [] ==> exit.Returned? && tape == []
    {
      var healthy;
      exit, healthy := WaitHealthy(p.candidate);
      if !exit.Returned? || healthy { return; }
      exit := Remove(p.candidate);
      return if exit.Died? then Died else Threw;
    }

    /** Lets the healthy candidate take over. */
    method Publish(p: Payload) returns (exit: Exit)
      requires p.Valid() && p.candidate in table && Matches(table[p.candidate], p) && table[p.candidate].running
      requires p.base in table ==> BelongsToWorkload(table[p.base], p) && !Matches(table[p.base], p) && !p.managed
      modifies this
      ensures OthersUntouched(old(table), table, p) && Resumable(table, p) && passed == old(passed)
      ensures Continuous(old(table), table, p, true)
      ensures exit.Returned? ==> Deployed(table, p)
      ensures old(tape) == [] ==> exit.Returned?
    {
      exit := SetDurable(p.candidate);
      if !exit.Returned? { return; }
      if p.base in table {
        exit := Remove(p.base);
        if !exit.Returned? { return; }
      }
      exit := Rename(p.candidate, p.base);
      if !exit.Returned? { return; }
      exit := Ask();   // status
    }

    /** One deployment. However it ends: nothing but its two names is touched, what
        was published is there until the candidate was found healthy and made
        durable, and another deployment can carry on; a collision changes nothing.
        Without faults it ends where it should. */
    method Deploy(p: Payload) returns (exit: Exit)
      requires p.Valid()
      modifies this
      ensures OthersUntouched(old(table), table, p)
      ensures Continuous(old(table), table, p, p.candidate in passed)
      ensures Collides(old(table), p) ==> table == old(table) && !exit.Returned?
      ensures Resumable(old(table), p) ==> Resumable(table, p) && (exit.Returned? ==> Deployed(table, p))
      ensures old(tape) == [] && !Collides(old(table), p) ==>
                exit.Returned? && (Deployed(table, p) <==> Resumable(old(table), p))
      ensures exit.Returned? ==>
                && Published(table, p) && table[p.base].running
                && (p.base in passed || p.candidate in passed)
                && (p.candidate in table <==> Published(old(table), p) && p.candidate in old(table))
    {
      passed := {};
      exit := Current(p);
      if !exit.Returned? { return; }
      if p.base in table && Matches(table[p.base], p) {
        exit := Resume(p);
        return;
      }
      exit := Ask();   // the network
      if !exit.Returned? { return; }
      if Foreign(table, p.candidate, p) {
        exit := Ask();
        return if exit.Died? then Died else Threw;
      }
      exit := PrepareCandidate(p);
      if !exit.Returned? { return; }
      exit := ProbeCandidate(p);
      if !exit.Returned? { return; }
      exit := Publish(p);
    }

    /** Any number of deployments that fail or die, wherever they do, and then one
        without faults: it ends as an uninterrupted one would. */
    method DeployUntilDone(p: Payload, crashes: seq<seq<Fate>>) returns (exit: Exit)
      requires p.Valid() && Resumable(table, p)
      modifies this
      ensures exit.Returned? && Deployed(table, p) && OthersUntouched(old(table), table, p)
    {
      for i := 0 to |crashes|
        invariant Resumable(table, p) && OthersUntouched(old(table), table, p)
      {
        tape := crashes[i];
        exit := Deploy(p);
      }
      tape := [];
      exit := Deploy(p);
    }
  }
}
