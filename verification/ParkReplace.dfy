/** Replacing a container in place: stop it, park it under another name, start and
    verify its successor, then remove it, or go back. The Agent updates itself this
    way, and the gateway edge its configuration. */
module ParkReplace {
  import opened Common

  datatype Name = Main | Parked | Candidate

  datatype Who = Original | Replacement | Preflight | Leftover

  datatype Container = Container(who: Who, running: bool)

  type Table = map<Name, Container>

  datatype Config = OldConfig | NewConfig

  predicate Runs(t: Table, who: Who) {
    || (Main in t && t[Main] == Container(who, true))
    || (Parked in t && t[Parked] == Container(who, true))
    || (Candidate in t && t[Candidate] == Container(who, true))
  }

  /** The two never run side by side. */
  predicate Exclusive(t: Table) { !(Runs(t, Original) && Runs(t, Replacement)) }

  predicate Is(t: Table, name: Name, who: Who) { name in t && t[name].who == who }

  /** Before: the original under its own name, and nothing parked. */
  predicate Unparked(t: Table) {
    Is(t, Main, Original) && Parked !in t && (Candidate in t ==> t[Candidate].who.Preflight?)
  }

  /** In between: the original, if it is there, is parked and stopped; under its name
      is nothing or the replacement. */
  predicate Parking(t: Table) {
    && (Main in t ==> Is(t, Main, Replacement))
    && (Parked in t ==> t[Parked] == Container(Original, false))
    && (Candidate in t ==> t[Candidate].who.Preflight?)
  }

  function Without(t: Table, name: Name): Table { map k | k in t && k != name :: t[k] }

  function ExitOf(fate: Fate): Exit {
    match fate
    case Done => Returned
    case Killed => Died
    case _ => Threw
  }

  predicate Commits(fate: Fate) { fate.Done? || fate.Late? }

  // ----- what a sequence of calls comes to, read from the faults it meets -----

  /** Stop, rename, create and start, the checks of the replacement, and the removal
      of the original. */
  function Forward(checks: nat): nat { 5 + checks }

  /** The calls that go back: before parking only the removal. */
  function Backward(parked: bool, restoreConfig: bool): nat {
    if !parked then 1 else if restoreConfig then 4 else 3
  }

  /** Of the calls from call `from` on, call `k` is the first that fails, and all calls
      that go back succeed. */
  predicate CleanFailure(tape: seq<Fate>, from: nat, k: nat, checks: nat, restoreConfig: bool) {
    && k < Forward(checks) && !At(tape, from + k).Killed?
    && AllDone(tape, from + k + 1, Backward(k >= 2, restoreConfig))
  }

  /** Where such a failure ends. From the third call on the original runs under its
      own name again, unless the failing call was its removal and took effect all the
      same. A failing stop or rename loses it: it is removed, or, if the rename took
      effect, left behind, stopped. */
  predicate WentBack(t: Table, config: Config, failed: Fate, k: nat, checks: nat, restoreConfig: bool) {
    if k >= 2 then
      && Parked !in t && (restoreConfig ==> config == OldConfig)
      && if k == Forward(checks) - 1 && failed.Late? then Main !in t
         else Main in t && t[Main] == Container(Original, true)
    else
      && Main !in t
      && if k == 1 && failed.Late? then Parked in t && t[Parked] == Container(Original, false)
         else Parked !in t
  }

  class Docker {
    const tape: seq<Fate>
    var next: nat            // the next call to be made
    var table: Table
    var config: Config
    ghost var checked: nat   // how often the running replacement was found in order

    constructor (table: Table, config: Config, tape: seq<Fate>)
      ensures this.table == table && this.config == config && this.tape == tape && next == 0
    {
      this.table, this.config, this.tape, this.next, this.checked := table, config, tape, 0, 0;
    }

    method Ask() returns (exit: Exit)
      modifies `next
      ensures next == old(next) + 1 && exit == ExitOf(At(tape, old(next)))
    {
      exit := ExitOf(At(tape, next));
      next := next + 1;
    }

    /** A check of the replacement: a checkpoint, a probe, an inspection. */
    method Check() returns (exit: Exit)
      requires Main in table && table[Main] == Container(Replacement, true)
      modifies `next, `checked
      ensures next == old(next) + 1 && exit == ExitOf(At(tape, old(next)))
      ensures checked == old(checked) + if exit.Returned? then 1 else 0
    {
      exit := Ask();
      if exit.Returned? { checked := checked + 1; }
    }

    static function Refusal(fate: Fate): Exit { if fate.Killed? then Died else Threw }

    /** One call that changes the table, unless Docker refuses it. */
    method Change(possible: bool, changed: Table) returns (exit: Exit)
      modifies `next, `table
      ensures next == old(next) + 1
      ensures exit == if possible then ExitOf(At(tape, old(next))) else Refusal(At(tape, old(next)))
      ensures table == if possible && Commits(At(tape, old(next))) then changed else old(table)
    {
      var fate := At(tape, next);
      next := next + 1;
      if possible && Commits(fate) { table := changed; }
      exit := if possible then ExitOf(fate) else Refusal(fate);
    }

    method Stop(name: Name) returns (exit: Exit)
      modifies `next, `table
      ensures next == old(next) + 1
      ensures exit == if name in old(table) then ExitOf(At(tape, old(next))) else Refusal(At(tape, old(next)))
      ensures table == if name in old(table) && Commits(At(tape, old(next)))
                       then old(table)[name := old(table)[name].(running := false)] else old(table)
    {
      exit := Change(name in table, if name in table then table[name := table[name].(running := false)] else table);
    }

    method Start(name: Name) returns (exit: Exit)
      modifies `next, `table
      ensures next == old(next) + 1
      ensures exit == if name in old(table) then ExitOf(At(tape, old(next))) else Refusal(At(tape, old(next)))
      ensures table == if name in old(table) && Commits(At(tape, old(next)))
                       then old(table)[name := old(table)[name].(running := true)] else old(table)
    {
      exit := Change(name in table, if name in table then table[name := table[name].(running := true)] else table);
    }

    /** Docker refuses to rename onto a name that is taken. */
    method Rename(name: Name, to: Name) returns (exit: Exit)
      requires name != to
      modifies `next, `table
      ensures next == old(next) + 1
      ensures var possible := name in old(table) && to !in old(table);
              var fate := At(tape, old(next));
              && exit == (if possible then ExitOf(fate) else Refusal(fate))
              && table == if possible && Commits(fate)
                          then Without(old(table), name)[to := old(table)[name]] else old(table)
    {
      var possible := name in table && to !in table;
      exit := Change(possible, if possible then Without(table, name)[to := table[name]] else table);
    }

    method Create(name: Name, who: Who) returns (exit: Exit)
      modifies `next, `table
      ensures next == old(next) + 1
      ensures exit == if name in old(table) then Refusal(At(tape, old(next))) else ExitOf(At(tape, old(next)))
      ensures table == if name !in old(table) && Commits(At(tape, old(next)))
                       then old(table)[name := Container(who, false)] else old(table)
    {
      exit := Change(name !in table, table[name := Container(who, false)]);
    }

    /** Removing what is not there succeeds. */
    method Remove(name: Name) returns (exit: Exit)
      modifies `next, `table
      ensures next == old(next) + 1 && exit == ExitOf(At(tape, old(next)))
      ensures table == if Commits(At(tape, old(next))) then Without(old(table), name) else old(table)
    {
      exit := Change(true, Without(table, name));
    }

    method WriteConfig(to: Config) returns (exit: Exit)
      modifies `next, `config
      ensures next == old(next) + 1 && exit == ExitOf(At(tape, old(next)))
      ensures config == if Commits(At(tape, old(next))) then to else old(config)
    {
      var fate := At(tape, next);
      next := next + 1;
      if Commits(fate) { config := to; }
      exit := ExitOf(fate);
    }

    // ----- the pattern -----

    /** Stops the original and parks it. */
    method Park() returns (exit: Exit)
      requires Unparked(table)
      modifies `next, `table
      ensures Exclusive(table)
      ensures var k := FirstFault(tape, old(next), 2);
              && exit == (if k == 2 then Returned else ExitOf(At(tape, old(next) + k)))
              && (exit.Returned? <==> k == 2)
              && next == old(next) + (if k == 2 then 2 else k + 1)
              && (if k == 2 || (k == 1 && At(tape, old(next) + 1).Late?)
                  then Parking(table) && Is(table, Parked, Original) && Main !in table
                  else Unparked(table))
    {
      exit := Stop(Main);
      if !exit.Returned? {
        FirstFaultIs(tape, old(next), 2, 0);
        return;
      }
      exit := Rename(Main, Parked);
      FirstFaultIs(tape, old(next), 2, if exit.Returned? then 2 else 1);
    }

    /** Goes back: removes what has the name, and, once parked, brings the original
        back. Failures are ignored, except that the process may die. When every call
        succeeds the original runs under its own name if it was still parked, and
        otherwise nothing is left there; before parking the original itself is what is
        removed. */
    method Restore(parked: bool, restoreConfig: bool) returns (died: bool)
      requires if parked then Parking(table) else Unparked(table) || (Parking(table) && Main !in table)
      modifies `next, `table, `config
      ensures Exclusive(table)
      ensures died ==> !AllDone(tape, old(next), Backward(parked, restoreConfig))
      ensures AllDone(tape, old(next), Backward(parked, restoreConfig)) ==>
                && config == (if parked && restoreConfig then OldConfig else old(config))
                && table == if parked && Parked in old(table)
                            then Without(Without(old(table), Main), Parked)[Main := Container(Original, true)]
                            else Without(old(table), Main)
      ensures !restoreConfig ==> config == old(config)
    {
      died := false;
      var exit := Remove(Main);
      if exit.Died? { return true; }
      if parked {
        if restoreConfig {
          exit := WriteConfig(OldConfig);
          if exit.Died? { return true; }
        }
        exit := BringBack();
        died := exit.Died?;
      }
    }

    /** Gives the parked original its name again and starts it; failures are ignored. */
    method BringBack() returns (exit: Exit)
      requires Parking(table)
      modifies `next, `table
      ensures Exclusive(table)
      ensures AllDone(tape, old(next), 2) ==>
                && !exit.Died?
                && (Main !in old(table) ==>
                      table == if Parked in old(table)
                               then Without(old(table), Parked)[Main := Container(Original, true)] else old(table))
    {
      assert AllDone(tape, next, 2) ==> At(tape, next).Done? && At(tape, next + 1).Done?;
      exit := Rename(Parked, Main);
      if exit.Died? { return; }
      exit := Start(Main);
    }

    /** Creates and starts the replacement. */
    method Launch() returns (exit: Exit)
      requires Parking(table) && Is(table, Parked, Original) && Main !in table
      modifies `next, `table
      ensures Parking(table) && Exclusive(table) && Is(table, Parked, Original)
      ensures exit.Returned? ==> table == old(table)[Main := Container(Replacement, true)]
      ensures var k := FirstFault(tape, old(next), 2);
              && exit == (if k == 2 then Returned else ExitOf(At(tape, old(next) + k)))
              && (exit.Returned? <==> k == 2)
              && next == old(next) + (if k == 2 then 2 else k + 1)
    {
      exit := Create(Main, Replacement);
      if !exit.Returned? {
        FirstFaultIs(tape, old(next), 2, 0);
        return;
      }
      exit := Start(Main);
      FirstFaultIs(tape, old(next), 2, if exit.Returned? then 2 else 1);
    }

    /** Checks the running replacement `checks` times. */
    method CheckAll(checks: nat) returns (exit: Exit)
      requires Main in table && table[Main] == Container(Replacement, true)
      modifies `next, `checked
      ensures exit.Returned? ==> checked == old(checked) + checks
      ensures var k := FirstFault(tape, old(next), checks);
              && exit == (if k == checks then Returned else ExitOf(At(tape, old(next) + k)))
              && (exit.Returned? <==> k == checks)
              && next == old(next) + (if k == checks then checks else k + 1)
    {
      exit := Returned;
      for i := 0 to checks
        invariant checked == old(checked) + i && exit.Returned?
        invariant next == old(next) + i && AllDone(tape, old(next), i)
      {
        exit := Check();
        if !exit.Returned? {
          FirstFaultIs(tape, old(next), checks, i);
          return;
        }
      }
      FirstFaultIs(tape, old(next), checks, checks);
    }

    /** The replacement runs, the original is parked: checks the one, then removes the
        other. */
    method Retire(checks: nat) returns (exit: Exit)
      requires Parking(table) && Is(table, Parked, Original)
      requires Main in table && table[Main] == Container(Replacement, true)
      modifies `next, `table, `checked
      ensures table == if Parked in table then old(table) else Without(old(table), Parked)
      ensures Parked !in table ==> checked == old(checked) + checks
      ensures var k := FirstFault(tape, old(next), checks + 1);
              && exit == (if k == checks + 1 then Returned else ExitOf(At(tape, old(next) + k)))
              && (exit.Returned? <==> k == checks + 1)
              && (!exit.Returned? ==> next == old(next) + k + 1)
              && (Parked !in table <==> k == checks + 1 || (k == checks && At(tape, old(next) + k).Late?))
    {
      FirstFaultOn(tape, next, checks, 1);
      exit := CheckAll(checks);
      if !exit.Returned? { return; }
      exit := Remove(Parked);
      FirstFaultIs(tape, old(next) + checks, 1, if exit.Returned? then 1 else 0);
    }

    /** Launches the replacement, checks it while it runs, and only then removes the
        original. */
    method Succeed(checks: nat) returns (exit: Exit)
      requires Parking(table) && Is(table, Parked, Original) && Main !in table
      modifies `next, `table, `checked
      ensures Parking(table) && Exclusive(table)
      ensures Parked !in table ==> checked == old(checked) + checks
      ensures exit.Returned? ==> Main in table && table[Main] == Container(Replacement, true) && Parked !in table
      ensures var k := FirstFault(tape, old(next), 3 + checks);
              && exit == (if k == 3 + checks then Returned else ExitOf(At(tape, old(next) + k)))
              && (exit.Returned? <==> k == 3 + checks)
              && (!exit.Returned? ==> next == old(next) + k + 1)
              && (Parked !in table <==> k == 3 + checks || (k == 2 + checks && At(tape, old(next) + k).Late?))
    {
      FirstFaultOn(tape, next, 2, checks + 1);
      exit := Launch();
      if !exit.Returned? { return; }
      exit := Retire(checks);
    }

    /** All calls up to the first that fails. */
    method GoForward(checks: nat) returns (exit: Exit, parked: bool)
      requires Unparked(table)
      modifies `next, `table, `checked
      ensures Exclusive(table)
      ensures var k := FirstFault(tape, old(next), Forward(checks));
              var last := At(tape, old(next) + k);
              && exit == (if k == Forward(checks) then Returned else ExitOf(last))
              && (exit.Returned? <==> k == Forward(checks))
              && (!exit.Returned? ==> next == old(next) + k + 1)
              && parked == (k >= 2)
              && (parked ==>
                    && Parking(table)
                    && (Parked !in table <==> k == Forward(checks) || (k == Forward(checks) - 1 && last.Late?)))
              && (!parked ==>
                    if k == 1 && last.Late? then Parking(table) && Is(table, Parked, Original) && Main !in table
                    else Unparked(table))
      ensures exit.Returned? ==>
                && Main in table && table[Main] == Container(Replacement, true) && Parked !in table
                && checked == old(checked) + checks
    {
      FirstFaultOn(tape, next, 2, 3 + checks);
      parked := false;
      exit := Park();
      if exit.Returned? {
        parked := true;
        exit := Succeed(checks);
      }
    }

    /** Parks, replaces and checks, or goes back. It succeeds exactly if every call
        does, and what a failure comes to is read from the call that failed. */
    method Replace(checks: nat, restoreConfig: bool) returns (exit: Exit)
      requires Unparked(table)
      modifies this
      ensures Exclusive(table)
      ensures exit.Returned? <==> FirstFault(tape, old(next), Forward(checks)) == Forward(checks)
      ensures exit.Returned? ==>
                && Main in table && table[Main] == Container(Replacement, true) && Parked !in table
                && config == old(config) && checked == old(checked) + checks
      ensures var k := FirstFault(tape, old(next), Forward(checks));
              CleanFailure(tape, old(next), k, checks, restoreConfig) ==>
                exit.Threw? && WentBack(table, config, At(tape, old(next) + k), k, checks, restoreConfig)
      ensures !restoreConfig ==> config == old(config)
    {
      var parked;
      exit, parked := GoForward(checks);
      if exit.Threw? {
        var died := Restore(parked, restoreConfig);
        if died { exit := Died; }
      }
    }

    // ----- its two uses -----

    /** The candidate proves, beside the running Agent, that the image knows the
        Agent's identity; it is removed again, come what may. */
    method Preflight() returns (exit: Exit)
      requires Unparked(table)
      modifies `next, `table
      ensures Unparked(table) && table[Main] == old(table)[Main]
      ensures exit.Returned? <==>
                Candidate !in old(table) && AllDone(tape, old(next), 3) && !At(tape, old(next) + 3).Killed?
      ensures exit.Returned? ==> next == old(next) + 4
    {
      ghost var from := next;
      exit := Create(Candidate, Who.Preflight);
      if !exit.Returned? {
        assert Candidate !in old(table) ==> !At(tape, from).Done?;
        return;
      }
      exit := Start(Candidate);
      if exit.Returned? { exit := Ask(); }
      if exit.Died? { return; }
      var removed := Remove(Candidate);
      if removed.Died? { return Died; }
    }

    /** Whether the update gets as far as parking: no earlier update is parked, and of
        the first seven calls only the removal of the candidate may fail. */
    static predicate Begins(t: Table, tape: seq<Fate>, from: nat) {
      && Parked !in t && Candidate !in t
      && AllDone(tape, from, 5) && !At(tape, from + 5).Killed? && At(tape, from + 6).Done?
    }

    /** AgentUpdateDocker.apply. */
    method Apply() returns (exit: Exit)
      requires Is(table, Main, Original) && (Parked in table ==> table[Parked].who.Leftover?)
      requires Candidate in table ==> table[Candidate].who.Preflight?
      modifies this
      ensures Exclusive(table)
      ensures Parked in old(table) ==> !exit.Returned? && table == old(table)
      ensures !Begins(old(table), tape, old(next)) ==>
                !exit.Returned? && Main in table && table[Main] == old(table)[Main]
      ensures Begins(old(table), tape, old(next)) ==>
                var from := old(next) + 7;
                var k := FirstFault(tape, from, Forward(3));
                && (exit.Returned? <==> k == Forward(3))
                && (CleanFailure(tape, from, k, 3, false) ==>
                      exit.Threw? && WentBack(table, config, At(tape, from + k), k, 3, false))
      ensures exit.Returned? ==>
                && Main in table && table[Main] == Container(Replacement, true) && Parked !in table
                && checked == old(checked) + 3
      ensures tape == [] && Parked !in old(table) && Candidate !in old(table) ==> exit.Returned?
    {
      if tape == [] { FirstFaultIs(tape, next + 7, Forward(3), Forward(3)); }
      exit := Ask();   // the running Agent
      if !exit.Returned? { return; }
      exit := Ask();   // an earlier update
      if !exit.Returned? { return; }
      if Parked in table { return Threw; }
      exit := Preflight();
      if !exit.Returned? { return; }
      exit := Ask();   // checkpoint
      if !exit.Returned? { return; }
      exit := Replace(3, false);
    }

    /** GatewayEdgeReconciler.reconcile, when the edge does not run the current
        configuration yet. Whatever is parked from before is removed first. */
    method ReconcileEdge() returns (exit: Exit)
      requires Is(table, Main, Original) && Candidate !in table && !Is(table, Parked, Replacement)
      requires config == OldConfig
      modifies this
      ensures Exclusive(table)
      ensures !AllDone(tape, old(next), 3) ==> !exit.Returned? && Main in table && table[Main] == old(table)[Main]
      ensures AllDone(tape, old(next), 3) ==>
                var from := old(next) + 3;
                var k := FirstFault(tape, from, Forward(2));
                && (exit.Returned? <==> k == Forward(2))
                && (CleanFailure(tape, from, k, 2, true) ==>
                      exit.Threw? && WentBack(table, config, At(tape, from + k), k, 2, true))
      ensures exit.Returned? ==>
                && Main in table && table[Main] == Container(Replacement, true) && Parked !in table
                && config == NewConfig && checked == old(checked) + 2
      ensures tape == [] ==> exit.Returned?
    {
      if tape == [] { FirstFaultIs(tape, next + 3, Forward(2), Forward(2)); }
      exit := Ask();   // the running edge
      if !exit.Returned? { return; }
      exit := WriteConfig(NewConfig);
      if !exit.Returned? { return; }
      exit := Remove(Parked);
      if !exit.Returned? { return; }
      exit := Replace(2, true);
    }
  }

  /** An update whose first parking call, the stop, is refused, while everything else
      succeeds: going back removes the Agent, and nothing runs any more. */
  method FailedStopLosesOriginal(docker: Docker) returns (exit: Exit)
    requires docker.table == map[Main := Container(Original, true)] && docker.next == 0
    requires docker.tape == [Done, Done, Done, Done, Done, Done, Done, Refused]
    modifies docker
    ensures exit.Threw? && Main !in docker.table && Parked !in docker.table
  {
    FirstFaultIs(docker.tape, 7, Forward(3), 0);
    exit := docker.Apply();
  }
}
