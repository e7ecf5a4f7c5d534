/** Vocabulary shared by every protocol model. */
module Common {
  datatype Option<+T> = None | Some(value: T)

  /** What becomes of one call that leaves the process: it succeeds, it fails
      without effect, it takes effect although the caller sees an error, or the
      process is killed before the call has any effect. */
  datatype Fate = Done | Refused | Late | Killed

  /** How a whole procedure ends. `Died` keeps disk and database, drops memory. */
  datatype Exit = Returned | Threw | Died

  /** The next fate of a tape; an exhausted tape brings no more faults. */
  function Head(tape: seq<Fate>): Fate {
    if tape == [] then Done else tape[0]
  }

  function Tail(tape: seq<Fate>): seq<Fate> {
    if tape == [] then [] else tape[1..]
  }

  /** No call on the tape fails: it either succeeds or the process dies. */
  predicate NeverFails(tape: seq<Fate>) {
    forall i | 0 <= i < |tape| :: tape[i].Done? || tape[i].Killed?
  }

  /** The fate of call `i` of a tape. */
  function At(tape: seq<Fate>, i: nat): Fate {
    if i < |tape| then tape[i] else Done
  }

  /** All of the `n` calls from call `from` on are successful. */
  predicate AllDone(tape: seq<Fate>, from: nat, n: nat) {
    forall i | from <= i < from + n :: At(tape, i).Done?
  }

  /** How many of the `n` calls from call `from` on are successful before the first
      that is not. */
  function FirstFault(tape: seq<Fate>, from: nat, n: nat): nat {
    if n == 0 then 0
    else
      var k := FirstFault(tape, from, n - 1);
      if k == n - 1 && At(tape, from + n - 1).Done? then n else k
  }

  lemma {:induction false} FirstFaultMeans(tape: seq<Fate>, from: nat, n: nat)
    ensures var k := FirstFault(tape, from, n);
            k <= n && AllDone(tape, from, k) && (k < n ==> !At(tape, from + k).Done?)
  {
    if n > 0 { FirstFaultMeans(tape, from, n - 1); }
  }

  lemma FirstFaultIs(tape: seq<Fate>, from: nat, n: nat, k: nat)
    requires k <= n && AllDone(tape, from, k) && (k < n ==> !At(tape, from + k).Done?)
    ensures FirstFault(tape, from, n) == k
  {
    FirstFaultMeans(tape, from, n);
  }

  /** The first fault of a sequence of calls is that of its first part, if it has one. */
  lemma FirstFaultOn(tape: seq<Fate>, from: nat, a: nat, b: nat)
    ensures FirstFault(tape, from, a) <= a && FirstFault(tape, from + a, b) <= b
    ensures FirstFault(tape, from, a + b)
            == if FirstFault(tape, from, a) < a then FirstFault(tape, from, a)
               else a + FirstFault(tape, from + a, b)
  {
    var k := FirstFault(tape, from, a);
    FirstFaultMeans(tape, from, a);
    FirstFaultMeans(tape, from + a, b);
    FirstFaultIs(tape, from, a + b, if k < a then k else a + FirstFault(tape, from + a, b));
  }

  function Min(a: int, b: int): int { if a <= b then a else b }
  function Max(a: int, b: int): int { if a >= b then a else b }
}
