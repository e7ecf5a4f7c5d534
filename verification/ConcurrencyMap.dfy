/** Mapping a list with a bounded number of workers that share a cursor. A worker runs
    undisturbed from one awaited mapping to the next; which mapping settles next is
    anybody's guess. */
module ConcurrencyMap {
  import opened Common

  datatype Settled<+R> = Fulfilled(results: seq<R>) | Rejected | RangeError

  /** All places of the list, in the order in which they are handed out. */
  function Places(n: nat): (places: seq<nat>)
    ensures |places| == n && forall i | 0 <= i < n :: places[i] == i
  {
    if n == 0 then [] else Places(n - 1) + [n - 1]
  }

  function Workers(n: nat): (workers: set<nat>)
    ensures |workers| == n && forall w: nat :: w in workers <==> w < n
  {
    if n == 0 then {} else Workers(n - 1) + {n - 1}
  }

  /** Some worker waits for the mapping of this place. */
  ghost predicate Awaited(inFlight: map<nat, nat>, place: nat) {
    exists w :: w in inFlight && inFlight[w] == place
  }

  /** What became of the places that were handed out. */
  ghost predicate Accounted<T, R>(items: seq<T>, mapper: (T, nat) -> Option<R>, results: seq<Option<R>>,
                                  inFlight: map<nat, nat>, rejected: bool, place: nat)
    requires place < |items| == |results|
  {
    var outcome := mapper(items[place], place);
    Awaited(inFlight, place) || (if outcome.Some? then results[place] == outcome else rejected)
  }

  predicate NoneRejects<T, R>(items: seq<T>, mapper: (T, nat) -> Option<R>) {
    forall i | 0 <= i < |items| :: mapper(items[i], i).Some?
  }

  class Run<T, R> {
    const items: seq<T>
    const mapper: (T, nat) -> Option<R>   // None: the mapping rejects
    const bound: nat                      // how many mappings may be in flight
    const results: array<Option<R>>
    var cursor: nat
    var inFlight: map<nat, nat>   // which worker waits for which place
    var rejected: bool
    ghost var started: seq<nat>   // the places that were handed to the mapper

    ghost predicate Valid()
      reads this, results
    {
      && results.Length == |items| && cursor <= |items| && started == Places(cursor)
      && |inFlight| <= bound
      && (forall w | w in inFlight :: inFlight[w] < cursor)
      && (forall v, w | v in inFlight && w in inFlight && v != w :: inFlight[v] != inFlight[w])
      && (forall i | 0 <= i < cursor :: Accounted(items, mapper, results[..], inFlight, rejected, i))
    }

    constructor (items: seq<T>, mapper: (T, nat) -> Option<R>, bound: nat)
      ensures Valid() && fresh(results) && this.items == items && this.mapper == mapper && this.bound == bound
      ensures cursor == 0 && inFlight == map[] && !rejected
    {
      this.items, this.mapper, this.bound := items, mapper, bound;
      this.cursor, this.inFlight, this.rejected, this.started := 0, map[], false, [];
      this.results := new Option<R>[|items|](i => None);
    }

    /** A worker takes the next place, if there is one. */
    method Take(w: nat)
      requires Valid() && w !in inFlight && |inFlight| < bound
      modifies `cursor, `inFlight, `started
      ensures Valid()
      ensures if old(cursor) < |items|
              then cursor == old(cursor) + 1 && inFlight == old(inFlight)[w := old(cursor)]
              else cursor == old(cursor) && inFlight == old(inFlight)
    {
      if cursor < |items| {
        inFlight := inFlight[w := cursor];
        started := started + [cursor];
        cursor := cursor + 1;
        forall i | 0 <= i < cursor ensures Accounted(items, mapper, results[..], inFlight, rejected, i) {
          if i < cursor - 1 {
            assert Accounted(items, mapper, results[..], old(inFlight), rejected, i);
            StillAwaited(old(inFlight), inFlight, i);
          } else {
            assert w in inFlight && inFlight[w] == i;
          }
        }
      }
    }

    lemma StillAwaited(before: map<nat, nat>, after: map<nat, nat>, place: nat)
      requires forall v | v in before && before[v] == place :: v in after && after[v] == place
      ensures Awaited(before, place) ==> Awaited(after, place)
    {
      if Awaited(before, place) {
        var v :| v in before && before[v] == place;
        assert v in after && after[v] == place;
      }
    }

    /** The mapping a worker waits for settles. */
    method Settle(w: nat)
      requires Valid() && w in inFlight
      modifies `inFlight, `rejected, results
      ensures Valid() && inFlight == old(inFlight) - {w}
      ensures var index := old(inFlight)[w];
              forall i | 0 <= i < |items| ::
                results[i] == if i == index && mapper(items[i], i).Some? then mapper(items[i], i) else old(results[i])
      ensures rejected <==> old(rejected) || mapper(items[old(inFlight)[w]], old(inFlight)[w]).None?
    {
      var index := inFlight[w];
      var outcome := mapper(items[index], index);
      if outcome.Some? { results[index] := outcome; } else { rejected := true; }
      inFlight := inFlight - {w};
      forall i | 0 <= i < cursor ensures Accounted(items, mapper, results[..], inFlight, rejected, i) {
        assert Accounted(items, mapper, old(results[..]), old(inFlight), old(rejected), i);
        if i != index { StillAwaited(old(inFlight), inFlight, i); }
      }
    }

    /** The first places go to the workers one by one. */
    method StartWorkers(workers: nat)
      requires Valid() && cursor == 0 && inFlight == map[] && workers <= |items| && workers <= bound
      modifies `cursor, `inFlight, `started
      ensures Valid() && cursor == workers && inFlight.Keys == Workers(workers) && rejected == old(rejected)
    {
      for w := 0 to workers
        invariant Valid() && cursor == w && inFlight.Keys == Workers(w) && |inFlight| == w
      {
        Take(w);
      }
    }

    /** One mapping settles, and its worker goes on, unless it was rejected. */
    method Proceed(w: nat)
      requires Valid() && w in inFlight
      modifies this, results
      ensures Valid() && inFlight.Keys <= old(inFlight).Keys
      ensures rejected <==> old(rejected) || mapper(items[old(inFlight)[w]], old(inFlight)[w]).None?
      ensures inFlight == map[] && !rejected ==> cursor == |items|
      ensures cursor > old(cursor) || (cursor == old(cursor) && |inFlight| < |old(inFlight)|)
    {
      var index := inFlight[w];
      Smaller(old(inFlight), w);
      Settle(w);
      if mapper(items[index], index).Some? { Take(w); }
      assert w in inFlight ==> inFlight != map[];
    }

    lemma Smaller(inFlight: map<nat, nat>, w: nat)
      requires w in inFlight
      ensures |inFlight - {w}| < |inFlight|
    {
      assert (inFlight - {w}).Keys == inFlight.Keys - {w};
      assert |(inFlight - {w}).Keys| == |inFlight - {w}| && |inFlight.Keys| == |inFlight|;
    }

    /** Until nothing is in flight: any one of the awaited mappings settles next. */
    method Drain()
      requires Valid() && !rejected
      requires inFlight == map[] ==> cursor == |items|
      modifies this, results
      ensures Valid() && inFlight == map[]
      ensures !rejected ==> cursor == |items|
      ensures NoneRejects(items, mapper) ==> !rejected
    {
      while inFlight != map[]
        invariant Valid()
        invariant inFlight == map[] && !rejected ==> cursor == |items|
        invariant NoneRejects(items, mapper) ==> !rejected
        decreases |items| - cursor, |inFlight|
      {
        var w :| w in inFlight;
        Proceed(w);
      }
    }

    /** The results, once nothing is in flight and nothing was rejected. */
    method Collect() returns (values: seq<R>)
      requires Valid() && inFlight == map[] && !rejected && cursor == |items|
      ensures |values| == |items|
      ensures forall i | 0 <= i < |items| :: mapper(items[i], i) == Some(values[i])
    {
      values := [];
      for i := 0 to |items|
        invariant |values| == i && forall j | 0 <= j < i :: mapper(items[j], j) == Some(values[j])
      {
        assert Accounted(items, mapper, results[..], inFlight, rejected, i);
        values := values + [results[i].value];
      }
    }
  }

  /** Every place is handed to the mapper once, in order, in a run that never has more
      than `concurrency` mappings in flight; and if no mapping rejects, the result holds
      the mapping of every item at its place. Workers whose mapping rejected take no
      more work. */
  method MapWithConcurrency<T, R>(items: seq<T>, concurrency: int, mapper: (T, nat) -> Option<R>)
    returns (settled: Settled<R>, ghost run: Run?<T, R>)
    ensures settled.RangeError? <==> concurrency < 1
    ensures concurrency >= 1 ==>
              && run != null && fresh(run) && run.Valid() && run.inFlight == map[]
              && run.bound == concurrency && run.items == items && run.mapper == mapper
              && run.started == Places(|run.started|) && |run.started| <= |items|
    ensures settled.Fulfilled? ==>
              && |run.started| == |items| == |settled.results|
              && forall i | 0 <= i < |items| :: mapper(items[i], i) == Some(settled.results[i])
    ensures concurrency >= 1 && NoneRejects(items, mapper) ==> settled.Fulfilled?
  {
    if concurrency < 1 { return RangeError, null; }
    var mapping := new Run(items, mapper, concurrency);
    run := mapping;
    var workers: nat := Min(concurrency, |items|);
    mapping.StartWorkers(workers);
    assert workers > 0 ==> 0 in mapping.inFlight.Keys;
    mapping.Drain();
    if mapping.rejected { return Rejected, run; }
    var values := mapping.Collect();
    settled := Fulfilled(values);
  }
}
