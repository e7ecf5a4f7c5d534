/** Moving stored secrets to the current encryption key, page by page. The cipher is
    ideal: a value opens with the key it was written with and with no other. */
module SecretSweep {
  import opened Common

  type Key = nat

  const BATCH_SIZE := 100

  /** A stored value: legacy plaintext, or the text under a key and a fresh nonce. */
  datatype Stored = Plain(text: string) | Encrypted(key: Key, text: string, nonce: nat)

  datatype Keys = Keys(current: Key, previous: seq<Key>)

  datatype Row = Row(id: int, value: Option<Stored>)

  datatype Summary = Summary(reencrypted: nat, unreadable: nat)

  predicate Opens(keys: Keys, key: Key) { key == keys.current || key in keys.previous }

  /** What a stored value stands for, or nothing if no configured key opens it. */
  function Decrypt(keys: Keys, stored: Stored): Option<string> {
    match stored
    case Plain(text) => Some(text)
    case Encrypted(key, text, _) => if Opens(keys, key) then Some(text) else None
  }

  predicate Empty(stored: Stored) { stored == Plain("") }

  predicate Pending(value: Option<Stored>) { value.Some? && value.value.Plain? }

  predicate Unreadable(keys: Keys, value: Option<Stored>) {
    value.Some? && Decrypt(keys, value.value).None?
  }

  /** The value is written again under the current key. */
  predicate Rewritable(keys: Keys, value: Option<Stored>) {
    && value.Some? && !Empty(value.value) && Decrypt(keys, value.value).Some?
    && !(value.value.Encrypted? && value.value.key == keys.current)
  }

  /** What a sweep makes of a value: readable ones are under the current key with
      their text unchanged, all others are as they were. */
  predicate SweptFrom(keys: Keys, before: Option<Stored>, after: Option<Stored>) {
    if Rewritable(keys, before)
    then && after.Some? && after.value.Encrypted? && after.value.key == keys.current
         && Decrypt(keys, before.value) == Some(after.value.text)
    else after == before
  }

  function CountRewritable(keys: Keys, rows: seq<Row>, n: nat): nat
    requires n <= |rows|
  {
    if n == 0 then 0 else CountRewritable(keys, rows, n - 1) + if Rewritable(keys, rows[n - 1].value) then 1 else 0
  }

  function CountUnreadable(keys: Keys, rows: seq<Row>, n: nat): nat
    requires n <= |rows|
  {
    if n == 0 then 0 else CountUnreadable(keys, rows, n - 1) + if Unreadable(keys, rows[n - 1].value) then 1 else 0
  }

  predicate Ascending(rows: seq<Row>) { forall i, j | 0 <= i < j < |rows| :: rows[i].id < rows[j].id }

  predicate Rotating(keys: Keys) { keys.previous != [] }

  /** Rows that a page may contain: all while rotating, else those still in plaintext. */
  predicate Wanted(keys: Keys, row: Row) { Rotating(keys) || Pending(row.value) }

  // ----- what a sweep is worth -----

  /** A second sweep has nothing to rewrite. */
  lemma {:induction false} SecondSweepIsIdle(keys: Keys, before: seq<Row>, after: seq<Row>, n: nat)
    requires |before| == |after| && n <= |after|
    requires forall i | 0 <= i < n :: SweptFrom(keys, before[i].value, after[i].value)
    ensures CountRewritable(keys, after, n) == 0
    decreases n
  {
    if n > 0 { SecondSweepIsIdle(keys, before, after, n - 1); }
  }

  lemma {:induction false} NoneUnreadable(keys: Keys, rows: seq<Row>, n: nat, i: nat)
    requires i < n <= |rows| && CountUnreadable(keys, rows, n) == 0
    ensures !Unreadable(keys, rows[i].value)
    decreases n
  {
    if i < n - 1 { NoneUnreadable(keys, rows, n - 1, i); }
  }

  /** When a rotating sweep reports nothing unreadable, the previous keys can go:
      every value opens with the current key alone, to what it always stood for. */
  lemma PreviousKeysCanGo(keys: Keys, before: seq<Row>, after: seq<Row>, i: nat)
    requires |before| == |after| && i < |after|
    requires forall j | 0 <= j < |after| :: SweptFrom(keys, before[j].value, after[j].value)
    requires CountUnreadable(keys, before, |before|) == 0
    ensures before[i].value.Some? ==>
              && after[i].value.Some?
              && Decrypt(keys.(previous := []), after[i].value.value) == Decrypt(keys, before[i].value.value)
              && Decrypt(keys, before[i].value.value).Some?
  {
    NoneUnreadable(keys, before, |before|, i);
    assert SweptFrom(keys, before[i].value, after[i].value);
  }

  // ----- pages -----

  /** The first `n` wanted rows from place `from` on. */
  function Page(keys: Keys, rows: seq<Row>, from: nat, n: nat): seq<Row>
    decreases |rows| - from
  {
    if from >= |rows| || n == 0 then []
    else if Wanted(keys, rows[from]) then [rows[from]] + Page(keys, rows, from + 1, n - 1)
    else Page(keys, rows, from + 1, n)
  }

  lemma {:induction false} PageIsBounded(keys: Keys, rows: seq<Row>, from: nat, n: nat)
    ensures |Page(keys, rows, from, n)| <= n
    decreases |rows| - from
  {
    if from < |rows| && n > 0 {
      PageIsBounded(keys, rows, from + 1, if Wanted(keys, rows[from]) then n - 1 else n);
    }
  }

  /** How far a sweep that began with `start` has come: the rows before `p` are
      swept and counted, the others are as they were. */
  ghost predicate Progress(keys: Keys, start: seq<Row>, rows: seq<Row>, p: nat, summary: Summary) {
    && p <= |start| == |rows| && Ascending(rows)
    && (forall i | 0 <= i < p :: rows[i].id == start[i].id && SweptFrom(keys, start[i].value, rows[i].value))
    && (forall i | p <= i < |rows| :: rows[i] == start[i])
    && summary.reencrypted == CountRewritable(keys, start, p)
    && summary.unreadable == if Rotating(keys) then CountUnreadable(keys, start, p) else 0
  }

  /** Unwanted rows need nothing. */
  lemma {:induction false} PassUnwanted(keys: Keys, start: seq<Row>, rows: seq<Row>, p: nat, n: nat, summary: Summary)
    returns (q: nat)
    requires Progress(keys, start, rows, p, summary)
    ensures p <= q && Progress(keys, start, rows, q, summary)
    ensures Page(keys, start, q, n) == Page(keys, start, p, n)
    ensures n > 0 ==> q == |start| || Wanted(keys, start[q])
    decreases |start| - p
  {
    q := p;
    if n > 0 && p < |start| && !Wanted(keys, start[p]) {
      q := PassUnwanted(keys, start, rows, p + 1, n, summary);
    }
  }

  /** The next row of a page is the next wanted one. */
  lemma NextOfPage(keys: Keys, start: seq<Row>, rows: seq<Row>, p: nat, n: nat, page: seq<Row>, k: nat,
                   summary: Summary) returns (q: nat)
    requires Progress(keys, start, rows, p, summary) && n > 0
    requires k < |page| && page[k..] == Page(keys, start, p, n)
    ensures p <= q < |start| && Progress(keys, start, rows, q, summary) && Wanted(keys, start[q])
    ensures page[k] == start[q] && page[k + 1..] == Page(keys, start, q + 1, n - 1)
  {
    q := PassUnwanted(keys, start, rows, p, n, summary);
    assert page[k..] == [page[k]] + page[k + 1..];
  }

  /** After a page that is not full there is nothing left. */
  lemma PassRest(keys: Keys, start: seq<Row>, rows: seq<Row>, p: nat, n: nat, summary: Summary) returns (q: nat)
    requires Progress(keys, start, rows, p, summary) && n > 0 && Page(keys, start, p, n) == []
    ensures q == |start| && Progress(keys, start, rows, q, summary)
  {
    q := PassUnwanted(keys, start, rows, p, n, summary);
  }

  /** One encrypted column. */
  class EncryptedColumn {
    var rows: seq<Row>
    var nextNonce: nat
    const keys: Keys

    /** The first wanted rows after the cursor, at most a batch. */
    method Read(cursor: Option<int>, ghost from: nat) returns (page: seq<Row>)
      requires from <= |rows|
      requires forall i | 0 <= i < |rows| :: i < from <==> (cursor.Some? && rows[i].id <= cursor.value)
      ensures page == Page(keys, rows, from, BATCH_SIZE) && |page| <= BATCH_SIZE
    {
      page := [];
      var i := 0;
      while i < |rows| && |page| < BATCH_SIZE
        invariant i <= |rows| && |page| <= BATCH_SIZE
        invariant page + Page(keys, rows, Max(i, from), BATCH_SIZE - |page|) == Page(keys, rows, from, BATCH_SIZE)
        invariant i < from ==> page == []
      {
        if (cursor.None? || rows[i].id > cursor.value) && Wanted(keys, rows[i]) {
          page := page + [rows[i]];
        }
        i := i + 1;
      }
      PageIsBounded(keys, rows, from, BATCH_SIZE);
    }

    /** Compare-and-set: a row that has changed since is left alone. */
    method Write(id: int, previous: Stored, next: Stored, ghost at: nat)
      requires Ascending(rows) && at < |rows| && rows[at].id == id
      modifies `rows
      ensures Ascending(rows) && |rows| == |old(rows)|
      ensures forall i | 0 <= i < |rows| ::
                rows[i] == if i == at && old(rows)[i].value == Some(previous)
                           then old(rows)[i].(value := Some(next)) else old(rows)[i]
    {
      var was := rows;
      for i := 0 to |was|
        invariant |rows| == |was|
        invariant forall j | 0 <= j < |was| ::
                    rows[j] == if j < i && j == at && was[j].value == Some(previous)
                               then was[j].(value := Some(next)) else was[j]
      {
        if was[i].id == id && was[i].value == Some(previous) {
          assert i == at;
          rows := rows[i := was[i].(value := Some(next))];
        }
      }
    }

    /** One row of a page. */
    method Visit(row: Row, summary: Summary, ghost at: nat) returns (updated: Summary)
      requires Ascending(rows) && at < |rows| && rows[at] == row
      modifies `rows, `nextNonce
      ensures Ascending(rows) && |rows| == |old(rows)|
      ensures forall i | 0 <= i < |rows| && i != at :: rows[i] == old(rows)[i]
      ensures rows[at].id == row.id && SweptFrom(keys, row.value, rows[at].value)
      ensures updated.reencrypted == summary.reencrypted + if Rewritable(keys, row.value) then 1 else 0
      ensures updated.unreadable == summary.unreadable + if Unreadable(keys, row.value) then 1 else 0
    {
      updated := summary;
      if row.value.None? || Empty(row.value.value) { return; }
      var stored := row.value.value;
      if stored.Encrypted? && stored.key == keys.current { return; }
      var plaintext := Decrypt(keys, stored);
      if plaintext.None? {
        updated := summary.(unreadable := summary.unreadable + 1);
        return;
      }
      Write(row.id, stored, Encrypted(keys.current, plaintext.value, nextNonce), at);
      nextNonce := nextNonce + 1;
      updated := summary.(reencrypted := summary.reencrypted + 1);
    }

    /** The next wanted row. */
    method VisitNext(row: Row, summary: Summary, ghost start: seq<Row>, ghost q: nat) returns (updated: Summary)
      requires Progress(keys, start, rows, q, summary) && q < |start| && start[q] == row && Wanted(keys, row)
      modifies `rows, `nextNonce
      ensures Progress(keys, start, rows, q + 1, updated)
    {
      updated := Visit(row, summary, q);
    }

    /** The rows of one page, in order. */
    method VisitPage(page: seq<Row>, summary: Summary, ghost start: seq<Row>, ghost from: nat)
      returns (updated: Summary, ghost p: nat)
      requires Progress(keys, start, rows, from, summary)
      requires page == Page(keys, start, from, BATCH_SIZE) && |page| <= BATCH_SIZE
      modifies `rows, `nextNonce
      ensures Progress(keys, start, rows, p, updated)
      ensures |page| < BATCH_SIZE ==> p == |start|
      ensures page != [] && |page| == BATCH_SIZE ==> from < p && start[p - 1] == page[|page| - 1]
    {
      updated, p := summary, from;
      for k := 0 to |page|
        invariant Progress(keys, start, rows, p, updated) && from <= p
        invariant page[k..] == Page(keys, start, p, BATCH_SIZE - k)
        invariant k > 0 ==> p > from && start[p - 1] == page[k - 1]
      {
        p := NextOfPage(keys, start, rows, p, BATCH_SIZE - k, page, k, updated);
        updated := VisitNext(page[k], updated, start, p);
        p := p + 1;
      }
      if |page| < BATCH_SIZE { p := PassRest(keys, start, rows, p, BATCH_SIZE - |page|, updated); }
    }

    /** The sweep of a column, while nobody else writes: it visits every row once,
        leaves every readable secret under the current key and everything else as it
        was, and counts both. */
    method Sweep() returns (summary: Summary)
      requires Ascending(rows)
      modifies this
      ensures |rows| == |old(rows)| && Ascending(rows)
      ensures forall i | 0 <= i < |rows| ::
                rows[i].id == old(rows)[i].id && SweptFrom(keys, old(rows)[i].value, rows[i].value)
      ensures summary.reencrypted == CountRewritable(keys, old(rows), |rows|)
      ensures summary.unreadable == if Rotating(keys) then CountUnreadable(keys, old(rows), |rows|) else 0
    {
      ghost var start := rows;
      ghost var p := 0;
      var cursor: Option<int> := None;
      summary := Summary(0, 0);
      while true
        invariant Progress(keys, start, rows, p, summary)
        invariant forall i | 0 <= i < |rows| :: i < p <==> (cursor.Some? && rows[i].id <= cursor.value)
        decreases |start| - p
      {
        SamePage(keys, start, rows, p, BATCH_SIZE);
        var page := Read(cursor, p);
        ghost var from := p;
        summary, p := VisitPage(page, summary, start, p);
        if |page| < BATCH_SIZE { break; }
        cursor := Some(page[|page| - 1].id);
      }
    }

    /** Sweeping twice: the second time nothing is written. */
    method SweepTwice() returns (first: Summary, second: Summary)
      requires Ascending(rows)
      modifies this
      ensures second.reencrypted == 0 && second.unreadable == first.unreadable
    {
      ghost var start := rows;
      first := Sweep();
      SecondSweepIsIdle(keys, start, rows, |rows|);
      UnreadableStay(keys, start, rows, |rows|);
      second := Sweep();
    }
  }

  /** A page depends only on rows that the sweep has not reached. */
  lemma {:induction false} SamePage(keys: Keys, a: seq<Row>, b: seq<Row>, from: nat, n: nat)
    requires |a| == |b| && forall i | from <= i < |a| :: a[i] == b[i]
    ensures Page(keys, a, from, n) == Page(keys, b, from, n)
    decreases |a| - from
  {
    if from < |a| && n > 0 {
      SamePage(keys, a, b, from + 1, if Wanted(keys, a[from]) then n - 1 else n);
    }
  }

  lemma {:induction false} UnreadableStay(keys: Keys, before: seq<Row>, after: seq<Row>, n: nat)
    requires |before| == |after| && n <= |after|
    requires forall i | 0 <= i < n :: SweptFrom(keys, before[i].value, after[i].value)
    ensures CountUnreadable(keys, after, n) == CountUnreadable(keys, before, n)
    decreases n
  {
    if n > 0 { UnreadableStay(keys, before, after, n - 1); }
  }
}
