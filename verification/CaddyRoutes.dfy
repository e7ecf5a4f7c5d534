/** The owned route of an environment inside a Caddy configuration that others edit
    too: read with an ETag, replace with If-Match, retry on 412 (sections 13.1.1 and
    15.5.13 of RFC 9110). */
module CaddyRoutes {
  import opened Common

  datatype Json =
    | Null
    | Bool(truth: bool)
    | Number(number: int)
    | Text(text: string)
    | Array(items: seq<Json>)
    | Object(fields: map<string, Json>)

  type Route = map<string, Json>
  type Document = seq<Route>

  datatype Intent = Intent(id: string, hostname: string, upstream: string, present: bool)

  const MAX_ROUTE_COUNT := 10_000
  const MAX_RECONCILE_ATTEMPTS := 5

  // ----- reading a route -----

  function Field(fields: map<string, Json>, name: string): Json {
    if name in fields then fields[name] else Null
  }

  /** The only element of an array of one object. */
  function OnlyObject(value: Json): Option<map<string, Json>> {
    if value.Array? && |value.items| == 1 && value.items[0].Object? then Some(value.items[0].fields) else None
  }

  predicate Owned(route: Route, id: string) { Field(route, "@id") == Text(id) }

  function RouteHostname(route: Route): Option<string> {
    var matcher := OnlyObject(Field(route, "match"));
    if matcher.None? then None
    else
      var hosts := Field(matcher.value, "host");
      if hosts.Array? && |hosts.items| == 1 && hosts.items[0].Text? then Some(hosts.items[0].text) else None
  }

  function RouteUpstream(route: Route): Option<string> {
    var handler := OnlyObject(Field(route, "handle"));
    if Field(route, "terminal") != Bool(true) || handler.None?
       || Field(handler.value, "handler") != Text("reverse_proxy") then None
    else
      var upstream := OnlyObject(Field(handler.value, "upstreams"));
      if upstream.None? then None
      else
        var dial := Field(upstream.value, "dial");
        if dial.Text? then Some(dial.text) else None
  }

  function ManagedRoute(intent: Intent): Route {
    map["@id" := Text(intent.id),
        "match" := Array([Object(map["host" := Array([Text(intent.hostname)])])]),
        "handle" := Array([Object(map["handler" := Text("reverse_proxy"),
                                      "upstreams" := Array([Object(map["dial" := Text(intent.upstream)])])])]),
        "terminal" := Bool(true)]
  }

  // ----- documents -----

  function Owners(routes: Document, id: string): Document {
    if routes == [] then [] else (if Owned(routes[0], id) then [routes[0]] else []) + Owners(routes[1..], id)
  }

  function Others(routes: Document, id: string): Document {
    if routes == [] then [] else (if Owned(routes[0], id) then [] else [routes[0]]) + Others(routes[1..], id)
  }

  function Replaced(routes: Document, intent: Intent): Document {
    Others(routes, intent.id) + if intent.present then [ManagedRoute(intent)] else []
  }

  /** Nothing is left to do for this intent. */
  predicate Settled(routes: Document, intent: Intent) {
    var owned := Owners(routes, intent.id);
    if intent.present
    then |owned| == 1 && RouteHostname(owned[0]) == Some(intent.hostname)
         && RouteUpstream(owned[0]) == Some(intent.upstream)
    else owned == []
  }

  /** The identity is bound to another hostname. */
  predicate Conflicts(routes: Document, intent: Intent) {
    var owned := Owners(routes, intent.id);
    owned != [] && RouteHostname(owned[0]) != Some(intent.hostname)
  }

  /** The upstream an owned route dials; no answer if the document is not in order. */
  function CurrentRoute(routes: Document, id: string, hostname: string): Option<Option<string>> {
    var owned := Owners(routes, id);
    if |owned| > 1 then None
    else if owned == [] then Some(None)
    else if RouteHostname(owned[0]) != Some(hostname) then None
    else if RouteUpstream(owned[0]).None? || RouteUpstream(owned[0]) == Some("") then None
    else Some(RouteUpstream(owned[0]))
  }

  // ----- what a replacement means -----

  /** A published route reads back as what was asked for. */
  lemma ManagedRouteReadsBack(intent: Intent)
    ensures Owned(ManagedRoute(intent), intent.id)
    ensures RouteHostname(ManagedRoute(intent)) == Some(intent.hostname)
    ensures RouteUpstream(ManagedRoute(intent)) == Some(intent.upstream)
  {
    var handle := Field(ManagedRoute(intent), "handle");
    assert OnlyObject(handle).Some?;
    assert Field(handle.items[0].fields, "handler") == Text("reverse_proxy");
  }

  lemma {:induction false} OwnersSplit(a: Document, b: Document, id: string)
    ensures Owners(a + b, id) == Owners(a, id) + Owners(b, id)
    decreases |a|
  {
    if a == [] {
      assert a + b == b;
    } else {
      var first := if Owned(a[0], id) then [a[0]] else [];
      assert (a + b)[1..] == a[1..] + b;
      OwnersSplit(a[1..], b, id);
      assert first + (Owners(a[1..], id) + Owners(b, id)) == (first + Owners(a[1..], id)) + Owners(b, id);
    }
  }

  lemma {:induction false} OthersSplit(a: Document, b: Document, id: string)
    ensures Others(a + b, id) == Others(a, id) + Others(b, id)
    decreases |a|
  {
    if a == [] {
      assert a + b == b;
    } else {
      var first := if Owned(a[0], id) then [] else [a[0]];
      assert (a + b)[1..] == a[1..] + b;
      OthersSplit(a[1..], b, id);
      assert first + (Others(a[1..], id) + Others(b, id)) == (first + Others(a[1..], id)) + Others(b, id);
    }
  }

  lemma FiltersSplit(a: Document, b: Document, id: string)
    ensures Owners(a + b, id) == Owners(a, id) + Owners(b, id)
    ensures Others(a + b, id) == Others(a, id) + Others(b, id)
  {
    OwnersSplit(a, b, id);
    OthersSplit(a, b, id);
  }

  lemma {:induction false} OthersAreNotOwned(routes: Document, id: string)
    ensures Owners(Others(routes, id), id) == [] && Others(Others(routes, id), id) == Others(routes, id)
    decreases |routes|
  {
    if routes != [] {
      OthersAreNotOwned(routes[1..], id);
      FiltersSplit(if Owned(routes[0], id) then [] else [routes[0]], Others(routes[1..], id), id);
    }
  }

  /** Every route is either owned or not. */
  lemma {:induction false} FiltersShrink(routes: Document, id: string)
    ensures |Owners(routes, id)| + |Others(routes, id)| == |routes|
    decreases |routes|
  {
    if routes != [] { FiltersShrink(routes[1..], id); }
  }

  lemma ReplacementIsNoLonger(routes: Document, intent: Intent)
    ensures |Replaced(routes, intent)| <= |routes| + 1
  {
    FiltersShrink(routes, intent.id);
  }

  /** Taking out the routes of one identity and then of another leaves the same,
      in the same order, either way; and does not touch the other's own routes. */
  lemma {:induction false} FiltersCommute(routes: Document, a: string, b: string)
    ensures Others(Others(routes, a), b) == Others(Others(routes, b), a)
    ensures a != b ==> Owners(Others(routes, a), b) == Owners(routes, b)
    decreases |routes|
  {
    if routes != [] {
      FiltersCommute(routes[1..], a, b);
      FiltersSplit(if Owned(routes[0], a) then [] else [routes[0]], Others(routes[1..], a), b);
      FiltersSplit(if Owned(routes[0], b) then [] else [routes[0]], Others(routes[1..], b), a);
    }
  }

  lemma OneManaged(intent: Intent, id: string)
    ensures Owners([ManagedRoute(intent)], id) == (if id == intent.id then [ManagedRoute(intent)] else [])
    ensures Others([ManagedRoute(intent)], id) == (if id == intent.id then [] else [ManagedRoute(intent)])
  {
    ManagedRouteReadsBack(intent);
    assert [ManagedRoute(intent)][1..] == [];
    assert Owned(ManagedRoute(intent), id) <==> id == intent.id;
  }

  /** A replacement leaves one requested route or none, keeps all others in order,
      and settles the intent, so that asking again sends nothing. */
  lemma ReplacementSettles(routes: Document, intent: Intent)
    ensures Owners(Replaced(routes, intent), intent.id) == (if intent.present then [ManagedRoute(intent)] else [])
    ensures Others(Replaced(routes, intent), intent.id) == Others(routes, intent.id)
    ensures Settled(Replaced(routes, intent), intent)
    ensures Replaced(Replaced(routes, intent), intent) == Replaced(routes, intent)
  {
    OthersAreNotOwned(routes, intent.id);
    FiltersSplit(Others(routes, intent.id), if intent.present then [ManagedRoute(intent)] else [], intent.id);
    OneManaged(intent, intent.id);
    ManagedRouteReadsBack(intent);
  }

  /** What another identity reads is the same before and after. */
  lemma ReplacementIsInvisibleToOthers(routes: Document, intent: Intent, id: string, hostname: string)
    requires id != intent.id
    ensures Owners(Replaced(routes, intent), id) == Owners(routes, id)
    ensures CurrentRoute(Replaced(routes, intent), id, hostname) == CurrentRoute(routes, id, hostname)
  {
    FiltersCommute(routes, intent.id, id);
    FiltersSplit(Others(routes, intent.id), if intent.present then [ManagedRoute(intent)] else [], id);
    OneManaged(intent, id);
  }

  /** Restoring the route that was read before makes it read the same again,
      whatever the document has become in between. */
  lemma RestoringReadsBack(before: Document, now: Document, id: string, hostname: string)
    requires CurrentRoute(before, id, hostname).Some?
    ensures var previous := CurrentRoute(before, id, hostname).value;
            var intent := Intent(id, hostname, if previous.Some? then previous.value else "", previous.Some?);
            CurrentRoute(Replaced(now, intent), id, hostname) == Some(previous)
  {
    var previous := CurrentRoute(before, id, hostname).value;
    var intent := Intent(id, hostname, if previous.Some? then previous.value else "", previous.Some?);
    ReplacementSettles(now, intent);
    ManagedRouteReadsBack(intent);
  }

  function Published(intent: Intent): Document { if intent.present then [ManagedRoute(intent)] else [] }

  lemma CommutedShape(routes: Document, a: Intent, b: Intent)
    requires a.id != b.id
    ensures Replaced(Replaced(routes, a), b) == Others(Others(routes, a.id), b.id) + Published(a) + Published(b)
  {
    FiltersSplit(Others(routes, a.id), Published(a), b.id);
    OneManaged(a, b.id);
  }

  lemma OwnersOfShape(rest: Document, a: Intent, b: Intent, id: string)
    requires a.id != b.id
    ensures Owners(rest + Published(a) + Published(b), id)
            == Owners(rest, id) + (if id == a.id then Published(a) else if id == b.id then Published(b) else [])
  {
    FiltersSplit(rest + Published(a), Published(b), id);
    FiltersSplit(rest, Published(a), id);
    OneManaged(a, id);
    OneManaged(b, id);
  }

  lemma OthersOfShape(rest: Document, a: Intent, b: Intent)
    requires a.id != b.id
    ensures var routes := rest + Published(a) + Published(b);
            && Others(Others(routes, a.id), b.id) == Others(Others(rest, a.id), b.id)
            && Others(Others(routes, b.id), a.id) == Others(Others(rest, a.id), b.id)
  {
    var routes := rest + Published(a) + Published(b);
    FiltersSplit(rest + Published(a), Published(b), a.id);
    FiltersSplit(rest, Published(a), a.id);
    OneManaged(a, a.id);
    OneManaged(b, a.id);
    OneManaged(b, b.id);
    assert Others(routes, a.id) == Others(rest, a.id) + Published(b);
    FiltersSplit(Others(rest, a.id), Published(b), b.id);
    FiltersCommute(routes, a.id, b.id);
  }

  /** The other order, with the two own routes swapped. */
  lemma BothShapes(routes: Document, a: Intent, b: Intent)
    requires a.id != b.id
    ensures var rest := Others(Others(routes, a.id), b.id);
            && Replaced(Replaced(routes, a), b) == rest + Published(a) + Published(b)
            && Replaced(Replaced(routes, b), a) == rest + Published(b) + Published(a)
  {
    CommutedShape(routes, a, b);
    CommutedShape(routes, b, a);
    FiltersCommute(routes, a.id, b.id);
  }

  /** Reconciliations of two identities commute up to the place of their own two
      routes: everything else keeps its order. */
  lemma ReplacementsCommute(routes: Document, a: Intent, b: Intent)
    requires a.id != b.id
    ensures var ab := Replaced(Replaced(routes, a), b);
            var ba := Replaced(Replaced(routes, b), a);
            && multiset(ab) == multiset(ba)
            && Others(Others(ab, a.id), b.id) == Others(Others(ba, a.id), b.id)
  {
    BothShapes(routes, a, b);
    OthersOfShape(Others(Others(routes, a.id), b.id), a, b);
    OthersOfShape(Others(Others(routes, a.id), b.id), b, a);
    FiltersCommute(Others(Others(routes, a.id), b.id), a.id, b.id);
  }

  /** And every identity reads the same in either order. */
  lemma ReplacementsCommuteForReaders(routes: Document, a: Intent, b: Intent, id: string, hostname: string)
    requires a.id != b.id
    ensures CurrentRoute(Replaced(Replaced(routes, a), b), id, hostname)
            == CurrentRoute(Replaced(Replaced(routes, b), a), id, hostname)
  {
    BothShapes(routes, a, b);
    OwnersOfShape(Others(Others(routes, a.id), b.id), a, b, id);
    OwnersOfShape(Others(Others(routes, a.id), b.id), b, a, id);
  }

  // ----- the client -----

  /** One accepted write of the routes document. */
  datatype Write = Write(own: bool, document: Document)

  /** The document after the first `n` writes. */
  function AfterWrites(origin: Document, history: seq<Write>, n: nat): Document
    requires n <= |history|
  {
    if n == 0 then origin else history[n - 1].document
  }

  /** The writes from `from` up to `end` are those of others. */
  predicate OthersWrote(history: seq<Write>, from: nat, end: nat)
    requires end <= |history|
  {
    forall k | from <= k < end :: !history[k].own
  }

  /** From `from` on there is just one write of this client: it made `after` from `before`. */
  ghost predicate WroteOnce(origin: Document, history: seq<Write>, from: nat, before: Document, after: Document) {
    exists k: nat | from <= k < |history| ::
      && history[k] == Write(true, after) && AfterWrites(origin, history, k) == before
      && OthersWrote(history, from, k) && OthersWrote(history, k + 1, |history|)
  }

  /** From `from` on there is at most one write of this client, and it was the right one:
      made from a document in which there was something to do, and no conflict. */
  ghost predicate WroteRightly(origin: Document, history: seq<Write>, from: nat, intent: Intent) {
    || OthersWrote(history, from, |history|)
    || exists before :: WroteOnce(origin, history, from, before, Replaced(before, intent))
                        && !Settled(before, intent) && !Conflicts(before, intent)
  }

  /** The same since an earlier moment, if only others wrote in between. */
  lemma RightlySince(origin: Document, history: seq<Write>, from: nat, later: nat, intent: Intent)
    requires from <= later <= |history| && OthersWrote(history, from, later)
    requires WroteRightly(origin, history, later, intent)
    ensures WroteRightly(origin, history, from, intent)
  {
    if !OthersWrote(history, later, |history|) {
      var before :| WroteOnce(origin, history, later, before, Replaced(before, intent))
                    && !Settled(before, intent) && !Conflicts(before, intent);
      var k: nat :| later <= k < |history|
                    && history[k] == Write(true, Replaced(before, intent)) && AfterWrites(origin, history, k) == before
                    && OthersWrote(history, later, k) && OthersWrote(history, k + 1, |history|);
      assert OthersWrote(history, from, k);
      assert WroteOnce(origin, history, from, before, Replaced(before, intent));
    }
  }

  /** What happens around one request: how it ends, and what other clients make of
      the document before it arrives. */
  datatype Turn = Turn(fate: Fate, edits: seq<Document>)

  datatype Reply = Accepted | PreconditionFailed | Broken | Gone

  // ----- what the others do, round by round -----

  /** The turn of call `i`; when the turns are used up, nobody interferes any more. */
  function TurnAt(turns: seq<Turn>, i: nat): Turn {
    if i < |turns| then turns[i] else Turn(Done, [])
  }

  /** The document once the others have edited it. */
  function Met(routes: Document, turn: Turn): Document {
    if turn.edits == [] then routes else turn.edits[|turn.edits| - 1]
  }

  /** A round that reads the document, has to replace it, and finds it changed. */
  predicate Raced(intent: Intent, before: Document, read: Turn, write: Turn) {
    var seen := Met(before, read);
    && read.fate.Done? && |seen| <= MAX_ROUTE_COUNT && !Conflicts(seen, intent) && !Settled(seen, intent)
    && write.fate.Done? && Met(seen, write) != seen
  }

  /** A round whose calls succeed, and in which nobody edits once it has read. */
  predicate Quiet(intent: Intent, before: Document, read: Turn, write: Turn, verify: Turn) {
    var seen := Met(before, read);
    && read.fate.Done? && |seen| < MAX_ROUTE_COUNT && !Conflicts(seen, intent)
    && write == verify == Turn(Done, [])
  }

  /** The document before round `r`, if all rounds before it were races. */
  function Before(routes: Document, turns: seq<Turn>, from: nat, r: nat): Document {
    if r == 0 then routes
    else Met(Met(Before(routes, turns, from, r - 1), TurnAt(turns, from + 2 * r - 2)), TurnAt(turns, from + 2 * r - 1))
  }

  predicate RacedAt(intent: Intent, routes: Document, turns: seq<Turn>, from: nat, r: nat) {
    Raced(intent, Before(routes, turns, from, r), TurnAt(turns, from + 2 * r), TurnAt(turns, from + 2 * r + 1))
  }

  predicate QuietAt(intent: Intent, routes: Document, turns: seq<Turn>, from: nat, r: nat) {
    Quiet(intent, Before(routes, turns, from, r), TurnAt(turns, from + 2 * r), TurnAt(turns, from + 2 * r + 1),
          TurnAt(turns, from + 2 * r + 2))
  }

  /** The Caddy admin API and its client. The ETag of a document is a digest of its
      content; digests are taken to be injective. */
  class CaddyAdminClient {
    var routes: Document
    const turns: seq<Turn>
    var sent: nat                  // how many requests have been made
    ghost const origin: Document
    ghost var history: seq<Write>  // every accepted write, by whomever

    /** The document after the first `n` writes. */
    ghost function At(n: nat): Document
      requires n <= |history|
      reads this
    {
      AfterWrites(origin, history, n)
    }

    ghost predicate Valid()
      reads this
    {
      routes == At(|history|)
    }

    /** The history goes on from where it was. */
    twostate predicate Continues()
      reads this
    {
      old(history) <= history && Valid()
    }

    /** The history goes on, and so far without a write of this client. */
    twostate predicate OnlyOthersWrite()
      reads this
    {
      Continues() && OthersWrote(history, |old(history)|, |history|)
    }

    /** Left alone, nothing happened. */
    twostate predicate Untouched()
      reads this
    {
      |turns| <= old(sent) ==> routes == old(routes) && history == old(history)
    }

    method Store(own: bool, document: Document)
      requires Valid()
      modifies `routes, `history
      ensures Continues() && routes == document && history == old(history) + [Write(own, document)]
    {
      history := history + [Write(own, document)];
      routes := document;
    }

    /** Other clients edit the document, then the request arrives. */
    method Arrive() returns (fate: Fate)
      requires Valid()
      modifies this
      ensures OnlyOthersWrite() && Untouched()
      ensures fate == TurnAt(turns, old(sent)).fate && sent == old(sent) + 1
      ensures routes == Met(old(routes), TurnAt(turns, old(sent)))
    {
      sent := sent + 1;
      if sent > |turns| { return Done; }
      fate := turns[sent - 1].fate;
      var edits := turns[sent - 1].edits;
      for i := 0 to |edits|
        invariant OnlyOthersWrite() && sent == old(sent) + 1
        invariant routes == if i == 0 then old(routes) else edits[i - 1]
      {
        Store(false, edits[i]);
      }
    }

    method ReadRoutes() returns (exit: Exit, seen: Document)
      requires Valid()
      modifies this
      ensures OnlyOthersWrite() && Untouched()
      ensures seen == routes == Met(old(routes), TurnAt(turns, old(sent))) && sent == old(sent) + 1
      ensures exit.Returned? <==> TurnAt(turns, old(sent)).fate.Done? && |routes| <= MAX_ROUTE_COUNT
    {
      var fate := Arrive();
      seen := routes;
      exit := if fate.Killed? then Died
              else if !fate.Done? || |routes| > MAX_ROUTE_COUNT then Threw else Returned;
    }

    twostate predicate OneWrite(before: Document, after: Document)
      reads this
    {
      Continues() && WroteOnce(origin, history, |old(history)|, before, after)
    }

    twostate predicate OneRightWrite(intent: Intent)
      reads this
    {
      Continues() && WroteRightly(origin, history, |old(history)|, intent)
    }

    /** PATCH with If-Match: the document is replaced if it is still the one that was read. */
    method Patch(etag: Document, next: Document) returns (reply: Reply)
      requires Valid()
      modifies this
      ensures Continues()
      ensures OnlyOthersWrite() || OneWrite(etag, next)
      ensures reply.Accepted? ==> routes == next
      ensures reply.PreconditionFailed? ==> OnlyOthersWrite()
      ensures sent == old(sent) + 1
      ensures var met, fate := Met(old(routes), TurnAt(turns, old(sent))), TurnAt(turns, old(sent)).fate;
              && (reply.Accepted? <==> met == etag && fate.Done?)
              && (reply.PreconditionFailed? <==> met != etag && fate.Done?)
              && (met != etag ==> routes == met)
    {
      var fate := Arrive();
      if fate.Killed? { return Gone; }
      if fate.Refused? { return Broken; }
      if routes != etag { return if fate.Done? then PreconditionFailed else Broken; }
      ghost var k := |history|;
      Store(true, next);
      assert history[k] == Write(true, next) && AfterWrites(origin, history, k) == etag;
      return if fate.Done? then Accepted else Broken;
    }

    /** After a write was sent: reads the document once more. */
    method Verify(intent: Intent, reply: Reply) returns (exit: Exit)
      requires Valid() && !reply.PreconditionFailed? && (reply.Accepted? ==> Settled(routes, intent))
      modifies this
      ensures OnlyOthersWrite() && Untouched()
      ensures exit.Returned? ==> reply.Accepted?
      ensures reply.Accepted? && TurnAt(turns, old(sent)) == Turn(Done, []) && |old(routes)| <= MAX_ROUTE_COUNT ==>
                exit.Returned? && routes == old(routes)
    {
      if !reply.Accepted? { return if reply.Gone? then Died else Threw; }
      var verified;
      exit, verified := ReadRoutes();
      if !exit.Returned? { return; }
      var final := Owners(verified, intent.id);
      if intent.present {
        if final == [] || RouteHostname(final[0]) != Some(intent.hostname) { return Threw; }
      } else if final != [] {
        return Threw;
      }
      return Returned;
    }

    /** Replaces the document that was read, and looks at the outcome. */
    method Replace(intent: Intent, current: Document) returns (answer: Option<Exit>)
      requires Valid() && !Settled(current, intent) && !Conflicts(current, intent)
      modifies this
      ensures if answer.None? then OnlyOthersWrite() else OneRightWrite(intent)
      ensures answer == Some(Returned) ==>
                exists n: nat :: |old(history)| <= n <= |history| && Settled(At(n), intent)
      ensures var met := Met(old(routes), TurnAt(turns, old(sent)));
              && (answer.None? <==> TurnAt(turns, old(sent)).fate.Done? && met != current)
              && (answer.None? ==> sent == old(sent) + 1 && routes == met)
      ensures TurnAt(turns, old(sent)) == TurnAt(turns, old(sent) + 1) == Turn(Done, [])
              && old(routes) == current && |current| < MAX_ROUTE_COUNT ==>
                answer == Some(Returned) && routes == Replaced(current, intent) && Settled(routes, intent)
    {
      var next := Replaced(current, intent);
      ReplacementSettles(current, intent);
      ReplacementIsNoLonger(current, intent);
      var reply := Patch(current, next);
      if reply.PreconditionFailed? { return None; }
      ghost var written := |history|;
      var exit := Verify(intent, reply);
      assert exit.Returned? ==> At(written) == next;
      return Some(exit);
    }

    /** One round: read, compare, replace, verify. No answer means that the document
        had changed in between. */
    method Attempt(intent: Intent) returns (answer: Option<Exit>)
      requires Valid()
      modifies this
      ensures if answer.None? then OnlyOthersWrite() else OneRightWrite(intent)
      ensures answer == Some(Returned) ==>
                exists n: nat :: |old(history)| <= n <= |history| && Settled(At(n), intent)
      ensures var read, write := TurnAt(turns, old(sent)), TurnAt(turns, old(sent) + 1);
              && (answer.None? <==> Raced(intent, old(routes), read, write))
              && (answer.None? ==> sent == old(sent) + 2 && routes == Met(Met(old(routes), read), write))
              && (Quiet(intent, old(routes), read, write, TurnAt(turns, old(sent) + 2)) ==>
                    answer == Some(Returned) && Settled(routes, intent))
      ensures |turns| <= old(sent) && |old(routes)| < MAX_ROUTE_COUNT ==>
                if Conflicts(old(routes), intent) then answer == Some(Threw) && routes == old(routes)
                else && answer == Some(Returned)
                     && routes == if Settled(old(routes), intent) then old(routes)
                                  else Replaced(old(routes), intent)
    {
      var exit, current := ReadRoutes();
      if !exit.Returned? { return Some(exit); }
      if Conflicts(current, intent) { return Some(Threw); }
      if Settled(current, intent) {
        assert At(|history|) == current;
        return Some(Returned);
      }
      answer := Replace(intent, current);
    }

    /** Brings the routes of one identity to what the intent asks for. At most one
        write of its own, made from the document version it matched; it returns only
        if the intent was settled at some moment of the call. Its first rounds may be
        races; it gives up exactly after five, and returns if the first round that is
        no race is quiet. Left alone it does what it is asked for, or refuses an
        identity bound to another hostname. */
    method ReconcileRoute(intent: Intent) returns (exit: Exit, ghost races: nat)
      requires Valid()
      modifies this
      ensures OneRightWrite(intent)
      ensures exit.Returned? ==>
                exists n: nat :: |old(history)| <= n <= |history| && Settled(At(n), intent)
      ensures races <= MAX_RECONCILE_ATTEMPTS
      ensures forall r: nat | r < races :: RacedAt(intent, old(routes), turns, old(sent), r)
      ensures if races == MAX_RECONCILE_ATTEMPTS then exit.Threw?
              else && !RacedAt(intent, old(routes), turns, old(sent), races)
                   && (QuietAt(intent, old(routes), turns, old(sent), races) ==>
                         exit.Returned? && Settled(routes, intent))
      ensures |turns| <= old(sent) && |old(routes)| < MAX_ROUTE_COUNT ==>
                if Conflicts(old(routes), intent) then exit.Threw? && routes == old(routes)
                else && exit.Returned?
                     && routes == if Settled(old(routes), intent) then old(routes)
                                  else Replaced(old(routes), intent)
    {
      ghost var before, from := routes, sent;
      var attempt := 0;
      while attempt < MAX_RECONCILE_ATTEMPTS
        invariant OnlyOthersWrite() && attempt <= MAX_RECONCILE_ATTEMPTS
        invariant attempt > 0 ==> !(|turns| <= from && |before| < MAX_ROUTE_COUNT)
        invariant sent == from + 2 * attempt && routes == Before(before, turns, from, attempt)
        invariant forall i: nat | i < attempt :: RacedAt(intent, before, turns, from, i)
      {
        ghost var begun := |history|;
        var answer := Attempt(intent);
        RightlySince(origin, history, |old(history)|, begun, intent);
        assert answer.None? <==> RacedAt(intent, before, turns, from, attempt);
        if answer.Some? { return answer.value, attempt; }
        attempt := attempt + 1;
      }
      return Threw, attempt;
    }
  }
}
