/**
 * The component router of index.js: three tables of (prefix, handler)
 * routes, each kept sorted by descending prefix length with a stable sort,
 * and scanned front to back for the first prefix that starts a custom id.
 */
module Router {
  import opened Js
  import opened Discord

  datatype Route = Route(prefix: string, handler: Handler)

  predicate Matches(r: Route, id: string) {
    StartsWith(id, r.prefix)
  }

  /** The routes registerComponentMap takes from one exported map, in enumeration order. */
  function Accepted(exported: Export): seq<Route> {
    if exported.Entries? then AcceptedEntries(exported.entries) else []
  }

  /** Entries whose key is non-empty and whose value is a function. */
  function AcceptedEntries(es: seq<(string, Exported)>): (rs: seq<Route>)
  {
    if es == [] then []
    else
      var rest := AcceptedEntries(es[1..]);
      if es[0].0 != "" && es[0].1.Function? then [Route(es[0].0, es[0].1.handler)] + rest else rest
  }

  lemma {:induction false} AcceptedEntriesSound(es: seq<(string, Exported)>)
    ensures forall r :: r in AcceptedEntries(es) <==> r.prefix != "" && (r.prefix, Function(r.handler)) in es
  {
    if es != [] {
      AcceptedEntriesSound(es[1..]);
      assert forall e :: e in es <==> e == es[0] || e in es[1..];
    }
  }

  /**
   * registerComponentMap accepts exactly the entries of an object export
   * whose key is non-empty and whose value is a function; a non-object
   * export contributes nothing.
   */
  lemma AcceptedSound(exported: Export)
    ensures forall r :: r in Accepted(exported) <==>
              exported.Entries? && r.prefix != "" && (r.prefix, Function(r.handler)) in exported.entries
  {
    if exported.Entries? {
      AcceptedEntriesSound(exported.entries);
    }
  }

  /** Non-increasing prefix lengths. */
  ghost predicate SortedByLength(t: seq<Route>) {
    forall i, j :: 0 <= i < j < |t| ==> |t[i].prefix| >= |t[j].prefix|
  }

  /** Inserts `x` after every route at least as long: stable for equal lengths. */
  function Insert(t: seq<Route>, x: Route): seq<Route> {
    if t == [] then [x]
    else if |t[0].prefix| >= |x.prefix| then [t[0]] + Insert(t[1..], x)
    else [x] + t
  }

  /** Inserting keeps every route of the table and adds exactly `x`. */
  lemma {:induction false} InsertPermutes(t: seq<Route>, x: Route)
    ensures multiset(Insert(t, x)) == multiset(t) + multiset{x}
    ensures |Insert(t, x)| == |t| + 1
  {
    if t != [] {
      assert t == [t[0]] + t[1..];
      if |t[0].prefix| >= |x.prefix| {
        InsertPermutes(t[1..], x);
      }
    }
  }

  /**
   * `routerArr.sort((a, b) => b[0].length - a[0].length)`: a stable sort by
   * descending prefix length (Array.prototype.sort is stable).
   */
  function SortByLength(s: seq<Route>): seq<Route> {
    if s == [] then [] else Insert(SortByLength(s[..|s| - 1]), s[|s| - 1])
  }

  /** The sorted table holds exactly the registered routes, longest prefixes first. */
  lemma {:induction false} SortByLengthSorts(s: seq<Route>)
    ensures multiset(SortByLength(s)) == multiset(s)
    ensures SortedByLength(SortByLength(s))
  {
    if s != [] {
      var n := |s| - 1;
      SortByLengthSorts(s[..n]);
      InsertKeepsSorted(SortByLength(s[..n]), s[n]);
      InsertPermutes(SortByLength(s[..n]), s[n]);
      assert s == s[..n] + [s[n]];
    }
  }

  lemma {:induction false} InsertKeepsSorted(t: seq<Route>, x: Route)
    requires SortedByLength(t)
    ensures SortedByLength(Insert(t, x))
  {
    if t != [] && |t[0].prefix| >= |x.prefix| {
      InsertKeepsSorted(t[1..], x);
      InsertPermutes(t[1..], x);
      var r := Insert(t, x);
      forall j | 1 <= j < |r| ensures |r[0].prefix| >= |r[j].prefix| {
        assert r[j] in multiset(Insert(t[1..], x));
        assert r[j] in multiset(t[1..]) + multiset{x};
        if r[j] in t[1..] {
          var k :| 0 <= k < |t[1..]| && t[1..][k] == r[j];
          assert t[k + 1] == r[j];
        }
      }
    } else if t != [] {
      var r := Insert(t, x);
      forall j | 1 <= j < |r| ensures |r[0].prefix| >= |r[j].prefix| {
        assert r[j] == t[j - 1];
      }
    }
  }

  /** The first route of `t` whose prefix starts `id`: what the routing loop invokes. */
  function Scan(t: seq<Route>, id: string): (r: Option<Route>)
    ensures r.Some? ==> r.value in t && Matches(r.value, id)
    ensures r.None? <==> forall i :: 0 <= i < |t| ==> !Matches(t[i], id)
  {
    if t == [] then None
    else if Matches(t[0], id) then Some(t[0])
    else
      var r := Scan(t[1..], id);
      assert forall i :: 1 <= i < |t| ==> t[i] == t[1..][i - 1];
      r
  }

  /**
   * The reference rule over routes in registration order: the index of the
   * earliest-registered route among the longest prefixes that start `id`.
   */
  function Best(s: seq<Route>, id: string): (b: Option<nat>)
    ensures b.None? <==> forall i :: 0 <= i < |s| ==> !Matches(s[i], id)
    ensures b.Some? ==> b.value < |s| && Matches(s[b.value], id)
    ensures b.Some? ==> forall j :: 0 <= j < |s| && Matches(s[j], id) ==> |s[j].prefix| <= |s[b.value].prefix|
    ensures b.Some? ==> forall j :: 0 <= j < b.value && Matches(s[j], id) ==> |s[j].prefix| < |s[b.value].prefix|
  {
    if s == [] then None
    else
      var n := |s| - 1;
      var b := Best(s[..n], id);
      assert forall j :: 0 <= j < n ==> s[..n][j] == s[j];
      if Matches(s[n], id) && (b.None? || |s[b.value].prefix| < |s[n].prefix|) then Some(n) else b
  }

  function BestRoute(s: seq<Route>, id: string): Option<Route> {
    var b := Best(s, id);
    if b.Some? then Some(s[b.value]) else None
  }

  /** Scanning a sorted table after inserting `x` finds `x` exactly when it matches and is longer than what was found. */
  lemma {:induction false} ScanInsert(t: seq<Route>, x: Route, id: string)
    requires SortedByLength(t)
    ensures Scan(Insert(t, x), id) ==
              if Matches(x, id) && (Scan(t, id).None? || |Scan(t, id).value.prefix| < |x.prefix|)
              then Some(x) else Scan(t, id)
  {
    if t == [] {
    } else if |t[0].prefix| >= |x.prefix| {
      assert Insert(t, x) == [t[0]] + Insert(t[1..], x);
      if !Matches(t[0], id) {
        ScanInsert(t[1..], x, id);
      }
    } else {
      assert Insert(t, x) == [x] + t;
      if Scan(t, id).Some? {
        var k :| 0 <= k < |t| && t[k] == Scan(t, id).value;
        assert |t[k].prefix| <= |t[0].prefix|;
      }
    }
  }

  /**
   * The routing loop over a table built by stable sorting picks the route
   * the reference rule picks: the longest matching prefix, and among equal
   * lengths the one registered first.
   */
  lemma {:induction false} RouteIsLongestEarliest(s: seq<Route>, id: string)
    ensures Scan(SortByLength(s), id) == BestRoute(s, id)
  {
    if s != [] {
      var n := |s| - 1;
      var t := SortByLength(s[..n]);
      assert SortByLength(s) == Insert(t, s[n]);
      SortByLengthSorts(s[..n]);
      RouteIsLongestEarliest(s[..n], id);
      ScanInsert(t, s[n], id);
      var b := Best(s[..n], id);
      assert Best(s, id) == if Matches(s[n], id) && (b.None? || |s[b.value].prefix| < |s[n].prefix|) then Some(n) else b;
      if b.Some? {
        assert s[..n][b.value] == s[b.value];
      }
    }
  }

  /** Among the matching routes, none has a longer prefix than the one the loop picks. */
  lemma LongestMatchWins(s: seq<Route>, id: string, other: Route)
    requires other in s && Matches(other, id)
    ensures Scan(SortByLength(s), id).Some?
    ensures |other.prefix| <= |Scan(SortByLength(s), id).value.prefix|
  {
    RouteIsLongestEarliest(s, id);
    var i :| 0 <= i < |s| && s[i] == other;
  }

  /** All routes sort after those at least as long: inserting at the end. */
  lemma {:induction false} InsertShortest(t: seq<Route>, x: Route)
    requires forall i :: 0 <= i < |t| ==> |t[i].prefix| >= |x.prefix|
    ensures Insert(t, x) == t + [x]
  {
    if t != [] {
      InsertShortest(t[1..], x);
      assert t == [t[0]] + t[1..];
    }
  }

  lemma {:induction false} SortSorted(t: seq<Route>)
    requires SortedByLength(t)
    ensures SortByLength(t) == t
  {
    if t != [] {
      var n := |t| - 1;
      SortSorted(t[..n]);
      InsertShortest(t[..n], t[n]);
      assert t[..n] + [t[n]] == t;
    }
  }

  /**
   * Re-sorting a sorted table after appending routes is the same as sorting
   * every route in registration order: the table never depends on how
   * registrations were batched.
   */
  lemma {:induction false} SortAppend(s: seq<Route>, more: seq<Route>)
    ensures SortByLength(SortByLength(s) + more) == SortByLength(s + more)
  {
    if more == [] {
      assert SortByLength(s) + more == SortByLength(s);
      assert s + more == s;
      SortByLengthSorts(s);
      SortSorted(SortByLength(s));
    } else {
      var m := |more| - 1;
      var x := more[m];
      var a := SortByLength(s) + more[..m];
      var b := s + more[..m];
      SortAppend(s, more[..m]);
      assert more == more[..m] + [x];
      assert SortByLength(s) + more == a + [x];
      assert s + more == b + [x];
      assert (a + [x])[..|a|] == a;
      assert (b + [x])[..|b|] == b;
      assert SortByLength(a + [x]) == Insert(SortByLength(a), x);
      assert SortByLength(b + [x]) == Insert(SortByLength(b), x);
    }
  }

  /** The loop of the InteractionCreate listener: the first route whose prefix starts `id`. */
  method FindRoute(table: seq<Route>, id: string) returns (r: Option<Route>)
    ensures r == Scan(table, id)
  {
    var i := 0;
    while i < |table|
      invariant 0 <= i <= |table|
      invariant Scan(table, id) == Scan(table[i..], id)
    {
      assert table[i..] == [table[i]] + table[i + 1..];
      if StartsWith(id, table[i].prefix) {
        return Some(table[i]);
      }
      i := i + 1;
    }
    return None;
  }

  /**
   * registerComponentMap: pushes every accepted route of `exported` onto the
   * table, then sorts it. A non-object export leaves the table as it is.
   */
  method RegisterComponentMap(table: seq<Route>, exported: Export) returns (t: seq<Route>)
    ensures exported.NotAnObject? ==> t == table
    ensures exported.Entries? ==> t == SortByLength(table + Accepted(exported))
  {
    if exported.NotAnObject? {
      return table;
    }
    var es := exported.entries;
    var pushed := table;
    var i := 0;
    while i < |es|
      invariant 0 <= i <= |es|
      invariant pushed + AcceptedEntries(es[i..]) == table + AcceptedEntries(es)
    {
      var (prefix, value) := es[i];
      assert es[i..][1..] == es[i + 1..];
      if value.Function? && prefix != "" {
        assert AcceptedEntries(es[i..]) == [Route(prefix, value.handler)] + AcceptedEntries(es[i + 1..]);
        pushed := pushed + [Route(prefix, value.handler)];
      } else {
        assert AcceptedEntries(es[i..]) == AcceptedEntries(es[i + 1..]);
      }
      i := i + 1;
    }
    assert es[i..] == [];
    assert pushed == table + Accepted(exported);
    t := SortByLength(pushed);
  }
}
