/** The venue directory's search: a case-insensitive substring match on name
    or city, an optional exact state filter, the sorted distinct list of
    states offered in the drop-down, and the website link. The venue dataset
    is a parameter. */
module VenueDirectory {
  import opened Wrappers
  import opened Types
  import opened Text

  // ----- Filtering -----

  /** The lowercased term occurs in the lowercased name or the lowercased city. */
  predicate MatchesSearch(v: Venue, term: string) {
    Includes(Lower(v.venue), Lower(term)) || Includes(Lower(v.city), Lower(term))
  }

  /** An empty selection accepts every state; otherwise the state must be equal. */
  predicate MatchesState(v: Venue, selected: string) {
    if selected != "" then v.state == selected else true
  }

  predicate Keep(v: Venue, term: string, selected: string) {
    MatchesSearch(v, term) && MatchesState(v, selected)
  }

  /** `venues.filter(...)`: the venues shown for a search term and a selected state. */
  function FilterVenues(vs: seq<Venue>, term: string, selected: string): (r: seq<Venue>)
    ensures |r| <= |vs|
    ensures forall v :: v in r <==> v in vs && Keep(v, term, selected)
  {
    if vs == [] then []
    else if Keep(vs[0], term, selected) then [vs[0]] + FilterVenues(vs[1..], term, selected)
    else FilterVenues(vs[1..], term, selected)
  }

  /** Each kept venue appears as often as in the dataset, and no other venue
      appears: with `FilterIsSubsequence`, this fixes the shown list. */
  lemma {:induction false} FilterCounts(vs: seq<Venue>, term: string, selected: string)
    ensures forall v :: multiset(FilterVenues(vs, term, selected))[v] ==
                          if Keep(v, term, selected) then multiset(vs)[v] else 0
  {
    if vs != [] {
      FilterCounts(vs[1..], term, selected);
      assert vs == [vs[0]] + vs[1..];
      assert multiset(vs) == multiset{vs[0]} + multiset(vs[1..]);
    }
  }

  /** `a` is `b` with some entries left out, the others in their order. */
  predicate IsSubsequence<T(==)>(a: seq<T>, b: seq<T>) {
    if a == [] then true
    else if b == [] then false
    else (a[0] == b[0] && IsSubsequence(a[1..], b[1..])) || IsSubsequence(a, b[1..])
  }

  /** The filtered list keeps the venues in the order of the dataset. */
  lemma {:induction false} FilterIsSubsequence(vs: seq<Venue>, term: string, selected: string)
    ensures IsSubsequence(FilterVenues(vs, term, selected), vs)
  {
    if vs != [] {
      FilterIsSubsequence(vs[1..], term, selected);
      var rest := FilterVenues(vs[1..], term, selected);
      if Keep(vs[0], term, selected) {
        assert FilterVenues(vs, term, selected) == [vs[0]] + rest;
        assert ([vs[0]] + rest)[1..] == rest;
      } else if rest != [] {
        assert FilterVenues(vs, term, selected) == rest;
      }
    }
  }

  /** With no search term and no selected state every venue is shown. */
  lemma {:induction false} FilterKeepsAll(vs: seq<Venue>)
    ensures FilterVenues(vs, "", "") == vs
  {
    if vs != [] {
      IncludesEmpty(Lower(vs[0].venue));
      assert Lower("") == "";
      FilterKeepsAll(vs[1..]);
    }
  }

  /** Selecting a state keeps a subsequence of what the term alone keeps. */
  lemma {:induction false} StateNarrows(vs: seq<Venue>, term: string, selected: string)
    ensures IsSubsequence(FilterVenues(vs, term, selected), FilterVenues(vs, term, ""))
  {
    if vs != [] {
      StateNarrows(vs[1..], term, selected);
      var narrow := FilterVenues(vs[1..], term, selected);
      var wide := FilterVenues(vs[1..], term, "");
      if Keep(vs[0], term, selected) {
        assert Keep(vs[0], term, "");
        assert ([vs[0]] + narrow)[1..] == narrow;
        assert ([vs[0]] + wide)[1..] == wide;
      } else if Keep(vs[0], term, "") {
        SubsequenceOfTail(narrow, vs[0], wide);
      }
    }
  }

  /** A subsequence of a tail is a subsequence of the whole list. */
  lemma {:induction false} SubsequenceOfTail<T>(a: seq<T>, x: T, b: seq<T>)
    requires IsSubsequence(a, b)
    ensures IsSubsequence(a, [x] + b)
  {
    assert ([x] + b)[1..] == b;
  }

  // ----- State options -----

  predicate StrictlySorted(s: seq<string>) {
    forall i, j :: 0 <= i < j < |s| ==> Less(s[i], s[j])
  }

  /** A strictly sorted list has no duplicates. */
  lemma SortedDistinct(s: seq<string>)
    requires StrictlySorted(s)
    ensures forall i, j :: 0 <= i < j < |s| ==> s[i] != s[j]
  {
    forall i, j | 0 <= i < j < |s| ensures s[i] != s[j] {
      LessIrreflexive(s[i]);
    }
  }

  /** Insert `x` into a strictly sorted list unless it is already there. */
  function Insert(x: string, s: seq<string>): (r: seq<string>)
    requires StrictlySorted(s)
    ensures StrictlySorted(r)
    ensures forall y :: y in r <==> y in s || y == x
  {
    if s == [] then [x]
    else if x == s[0] then s
    else if Less(x, s[0]) then
      var r := [x] + s;
      assert StrictlySorted(r) by {
        forall j | 0 <= j < |s| ensures Less(x, s[j]) {
          if j > 0 { LessTransitive(x, s[0], s[j]); }
        }
        forall i, j | 0 <= i < j < |r| ensures Less(r[i], r[j]) {
          assert r[j] == s[j - 1];
          if i > 0 { assert r[i] == s[i - 1]; }
        }
      }
      r
    else
      var rest := Insert(x, s[1..]);
      assert StrictlySorted([s[0]] + rest) by {
        LessTotal(x, s[0]);
        forall y | y in rest ensures Less(s[0], y) {
          if y != x {
            var k :| 0 <= k < |s[1..]| && s[1..][k] == y;
            assert s[k + 1] == y;
          }
        }
      }
      [s[0]] + rest
  }

  /** The set of `state` values of the dataset. */
  function StatesOf(vs: seq<Venue>): set<string> {
    set v | v in vs :: v.state
  }

  /** `Array.from(new Set(venues.map(v => v.state))).sort()`. */
  function StateOptions(vs: seq<Venue>): (r: seq<string>)
    ensures StrictlySorted(r)
    ensures forall s :: s in r <==> s in StatesOf(vs)
  {
    if vs == [] then []
    else
      var init := vs[..|vs| - 1];
      var r := Insert(vs[|vs| - 1].state, StateOptions(init));
      assert forall v :: v in vs <==> v in init || v == vs[|vs| - 1] by {
        assert vs == init + [vs[|vs| - 1]];
      }
      r
  }

  /** The options are pairwise distinct and in ascending order. */
  lemma StateOptionsDistinct(vs: seq<Venue>)
    ensures forall i, j :: 0 <= i < j < |StateOptions(vs)| ==>
              StateOptions(vs)[i] != StateOptions(vs)[j] && Less(StateOptions(vs)[i], StateOptions(vs)[j])
  {
    SortedDistinct(StateOptions(vs));
  }

  /** Any strictly sorted list of exactly these states is the option list:
      sorting the distinct states has one possible outcome. */
  lemma {:induction false} SortedSetUnique(a: seq<string>, b: seq<string>)
    requires StrictlySorted(a) && StrictlySorted(b)
    requires forall s :: s in a <==> s in b
    ensures a == b
  {
    if a != [] && b != [] {
      assert a[0] == b[0] by {
        assert a[0] in a && b[0] in b;
        var k :| 0 <= k < |b| && b[k] == a[0];
        var m :| 0 <= m < |a| && a[m] == b[0];
        assert k > 0 ==> Less(b[0], a[0]);
        assert m > 0 ==> Less(a[0], b[0]);
        LessAsymmetric(a[0], b[0]);
      }
      forall s ensures s in a[1..] <==> s in b[1..] {
        SortedTailMembers(a, s);
        SortedTailMembers(b, s);
      }
      SortedSetUnique(a[1..], b[1..]);
    } else {
      EmptyIffNoMembers(a);
      EmptyIffNoMembers(b);
    }
  }

  lemma EmptyIffNoMembers(a: seq<string>)
    ensures a == [] <==> forall s :: s !in a
  {
    if a != [] { assert a[0] in a; }
  }

  /** In a strictly sorted list, the tail holds every member but the head. */
  lemma SortedTailMembers(a: seq<string>, s: string)
    requires StrictlySorted(a) && a != []
    ensures s in a[1..] <==> s in a && s != a[0]
  {
    if s in a[1..] {
      var k :| 0 <= k < |a[1..]| && a[1..][k] == s;
      assert Less(a[0], a[k + 1]);
      LessIrreflexive(a[0]);
    }
    if s in a && s != a[0] {
      var k :| 0 <= k < |a| && a[k] == s;
      assert a[1..][k - 1] == s;
    }
  }

  // ----- The table -----

  /** The link target: a website already starting with "http" is used as it
      is; any other gets "http://" in front. */
  function WebsiteHref(website: string): (href: string)
    ensures StartsWith(href, "http")
    ensures StartsWith(website, "http") ==> href == website
    ensures !StartsWith(website, "http") ==> href == "http://" + website
  {
    if StartsWith(website, "http") then website else "http://" + website
  }

  /** The link is shown only for a non-empty website. */
  function WebsiteLink(v: Venue): (link: Option<string>)
    ensures link.Some? <==> v.website != ""
    ensures link.Some? ==> StartsWith(link.value, "http")
    ensures link.Some? ==> link.value == WebsiteHref(v.website)
  {
    if v.website != "" then Some(WebsiteHref(v.website)) else None
  }

  /** Normalising an already normalised link changes nothing. */
  lemma WebsiteHrefIdempotent(website: string)
    ensures WebsiteHref(WebsiteHref(website)) == WebsiteHref(website)
  {
  }

  datatype TableBody = VenueRows(rows: seq<Venue>) | NoVenuesFound

  /** What the page renders: the table body and the "Showing N venues" count. */
  datatype VenueView = VenueView(body: TableBody, shown: nat)

  function Render(vs: seq<Venue>, term: string, selected: string): (view: VenueView)
    ensures view.shown == |FilterVenues(vs, term, selected)|
    ensures view.body.NoVenuesFound? <==> forall v :: v in vs ==> !Keep(v, term, selected)
    ensures view.body.VenueRows? ==> view.body.rows == FilterVenues(vs, term, selected)
  {
    var filtered := FilterVenues(vs, term, selected);
    assert |filtered| > 0 ==> filtered[0] in filtered;
    if |filtered| > 0 then VenueView(VenueRows(filtered), |filtered|)
    else VenueView(NoVenuesFound, 0)
  }
}
