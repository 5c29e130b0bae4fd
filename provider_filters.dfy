/** The provider filter bar (src/components/ProviderFilters.tsx): the sorted
    list of distinct specialties, and the search, specialty and rating
    filters with their reset. */
module ProviderFilters {
  import opened Types
  import opened Text

  /** All specialties of `providers` in order of appearance, repeats kept. */
  function Flattened(providers: seq<ServiceProvider>): (r: seq<string>)
    ensures forall p, k :: 0 <= p < |providers| && 0 <= k < |providers[p].specialties| ==> providers[p].specialties[k] in r
  {
    if providers == [] then []
    else Flattened(providers[..|providers| - 1]) + providers[|providers| - 1].specialties
  }

  /** A text is among the flattened specialties exactly when some provider
      lists it. */
  lemma {:induction false} FlattenedSpec(providers: seq<ServiceProvider>, x: string)
    ensures x in Flattened(providers) <==>
            exists p, k :: 0 <= p < |providers| && 0 <= k < |providers[p].specialties| && providers[p].specialties[k] == x
    decreases |providers|
  {
    if providers != [] {
      var n := |providers| - 1;
      var init := providers[..n];
      FlattenedSpec(init, x);
      if x in providers[n].specialties {
        var k :| 0 <= k < |providers[n].specialties| && providers[n].specialties[k] == x;
        assert providers[n].specialties[k] == x;
      }
      if x in Flattened(init) {
        var p, k :| 0 <= p < |init| && 0 <= k < |init[p].specialties| && init[p].specialties[k] == x;
        assert providers[p] == init[p];
      }
      if exists p, k :: 0 <= p < |providers| && 0 <= k < |providers[p].specialties| && providers[p].specialties[k] == x {
        var p, k :| 0 <= p < |providers| && 0 <= k < |providers[p].specialties| && providers[p].specialties[k] == x;
        if p < n {
          assert init[p] == providers[p];
        } else {
          assert x in providers[n].specialties;
        }
      }
    }
  }

  predicate Distinct(s: seq<string>)
  {
    forall i, j :: 0 <= i < j < |s| ==> s[i] != s[j]
  }

  /** Ascending under the default `sort` order, with no repeats. */
  predicate StrictlySorted(s: seq<string>)
  {
    forall i, j :: 0 <= i < j < |s| ==> Less(s[i], s[j])
  }

  /** `x` put in its place in a strictly sorted list that lacks it. */
  function Insert(x: string, s: seq<string>): (r: seq<string>)
    requires StrictlySorted(s) && x !in s
    ensures StrictlySorted(r)
    ensures multiset(r) == multiset(s) + multiset{x}
  {
    if s == [] then [x]
    else if Less(x, s[0]) then
      assert forall j :: 0 < j < |s| ==> Less(s[0], s[j]);
      forall j | 0 < j < |s| ensures Less(x, s[j]) {
        LessTransitive(x, s[0], s[j]);
      }
      assert s == [s[0]] + s[1..];
      [x] + s
    else
      LessTotal(x, s[0]);
      var rest := Insert(x, s[1..]);
      var r := [s[0]] + rest;
      assert s == [s[0]] + s[1..];
      forall j | 0 <= j < |rest| ensures Less(s[0], rest[j]) {
        assert rest[j] in multiset(rest);
        if rest[j] != x {
          assert rest[j] in multiset(s[1..]);
          var k :| 0 <= k < |s[1..]| && s[1..][k] == rest[j];
          assert s[k + 1] == rest[j];
        }
      }
      r
  }

  /** `Array.from(set).sort()` for a list with no repeats. */
  function SortDistinct(s: seq<string>): (r: seq<string>)
    requires Distinct(s)
    ensures StrictlySorted(r)
    ensures multiset(r) == multiset(s)
  {
    if s == [] then []
    else
      var n := |s| - 1;
      var sorted := SortDistinct(s[..n]);
      assert s == s[..n] + [s[n]];
      assert s[n] !in s[..n];
      assert s[n] !in multiset(sorted);
      Insert(s[n], sorted)
  }

  /** Two strictly sorted lists with the same elements are the same list, so
      the specialty list does not depend on the order providers are listed in. */
  lemma {:induction false} StrictlySortedUnique(a: seq<string>, b: seq<string>)
    requires StrictlySorted(a) && StrictlySorted(b)
    requires forall x :: x in a <==> x in b
    ensures a == b
    decreases |a|
  {
    if a != [] {
      assert a[0] in b;
    }
    if b != [] {
      assert b[0] in a;
    }
    if a != [] && b != [] {
      assert a[0] == b[0] by {
        if a[0] != b[0] {
          LessTotal(a[0], b[0]);
          assert b[0] in a;
          assert a[0] in b;
          var i :| 0 <= i < |a| && a[i] == b[0];
          var j :| 0 <= j < |b| && b[j] == a[0];
          if Less(a[0], b[0]) {
            assert j > 0;
            LessAsymmetric(b[0], b[j]);
          }
        }
      }
      forall x ensures x in a[1..] <==> x in b[1..] {
        if x in a[1..] {
          var i :| 0 <= i < |a[1..]| && a[1..][i] == x;
          assert a[i + 1] == x;
          LessIrreflexive(a[0]);
          assert x != a[0];
          assert x in b;
          var j :| 0 <= j < |b| && b[j] == x;
          assert j != 0;
          assert b[1..][j - 1] == x;
        }
        if x in b[1..] {
          var j :| 0 <= j < |b[1..]| && b[1..][j] == x;
          assert b[j + 1] == x;
          LessIrreflexive(b[0]);
          assert x != b[0];
          assert x in a;
          var i :| 0 <= i < |a| && a[i] == x;
          assert i != 0;
          assert a[1..][i - 1] == x;
        }
      }
      StrictlySortedUnique(a[1..], b[1..]);
      assert a == [a[0]] + a[1..] && b == [b[0]] + b[1..];
    }
  }

  /** `getAllSpecialties`: every specialty of every provider, once each, in
      ascending order. */
  method GetAllSpecialties(providers: seq<ServiceProvider>) returns (r: seq<string>)
    ensures forall x :: x in r <==> x in Flattened(providers)
    ensures StrictlySorted(r)
  {
    var specialtiesSet: seq<string> := [];
    for i := 0 to |providers|
      invariant Distinct(specialtiesSet)
      invariant forall x :: x in specialtiesSet <==> x in Flattened(providers[..i])
    {
      var specialties := providers[i].specialties;
      assert providers[..i + 1][..i] == providers[..i];
      for j := 0 to |specialties|
        invariant Distinct(specialtiesSet)
        invariant forall x :: x in specialtiesSet <==> x in Flattened(providers[..i]) + specialties[..j]
      {
        assert specialties[..j + 1] == specialties[..j] + [specialties[j]];
        if specialties[j] !in specialtiesSet {
          specialtiesSet := specialtiesSet + [specialties[j]];
        }
      }
      assert specialties[..|specialties|] == specialties;
    }
    assert providers[..|providers|] == providers;
    r := SortDistinct(specialtiesSet);
    forall x ensures x in r <==> x in specialtiesSet {
      assert x in r <==> x in multiset(r);
    }
  }

  /** The filter bar's own state: search text, chosen specialty ("all" for
      none) and minimum rating. */
  class FilterBar {
    var searchQuery: string
    var specialty: string
    var rating: real

    constructor ()
      ensures searchQuery == "" && specialty == "all" && rating == 0.0
    {
      searchQuery, specialty, rating := "", "all", 0.0;
    }

    /** The reset button is shown while any filter differs from its start. */
    function ShowReset(): (r: bool)
      reads this
      ensures !r <==> searchQuery == "" && specialty == "all" && rating <= 0.0
    {
      searchQuery != "" || specialty != "all" || rating > 0.0
    }

    /** `handleSearchChange(value)`: the value is stored and reported. */
    method HandleSearchChange(value: string) returns (reported: string)
      modifies this
      ensures searchQuery == value && reported == value
      ensures specialty == old(specialty) && rating == old(rating)
    {
      searchQuery := value;
      reported := value;
    }

    /** `handleSpecialtyChange(value)`. */
    method HandleSpecialtyChange(value: string) returns (reported: string)
      modifies this
      ensures specialty == value && reported == value
      ensures searchQuery == old(searchQuery) && rating == old(rating)
    {
      specialty := value;
      reported := value;
    }

    /** `handleRatingChange(value)`: the single-thumb slider reports a
        one-element array whose first element is the new minimum. */
    method HandleRatingChange(value: seq<real>) returns (reported: real)
      requires |value| >= 1
      modifies this
      ensures rating == value[0] && reported == value[0]
      ensures searchQuery == old(searchQuery) && specialty == old(specialty)
    {
      rating := value[0];
      reported := value[0];
    }

    /** `handleReset`: every filter goes back to its start, each callback is
        told so, and the reset button disappears. */
    method HandleReset() returns (reportedSearch: string, reportedSpecialty: string, reportedRating: real)
      modifies this
      ensures searchQuery == "" && specialty == "all" && rating == 0.0
      ensures reportedSearch == "" && reportedSpecialty == "all" && reportedRating == 0.0
      ensures !ShowReset()
    {
      searchQuery, specialty, rating := "", "all", 0.0;
      reportedSearch, reportedSpecialty, reportedRating := "", "all", 0.0;
    }
  }
}
