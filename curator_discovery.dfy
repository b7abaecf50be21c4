/**
 * The curator directory: the option lists of the two filter menus and the
 * filtered list of curator cards.
 */
module CuratorDiscovery {
  import opened Types
  import JsText
  import MockData

  // ----- Distinct option lists -----

  /** The position of the first occurrence of `x` in `xs`. */
  function IndexOf(xs: seq<string>, x: string): (r: nat)
    requires x in xs
    ensures r < |xs| && xs[r] == x && x !in xs[..r]
  {
    if xs[0] == x then 0 else 1 + IndexOf(xs[1..], x)
  }

  /** A value found in a prefix has its first occurrence there. */
  lemma {:induction false} IndexOfPrefix(xs: seq<string>, n: nat, x: string)
    requires n <= |xs| && x in xs[..n]
    ensures IndexOf(xs, x) == IndexOf(xs[..n], x)
  {
    if xs[0] != x {
      assert xs[1..][..n - 1] == xs[..n][1..];
      IndexOfPrefix(xs[1..], n - 1, x);
    }
  }

  /**
   * `Array.from(new Set(xs))`: a set remembers insertion order, so each value
   * is kept at its first occurrence and later repeats are skipped.
   */
  function Distinct(xs: seq<string>): seq<string> {
    if xs == [] then []
    else
      var seen := Distinct(xs[..|xs| - 1]);
      if xs[|xs| - 1] in seen then seen else seen + [xs[|xs| - 1]]
  }

  /**
   * The distinct list holds every value once, holds nothing else, and lists
   * the values in the order of their first occurrences.
   */
  lemma {:induction false} DistinctSpec(xs: seq<string>)
    ensures forall x :: x in Distinct(xs) <==> x in xs
    ensures forall i, j :: 0 <= i < j < |Distinct(xs)| ==> Distinct(xs)[i] != Distinct(xs)[j]
    ensures forall i, j :: 0 <= i < j < |Distinct(xs)| ==> IndexOf(xs, Distinct(xs)[i]) < IndexOf(xs, Distinct(xs)[j])
  {
    if xs != [] {
      var n := |xs| - 1;
      var init := xs[..n];
      var last := xs[n];
      var seen := Distinct(init);
      DistinctSpec(init);
      assert xs == init + [last];
      forall y | y in seen
        ensures IndexOf(xs, y) == IndexOf(init, y)
      {
        IndexOfPrefix(xs, n, y);
      }
      if last !in seen {
        assert last !in init;
        assert IndexOf(xs, last) == n by {
          assert xs[..n] == init;
        }
      }
    }
  }

  /** A filter menu: 'all' followed by each distinct value. */
  function Options(values: seq<string>): (r: seq<string>)
    ensures |r| >= 1 && r[0] == "all"
    ensures r[1..] == Distinct(values)
  {
    ["all"] + Distinct(values)
  }

  function Kinds(cs: seq<CuratorListData>): (r: seq<string>)
    ensures |r| == |cs| && forall k :: 0 <= k < |cs| ==> r[k] == cs[k].kind
  {
    seq(|cs|, k requires 0 <= k < |cs| => cs[k].kind)
  }

  function Countries(cs: seq<CuratorListData>): (r: seq<string>)
    ensures |r| == |cs| && forall k :: 0 <= k < |cs| ==> r[k] == cs[k].country
  {
    seq(|cs|, k requires 0 <= k < |cs| => cs[k].country)
  }

  /** `uniqueTypes`. */
  function TypeOptions(cs: seq<CuratorListData>): seq<string> {
    Options(Kinds(cs))
  }

  /** `uniqueCountries`. */
  function CountryOptions(cs: seq<CuratorListData>): seq<string> {
    Options(Countries(cs))
  }

  /** Every curator's type and country can be chosen in the menus, and each option names some curator. */
  lemma OptionsCoverCurators(cs: seq<CuratorListData>)
    ensures forall k :: 0 <= k < |cs| ==> cs[k].kind in TypeOptions(cs) && cs[k].country in CountryOptions(cs)
    ensures forall o :: o in TypeOptions(cs)[1..] ==> exists k :: 0 <= k < |cs| && cs[k].kind == o
    ensures forall o :: o in CountryOptions(cs)[1..] ==> exists k :: 0 <= k < |cs| && cs[k].country == o
  {
    DistinctSpec(Kinds(cs));
    DistinctSpec(Countries(cs));
    forall k | 0 <= k < |cs|
      ensures cs[k].kind in TypeOptions(cs) && cs[k].country in CountryOptions(cs)
    {
      assert Kinds(cs)[k] == cs[k].kind;
      assert Countries(cs)[k] == cs[k].country;
    }
  }

  // ----- Filtering -----

  /** The card filter: the search term in the name or the job, ignoring case, and both menus. */
  predicate Matches(c: CuratorListData, term: string, typeFilter: string, countryFilter: string) {
    (JsText.Contains(JsText.Lower(c.name), JsText.Lower(term)) || JsText.Contains(JsText.Lower(c.job), JsText.Lower(term)))
    && (typeFilter == "all" || c.kind == typeFilter)
    && (countryFilter == "all" || c.country == countryFilter)
  }

  /** `filteredCurators`: `Array.prototype.filter` with `Matches`. */
  function Filter(cs: seq<CuratorListData>, term: string, typeFilter: string, countryFilter: string): (r: seq<CuratorListData>)
    ensures |r| <= |cs|
    ensures forall k :: 0 <= k < |r| ==> Matches(r[k], term, typeFilter, countryFilter)
  {
    if cs == [] then []
    else if Matches(cs[0], term, typeFilter, countryFilter) then [cs[0]] + Filter(cs[1..], term, typeFilter, countryFilter)
    else Filter(cs[1..], term, typeFilter, countryFilter)
  }

  /** `a` is `b` with some entries removed and the rest in their order. */
  predicate IsSubsequence(a: seq<CuratorListData>, b: seq<CuratorListData>)
    decreases |b|
  {
    if a == [] then true
    else if b == [] then false
    else (a[0] == b[0] && IsSubsequence(a[1..], b[1..])) || IsSubsequence(a, b[1..])
  }

  /** A curator is shown exactly when it is in the directory and matches. */
  lemma {:induction false} FilterMembership(cs: seq<CuratorListData>, term: string, typeFilter: string, countryFilter: string, c: CuratorListData)
    ensures c in Filter(cs, term, typeFilter, countryFilter) <==> c in cs && Matches(c, term, typeFilter, countryFilter)
  {
    if cs != [] {
      FilterMembership(cs[1..], term, typeFilter, countryFilter, c);
      assert cs == [cs[0]] + cs[1..];
    }
  }

  /** The shown cards keep the directory's order. */
  lemma {:induction false} FilterIsSubsequence(cs: seq<CuratorListData>, term: string, typeFilter: string, countryFilter: string)
    ensures IsSubsequence(Filter(cs, term, typeFilter, countryFilter), cs)
  {
    if cs != [] {
      FilterIsSubsequence(cs[1..], term, typeFilter, countryFilter);
      var r := Filter(cs, term, typeFilter, countryFilter);
      if Matches(cs[0], term, typeFilter, countryFilter) {
        assert r[0] == cs[0] && r[1..] == Filter(cs[1..], term, typeFilter, countryFilter);
      }
    }
  }

  /** Filtering the shown cards again with the same criteria changes nothing. */
  lemma {:induction false} FilterIdempotent(cs: seq<CuratorListData>, term: string, typeFilter: string, countryFilter: string)
    ensures Filter(Filter(cs, term, typeFilter, countryFilter), term, typeFilter, countryFilter) == Filter(cs, term, typeFilter, countryFilter)
  {
    if cs != [] {
      FilterIdempotent(cs[1..], term, typeFilter, countryFilter);
      var r := Filter(cs, term, typeFilter, countryFilter);
      if Matches(cs[0], term, typeFilter, countryFilter) {
        assert r[0] == cs[0] && r[1..] == Filter(cs[1..], term, typeFilter, countryFilter);
      }
    }
  }

  /** With no search term and both menus at 'all', every curator is shown. */
  lemma {:induction false} ShowAllByDefault(cs: seq<CuratorListData>)
    ensures Filter(cs, "", "all", "all") == cs
  {
    if cs != [] {
      JsText.ContainsEmpty(JsText.Lower(cs[0].name));
      assert JsText.Lower("") == [];
      ShowAllByDefault(cs[1..]);
      assert [cs[0]] + cs[1..] == cs;
    }
  }

  /**
   * The new criteria are narrower than the old: the new term contains the
   * old one, and a menu either stays at 'all', keeps its value, or moves
   * from 'all' to a value.
   */
  predicate Narrower(term: string, typeFilter: string, countryFilter: string,
                     oldTerm: string, oldType: string, oldCountry: string) {
    JsText.Contains(term, oldTerm)
    && (oldType == "all" || typeFilter == oldType)
    && (oldCountry == "all" || countryFilter == oldCountry)
  }

  /** A curator matching narrower criteria matches the old ones. */
  lemma NarrowerMatches(c: CuratorListData, term: string, typeFilter: string, countryFilter: string,
                        oldTerm: string, oldType: string, oldCountry: string)
    requires Narrower(term, typeFilter, countryFilter, oldTerm, oldType, oldCountry)
    requires Matches(c, term, typeFilter, countryFilter)
    ensures Matches(c, oldTerm, oldType, oldCountry)
  {
    JsText.LowerKeepsContains(term, oldTerm);
    if JsText.Contains(JsText.Lower(c.name), JsText.Lower(term)) {
      JsText.ContainsTransitive(JsText.Lower(c.name), JsText.Lower(term), JsText.Lower(oldTerm));
    } else {
      JsText.ContainsTransitive(JsText.Lower(c.job), JsText.Lower(term), JsText.Lower(oldTerm));
    }
  }

  /** Narrowing the criteria never adds a card: the new list is drawn, in order, from the old one. */
  lemma {:induction false} FilterMonotone(cs: seq<CuratorListData>, term: string, typeFilter: string, countryFilter: string,
                                          oldTerm: string, oldType: string, oldCountry: string)
    requires Narrower(term, typeFilter, countryFilter, oldTerm, oldType, oldCountry)
    ensures IsSubsequence(Filter(cs, term, typeFilter, countryFilter), Filter(cs, oldTerm, oldType, oldCountry))
  {
    if cs != [] {
      FilterMonotone(cs[1..], term, typeFilter, countryFilter, oldTerm, oldType, oldCountry);
      var r := Filter(cs, term, typeFilter, countryFilter);
      var q := Filter(cs, oldTerm, oldType, oldCountry);
      var r1 := Filter(cs[1..], term, typeFilter, countryFilter);
      var q1 := Filter(cs[1..], oldTerm, oldType, oldCountry);
      if Matches(cs[0], term, typeFilter, countryFilter) {
        NarrowerMatches(cs[0], term, typeFilter, countryFilter, oldTerm, oldType, oldCountry);
        assert r[0] == cs[0] && r[1..] == r1;
        assert q[0] == cs[0] && q[1..] == q1;
      } else if Matches(cs[0], oldTerm, oldType, oldCountry) {
        assert r == r1 && q[1..] == q1;
        SkipKeepsSubsequence(r1, q);
      }
    }
  }

  /** Dropping the head of the longer list keeps a sub-sequence relation when the head was not used. */
  lemma SkipKeepsSubsequence(a: seq<CuratorListData>, b: seq<CuratorListData>)
    requires b != [] && IsSubsequence(a, b[1..])
    ensures IsSubsequence(a, b)
  {
  }

  /** Adding one value at the end adds it to the distinct list unless it is already there. */
  lemma DistinctSnoc(xs: seq<string>, x: string)
    ensures Distinct(xs + [x]) == if x in Distinct(xs) then Distinct(xs) else Distinct(xs) + [x]
  {
    assert (xs + [x])[..|xs|] == xs;
  }

  /** A value not yet listed is appended to the distinct list. */
  lemma DistinctAppendNew(xs: seq<string>, seen: seq<string>, x: string, ys: seq<string>)
    requires Distinct(xs) == seen && x !in seen && ys == xs + [x]
    ensures Distinct(ys) == seen + [x]
  {
    DistinctSnoc(xs, x);
  }

  /** Three values whose second repeats the first give two options. */
  lemma DistinctOfThree(a: string, b: string, c: string)
    requires b == a && c != a
    ensures Distinct([a, b, c]) == [a, c]
  {
    DistinctAppendNew([], [], a, [a]);
    DistinctSnoc([a], b);
    assert [a] + [b] == [a, b];
    DistinctAppendNew([a, b], [a], c, [a, b, c]);
  }

  /** Six values whose second repeats the first, the rest all new, give five options. */
  lemma DistinctOfSix(a: string, b: string, c: string, d: string, e: string, f: string)
    requires b == a
    requires c != a && d != a && e != a && f != a
    requires d != c && e != c && f != c && e != d && f != d && f != e
    ensures Distinct([a, b, c, d, e, f]) == [a, c, d, e, f]
  {
    DistinctOfThree(a, b, c);
    DistinctAppendNew([a, b, c], [a, c], d, [a, b, c, d]);
    DistinctAppendNew([a, b, c, d], [a, c, d], e, [a, b, c, d, e]);
    DistinctAppendNew([a, b, c, d, e], [a, c, d, e], f, [a, b, c, d, e, f]);
  }

  /** The kinds of the six directory entries, in order. */
  lemma DirectoryKinds()
    ensures Kinds(MockData.CuratorList) == ["Playlist", "Playlist", "Blog", "YouTube Channel", "Radio Show", "Magazine"]
  {
  }

  /** The type menu of the directory: 'all' and the five kinds, the repeated playlist listed once. */
  lemma DirectoryTypeOptions()
    ensures TypeOptions(MockData.CuratorList) == ["all", "Playlist", "Blog", "YouTube Channel", "Radio Show", "Magazine"]
  {
    DirectoryKinds();
    DistinctOfSix("Playlist", "Playlist", "Blog", "YouTube Channel", "Radio Show", "Magazine");
  }
}
