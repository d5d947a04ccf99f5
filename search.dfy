/**
 * The filter/search engine of the map page (`filteredPlaces`): a category
 * stage that flattens the selected category records in a fixed order, and
 * a search stage that keeps the entries whose name, description or city
 * contains the search term, ignoring case.
 */
module Search {
  import opened Text
  import opened Catalog

  // ---------------------------------------------------------------------
  // Category stage
  // ---------------------------------------------------------------------

  /** Whether the active filter lets category `c` through. */
  predicate Selects(filter: string, c: Category) {
    filter == "all" || filter == Name(c)
  }

  /** Every category the filter lets through comes from `cs` and is selected. */
  lemma {:induction false} SelectedSelects(filter: string, cs: seq<Category>)
    ensures forall c :: c in Selected(filter, cs) ==> c in cs && Selects(filter, c)
  {
    if cs != [] {
      SelectedSelects(filter, cs[1..]);
    }
  }

  /** The categories of `cs` that the filter lets through, in the order of `cs`. */
  function Selected(filter: string, cs: seq<Category>): (r: seq<Category>)
    ensures |r| <= |cs|
  {
    if cs == [] then []
    else (if Selects(filter, cs[0]) then [cs[0]] else []) + Selected(filter, cs[1..])
  }

  /** The entries of the selected categories, categories in their fixed order. */
  function CategoryStage(d: Data, filter: string): (r: seq<PlaceWithMeta>)
    ensures forall i :: 0 <= i < |r| ==> Selects(filter, r[i].category)
  {
    var sel := Selected(filter, CategoryOrder);
    SelectedSelects(filter, CategoryOrder);
    FlattenInCategories(d, sel);
    FlattenIn(d, sel)
  }

  lemma {:induction false} SelectedSnoc(filter: string, cs: seq<Category>, c: Category)
    ensures Selected(filter, cs + [c])
            == Selected(filter, cs) + (if Selects(filter, c) then [c] else [])
  {
    var tail := if Selects(filter, c) then [c] else [];
    if cs == [] {
      assert cs + [c] == [c] && [c][1..] == [];
      assert Selected(filter, [c]) == tail + Selected(filter, []);
    } else {
      var head := if Selects(filter, cs[0]) then [cs[0]] else [];
      assert (cs + [c])[0] == cs[0];
      assert (cs + [c])[1..] == cs[1..] + [c];
      SelectedSnoc(filter, cs[1..], c);
      assert Selected(filter, cs + [c]) == head + (Selected(filter, cs[1..]) + tail);
    }
  }

  /** A category's contribution to the category stage: its entries if selected, else nothing. */
  function Part(d: Data, filter: string, c: Category): seq<PlaceWithMeta> {
    if Selects(filter, c) then Tagged(RecordOf(d, c), c) else []
  }

  /** Taking one more category of the fixed order adds that category's entries when selected. */
  lemma CategoryStageStep(d: Data, filter: string, k: nat)
    requires k < |CategoryOrder|
    ensures FlattenIn(d, Selected(filter, CategoryOrder[..k + 1]))
            == FlattenIn(d, Selected(filter, CategoryOrder[..k]))
               + Part(d, filter, CategoryOrder[k])
  {
    var c := CategoryOrder[k];
    assert CategoryOrder[..k + 1] == CategoryOrder[..k] + [c];
    SelectedSnoc(filter, CategoryOrder[..k], c);
    if Selects(filter, c) {
      FlattenInSnoc(d, Selected(filter, CategoryOrder[..k]), c);
    } else {
      assert Selected(filter, CategoryOrder[..k]) + [] == Selected(filter, CategoryOrder[..k]);
    }
  }

  /** The category stage is the four categories' contributions, in the fixed order. */
  lemma CategoryStageParts(d: Data, filter: string)
    ensures CategoryStage(d, filter)
            == Part(d, filter, Hotels) + Part(d, filter, Attractions)
               + Part(d, filter, Restaurants) + Part(d, filter, Activities)
  {
    var h, a, r, v := Part(d, filter, Hotels), Part(d, filter, Attractions),
                      Part(d, filter, Restaurants), Part(d, filter, Activities);
    assert CategoryOrder[..0] == [];
    CategoryStageStep(d, filter, 0);
    assert FlattenIn(d, Selected(filter, CategoryOrder[..1])) == h;
    CategoryStageStep(d, filter, 1);
    assert FlattenIn(d, Selected(filter, CategoryOrder[..2])) == h + a;
    CategoryStageStep(d, filter, 2);
    assert FlattenIn(d, Selected(filter, CategoryOrder[..3])) == h + a + r;
    CategoryStageStep(d, filter, 3);
    assert CategoryOrder[..4] == CategoryOrder;
  }

  lemma {:induction false} SelectedAll(cs: seq<Category>)
    ensures Selected("all", cs) == cs
  {
    if cs != [] {
      SelectedAll(cs[1..]);
    }
  }

  lemma {:induction false} SelectedNone(filter: string, cs: seq<Category>)
    requires forall c :: !Selects(filter, c)
    ensures Selected(filter, cs) == []
  {
    if cs != [] {
      SelectedNone(filter, cs[1..]);
    }
  }

  /** With the filter "all", the category stage is the whole flattened catalog. */
  lemma CategoryStageAll(d: Data)
    ensures CategoryStage(d, "all") == Flatten(d)
  {
    SelectedAll(CategoryOrder);
  }

  /** With a category's own key as filter, the category stage is that category's entries. */
  lemma CategoryStageOne(d: Data, c: Category)
    ensures CategoryStage(d, Name(c)) == Tagged(RecordOf(d, c), c)
  {
    CategoryStageParts(d, Name(c));
    var t := Tagged(RecordOf(d, c), c);
    match c
    case Hotels => assert [] + t + [] + [] + [] == t;
    case Attractions => assert [] + [] + t + [] + [] == t;
    case Restaurants => assert [] + [] + [] + t + [] == t;
    case Activities => assert [] + [] + [] + [] + t == t;
  }

  /** A filter that is neither "all" nor a category key selects nothing. */
  lemma CategoryStageUnknown(d: Data, filter: string)
    requires filter != "all"
    requires forall c :: filter != Name(c)
    ensures CategoryStage(d, filter) == []
  {
    SelectedNone(filter, CategoryOrder);
  }

  // ---------------------------------------------------------------------
  // Search stage
  // ---------------------------------------------------------------------

  /**
   * The search test: the lower-cased term occurs in the lower-cased name,
   * description (a missing one counts as "") or city.
   */
  predicate Matches(p: PlaceWithMeta, term: string)
    ensures term == "" ==> Matches(p, term)
    ensures p.place.description.None? ==>
              (Matches(p, term) <==> Includes(Lower(p.place.name), Lower(term))
                                     || Includes(Lower(p.place.city), Lower(term)))
  {
    var t := Lower(term);
    Includes(Lower(p.place.name), t)
    || Includes(Lower(p.place.description.GetOr("")), t)
    || Includes(Lower(p.place.city), t)
  }

  /** The entries of `s` that match `term`, in their original order (`Array.filter`). */
  function Matching(s: seq<PlaceWithMeta>, term: string): (r: seq<PlaceWithMeta>)
    ensures |r| <= |s|
  {
    if s == [] then []
    else (if Matches(s[0], term) then [s[0]] else []) + Matching(s[1..], term)
  }

  /** The search stage runs only for a non-empty term; nothing is trimmed. */
  function SearchStage(s: seq<PlaceWithMeta>, term: string): (r: seq<PlaceWithMeta>)
    ensures |r| <= |s|
    ensures term == "" ==> r == s
  {
    if term == "" then s else Matching(s, term)
  }

  /** What `filteredPlaces` returns for a catalog, a filter and a search term. */
  function FilteredPlaces(d: Data, filter: string, term: string): (r: seq<PlaceWithMeta>)
    ensures |r| <= |CategoryStage(d, filter)|
    ensures term == "" ==> r == CategoryStage(d, filter)
  {
    SearchStage(CategoryStage(d, filter), term)
  }

  /** `a` is `b` with some elements left out, the rest in their order. */
  ghost predicate IsSubsequence(a: seq<PlaceWithMeta>, b: seq<PlaceWithMeta>)
    decreases |b|
  {
    if a == [] then true
    else if b == [] then false
    else (a[0] == b[0] && IsSubsequence(a[1..], b[1..])) || IsSubsequence(a, b[1..])
  }

  lemma {:induction false} SubsequenceShorter(a: seq<PlaceWithMeta>, b: seq<PlaceWithMeta>)
    requires IsSubsequence(a, b)
    ensures |a| <= |b|
    decreases |b|
  {
    if a != [] {
      if a[0] == b[0] && IsSubsequence(a[1..], b[1..]) {
        SubsequenceShorter(a[1..], b[1..]);
      } else {
        SubsequenceShorter(a, b[1..]);
      }
    }
  }

  lemma {:induction false} SubsequenceMembers(a: seq<PlaceWithMeta>, b: seq<PlaceWithMeta>, x: PlaceWithMeta)
    requires IsSubsequence(a, b)
    requires x in a
    ensures x in b
    decreases |b|
  {
    if a[0] == b[0] && IsSubsequence(a[1..], b[1..]) {
      if x != a[0] {
        SubsequenceMembers(a[1..], b[1..], x);
      }
    } else {
      SubsequenceMembers(a, b[1..], x);
    }
  }

  /** The search keeps a subsequence of its input: order preserved, never longer. */
  lemma {:induction false} MatchingSubsequence(s: seq<PlaceWithMeta>, term: string)
    ensures IsSubsequence(Matching(s, term), s)
  {
    if s != [] {
      MatchingSubsequence(s[1..], term);
      var rest := Matching(s[1..], term);
      if Matches(s[0], term) {
        assert Matching(s, term) == [s[0]] + rest;
        assert ([s[0]] + rest)[1..] == rest;
      } else {
        assert Matching(s, term) == rest;
        if rest != [] {
          assert IsSubsequence(rest, s[1..]);
        }
      }
    }
  }

  /** An entry is kept exactly when it is in the input and matches. */
  lemma {:induction false} MatchingMembers(s: seq<PlaceWithMeta>, term: string, x: PlaceWithMeta)
    ensures x in Matching(s, term) <==> x in s && Matches(x, term)
  {
    if s != [] {
      MatchingMembers(s[1..], term, x);
      assert s == [s[0]] + s[1..];
    }
  }

  /** Searching a concatenation searches each part. */
  lemma {:induction false} MatchingConcat(a: seq<PlaceWithMeta>, b: seq<PlaceWithMeta>, term: string)
    ensures Matching(a + b, term) == Matching(a, term) + Matching(b, term)
  {
    if a == [] {
      assert a + b == b;
    } else {
      var head := if Matches(a[0], term) then [a[0]] else [];
      assert (a + b)[0] == a[0];
      assert (a + b)[1..] == a[1..] + b;
      MatchingConcat(a[1..], b, term);
      assert Matching(a + b, term) == head + Matching(a[1..] + b, term);
    }
  }

  /** Searching twice with the same term is searching once. */
  lemma {:induction false} MatchingIdempotent(s: seq<PlaceWithMeta>, term: string)
    ensures Matching(Matching(s, term), term) == Matching(s, term)
  {
    if s != [] {
      MatchingIdempotent(s[1..], term);
      var rest := Matching(s[1..], term);
      if Matches(s[0], term) {
        var r := [s[0]] + rest;
        assert r[0] == s[0] && r[1..] == rest;
        assert Matching(s, term) == r;
        assert Matching(r, term) == [s[0]] + Matching(rest, term);
      } else {
        assert Matching(s, term) == rest;
      }
    }
  }

  /** Upper and lower case in the term make no difference. */
  lemma MatchesIgnoresCase(p: PlaceWithMeta, term: string)
    ensures Matches(p, Lower(term)) <==> Matches(p, term)
  {
    LowerIdempotent(term);
  }

  /** The empty term occurs in every field, so the `if (searchTerm)` guard only skips work. */
  lemma {:induction false} EmptyTermKeepsAll(s: seq<PlaceWithMeta>)
    ensures Matching(s, "") == s
  {
    if s != [] {
      IncludesEmpty(Lower(s[0].place.name));
      EmptyTermKeepsAll(s[1..]);
    }
  }

  // ---------------------------------------------------------------------
  // Properties of the whole engine
  // ---------------------------------------------------------------------

  /** Filter "all", no search: hotels, attractions, restaurants, activities, each in record order. */
  lemma FilterAllOrder(d: Data)
    ensures FilteredPlaces(d, "all", "")
            == Tagged(d.hotels, Hotels) + Tagged(d.attractions, Attractions)
               + Tagged(d.restaurants, Restaurants) + Tagged(d.activities, Activities)
  {
    CategoryStageAll(d);
    FlattenOrder(d);
  }

  /** Filter on one category, no search: exactly that category's entries, in record order. */
  lemma FilterByCategory(d: Data, c: Category)
    ensures FilteredPlaces(d, Name(c), "") == Tagged(RecordOf(d, c), c)
  {
    CategoryStageOne(d, c);
  }

  /** An unknown filter key shows nothing, whatever the search term. */
  lemma FilterUnknown(d: Data, filter: string, term: string)
    requires filter != "all"
    requires forall c :: filter != Name(c)
    ensures FilteredPlaces(d, filter, term) == []
  {
    CategoryStageUnknown(d, filter);
  }

  /**
   * Search correctness: an entry is shown exactly when the category stage
   * has it and (for a non-empty term) it matches; the result is an
   * order-preserving subsequence of the category stage.
   */
  lemma SearchStageSpec(d: Data, filter: string, term: string, x: PlaceWithMeta)
    ensures x in FilteredPlaces(d, filter, term)
            <==> x in CategoryStage(d, filter) && (term == "" || Matches(x, term))
    ensures IsSubsequence(FilteredPlaces(d, filter, term), CategoryStage(d, filter))
    ensures |FilteredPlaces(d, filter, term)| <= |CategoryStage(d, filter)|
  {
    var s := CategoryStage(d, filter);
    MatchingMembers(s, term, x);
    if term == "" {
      EmptyTermKeepsAll(s);
    }
    MatchingSubsequence(s, term);
  }

  /** With filter "all", the search keeps the category order: matching hotels first, and so on. */
  lemma SearchKeepsCategoryOrder(d: Data, term: string)
    ensures FilteredPlaces(d, "all", term)
            == Matching(Tagged(d.hotels, Hotels), term) + Matching(Tagged(d.attractions, Attractions), term)
               + Matching(Tagged(d.restaurants, Restaurants), term)
               + Matching(Tagged(d.activities, Activities), term)
  {
    var h, a, r, v := Tagged(d.hotels, Hotels), Tagged(d.attractions, Attractions),
                      Tagged(d.restaurants, Restaurants), Tagged(d.activities, Activities);
    FilterAllOrder(d);
    CategoryStageAll(d);
    FlattenOrder(d);
    if term == "" {
      EmptyTermKeepsAll(h);
      EmptyTermKeepsAll(a);
      EmptyTermKeepsAll(r);
      EmptyTermKeepsAll(v);
    } else {
      MatchingConcat(h + a + r, v, term);
      MatchingConcat(h + a, r, term);
      MatchingConcat(h, a, term);
    }
  }

  /** Both parts of a sequence with distinct keys have distinct keys. */
  lemma DistinctKeysParts(a: seq<PlaceWithMeta>, b: seq<PlaceWithMeta>)
    requires DistinctKeys(a + b)
    ensures DistinctKeys(a) && DistinctKeys(b)
  {
    forall i, j | 0 <= i < j < |a| ensures a[i].key != a[j].key {
      assert (a + b)[i] == a[i] && (a + b)[j] == a[j];
    }
    forall i, j | 0 <= i < j < |b| ensures b[i].key != b[j].key {
      assert (a + b)[|a| + i] == b[i] && (a + b)[|a| + j] == b[j];
    }
  }

  /** Searching never introduces a repeated key. */
  lemma {:induction false} MatchingDistinct(s: seq<PlaceWithMeta>, term: string)
    requires DistinctKeys(s)
    ensures DistinctKeys(Matching(s, term))
  {
    if s != [] {
      var rest := Matching(s[1..], term);
      MatchingDistinct(s[1..], term);
      if Matches(s[0], term) {
        forall j | 0 <= j < |rest| ensures rest[j].key != s[0].key {
          MatchingMembers(s[1..], term, rest[j]);
          var k :| 0 <= k < |s[1..]| && s[1..][k] == rest[j];
          assert s[k + 1] == rest[j];
        }
        assert Matching(s, term) == [s[0]] + rest;
      }
    }
  }

  /** In a well-formed catalog no key is ever shown twice, whatever the filter and term. */
  lemma FilteredDistinct(d: Data, filter: string, term: string)
    requires WellFormed(d)
    ensures DistinctKeys(FilteredPlaces(d, filter, term))
  {
    var h, a, r, v := Tagged(d.hotels, Hotels), Tagged(d.attractions, Attractions),
                      Tagged(d.restaurants, Restaurants), Tagged(d.activities, Activities);
    FlattenOrder(d);
    DistinctKeysParts(h + a + r, v);
    DistinctKeysParts(h + a, r);
    DistinctKeysParts(h, a);
    var stage := CategoryStage(d, filter);
    if filter == "all" {
      CategoryStageAll(d);
    } else if filter == "hotels" {
      CategoryStageOne(d, Hotels);
    } else if filter == "attractions" {
      CategoryStageOne(d, Attractions);
    } else if filter == "restaurants" {
      CategoryStageOne(d, Restaurants);
    } else if filter == "activities" {
      CategoryStageOne(d, Activities);
    } else {
      CategoryStageUnknown(d, filter);
    }
    assert DistinctKeys(stage);
    if term != "" {
      MatchingDistinct(stage, term);
    }
  }

  /** The catalog's shape: 7 hotels, 9 attractions, 5 restaurants and 8 activities. */
  lemma CatalogCounts(d: Data)
    requires |d.hotels| == 7 && |d.attractions| == 9
    requires |d.restaurants| == 5 && |d.activities| == 8
    ensures |FilteredPlaces(d, "all", "")| == 29
    ensures |FilteredPlaces(d, "hotels", "")| == 7
  {
    FilterAllOrder(d);
    FilterByCategory(d, Hotels);
  }

  /**
   * Searching for a city's name with every category shown finds every place
   * located in that city (searching "Algiers" finds the Algiers hotels,
   * attractions, restaurants and activities).
   */
  lemma CityFound(d: Data, p: PlaceWithMeta, city: string)
    requires p in Flatten(d)
    requires p.place.city == city
    ensures p in FilteredPlaces(d, "all", city)
  {
    CategoryStageAll(d);
    var l := Lower(city);
    assert l[..|l|] == l;
    assert StartsWith(l, l);
    assert Matches(p, city);
    SearchStageSpec(d, "all", city, p);
  }

  // ---------------------------------------------------------------------
  // The engine as the page runs it: an accumulator filled by loops
  // ---------------------------------------------------------------------

  /** The `push` helper: appends each entry of `obj`, tagged with its key and category. */
  method Push(all: seq<PlaceWithMeta>, obj: Record, category: Category) returns (all': seq<PlaceWithMeta>)
    ensures all' == all + Tagged(obj, category)
  {
    all' := all;
    for i := 0 to |obj|
      invariant all' == all + Tagged(obj[..i], category)
    {
      var entry := obj[i];
      all' := all' + [PlaceWithMeta(entry.place, entry.key, category)];
      assert obj[..i + 1] == obj[..i] + [entry];
      TaggedSnoc(obj[..i], entry, category);
    }
    assert obj[..|obj|] == obj;
  }

  /** The `all.filter(...)` step: keeps the matching entries, in order. */
  method KeepMatching(all: seq<PlaceWithMeta>, searchTerm: string) returns (kept: seq<PlaceWithMeta>)
    ensures kept == Matching(all, searchTerm)
  {
    kept := [];
    for i := 0 to |all|
      invariant kept == Matching(all[..i], searchTerm)
    {
      var p := all[i];
      assert all[..i + 1] == all[..i] + [p];
      MatchingConcat(all[..i], [p], searchTerm);
      if Matches(p, searchTerm) {
        kept := kept + [p];
      }
    }
    assert all[..|all|] == all;
  }

  /** `filteredPlaces`: the four conditional pushes, then the search when the term is non-empty. */
  method ComputeFilteredPlaces(data: Data, activeFilter: string, searchTerm: string)
    returns (all: seq<PlaceWithMeta>)
    ensures all == FilteredPlaces(data, activeFilter, searchTerm)
  {
    all := [];
    if activeFilter == "all" || activeFilter == "hotels" {
      all := Push(all, data.hotels, Hotels);
    }
    ghost var h := all;
    assert h == Part(data, activeFilter, Hotels);
    if activeFilter == "all" || activeFilter == "attractions" {
      all := Push(all, data.attractions, Attractions);
    }
    ghost var a := all;
    assert a == h + Part(data, activeFilter, Attractions);
    if activeFilter == "all" || activeFilter == "restaurants" {
      all := Push(all, data.restaurants, Restaurants);
    }
    ghost var r := all;
    assert r == a + Part(data, activeFilter, Restaurants);
    if activeFilter == "all" || activeFilter == "activities" {
      all := Push(all, data.activities, Activities);
    }
    assert all == r + Part(data, activeFilter, Activities);
    CategoryStageParts(data, activeFilter);

    if searchTerm != "" {
      all := KeepMatching(all, searchTerm);
    }
  }
}
