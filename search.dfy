/** The filter chain of `filterProducts`: a case-insensitive search on name or
    location, then an exact match on type. It works on the loaded products only. */
module Search {
  import opened Catalog
  import opened Text
  import Seqs

  /** The lowered name or location contains the (already lowered) term. */
  predicate MatchesTerm(p: Product, term: string)
  {
    Contains(ToLower(p.nombre), term) || Contains(ToLower(p.ubicacion), term)
  }

  /** The whole selection rule, stated per product: an empty search box or a match on
      name or location, and an empty type filter or an equal type. */
  predicate Selected(p: Product, searchInput: string, filterType: string)
  {
    (searchInput == "" || MatchesTerm(p, ToLower(searchInput))) &&
    (filterType == "" || p.tipo == filterType)
  }

  /** The callback of the first `filter` call. */
  function TermTest(term: string): Product -> bool
  {
    p => MatchesTerm(p, term)
  }

  /** The callback of the second `filter` call. */
  function TypeTest(filterType: string): Product -> bool
  {
    (p: Product) => p.tipo == filterType
  }

  /** `Selected` as a callback. */
  function SelectionTest(searchInput: string, filterType: string): Product -> bool
  {
    p => Selected(p, searchInput, filterType)
  }

  /** `filterProducts` as app.js writes it: the search filter is applied only for a
      non-empty lowered term, then the type filter only for a non-empty type. */
  function FilterProducts(all: seq<Product>, searchInput: string, filterType: string): (r: seq<Product>)
    ensures Seqs.IsSubsequence(r, all)
    ensures forall p :: p in r <==> p in all && Selected(p, searchInput, filterType)
  {
    var term := ToLower(searchInput);
    var bySearch := if term != "" then Seqs.Filter(TermTest(term), all) else all;
    var byType := if filterType != "" then Seqs.Filter(TypeTest(filterType), bySearch) else bySearch;
    SingleFilter(all, searchInput, filterType);
    Seqs.FilterIsSubsequence(SelectionTest(searchInput, filterType), all);
    byType
  }

  /** The two-stage chain selects exactly what one pass with `Selected` selects. */
  lemma SingleFilter(all: seq<Product>, searchInput: string, filterType: string)
    ensures
      var term := ToLower(searchInput);
      var bySearch := if term != "" then Seqs.Filter(TermTest(term), all) else all;
      var byType := if filterType != "" then Seqs.Filter(TypeTest(filterType), bySearch) else bySearch;
      byType == Seqs.Filter(SelectionTest(searchInput, filterType), all)
  {
    var term := ToLower(searchInput);
    var sel := SelectionTest(searchInput, filterType);
    if term != "" && filterType != "" {
      Seqs.FilterFilter(TermTest(term), TypeTest(filterType), sel, all);
    } else if term != "" {
      Seqs.FilterCongruent(TermTest(term), sel, all);
    } else if filterType != "" {
      Seqs.FilterCongruent(TypeTest(filterType), sel, all);
    } else {
      Seqs.FilterAll(sel, all);
    }
  }

  /** With an empty search box and no type filter every loaded product is shown. */
  lemma NoFilterShowsAll(all: seq<Product>)
    ensures FilterProducts(all, "", "") == all
  {
  }

  /** Filtering the filtered list again with the same inputs changes nothing. */
  lemma FilterProductsIdempotent(all: seq<Product>, searchInput: string, filterType: string)
    ensures FilterProducts(FilterProducts(all, searchInput, filterType), searchInput, filterType)
            == FilterProducts(all, searchInput, filterType)
  {
    var r := FilterProducts(all, searchInput, filterType);
    SingleFilter(all, searchInput, filterType);
    SingleFilter(r, searchInput, filterType);
    Seqs.FilterIdempotent(SelectionTest(searchInput, filterType), all);
  }

  /** For any non-empty search input: a product whose name or location contains the
      lowered input, followed by one whose fields do not, selects the first alone. */
  lemma SearchSelectsFirst(a: Product, b: Product, searchInput: string)
    requires searchInput != ""
    requires MatchesTerm(a, ToLower(searchInput))
    requires !MatchesTerm(b, ToLower(searchInput))
    ensures FilterProducts([a, b], searchInput, "") == [a]
  {
    var test := TermTest(ToLower(searchInput));
    assert test(a) && !test(b);
    assert [a, b] == [a] + [b];
    Seqs.FilterConcat(test, [a], [b]);
  }

  /** The search "laptop" is already lower case. */
  lemma LaptopIsLowered(term: string)
    requires term == "laptop"
    ensures ToLower(term) == term
  {
    assert forall i :: 0 <= i < |term| ==> !IsUpper(term[i]);
  }

  /** The laptop's lowered name starts with "laptop". */
  lemma LaptopFound(name: string, term: string)
    requires name == "Laptop HP EliteBook" && term == "laptop"
    ensures Contains(ToLower(name), term)
  {
    var lowered := ToLower(name);
    assert forall i :: 0 <= i < 6 ==> lowered[i] == LowerChar(name[i]);
    assert term <= lowered;
  }

  /** Nothing in the shirt's name or location lowers to the 'p' of "laptop". */
  lemma ShirtMissed(s: string, term: string)
    requires s == "Camiseta Casual" || s == "Mostrador"
    requires term == "laptop"
    ensures !Contains(ToLower(s), term)
  {
    assert term[2] == 'p';
    NoMatchWithoutCharacter(s, term, 2);
  }

  /** Searching "laptop" in the demonstration rows finds only the laptop. */
  lemma ExampleSearchByName(ps: seq<Product>, searchInput: string)
    requires ps == ExampleProducts && searchInput == "laptop"
    ensures FilterProducts(ps, searchInput, "") == [ps[0]]
  {
    LaptopIsLowered(searchInput);
    LaptopFound(ps[0].nombre, searchInput);
    ShirtMissed(ps[1].nombre, searchInput);
    ShirtMissed(ps[1].ubicacion, searchInput);
    assert ps == [ps[0], ps[1]];
    SearchSelectsFirst(ps[0], ps[1], searchInput);
  }

  /** The type filter "Ropa" over the demonstration rows finds only the shirt. */
  lemma ExampleSearchByType(ps: seq<Product>, filterType: string)
    requires ps == ExampleProducts && filterType == "Ropa"
    ensures FilterProducts(ps, "", filterType) == [ps[1]]
  {
    assert ps[1..] == [ps[1]];
  }
}
