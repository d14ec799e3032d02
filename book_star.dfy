/**
 * The catalogue of stars on the booking page: the category options offered
 * in the drop-down and the category and name-search filters applied to the
 * list of stars.
 */
module BookStar {
  import opened Js
  import Lists

  /** A category as the catalogue holds it: a text, `null` (stored as such) or `undefined`
    * (a document without the field). `new Set` and `===` keep the two apart. */
  datatype Category = Named(text: string) | Null | Undefined

  /** A document of the `stars` collection, as far as the catalogue reads it. */
  datatype Star = Star(id: string, name: Option<string>, category: Category, price: Option<string>)

  const AllCategories: string := "All Categories"

  /** The selection that disables the category filter. */
  const All: Category := Named(AllCategories)

  /** The catalogue list after the filters, or the error thrown while filtering. */
  datatype Listing = Listed(stars: seq<Star>) | Threw

  function Identity(c: Category): Category { c }

  /** `stars.map(s => s.category)`. */
  function Categories(stars: seq<Star>): (r: seq<Category>)
    ensures |r| == |stars| && forall i :: 0 <= i < |stars| ==> r[i] == stars[i].category
  {
    seq(|stars|, i requires 0 <= i < |stars| => stars[i].category)
  }

  /** `['All Categories', ...new Set(stars.map(s => s.category))]`; stars without a category
    * contribute one `undefined` option, stars whose category is `null` one `null` option. */
  function CategoryOptions(stars: seq<Star>): (r: seq<Category>)
    ensures |r| >= 1 && r[0] == All
    ensures |r| <= |stars| + 1
    ensures forall i :: 1 <= i < |r| ==> r[i] in Categories(stars)
  {
    Lists.KeepFirstKeys(Categories(stars), Identity);
    [All] + Lists.KeepFirst(Categories(stars), Identity)
  }

  /** After 'All Categories' come the categories of the stars, each once, in the order in
    * which they first occur; 'All Categories' itself is repeated only if a star carries it
    * as its category. */
  lemma CategoryOptionsAreDistinctFirstSeen(stars: seq<Star>)
    ensures var r := CategoryOptions(stars);
      && (forall c :: c in r[1..] <==> exists s :: s in stars && s.category == c)
      && (forall i, j :: 1 <= i < j < |r| ==> r[i] != r[j])
      && r[1..] == Lists.FirstOccurrences(Categories(stars), Identity, |stars|)
      && ((exists i :: 1 <= i < |r| && r[i] == All) <==>
          exists s :: s in stars && s.category == All)
  {
    var cats := Categories(stars);
    var kept := Lists.KeepFirst(cats, Identity);
    var r := CategoryOptions(stars);
    assert r[1..] == kept;
    KeptCategoriesOfStars(stars);
    Lists.KeepFirstDistinct(cats, Identity);
    Lists.KeepFirstIsFirstOccurrences(cats, Identity);
    forall i, j | 1 <= i < j < |r| ensures r[i] != r[j]
    {
      assert r[i] == kept[i - 1] && r[j] == kept[j - 1];
    }
    var all := All;
    if i :| 1 <= i < |r| && r[i] == all {
      assert r[1..][i - 1] == all;
    }
    if all in kept {
      var k :| 0 <= k < |kept| && kept[k] == all;
      assert r[k + 1] == all;
    }
  }

  /** Keeping the first of every category keeps exactly the categories the stars carry. */
  lemma KeptCategoriesOfStars(stars: seq<Star>)
    ensures forall c :: c in Lists.KeepFirst(Categories(stars), Identity) <==> exists s :: s in stars && s.category == c
  {
    var cats := Categories(stars);
    var kept := Lists.KeepFirst(cats, Identity);
    Lists.KeepFirstKeys(cats, Identity);
    forall c ensures c in kept <==> exists s :: s in stars && s.category == c
    {
      assert c in kept <==> c in Lists.KeySet(kept, Identity);
      if c in kept {
        assert c in Lists.KeySet(cats, Identity);
        var k :| 0 <= k < |cats| && cats[k] == c;
        assert stars[k] in stars;
      }
      if s :| s in stars && s.category == c {
        var k :| 0 <= k < |stars| && stars[k] == s;
        assert cats[k] in cats && Identity(cats[k]) == c;
        assert c in Lists.KeySet(cats, Identity);
      }
    }
  }

  /** A star stored with `null` and one without the field give two options, one each. */
  lemma NullAndUndefinedAreTwoOptions(stars: seq<Star>, s: Star, t: Star)
    requires s in stars && s.category == Null
    requires t in stars && t.category == Undefined
    ensures var r := CategoryOptions(stars)[1..];
      && (exists i :: 0 <= i < |r| && r[i] == Null)
      && (exists j :: 0 <= j < |r| && r[j] == Undefined)
  {
    CategoryOptionsAreDistinctFirstSeen(stars);
    var r := CategoryOptions(stars)[1..];
    assert Null in r && Undefined in r;
  }

  /** A category card (every option but 'All Categories') lists at least one star when
    * searching for nothing, and exactly the stars identical in category to it. */
  lemma CardSelectionListsItsStars(stars: seq<Star>, c: Category)
    requires c in CategoryOptions(stars)[1..] && c != All
    ensures var r := FilterStars(stars, c, "");
      && r.Listed?
      && r.stars != []
      && forall s :: s in r.stars <==> s in stars && s.category == c
  {
    CategoryOptionsAreDistinctFirstSeen(stars);
    var s :| s in stars && s.category == c;
    FilterIsConjunction(stars, c, "");
    assert s in FilterStars(stars, c, "").stars;
  }

  /** The category filter: with 'All Categories' every star passes, otherwise only the stars
    * whose category is identical (`===`) to the selection. */
  predicate InCategory(selected: Category, s: Star)
  {
    selected == All || s.category == selected
  }

  /** The search filter on a star that has a name: its lower-cased name contains the
    * lower-cased query; an empty query lets every star pass. */
  predicate MatchesSearch(query: string, s: Star)
  {
    query == "" || (s.name.Some? && Includes(Lower(s.name.value), Lower(query)))
  }

  function CategoryFilter(selected: Category): Star -> bool
  {
    (s: Star) => s.category == selected
  }

  function SearchFilter(query: string): Star -> bool
  {
    (s: Star) => s.name.Some? && Includes(Lower(s.name.value), Lower(query))
  }

  function BothFilters(selected: Category, query: string): Star -> bool
  {
    (s: Star) => InCategory(selected, s) && MatchesSearch(query, s)
  }

  /** The filter pipeline of `fetchData`. The selection is what the drop-down or a category
    * card set: a card sets its option as it is, `null` and `undefined` included. A star
    * without a name that reaches the search filter makes `star.name.toLowerCase()` throw. */
  function FilterStars(stars: seq<Star>, selected: Category, query: string): (r: Listing)
    ensures r.Listed? ==> |r.stars| <= |stars|
    ensures r.Threw? ==> query != ""
  {
    var byCategory := if selected != All then Lists.Filter(stars, CategoryFilter(selected)) else stars;
    if query == "" then Listed(byCategory)
    else if exists s :: s in byCategory && s.name.None? then Threw
    else Listed(Lists.Filter(byCategory, SearchFilter(query)))
  }

  /** 'All Categories' with an empty search lists every star, in order. */
  lemma NoFilterIsIdentity(stars: seq<Star>)
    ensures FilterStars(stars, All, "") == Listed(stars)
  {
  }

  /** The filters throw exactly when searching and a star of the selected category has no name. */
  lemma FilterThrowsOnlyOnNamelessStar(stars: seq<Star>, selected: Category, query: string)
    ensures FilterStars(stars, selected, query).Threw? <==>
      query != "" && exists s :: s in stars && InCategory(selected, s) && s.name.None?
  {
  }

  /** The listing is the stars that pass both filters at once, in their original order. */
  lemma FilterIsConjunction(stars: seq<Star>, selected: Category, query: string)
    requires FilterStars(stars, selected, query).Listed?
    ensures var r := FilterStars(stars, selected, query).stars;
      && Lists.Subsequence(r, stars)
      && r == Lists.Filter(stars, BothFilters(selected, query))
      && forall s :: s in r <==> s in stars && InCategory(selected, s) && MatchesSearch(query, s)
  {
    FilterIsBoth(stars, selected, query);
    Lists.FilterIsSubsequence(stars, BothFilters(selected, query));
  }

  lemma FilterIsBoth(stars: seq<Star>, selected: Category, query: string)
    requires FilterStars(stars, selected, query).Listed?
    ensures FilterStars(stars, selected, query).stars == Lists.Filter(stars, BothFilters(selected, query))
  {
    if selected != All && query != "" {
      CategoryAndSearch(stars, selected, query);
    } else if selected != All {
      FilterSame(stars, CategoryFilter(selected), BothFilters(selected, query));
    } else if query == "" {
      Lists.FilterAll(stars, BothFilters(selected, query));
    } else {
      SearchOnly(stars, query);
    }
  }

  lemma CategoryAndSearch(stars: seq<Star>, selected: Category, query: string)
    requires selected != All && query != ""
    requires FilterStars(stars, selected, query).Listed?
    ensures FilterStars(stars, selected, query).stars == Lists.Filter(stars, BothFilters(selected, query))
  {
    var cat, search := CategoryFilter(selected), SearchFilter(query);
    assert FilterStars(stars, selected, query).stars == Lists.Filter(Lists.Filter(stars, cat), search);
    Lists.FilterFilter(stars, cat, search);
    ChainedIsBoth(stars, selected, query);
  }

  lemma ChainedIsBoth(stars: seq<Star>, selected: Category, query: string)
    requires selected != All && query != ""
    ensures Lists.Filter(stars, Lists.Both(CategoryFilter(selected), SearchFilter(query)))
      == Lists.Filter(stars, BothFilters(selected, query))
  {
    var chained := Lists.Both(CategoryFilter(selected), SearchFilter(query));
    forall x | x in stars ensures chained(x) == BothFilters(selected, query)(x)
    {
    }
    FilterSame(stars, chained, BothFilters(selected, query));
  }

  lemma SearchOnly(stars: seq<Star>, query: string)
    requires query != ""
    requires FilterStars(stars, All, query).Listed?
    ensures FilterStars(stars, All, query).stars == Lists.Filter(stars, BothFilters(All, query))
  {
    forall x | x in stars ensures SearchFilter(query)(x) == BothFilters(All, query)(x)
    {
    }
    FilterSame(stars, SearchFilter(query), BothFilters(All, query));
  }

  /** Filters by predicates that agree on every element are equal. */
  lemma {:induction false} FilterSame<T>(xs: seq<T>, p: T -> bool, q: T -> bool)
    requires forall x :: x in xs ==> p(x) == q(x)
    ensures Lists.Filter(xs, p) == Lists.Filter(xs, q)
    decreases |xs|
  {
    if xs != [] {
      FilterSame(xs[..|xs| - 1], p, q);
      assert xs[|xs| - 1] in xs;
    }
  }

  /** The search ignores the case of the query: a query and its lower-cased form list the same stars. */
  lemma SearchIgnoresQueryCase(query: string, s: Star)
    ensures MatchesSearch(query, s) <==> MatchesSearch(Lower(query), s)
  {
    LowerIdempotent(query);
  }

  /** `star.price || '$1000/hour'`. */
  function PriceLabel(s: Star): (r: string)
    ensures r != ""
    ensures Truthy(s.price) ==> r == s.price.value
    ensures !Truthy(s.price) ==> r == "$1000/hour"
  {
    Or(s.price, Some("$1000/hour")).value
  }
}
