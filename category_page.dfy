/**
 * The page listing the stars of one category: which stars it loads, the
 * `categoryInfo` it looks up for the route's category id (a value the page
 * computes but never renders), the "starting price" in its stats bar and the
 * fallbacks on each star's card.
 */
module CategoryPage {
  import opened Js
  import Lists

  /** A document of the `stars` collection, as far as the category page reads it;
    * the hourly rate and the rating are whole numbers. */
  datatype Star = Star(
    id: string, name: Option<string>, category: Option<string>, hourlyRate: Option<int>,
    profilePicture: Option<string>, advertisingImages: Option<seq<string>>,
    rating: Option<int>, specialties: Option<seq<string>>)

  function HasCategory(categoryId: string): Star -> bool
  {
    (s: Star) => s.category == Some(categoryId)
  }

  /** `where('category', '==', categoryId)` over the collection, in the store's order. */
  function LoadCategory(stars: seq<Star>, categoryId: string): (r: seq<Star>)
    ensures forall s :: s in r <==> s in stars && s.category == Some(categoryId)
  {
    Lists.Filter(stars, HasCategory(categoryId))
  }

  /** Exactly the stars whose category equals the route id are loaded, in the store's order. */
  lemma LoadCategoryExact(stars: seq<Star>, categoryId: string)
    ensures var r := LoadCategory(stars, categoryId);
      && (forall s :: s in r <==> s in stars && s.category == Some(categoryId))
      && Lists.Subsequence(r, stars)
  {
    Lists.FilterIsSubsequence(stars, HasCategory(categoryId));
  }

  // ---------------------------------------------------------------------------
  // The starting price
  // ---------------------------------------------------------------------------

  /** `s.hourlyRate || 0`: a missing (or zero) rate counts as 0. */
  function RateOrZero(s: Star): int
  {
    if s.hourlyRate.Some? && s.hourlyRate.value != 0 then s.hourlyRate.value else 0
  }

  /** A price shown in the stats bar: a number, or `Infinity`. */
  datatype Price = Finite(amount: int) | Infinity

  /** `Math.min(...rates)`: `Infinity` for no argument. */
  function MinOf(rates: seq<int>): (m: Price)
    ensures m == Infinity <==> rates == []
    ensures m.Finite? ==> (forall k :: 0 <= k < |rates| ==> m.amount <= rates[k])
                          && exists k :: 0 <= k < |rates| && rates[k] == m.amount
    decreases |rates|
  {
    if rates == [] then Infinity
    else
      var rest := MinOf(rates[1..]);
      if rest == Infinity || rates[0] <= rest.amount then
        assert forall k :: 1 <= k < |rates| ==> rates[k] == rates[1..][k - 1];
        Finite(rates[0])
      else
        assert forall k :: 1 <= k < |rates| ==> rates[k] == rates[1..][k - 1];
        var j :| 0 <= j < |rates[1..]| && rates[1..][j] == rest.amount;
        assert rates[j + 1] == rest.amount;
        rest
  }

  /** `Math.min(...stars.map(s => s.hourlyRate || 0)) || 0`; the minimum 0 stays 0 and
    * `Infinity` is truthy, so `|| 0` never changes the value. */
  function StartingPrice(stars: seq<Star>): (p: Price)
    ensures p == Infinity <==> stars == []
  {
    var m := MinOf(seq(|stars|, k requires 0 <= k < |stars| => RateOrZero(stars[k])));
    if m.Finite? && m.amount == 0 then Finite(0) else m
  }

  /** The starting price is at most every star's rate, a missing rate counting as 0, and is
    * the rate of one of the stars; with no stars it is `Infinity`. */
  lemma StartingPriceIsMinimum(stars: seq<Star>)
    ensures StartingPrice(stars) == Infinity <==> stars == []
    ensures StartingPrice(stars).Finite? ==>
      && (forall s :: s in stars ==> StartingPrice(stars).amount <= RateOrZero(s))
      && exists s :: s in stars && RateOrZero(s) == StartingPrice(stars).amount
  {
    var rates := seq(|stars|, k requires 0 <= k < |stars| => RateOrZero(stars[k]));
    var m := MinOf(rates);
    if m.Finite? {
      forall s | s in stars ensures m.amount <= RateOrZero(s)
      {
        var k :| 0 <= k < |stars| && stars[k] == s;
        assert rates[k] == RateOrZero(s);
      }
      var k :| 0 <= k < |rates| && rates[k] == m.amount;
      assert stars[k] in stars;
    }
  }

  /** A star without a rate among stars whose rates are not negative makes the starting price 0. */
  lemma MissingRateMakesPriceZero(stars: seq<Star>, s: Star)
    requires s in stars && s.hourlyRate.None?
    requires forall t :: t in stars && t.hourlyRate.Some? ==> t.hourlyRate.value >= 0
    ensures StartingPrice(stars) == Finite(0)
  {
    StartingPriceIsMinimum(stars);
    var p := StartingPrice(stars);
    assert p.amount <= RateOrZero(s) == 0;
    var t :| t in stars && RateOrZero(t) == p.amount;
  }

  // ---------------------------------------------------------------------------
  // The category lookup
  // ---------------------------------------------------------------------------

  datatype Info = Info(title: string, description: string, image: string)

  const EmptyInfo: Info := Info("", "", "")

  /** What `{...}[categoryId] || {...}` yields: an entry of the object literal or the empty
    * default, or, for the name of a member every object inherits, that member (a function,
    * or the prototype object for `__proto__`), which is truthy and so kept. */
  datatype Lookup = Entry(info: Info) | Inherited(member: string)

  const Slugs: set<string> := {"pop-singer", "dj", "band", "hip-hop"}

  /** The members of `Object.prototype`, which an object literal inherits. */
  const InheritedNames: set<string> := {
    "constructor", "hasOwnProperty", "isPrototypeOf", "propertyIsEnumerable",
    "toLocaleString", "toString", "valueOf", "__proto__",
    "__defineGetter__", "__defineSetter__", "__lookupGetter__", "__lookupSetter__"}

  const PopSingerInfo: Info := Info("Pop Singers", "Book talented pop singers for your events and performances.",
    "https://images.unsplash.com/photo-1516450360452-9312f5e86fc7?auto=format&fit=crop&w=1920")
  const DjInfo: Info := Info("DJs", "Find the perfect DJ for your party or event.",
    "https://images.unsplash.com/photo-1571266866051-47551e216e1c?auto=format&fit=crop&w=1920")
  const BandInfo: Info := Info("Bands", "Book amazing bands for live performances.",
    "https://images.unsplash.com/photo-1511671782779-c97d3d27a1d4?auto=format&fit=crop&w=1920")
  const HipHopInfo: Info := Info("Hip-Hop Artists", "Connect with talented hip-hop artists for your events.",
    "https://images.unsplash.com/photo-1516450360452-9312f5e86fc7?auto=format&fit=crop&w=1920")

  /** The `categoryInfo` lookup with its empty default. The page computes it and renders
    * nothing from it. */
  function CategoryInfo(categoryId: string): (r: Lookup)
    ensures r.Inherited? ==> categoryId in InheritedNames && r.member == categoryId
  {
    if categoryId == "pop-singer" then Entry(PopSingerInfo)
    else if categoryId == "dj" then Entry(DjInfo)
    else if categoryId == "band" then Entry(BandInfo)
    else if categoryId == "hip-hop" then Entry(HipHopInfo)
    else if categoryId in InheritedNames then Inherited(categoryId)
    else Entry(EmptyInfo)
  }

  /** Only the four slugs find an entry with a title; the names of inherited members find
    * that member; every other id gets the empty default. */
  lemma CategoryInfoOnlyForSlugs(categoryId: string)
    ensures categoryId in Slugs ==> CategoryInfo(categoryId).Entry? && CategoryInfo(categoryId).info.title != ""
    ensures categoryId in InheritedNames ==> CategoryInfo(categoryId) == Inherited(categoryId)
    ensures categoryId !in Slugs && categoryId !in InheritedNames ==> CategoryInfo(categoryId) == Entry(EmptyInfo)
  {
    var r := CategoryInfo(categoryId);
    SlugsAreOwn(categoryId);
    if categoryId == "pop-singer" {
      assert |r.info.title| == |"Pop Singers"| > 0;
    } else if categoryId == "dj" {
      assert |r.info.title| == |"DJs"| > 0;
    } else if categoryId == "band" {
      assert |r.info.title| == |"Bands"| > 0;
    } else if categoryId == "hip-hop" {
      assert |r.info.title| == |"Hip-Hop Artists"| > 0;
    }
  }

  /** No slug is the name of an inherited member. */
  lemma SlugsAreOwn(id: string)
    ensures id in Slugs ==> id !in InheritedNames
  {
  }

  /** The category ids the home page links to. */
  const HomePageCategoryIds: seq<string> := ["Pop Singer", "DJ", "Band", "Hip-Hop Artist"]

  /** The category values the registration form offers. */
  const RegisterCategoryOptions: set<string> := {"", "Hip-Hop Artist", "Pop Singer", "DJ", "Music Band"}

  /** Every category id the home page links to gets the empty default from the lookup. */
  lemma HomePageLinksGetEmptyDefault()
    ensures forall id :: id in HomePageCategoryIds ==> CategoryInfo(id) == Entry(EmptyInfo)
  {
  }

  /** The home page's "Band" page never lists a star whose category came from the
    * registration form, which offers "Music Band" instead. */
  lemma RegisteredBandsMissBandPage(stars: seq<Star>)
    requires forall s :: s in stars ==> s.category.Some? && s.category.value in RegisterCategoryOptions
    ensures LoadCategory(stars, "Band") == []
  {
    LoadCategoryExact(stars, "Band");
  }

  // ---------------------------------------------------------------------------
  // The card
  // ---------------------------------------------------------------------------

  const DefaultAvatar: string := "/default-avatar.png"

  /** `profilePicture || advertisingImages?.[0] || '/default-avatar.png'`. */
  function CardImage(s: Star): (r: string)
    ensures r != ""
    ensures Truthy(s.profilePicture) ==> r == s.profilePicture.value
    ensures !Truthy(s.profilePicture) && Truthy(FirstImage(s.advertisingImages)) ==>
      r == s.advertisingImages.value[0]
    ensures !Truthy(s.profilePicture) && !Truthy(FirstImage(s.advertisingImages)) ==> r == DefaultAvatar
  {
    Or(Or(s.profilePicture, FirstImage(s.advertisingImages)), Some(DefaultAvatar)).value
  }

  datatype Rating = Rated(value: int) | New

  /** `rating || 'New'`: a missing or zero rating shows "New". */
  function RatingLabel(s: Star): (r: Rating)
    ensures r == New <==> s.rating.None? || s.rating.value == 0
    ensures r.Rated? ==> s.rating == Some(r.value)
  {
    if s.rating.Some? && s.rating.value != 0 then Rated(s.rating.value) else New
  }

  /** `specialties?.slice(0, 3)`. */
  function ShownSpecialties(s: Star): (r: Option<seq<string>>)
    ensures r.None? <==> s.specialties.None?
    ensures r.Some? ==> |r.value| <= 3 && |r.value| <= |s.specialties.value|
                        && r.value == s.specialties.value[..|r.value|]
    ensures r.Some? && |s.specialties.value| <= 3 ==> r.value == s.specialties.value
    ensures r.Some? && |s.specialties.value| > 3 ==> |r.value| == 3
  {
    if s.specialties.None? then None
    else
      var all := s.specialties.value;
      Some(if |all| <= 3 then all else all[..3])
  }
}
