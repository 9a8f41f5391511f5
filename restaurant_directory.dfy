/** The customer-facing restaurant handlers: the list of open restaurants with
    its cuisine and rating filters, one restaurant by id, and a restaurant's
    menu. Both by-id handlers reject a malformed id with 400 before looking
    anything up. */
module RestaurantDirectory {
  import opened Domain
  import opened RestaurantModel
  import opened MenuItemModel
  import Seqs

  /** The query string of `getRestaurants`: `cuisine`, and `rating` read as a number. */
  datatype RestaurantQuery = RestaurantQuery(cuisine: Option<string>, minRating: Option<real>)

  /** Open, serving the cuisine when a non-empty one is asked for, rated at
      least the minimum when one is given. */
  function Listed(q: RestaurantQuery): Restaurant -> bool
  {
    (r: Restaurant) =>
      r.isOpen
      && (!Truthy(q.cuisine) || q.cuisine.value in r.cuisine)
      && (q.minRating.None? || r.rating >= q.minRating.value)
  }

  /** `sort({ rating: -1 })`. */
  predicate HigherRated(a: Restaurant, b: Restaurant)
  {
    a.rating >= b.rating
  }

  /** `getRestaurants`: the matching restaurants, best rated first. */
  function GetRestaurants(restaurants: seq<Restaurant>, q: RestaurantQuery): (r: seq<Restaurant>)
    ensures |r| <= |restaurants|
  {
    Seqs.SortBy(Seqs.Filter(restaurants, Listed(q)), HigherRated)
  }

  /** The list holds exactly the open restaurants that pass both filters, each
      as often as it is stored, best rated first. */
  lemma RestaurantsExact(restaurants: seq<Restaurant>, q: RestaurantQuery)
    ensures Seqs.Sorted(GetRestaurants(restaurants, q), HigherRated)
    ensures forall r :: multiset(GetRestaurants(restaurants, q))[r] ==
                        (if r.isOpen && (!Truthy(q.cuisine) || q.cuisine.value in r.cuisine)
                            && (q.minRating.None? || r.rating >= q.minRating.value)
                         then multiset(restaurants)[r] else 0)
  {
    assert Seqs.TotalPreorder(HigherRated);
    Seqs.SortFilter(restaurants, Listed(q), HigherRated);
  }

  /** A filter only narrows the list: every restaurant listed under a query is
      listed without one, and a closed restaurant is never listed. */
  lemma FiltersNarrow(restaurants: seq<Restaurant>, q: RestaurantQuery)
    ensures forall r :: multiset(GetRestaurants(restaurants, q))[r] <=
                        multiset(GetRestaurants(restaurants, RestaurantQuery(None, None)))[r]
    ensures forall k :: 0 <= k < |GetRestaurants(restaurants, q)| ==> GetRestaurants(restaurants, q)[k].isOpen
  {
    var open := RestaurantQuery(None, None);
    var f := Seqs.Filter(restaurants, Listed(q));
    Seqs.FilterMultiset(restaurants, Listed(q));
    Seqs.FilterMultiset(restaurants, Listed(open));
    var list := GetRestaurants(restaurants, q);
    forall k | 0 <= k < |list| ensures list[k].isOpen {
      assert list[k] in multiset(f);
      assert Listed(q)(list[k]);
    }
  }

  /** `getRestaurantById`: 400 for a malformed id, 404 for an unknown one. The
      id is matched whatever the case of its letters. */
  function GetRestaurantById(restaurants: seq<Restaurant>, id: string): (r: Result<Restaurant>)
    ensures !IsObjectId(id) ==> r == Err(InvalidRestaurantId)
    ensures IsObjectId(id) && FindRestaurant(restaurants, CastId(id).value).None? ==> r == Err(RestaurantNotFound)
    ensures r.Ok? <==> IsObjectId(id) && exists k :: 0 <= k < |restaurants| && restaurants[k].id == CastId(id).value
    ensures r.Ok? ==> r.value.id == CastId(id).value && r.value in restaurants
  {
    match CastId(id)
    case None => Err(InvalidRestaurantId)
    case Some(rid) =>
      match FindRestaurant(restaurants, rid)
      case None => Err(RestaurantNotFound)
      case Some(k) => Ok(restaurants[k])
  }

  /** Any spelling of a stored restaurant's id, in either letter case, finds
      that restaurant when ids are unique. */
  lemma RestaurantByAnySpelling(restaurants: seq<Restaurant>, k: nat, id: string)
    requires UniqueRestaurantIds(restaurants)
    requires k < |restaurants| && IsObjectId(id) && restaurants[k].id == CastId(id).value
    ensures GetRestaurantById(restaurants, id) == Ok(restaurants[k])
  {
  }

  /** An available item of the restaurant with that id. */
  function OnMenu(restaurantId: Id): MenuItem -> bool
  {
    (m: MenuItem) => m.restaurantId == restaurantId && m.isAvailable
  }

  /** `getRestaurantMenu`: 400 for a malformed id; otherwise that restaurant's
      available items by category, then name. An id of no restaurant is not an
      error: its menu is empty. The id is matched whatever the case of its letters. */
  function GetRestaurantMenu(items: seq<MenuItem>, id: string): (r: Result<seq<MenuItem>>)
    ensures r.Err? <==> !IsObjectId(id)
    ensures r.Err? ==> r == Err(InvalidRestaurantId)
  {
    match CastId(id)
    case None => Err(InvalidRestaurantId)
    case Some(rid) => Ok(Seqs.SortBy(Seqs.Filter(items, OnMenu(rid)), MenuOrder))
  }

  /** The menu holds exactly the available items of that restaurant, each as
      often as it is stored, by category then name. */
  lemma MenuExact(items: seq<MenuItem>, id: string)
    requires IsObjectId(id)
    ensures Seqs.Sorted(GetRestaurantMenu(items, id).value, MenuOrder)
    ensures forall m :: multiset(GetRestaurantMenu(items, id).value)[m] ==
                        if m.restaurantId == CastId(id).value && m.isAvailable then multiset(items)[m] else 0
  {
    MenuOrderIsTotalPreorder();
    Seqs.SortFilter(items, OnMenu(CastId(id).value), MenuOrder);
  }

  /** Two spellings of an id that differ only in letter case give the same
      restaurant and the same menu. */
  lemma DirectoryIgnoresCase(restaurants: seq<Restaurant>, items: seq<MenuItem>, a: string, b: string)
    requires |a| == |b|
    requires forall k :: 0 <= k < |a| ==> LowerHex(a[k]) == LowerHex(b[k])
    ensures GetRestaurantById(restaurants, a) == GetRestaurantById(restaurants, b)
    ensures GetRestaurantMenu(items, a) == GetRestaurantMenu(items, b)
  {
    CastIgnoresCase(a, b);
  }

  /** A well-formed id that no item belongs to has an empty menu rather than a 404. */
  lemma UnknownRestaurantEmptyMenu(items: seq<MenuItem>, id: string)
    requires IsObjectId(id)
    requires forall k :: 0 <= k < |items| ==> items[k].restaurantId != CastId(id).value
    ensures GetRestaurantMenu(items, id) == Ok([])
  {
  }
}
