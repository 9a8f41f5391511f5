/** The collections the controllers read and update in place, one document
    per element in the collection's natural (insertion) order. */
module Store {
  import opened Domain
  import opened OrderModel
  import opened RestaurantModel
  import opened MenuItemModel

  /** The order collection. */
  class OrderStore {
    var orders: seq<Order>

    /** Ids are unique and in stored form (as is the restaurant each order
        refers to), every document passed the schema, and every order is in a
        state the lifecycle operations can produce. */
    ghost predicate Valid()
      reads this
    {
      && UniqueIds(orders)
      && (forall k :: 0 <= k < |orders| ==> IsStoredId(orders[k].id) && IsStoredId(orders[k].restaurantId))
      && (forall k :: 0 <= k < |orders| ==> ValidOrder(orders[k]) && LifecycleConsistent(orders[k]))
    }

    constructor ()
      ensures Valid() && orders == []
    {
      orders := [];
    }
  }

  /** The restaurant and menu-item collections. */
  class Catalog {
    var restaurants: seq<Restaurant>
    var menuItems: seq<MenuItem>

    /** Ids are unique and in stored form (as is the restaurant each menu item
        refers to), and every document passed its schema. */
    ghost predicate Valid()
      reads this
    {
      && UniqueRestaurantIds(restaurants)
      && UniqueMenuIds(menuItems)
      && (forall k :: 0 <= k < |restaurants| ==> IsStoredId(restaurants[k].id))
      && (forall k :: 0 <= k < |menuItems| ==> IsStoredId(menuItems[k].id) && IsStoredId(menuItems[k].restaurantId))
      && (forall k :: 0 <= k < |restaurants| ==> ValidRestaurant(restaurants[k]))
      && (forall k :: 0 <= k < |menuItems| ==> ValidMenuItem(menuItems[k]))
    }

    constructor ()
      ensures Valid() && restaurants == [] && menuItems == []
    {
      restaurants, menuItems := [], [];
    }
  }
}
