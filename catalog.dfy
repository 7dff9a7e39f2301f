/**
 * The read-only catalog of restaurants and their menus, and the two
 * first-match lookups the handlers perform on it with Python's `next(...)`.
 */
module Catalog {
  import opened Wrappers

  datatype MenuItem = MenuItem(id: int, name: string, price: nat)
  datatype Restaurant = Restaurant(id: int, name: string, menu: seq<MenuItem>)

  /** The response of the restaurant detail route. */
  datatype Page = NotFound404 | MenuPage(restaurant: Restaurant)

  /**
   * The position of the first element of `s` that satisfies `p`, as the
   * generator expression under `next(..., None)` finds it; `None` exactly
   * when no element does.
   */
  function FirstMatch<T>(s: seq<T>, p: T -> bool): (r: Option<nat>)
    ensures r.Some? ==> r.value < |s| && p(s[r.value])
    ensures r.Some? ==> forall j :: 0 <= j < r.value ==> !p(s[j])
    ensures r.None? <==> forall j :: 0 <= j < |s| ==> !p(s[j])
  {
    if |s| == 0 then None
    else if p(s[0]) then Some(0)
    else match FirstMatch(s[1..], p)
      case None => None
      case Some(k) => Some(k + 1)
  }

  /** The first restaurant of the catalog whose id is `id`. */
  function FindRestaurant(catalog: seq<Restaurant>, id: int): (r: Option<Restaurant>)
    ensures r.None? <==> forall k :: 0 <= k < |catalog| ==> catalog[k].id != id
    ensures r.Some? ==> exists k :: 0 <= k < |catalog| && catalog[k] == r.value && r.value.id == id &&
                                    forall j :: 0 <= j < k ==> catalog[j].id != id
  {
    match FirstMatch(catalog, (x: Restaurant) => x.id == id)
    case None => None
    case Some(k) => Some(catalog[k])
  }

  /** The first item of a menu whose id is `id`. */
  function FindItem(menu: seq<MenuItem>, id: int): (r: Option<MenuItem>)
    ensures r.None? <==> forall k :: 0 <= k < |menu| ==> menu[k].id != id
    ensures r.Some? ==> exists k :: 0 <= k < |menu| && menu[k] == r.value && r.value.id == id &&
                                    forall j :: 0 <= j < k ==> menu[j].id != id
  {
    match FirstMatch(menu, (x: MenuItem) => x.id == id)
    case None => None
    case Some(k) => Some(menu[k])
  }

  /** The restaurant detail route: a bare 404 for an unknown id, else its menu. */
  function RestaurantPage(catalog: seq<Restaurant>, id: int): (p: Page)
    ensures p.NotFound404? <==> forall k :: 0 <= k < |catalog| ==> catalog[k].id != id
    ensures p.MenuPage? ==> p.restaurant.id == id && p.restaurant in catalog
  {
    match FindRestaurant(catalog, id)
    case None => NotFound404
    case Some(rest) => MenuPage(rest)
  }

  /** No two restaurants share an id, and no two items within one menu do. */
  ghost predicate UniqueIds(catalog: seq<Restaurant>) {
    (forall j, k :: 0 <= j < k < |catalog| ==> catalog[j].id != catalog[k].id) &&
    (forall r, j, k :: r in catalog && 0 <= j < k < |r.menu| ==> r.menu[j].id != r.menu[k].id)
  }

  /** The pair (restaurant name, item name) names an item on some restaurant's menu. */
  ghost predicate Offered(catalog: seq<Restaurant>, restaurant: string, item: string) {
    exists r, i :: r in catalog && i in r.menu && r.name == restaurant && i.name == item
  }

  /** The demo data the application starts with. */
  function DemoCatalog(): (c: seq<Restaurant>)
    ensures UniqueIds(c)
  {
    [ Restaurant(1, "Pizza Palace", [MenuItem(1, "Margherita Pizza", 10), MenuItem(2, "Pepperoni Pizza", 12)]),
      Restaurant(2, "Burger Barn", [MenuItem(1, "Classic Burger", 8), MenuItem(2, "Cheese Burger", 9)]) ]
  }

  /** When ids are unique, first match is the only match: every restaurant is found by its own id. */
  lemma LookupUnique(catalog: seq<Restaurant>, k: nat)
    requires UniqueIds(catalog) && k < |catalog|
    ensures FindRestaurant(catalog, catalog[k].id) == Some(catalog[k])
  {
    var r := FindRestaurant(catalog, catalog[k].id);
    var k' :| 0 <= k' < |catalog| && catalog[k'] == r.value && r.value.id == catalog[k].id &&
              forall j :: 0 <= j < k' ==> catalog[j].id != catalog[k].id;
    assert !(k < k');
    assert !(k' < k);
  }

  /** When ids are unique, every item of a restaurant's menu is found by its own id. */
  lemma ItemLookupUnique(catalog: seq<Restaurant>, rest: Restaurant, k: nat)
    requires UniqueIds(catalog) && rest in catalog && k < |rest.menu|
    ensures FindItem(rest.menu, rest.menu[k].id) == Some(rest.menu[k])
  {
    var r := FindItem(rest.menu, rest.menu[k].id);
    var k' :| 0 <= k' < |rest.menu| && rest.menu[k'] == r.value && r.value.id == rest.menu[k].id &&
              forall j :: 0 <= j < k' ==> rest.menu[j].id != rest.menu[k].id;
    assert !(k < k');
    assert !(k' < k);
  }
}
