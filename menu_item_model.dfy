/** The menu item document: required fields, the price lower bound, defaults. */
module MenuItemModel {
  import opened Domain
  import Seqs

  datatype MenuItem = MenuItem(
    id: Id,
    restaurantId: Id,
    name: string,
    description: Option<string>,
    price: int,
    image: string,
    category: string,
    isAvailable: bool,
    preparationTime: int)

  /** The schema's casts and validators: a restaurant reference that casts to
      an ObjectId, name, image and category present, price not negative. */
  predicate ValidMenuItem(m: MenuItem)
  {
    && IsObjectId(m.restaurantId)
    && m.name != ""
    && m.price >= 0
    && m.image != ""
    && m.category != ""
  }

  /** The menu-item fields of a request body; `None` is a field left out. */
  datatype MenuItemFields = MenuItemFields(
    name: Option<string>,
    description: Option<string>,
    price: Option<int>,
    category: Option<string>,
    image: Option<string>,
    preparationTime: Option<int>,
    isAvailable: Option<bool>)

  /** Creating a document: defaults fill the fields left out, then the validators run. */
  function CreateMenuItem(id: Id, restaurantId: Id, f: MenuItemFields): (r: Result<MenuItem>)
    ensures r.Ok? <==>
      IsObjectId(restaurantId) && Truthy(f.name) && f.price.Some? && f.price.value >= 0
      && Truthy(f.image) && Truthy(f.category)
    ensures r.Err? ==> r.error == ServerError
    ensures r.Ok? ==> ValidMenuItem(r.value) && r.value.id == id && r.value.restaurantId == restaurantId
    ensures r.Ok? && f.isAvailable.None? ==> r.value.isAvailable
    ensures r.Ok? && f.preparationTime.None? ==> r.value.preparationTime == 15
  {
    var rec := MenuItem(id, restaurantId, GetOr(f.name, ""), f.description, GetOr(f.price, -1),
      GetOr(f.image, ""), GetOr(f.category, ""), GetOr(f.isAvailable, true), GetOr(f.preparationTime, 15));
    if ValidMenuItem(rec) then Ok(rec) else Err(ServerError)
  }

  function FieldsOf(m: MenuItem): MenuItemFields
  {
    MenuItemFields(Some(m.name), m.description, Some(m.price), Some(m.category), Some(m.image),
      Some(m.preparationTime), Some(m.isAvailable))
  }

  /** Creation from a valid document's own fields gives that document back. */
  lemma CreateMenuItemRoundTrip(m: MenuItem)
    ensures CreateMenuItem(m.id, m.restaurantId, FieldsOf(m)) == (if ValidMenuItem(m) then Ok(m) else Err(ServerError))
  {
  }

  /** `MenuItem.findById`: the first document with that id. */
  function FindMenuItem(items: seq<MenuItem>, id: Id): (r: Option<nat>)
    ensures r.Some? ==> r.value < |items| && items[r.value].id == id
    ensures r.Some? ==> forall k :: 0 <= k < r.value ==> items[k].id != id
    ensures r.None? ==> forall k :: 0 <= k < |items| ==> items[k].id != id
  {
    Seqs.FindBy(items, (m: MenuItem) => m.id, id)
  }

  /** No two menu items share an id. */
  predicate UniqueMenuIds(items: seq<MenuItem>)
  {
    forall i, j :: 0 <= i < j < |items| ==> items[i].id != items[j].id
  }

  /** Lexicographic order on strings, character by character; a prefix comes first. */
  predicate StrLe(a: string, b: string)
  {
    a == [] || (b != [] && (a[0] < b[0] || (a[0] == b[0] && StrLe(a[1..], b[1..]))))
  }

  lemma {:induction false} StrLeTotal(a: string, b: string)
    ensures StrLe(a, b) || StrLe(b, a)
  {
    if a != [] && b != [] && a[0] == b[0] {
      StrLeTotal(a[1..], b[1..]);
    }
  }

  lemma {:induction false} StrLeReflexive(a: string)
    ensures StrLe(a, a)
  {
    if a != [] {
      StrLeReflexive(a[1..]);
    }
  }

  lemma {:induction false} StrLeAntisymmetric(a: string, b: string)
    requires StrLe(a, b) && StrLe(b, a)
    ensures a == b
  {
    if a != [] && b != [] {
      StrLeAntisymmetric(a[1..], b[1..]);
      assert a == [a[0]] + a[1..] && b == [b[0]] + b[1..];
    }
  }

  lemma {:induction false} StrLeTransitive(a: string, b: string, c: string)
    requires StrLe(a, b) && StrLe(b, c)
    ensures StrLe(a, c)
  {
    if a != [] && b != [] && c != [] && a[0] == b[0] && b[0] == c[0] {
      StrLeTransitive(a[1..], b[1..], c[1..]);
    }
  }

  /** `sort({ category: 1, name: 1 })`: by category, then by name. */
  predicate MenuOrder(a: MenuItem, b: MenuItem)
  {
    (StrLe(a.category, b.category) && a.category != b.category)
    || (a.category == b.category && StrLe(a.name, b.name))
  }

  lemma MenuOrderIsTotalPreorder()
    ensures Seqs.TotalPreorder(MenuOrder)
  {
    forall a, b ensures MenuOrder(a, b) || MenuOrder(b, a) {
      StrLeTotal(a.category, b.category);
      StrLeTotal(a.name, b.name);
    }
    forall a, b, c | MenuOrder(a, b) && MenuOrder(b, c) ensures MenuOrder(a, c) {
      if a.category == b.category && b.category == c.category {
        StrLeTransitive(a.name, b.name, c.name);
      } else {
        StrLeReflexive(b.category);
        StrLeTransitive(a.category, b.category, c.category);
        if a.category == c.category {
          StrLeAntisymmetric(a.category, b.category);
        }
      }
    }
  }
}
