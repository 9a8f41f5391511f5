/** The restaurant document: required fields, defaults and the rating bounds. */
module RestaurantModel {
  import opened Domain
  import Seqs

  datatype OpeningHours = OpeningHours(day: string, open: string, close: string)

  datatype Restaurant = Restaurant(
    id: Id,
    name: string,
    description: Option<string>,
    cuisine: seq<string>,
    image: string,
    rating: real,
    reviewCount: int,
    deliveryTime: string,
    deliveryFee: int,
    minimumOrder: int,
    address: string,
    phoneNumber: Option<string>,
    isOpen: bool,
    openingHours: seq<OpeningHours>,
    ownerId: Id)

  /** The schema's casts and validators: name, image and address present, an
      owner reference that casts to an ObjectId, rating within [0, 5]. */
  predicate ValidRestaurant(r: Restaurant)
  {
    && r.name != ""
    && r.image != ""
    && r.address != ""
    && IsObjectId(r.ownerId)
    && 0.0 <= r.rating <= 5.0
  }

  /** The fields a new restaurant document is created from; `None` is a field left out. */
  datatype RestaurantFields = RestaurantFields(
    name: Option<string>,
    description: Option<string>,
    cuisine: Option<seq<string>>,
    image: Option<string>,
    rating: Option<real>,
    reviewCount: Option<int>,
    deliveryTime: Option<string>,
    deliveryFee: Option<int>,
    minimumOrder: Option<int>,
    address: Option<string>,
    phoneNumber: Option<string>,
    isOpen: Option<bool>,
    openingHours: Option<seq<OpeningHours>>,
    ownerId: Option<Id>)

  /** Creating a document: defaults fill the fields left out, then the validators run. */
  function CreateRestaurant(id: Id, f: RestaurantFields): (r: Result<Restaurant>)
    ensures r.Ok? <==>
      Truthy(f.name) && Truthy(f.image) && Truthy(f.address) && f.ownerId.Some? && IsObjectId(f.ownerId.value)
      && (f.rating.Some? ==> 0.0 <= f.rating.value <= 5.0)
    ensures r.Err? ==> r.error == ServerError
    ensures r.Ok? ==> ValidRestaurant(r.value) && r.value.id == id
    ensures r.Ok? && f.rating.None? ==> r.value.rating == 0.0
    ensures r.Ok? && f.reviewCount.None? ==> r.value.reviewCount == 0
    ensures r.Ok? && f.cuisine.None? ==> r.value.cuisine == []
    ensures r.Ok? && f.deliveryTime.None? ==> r.value.deliveryTime == "30-45 min"
    ensures r.Ok? && f.deliveryFee.None? ==> r.value.deliveryFee == 0
    ensures r.Ok? && f.minimumOrder.None? ==> r.value.minimumOrder == 0
    ensures r.Ok? && f.isOpen.None? ==> r.value.isOpen
    ensures r.Ok? && f.openingHours.None? ==> r.value.openingHours == []
  {
    var rec := Restaurant(
      id,
      GetOr(f.name, ""),
      f.description,
      GetOr(f.cuisine, []),
      GetOr(f.image, ""),
      GetOr(f.rating, 0.0),
      GetOr(f.reviewCount, 0),
      GetOr(f.deliveryTime, "30-45 min"),
      GetOr(f.deliveryFee, 0),
      GetOr(f.minimumOrder, 0),
      GetOr(f.address, ""),
      f.phoneNumber,
      GetOr(f.isOpen, true),
      GetOr(f.openingHours, []),
      GetOr(f.ownerId, ""));
    if ValidRestaurant(rec) then Ok(rec) else Err(ServerError)
  }

  /** All fields of a stored document, as a creation request would give them. */
  function FieldsOf(r: Restaurant): RestaurantFields
  {
    RestaurantFields(Some(r.name), r.description, Some(r.cuisine), Some(r.image), Some(r.rating),
      Some(r.reviewCount), Some(r.deliveryTime), Some(r.deliveryFee), Some(r.minimumOrder),
      Some(r.address), r.phoneNumber, Some(r.isOpen), Some(r.openingHours), Some(r.ownerId))
  }

  /** Creation from a valid document's own fields gives that document back, and
      only valid documents can be created. */
  lemma CreateRestaurantRoundTrip(r: Restaurant)
    ensures CreateRestaurant(r.id, FieldsOf(r)) == (if ValidRestaurant(r) then Ok(r) else Err(ServerError))
  {
  }

  /** No two restaurants share an id. */
  predicate UniqueRestaurantIds(rs: seq<Restaurant>)
  {
    forall i, j :: 0 <= i < j < |rs| ==> rs[i].id != rs[j].id
  }

  /** `Restaurant.findById`: the first document with that id. */
  function FindRestaurant(rs: seq<Restaurant>, id: Id): (r: Option<nat>)
    ensures r.Some? ==> r.value < |rs| && rs[r.value].id == id
    ensures r.Some? ==> forall k :: 0 <= k < r.value ==> rs[k].id != id
    ensures r.None? ==> forall k :: 0 <= k < |rs| ==> rs[k].id != id
  {
    Seqs.FindBy(rs, (r: Restaurant) => r.id, id)
  }

  /** `Restaurant.findOne({ ownerId })`: the first restaurant that user owns. */
  function FindOwned(rs: seq<Restaurant>, owner: Id): (r: Option<nat>)
    ensures r.Some? ==> r.value < |rs| && rs[r.value].ownerId == owner
    ensures r.Some? ==> forall k :: 0 <= k < r.value ==> rs[k].ownerId != owner
    ensures r.None? ==> forall k :: 0 <= k < |rs| ==> rs[k].ownerId != owner
  {
    Seqs.FindBy(rs, (r: Restaurant) => r.ownerId, owner)
  }
}
