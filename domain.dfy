/** Value domains shared by the whole backend: identifiers, roles, the order
    and payment status enumerations, the acting user, and the HTTP errors the
    controllers answer with. */
module Domain {

  /** A document identifier (a MongoDB ObjectId in its hex-string form; see
      `CastId` for how a request's id becomes one). */
  type Id = string

  datatype Option<+T> = None | Some(value: T)

  /** The three kinds of account: 'customer', 'rider', 'restaurant'. */
  datatype Role = CustomerRole | RiderRole | RestaurantRole

  /** The closed set of seven order states. */
  datatype Status = Pending | Confirmed | Preparing | Ready | PickedUp | Delivered | Cancelled

  datatype PaymentStatus = PaymentPending | Paid | Failed

  /** The wire name of a status, as stored in the order document. */
  function StatusName(s: Status): string
  {
    match s
    case Pending => "pending"
    case Confirmed => "confirmed"
    case Preparing => "preparing"
    case Ready => "ready"
    case PickedUp => "picked-up"
    case Delivered => "delivered"
    case Cancelled => "cancelled"
  }

  /** Reads a status from its wire name; any other string is not a status. */
  function ParseStatus(name: string): (r: Option<Status>)
    ensures r.Some? ==> StatusName(r.value) == name
  {
    if name == "pending" then Some(Pending)
    else if name == "confirmed" then Some(Confirmed)
    else if name == "preparing" then Some(Preparing)
    else if name == "ready" then Some(Ready)
    else if name == "picked-up" then Some(PickedUp)
    else if name == "delivered" then Some(Delivered)
    else if name == "cancelled" then Some(Cancelled)
    else None
  }

  /** Every status name reads back as that status, so the seven names are distinct. */
  lemma ParseStatusName(s: Status)
    ensures ParseStatus(StatusName(s)) == Some(s)
  {
    match s
    case Pending =>
    case Confirmed => assert StatusName(s) != "pending";
    case Preparing =>
    case Ready =>
    case PickedUp =>
    case Delivered =>
    case Cancelled =>
  }

  predicate IsHexDigit(c: char)
  {
    ('0' <= c <= '9') || ('a' <= c <= 'f') || ('A' <= c <= 'F')
  }

  /** The 24-hex-digit string form of an ObjectId, in either letter case. */
  predicate IsObjectId(s: string)
  {
    |s| == 24 && forall k :: 0 <= k < |s| ==> IsHexDigit(s[k])
  }

  /** A hex digit in lower case; every other character unchanged. */
  function LowerHex(c: char): (d: char)
    ensures IsHexDigit(d) <==> IsHexDigit(c)
    ensures !('A' <= d <= 'F')
  {
    if 'A' <= c <= 'F' then (c as int + 32) as char else c
  }

  /** The string an ObjectId prints as: its hex digits in lower case. */
  function Canonical(s: string): (t: string)
    ensures |t| == |s|
    ensures forall k :: 0 <= k < |s| ==> t[k] == LowerHex(s[k])
  {
    seq(|s|, k requires 0 <= k < |s| => LowerHex(s[k]))
  }

  /** An id as the database stores and returns it. */
  predicate IsStoredId(s: string)
  {
    IsObjectId(s) && forall k :: 0 <= k < |s| ==> !('A' <= s[k] <= 'F')
  }

  /** Casting a request id to an ObjectId, as a lookup by id or a save does:
      a well-formed id becomes the stored form of that ObjectId, whatever the
      case of its letters; a malformed one makes the cast throw (None). */
  function CastId(s: string): (r: Option<Id>)
    ensures r.Some? <==> IsObjectId(s)
    ensures r.Some? ==> IsStoredId(r.value) && |r.value| == |s|
    ensures r.Some? ==> forall k :: 0 <= k < |s| ==> r.value[k] == LowerHex(s[k])
  {
    if IsObjectId(s) then Some(Canonical(s)) else None
  }

  /** Two spellings that differ only in the case of their letters cast alike. */
  lemma CastIgnoresCase(a: string, b: string)
    requires |a| == |b|
    requires forall k :: 0 <= k < |a| ==> LowerHex(a[k]) == LowerHex(b[k])
    ensures CastId(a) == CastId(b)
  {
    assert Canonical(a) == Canonical(b);
    forall k | 0 <= k < |a| ensures IsHexDigit(a[k]) <==> IsHexDigit(b[k]) {
      assert IsHexDigit(LowerHex(a[k])) <==> IsHexDigit(LowerHex(b[k]));
    }
  }

  /** A stored id casts to itself, and a cast id casts to itself again. */
  lemma CastStored(s: string)
    requires IsStoredId(s)
    ensures CastId(s) == Some(s)
  {
    assert Canonical(s) == s;
  }

  /** The authenticated account as the handlers see it. */
  datatype User = User(id: Id, fullName: string, role: Role, isActive: bool)

  /** Every early answer of a handler; `Code` gives its HTTP status. */
  datatype Error =
    | Unauthorized            // no user on the request
    | NoToken                 // missing or non-Bearer Authorization header
    | InvalidToken            // token verification failed
    | UserNotFound            // token names no user, or an inactive one
    | InsufficientRole        // authorize: role not in the allowed list
    | RestaurantOwnersOnly
    | RidersOnly
    | AccessDenied            // order read by someone else's customer account
    | OrderNotYours           // order of another restaurant
    | MenuItemNotYours        // menu item of another restaurant
    | NotYourDelivery         // order claimed by another rider (or by nobody)
    | RestaurantNotFound
    | OrderNotFound
    | MenuItemNotFound
    | InvalidStatus
    | NotReadyForPickup
    | AlreadyAssigned
    | NotPickedUp
    | InvalidRestaurantId
    | ServerError             // an exception the handler caught: a failed id cast or a failed validation
  {
    function Code(): (c: nat)
      ensures 400 <= c <= 500
      ensures c == 401 <==> (Unauthorized? || NoToken? || InvalidToken? || UserNotFound?)
      ensures c == 403 <==> (InsufficientRole? || RestaurantOwnersOnly? || RidersOnly? || AccessDenied?
                             || OrderNotYours? || MenuItemNotYours? || NotYourDelivery?)
      ensures c == 404 <==> (RestaurantNotFound? || OrderNotFound? || MenuItemNotFound?)
      ensures c == 500 <==> ServerError?
    {
      match this
      case Unauthorized | NoToken | InvalidToken | UserNotFound => 401
      case InsufficientRole | RestaurantOwnersOnly | RidersOnly | AccessDenied
        | OrderNotYours | MenuItemNotYours | NotYourDelivery => 403
      case RestaurantNotFound | OrderNotFound | MenuItemNotFound => 404
      case InvalidStatus | NotReadyForPickup | AlreadyAssigned | NotPickedUp | InvalidRestaurantId => 400
      case ServerError => 500
    }
  }

  /** A handler's answer: the data it sends with 200/201, or an error. */
  datatype Result<+T> = Ok(value: T) | Err(error: Error)

  /** The supplied value, or the schema default when the field was left out. */
  function GetOr<T>(o: Option<T>, default: T): T
  {
    if o.Some? then o.value else default
  }

  /** JavaScript truthiness of an optional request string: present and non-empty. */
  predicate Truthy(s: Option<string>)
  {
    s.Some? && s.value != ""
  }
}
