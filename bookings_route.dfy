/** The booking endpoints of `app/api/bookings/route.ts`.

    A request body is a record of optional fields: `None` is a field the JSON
    body does not have. `Date.now()` is the parameter `stamp` and
    `new Date().toISOString()` the parameter `clockIso`. The stored bookings
    that `getBookings()` returns come from a module outside this model; they
    are taken as a parameter of the records this endpoint creates. */
module BookingsRoute {
  import opened Common

  datatype BookingBody = BookingBody(
    tourId: Option<string>,
    tourName: Option<string>,
    tourTitle: Option<string>,
    date: Option<string>,
    time: Option<string>,
    name: Option<string>,
    customerName: Option<string>,
    email: Option<string>,
    customerEmail: Option<string>,
    phone: Option<string>,
    customerPhone: Option<string>,
    adults: Option<int>,
    children812: Option<int>,
    children37: Option<int>,
    children: Option<int>,
    infants: Option<int>,
    totalTravelers: Option<int>,
    totalMembers: Option<int>,
    postalCode: Option<string>,
    country: Option<string>,
    status: Option<string>,
    totalPrice: Option<int>,
    notes: Option<string>)

  /** The `newBooking` object; each field has the type of the expression that fills it. */
  datatype NewBooking = NewBooking(
    id: string,
    tourId: Option<string>,
    tourTitle: Option<string>,
    customerName: Option<string>,
    customerEmail: Option<string>,
    customerPhone: Option<string>,
    date: Option<string>,
    time: Option<string>,
    adults: int,
    children: int,
    infants: int,
    totalMembers: Option<int>,
    postalCode: Option<string>,
    country: Option<string>,
    status: string,
    totalPrice: int,
    createdAt: string,
    notes: string)

  datatype PostResponse =
    | Created(data: NewBooking, id: string)
    | Failed(status: int, message: string)

  /** `GET /api/bookings`: with a non-empty status query, the bookings whose status is
      that string, each as often as it is stored; without one, every booking. */
  function Get(bookings: seq<NewBooking>, status: Option<string>): (r: seq<NewBooking>)
    ensures !StrTruthy(status) ==> r == bookings
    ensures StrTruthy(status) ==> forall b :: b in r <==> b in bookings && b.status == status.value
    ensures StrTruthy(status) ==>
              forall b :: multiset(r)[b] == if b.status == status.value then multiset(bookings)[b] else 0
    ensures IsSubsequence(r, bookings)
  {
    if StrTruthy(status) then
      var keep := (b: NewBooking) => b.status == status.value;
      FilterIsSubsequence(bookings, keep);
      FilterMembership(bookings, keep);
      Filter(bookings, keep)
    else
      assert IsSubsequence(bookings, bookings) by { SubsequenceReflexive(bookings); }
      bookings
  }

  predicate RequiredPresent(body: BookingBody) {
    StrTruthy(body.tourId) && StrTruthy(body.date) && StrTruthy(body.time) &&
    StrTruthy(body.name) && StrTruthy(body.email)
  }

  /** The children count: the sum of the two age bands, a missing band counting as
      zero; when that sum is zero, the plain `children` field, or zero. */
  function Children(body: BookingBody): (r: int)
    ensures var band812 := if body.children812.Some? then body.children812.value else 0;
            var band37 := if body.children37.Some? then body.children37.value else 0;
            (band812 + band37 != 0 ==> r == band812 + band37) &&
            (band812 + band37 == 0 ==> r == if body.children.Some? then body.children.value else 0)
  {
    var sum := NumOrDefault(body.children812, 0) + NumOrDefault(body.children37, 0);
    if sum != 0 then sum else NumOrDefault(body.children, 0)
  }

  /** The record a valid request creates. */
  function Assemble(body: BookingBody, stamp: nat, clockIso: string): (r: NewBooking)
    ensures StartsWith(r.id, "BK") && forall i :: 2 <= i < |r.id| ==> '0' <= r.id[i] <= '9'
    ensures r.tourId == body.tourId && r.date == body.date && r.time == body.time
    ensures r.postalCode == body.postalCode && r.country == body.country && r.createdAt == clockIso
    ensures r.customerName == (if StrTruthy(body.name) then body.name else body.customerName)
    ensures r.customerEmail == (if StrTruthy(body.email) then body.email else body.customerEmail)
    ensures r.customerPhone == (if StrTruthy(body.phone) then body.phone else body.customerPhone)
    ensures r.tourTitle == (if StrTruthy(body.tourName) then body.tourName else body.tourTitle)
    ensures r.adults == NumOrDefault(body.adults, 0) && r.infants == NumOrDefault(body.infants, 0)
    ensures r.totalPrice == NumOrDefault(body.totalPrice, 0) && r.children == Children(body)
    ensures r.status == (if StrTruthy(body.status) then body.status.value else "pending")
    ensures r.notes == (if StrTruthy(body.notes) then body.notes.value else "")
    ensures r.totalMembers == (if NumTruthy(body.totalTravelers) then body.totalTravelers else body.totalMembers)
  {
    NewBooking(
      id := "BK" + Decimal(stamp),
      tourId := body.tourId,
      tourTitle := StrOr(body.tourName, body.tourTitle),
      customerName := StrOr(body.name, body.customerName),
      customerEmail := StrOr(body.email, body.customerEmail),
      customerPhone := StrOr(body.phone, body.customerPhone),
      date := body.date,
      time := body.time,
      adults := NumOrDefault(body.adults, 0),
      children := Children(body),
      infants := NumOrDefault(body.infants, 0),
      totalMembers := NumOr(body.totalTravelers, body.totalMembers),
      postalCode := body.postalCode,
      country := body.country,
      status := StrOrDefault(body.status, "pending"),
      totalPrice := NumOrDefault(body.totalPrice, 0),
      createdAt := clockIso,
      notes := StrOrDefault(body.notes, ""))
  }

  /** `POST /api/bookings`. */
  function Post(body: BookingBody, stamp: nat, clockIso: string): (r: PostResponse)
    ensures r.Created? <==> RequiredPresent(body)
    ensures r.Failed? ==> r.status == 400 && r.message == "Missing required fields"
    ensures r.Created? ==> r.id == r.data.id && StartsWith(r.id, "BK")
    ensures r.Created? ==> r.data == Assemble(body, stamp, clockIso)
  {
    if RequiredPresent(body) then
      var b := Assemble(body, stamp, clockIso);
      Created(b, b.id)
    else
      Failed(400, "Missing required fields")
  }

  /** Validation makes the `customerName`/`customerEmail` fallbacks dead: a created
      booking carries the request's `name` and `email`, and its tour id, date and time. */
  lemma PostEchoesContact(body: BookingBody, stamp: nat, clockIso: string)
    requires Post(body, stamp, clockIso).Created?
    ensures var b := Post(body, stamp, clockIso).data;
            b.customerName == body.name && b.customerEmail == body.email &&
            b.tourId == body.tourId && b.date == body.date && b.time == body.time
  {
  }

  /** A created booking's children count: the two age bands (a missing band counts as 0)
      whenever they add up to something non-zero, otherwise the plain `children` field,
      otherwise zero. */
  lemma ChildrenRule(body: BookingBody, stamp: nat, clockIso: string)
    requires Post(body, stamp, clockIso).Created?
    ensures var c := Post(body, stamp, clockIso).data.children;
            var band812 := if body.children812.Some? then body.children812.value else 0;
            var band37 := if body.children37.Some? then body.children37.value else 0;
            (band812 + band37 != 0 ==> c == band812 + band37) &&
            (band812 + band37 == 0 ==> c == (if NumTruthy(body.children) then body.children.value else 0))
  {
  }

  /** Each default is used exactly when the request's value is falsy. */
  lemma PostDefaults(body: BookingBody, stamp: nat, clockIso: string)
    requires Post(body, stamp, clockIso).Created?
    ensures var b := Post(body, stamp, clockIso).data;
            (b.adults == 0 <==> !NumTruthy(body.adults)) &&
            (b.infants == 0 <==> !NumTruthy(body.infants)) &&
            (b.totalPrice == 0 <==> !NumTruthy(body.totalPrice)) &&
            (b.notes == "" <==> !StrTruthy(body.notes)) &&
            (!StrTruthy(body.status) ==> b.status == "pending") &&
            (StrTruthy(body.status) ==> Some(b.status) == body.status)
  {
  }

  /** The price and the member count are copied from the request: changing the
      traveller counts changes neither. */
  lemma PriceNotRecomputed(body: BookingBody, stamp: nat, clockIso: string,
                           adults: Option<int>, children812: Option<int>, children37: Option<int>,
                           infants: Option<int>)
    requires RequiredPresent(body)
    ensures var b := Post(body, stamp, clockIso).data;
            var b' := Post(body.(adults := adults, children812 := children812, children37 := children37,
                                 infants := infants), stamp, clockIso).data;
            b'.totalPrice == b.totalPrice && b'.totalMembers == b.totalMembers &&
            b.totalPrice == (if NumTruthy(body.totalPrice) then body.totalPrice.value else 0) &&
            b.totalMembers == NumOr(body.totalTravelers, body.totalMembers)
  {
  }
}
