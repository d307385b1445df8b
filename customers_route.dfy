/** The customer endpoints of `app/api/customers/route.ts`. `Date.now()` is the
    parameter `stamp` and `new Date().toISOString()` the parameter `clockIso`
    (both reads of the clock are taken to see the same instant). */
module CustomersRoute {
  import opened Common
  import opened Customers

  datatype CustomerBody = CustomerBody(
    name: Option<string>,
    email: Option<string>,
    phone: Option<string>,
    postalCode: Option<string>,
    country: Option<string>)

  datatype PostResponse =
    | Created(data: Customer, message: string)
    | Failed(status: int, message: string)

  /** The customers of `cs` whose status is written as `name`, in their order. */
  function WithStatusName(cs: seq<Customer>, name: string): seq<Customer> {
    Filter(cs, (c: Customer) => StatusName(c.status) == name)
  }

  /** `GET /api/customers`: with a non-empty status query, the fixture customers whose
      status is written as that string; without one, the whole fixture. */
  function Get(status: Option<string>): (r: seq<Customer>)
    ensures !StrTruthy(status) ==> r == GetCustomers()
    ensures StrTruthy(status) ==> forall c :: c in r <==> c in GetCustomers() && StatusName(c.status) == status.value
    ensures IsSubsequence(r, GetCustomers())
  {
    var customers := GetCustomers();
    if StrTruthy(status) then
      FilterIsSubsequence(customers, (c: Customer) => StatusName(c.status) == status.value);
      FilterMembership(customers, (c: Customer) => StatusName(c.status) == status.value);
      WithStatusName(customers, status.value)
    else
      SubsequenceReflexive(customers);
      customers
  }

  /** Asking the endpoint for a status by its JSON name gives what `getCustomersByStatus` gives. */
  lemma GetAgreesWithByStatus(s: CustomerStatus)
    ensures Get(Some(StatusName(s))) == GetCustomersByStatus(s)
  {
    var name := StatusName(s);
    assert Get(Some(name)) == WithStatusName(MockCustomers, name);
    NameSelectsStatus(MockCustomers, s);
  }

  /** Selecting by a status's name is selecting by the status, in any list. */
  lemma NameSelectsStatus(cs: seq<Customer>, s: CustomerStatus)
    ensures WithStatusName(cs, StatusName(s)) == ByStatus(cs, s)
  {
    FilterSameAs(cs, (c: Customer) => StatusName(c.status) == StatusName(s), (c: Customer) => c.status == s);
  }

  /** A non-empty status that names neither "active" nor "inactive" matches no customer. */
  lemma UnknownStatusMatchesNothing(status: string)
    requires status != "" && status != "active" && status != "inactive"
    ensures Get(Some(status)) == []
  {
    FilterSameAs(MockCustomers, (c: Customer) => StatusName(c.status) == status, (c: Customer) => false);
    FilterNone(MockCustomers);
  }

  lemma {:induction false} FilterNone(cs: seq<Customer>)
    ensures Filter(cs, (c: Customer) => false) == []
  {
    if cs != [] { FilterNone(cs[1..]); }
  }

  predicate RequiredPresent(body: CustomerBody) {
    StrTruthy(body.name) && StrTruthy(body.email) && StrTruthy(body.phone) &&
    StrTruthy(body.postalCode) && StrTruthy(body.country)
  }

  /** `POST /api/customers`. */
  function Post(body: CustomerBody, stamp: nat, clockIso: string): (r: PostResponse)
    ensures r.Failed? <==> !RequiredPresent(body)
    ensures r.Failed? ==> r.status == 400 && r.message == "Missing required fields"
    ensures r.Created? ==>
              var c := r.data;
              Some(c.name) == body.name && Some(c.email) == body.email && Some(c.phone) == body.phone &&
              Some(c.postalCode) == body.postalCode && Some(c.country) == body.country &&
              c.totalBookings == 0 && c.totalSpent == 0 && c.status == Active &&
              StartsWith(c.id, "CUST") && StartsWith(clockIso, c.lastBookingDate) &&
              'T' !in c.lastBookingDate &&
              (|c.lastBookingDate| < |clockIso| ==> clockIso[|c.lastBookingDate|] == 'T') &&
              c.createdAt == clockIso && r.message == "Customer created successfully"
  {
    if !RequiredPresent(body) then
      Failed(400, "Missing required fields")
    else
      Created(Customer(
                id := "CUST" + Decimal(stamp),
                name := body.name.value,
                email := body.email.value,
                phone := body.phone.value,
                country := body.country.value,
                postalCode := body.postalCode.value,
                totalBookings := 0,
                totalSpent := 0,
                lastBookingDate := FirstField(clockIso, 'T'),
                createdAt := clockIso,
                status := Active),
              "Customer created successfully")
  }
}
