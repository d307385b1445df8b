/** The customer fixture and its lookups, `lib/customers.ts`. */
module Customers {
  import opened Common

  datatype CustomerStatus = Active | Inactive

  /** The string a status is written as in JSON. */
  function StatusName(s: CustomerStatus): (r: string)
    ensures r == "active" || r == "inactive"
    ensures r == "inactive" <==> s == Inactive
  {
    match s
    case Active => "active"
    case Inactive => "inactive"
  }

  datatype Customer = Customer(
    id: string,
    name: string,
    email: string,
    phone: string,
    country: string,
    postalCode: string,
    totalBookings: int,
    totalSpent: int,
    lastBookingDate: string,
    createdAt: string,
    status: CustomerStatus)

  const MockCustomers: seq<Customer> := [
    Customer("CUST001", "John Doe", "john.doe@example.com", "+1 (555) 123-4567", "United States",
             "10001", 5, 1245, "2025-01-15", "2024-06-10T10:30:00Z", Active),
    Customer("CUST002", "Sarah Smith", "sarah.smith@example.com", "+1 (555) 234-5678", "United States",
             "94102", 3, 892, "2025-01-18", "2024-08-22T14:20:00Z", Active),
    Customer("CUST003", "Michael Johnson", "michael.j@example.com", "+1 (555) 345-6789", "United States",
             "33139", 2, 556, "2025-01-20", "2024-09-15T09:15:00Z", Active),
    Customer("CUST004", "Emily Davis", "emily.davis@example.com", "+1 (555) 456-7890", "Canada",
             "M5H 2N2", 7, 2134, "2024-12-28", "2024-03-05T11:45:00Z", Active),
    Customer("CUST005", "David Wilson", "david.wilson@example.com", "+44 20 7946 0958", "United Kingdom",
             "SW1A 1AA", 1, 129, "2024-08-12", "2024-08-10T16:20:00Z", Inactive)
  ]

  /** `getCustomers()`: the fixture itself, five customers with distinct ids. */
  function GetCustomers(): (r: seq<Customer>)
    ensures |r| == 5
    ensures forall i, j :: 0 <= i < j < |r| ==> r[i].id != r[j].id
  {
    MockCustomers
  }

  /** `getCustomerById`: the first fixture customer with the given id, if any. */
  function GetCustomerById(id: string): (r: Option<Customer>)
    ensures r.None? <==> forall i :: 0 <= i < |MockCustomers| ==> MockCustomers[i].id != id
    ensures r.Some? ==> r.value in MockCustomers && r.value.id == id
  {
    Find(MockCustomers, (c: Customer) => c.id == id)
  }

  function ByStatus(cs: seq<Customer>, status: CustomerStatus): seq<Customer> {
    Filter(cs, (c: Customer) => c.status == status)
  }

  /** `getCustomersByStatus`: the fixture customers with the given status, in fixture order. */
  function GetCustomersByStatus(status: CustomerStatus): (r: seq<Customer>)
    ensures forall c :: c in r <==> c in MockCustomers && c.status == status
    ensures IsSubsequence(r, MockCustomers)
  {
    FilterIsSubsequence(MockCustomers, (c: Customer) => c.status == status);
    FilterMembership(MockCustomers, (c: Customer) => c.status == status);
    ByStatus(MockCustomers, status)
  }

  /** Every customer is either active or inactive, so the two status filters split any
      list between them. */
  lemma {:induction false} StatusPartition(cs: seq<Customer>)
    ensures |ByStatus(cs, Active)| + |ByStatus(cs, Inactive)| == |cs|
  {
    if cs != [] {
      StatusPartition(cs[1..]);
    }
  }

  /** In the fixture, CUST005 is the one inactive customer. */
  lemma OnlyInactiveCustomer()
    ensures GetCustomersByStatus(Inactive) == [MockCustomers[4]]
    ensures MockCustomers[4].id == "CUST005"
    ensures |GetCustomersByStatus(Active)| == 4
  {
    StatusPartition(MockCustomers);
    var f := (c: Customer) => c.status == Inactive;
    assert Filter(MockCustomers[4..], f) == [MockCustomers[4]];
    assert Filter(MockCustomers[3..], f) == [MockCustomers[4]];
    assert Filter(MockCustomers[2..], f) == [MockCustomers[4]];
    assert Filter(MockCustomers[1..], f) == [MockCustomers[4]];
  }
}
