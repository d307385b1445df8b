/** The bookings list of the admin panel, `app/admin_panel/bookings/page.tsx`:
    the search-and-status filter and the badge colour of each status. The list
    itself is loaded over the network and is a parameter here. */
module AdminBookings {
  import opened Common

  datatype BookingStatus = Pending | Confirmed | Cancelled | Completed

  /** The fields of a stored booking that the page reads. */
  datatype Booking = Booking(
    id: string,
    customerName: string,
    customerEmail: string,
    tourTitle: string,
    status: BookingStatus)

  /** The status buttons: "all" or one status. */
  datatype StatusFilter = All | Only(status: BookingStatus)

  /** One of the four fields contains the query, ignoring ASCII letter case. */
  predicate MatchesSearch(b: Booking, query: string) {
    var q := Lower(query);
    Includes(Lower(b.customerName), q) || Includes(Lower(b.customerEmail), q) ||
    Includes(Lower(b.id), q) || Includes(Lower(b.tourTitle), q)
  }

  predicate MatchesStatus(b: Booking, filter: StatusFilter) {
    filter == All || filter == Only(b.status)
  }

  /** The list shown: the bookings that match both the search and the status buttons. */
  function FilteredBookings(bookings: seq<Booking>, query: string, filter: StatusFilter): (r: seq<Booking>)
    ensures forall b :: b in r <==> b in bookings && MatchesSearch(b, query) && MatchesStatus(b, filter)
    ensures forall b :: multiset(r)[b] ==
                          if MatchesSearch(b, query) && MatchesStatus(b, filter) then multiset(bookings)[b] else 0
    ensures IsSubsequence(r, bookings)
    ensures filter.Only? ==> forall i :: 0 <= i < |r| ==> r[i].status == filter.status
  {
    var keep := (b: Booking) => MatchesSearch(b, query) && MatchesStatus(b, filter);
    FilterIsSubsequence(bookings, keep);
    FilterMembership(bookings, keep);
    Filter(bookings, keep)
  }

  /** An empty search with the "all" button shows every booking. */
  lemma EmptySearchShowsAll(bookings: seq<Booking>)
    ensures FilteredBookings(bookings, "", All) == bookings
  {
    var keep := (b: Booking) => MatchesSearch(b, "") && MatchesStatus(b, All);
    forall i | 0 <= i < |bookings| ensures keep(bookings[i]) {
      EmptyIsIncluded(Lower(bookings[i].customerName));
    }
    FilterKeepsAll(bookings, keep);
  }

  lemma LowerUpperChar(c: char)
    ensures LowerChar(UpperChar(c)) == LowerChar(c)
  {
  }

  /** Lower-casing forgets whether a letter was upper-case. */
  lemma {:induction false} LowerOfUpper(s: string)
    ensures Lower(Upper(s)) == Lower(s)
  {
    forall i | 0 <= i < |s| ensures Lower(Upper(s))[i] == Lower(s)[i] {
      LowerUpperChar(s[i]);
    }
  }

  /** Typing the query in capitals does not change the list. */
  lemma SearchIgnoresCase(bookings: seq<Booking>, query: string, filter: StatusFilter)
    ensures FilteredBookings(bookings, Upper(query), filter) == FilteredBookings(bookings, query, filter)
  {
    LowerOfUpper(query);
    var k1 := (b: Booking) => MatchesSearch(b, Upper(query)) && MatchesStatus(b, filter);
    var k2 := (b: Booking) => MatchesSearch(b, query) && MatchesStatus(b, filter);
    FilterSameAs(bookings, k1, k2);
  }

  /** The Tailwind colour family of each status badge. */
  function Colour(status: BookingStatus): string {
    match status
    case Confirmed => "green"
    case Pending => "yellow"
    case Cancelled => "red"
    case Completed => "blue"
  }

  /** `getStatusColor`: the class string of a status badge, a tinted background with
      text in the same colour family, lighter in dark mode. */
  function GetStatusColor(status: BookingStatus): (r: string)
    ensures StartsWith(r, "bg-" + Colour(status) + "-500/10 text-" + Colour(status) + "-700")
    ensures r[3] == Colour(status)[0]
  {
    var c := Colour(status);
    var head := "bg-" + c + "-500/10 text-" + c + "-700";
    assert (head + " dark:text-" + c + "-400")[..|head|] == head;
    head + " dark:text-" + c + "-400"
  }

  /** Every status has its own colour. */
  lemma StatusColorsDistinct(a: BookingStatus, b: BookingStatus)
    ensures GetStatusColor(a) == GetStatusColor(b) <==> a == b
  {
    // the four colour families start with four different letters
    if a != b {
      assert Colour(a)[0] != Colour(b)[0];
    }
  }
}
