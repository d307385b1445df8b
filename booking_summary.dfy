/** The booking summary card, `components/booking/booking-summary.tsx`: what it
    shows for the current wizard selections. Prices and counts are integers;
    currency and date formatting are left to the view. */
module BookingSummary {
  import opened Common
  import Tours

  datatype Props = Props(
    tour: Tours.Tour,
    selectedDate: Option<Tours.Day>,
    timeSlot: string,
    adults: int,
    children812: int,
    children37: int,
    infants: int,
    name: string,
    email: string,
    phone: string,
    postalCode: string,
    country: string)

  /** The rendered card: the always-present header rows and each optional row,
      `None` where the row is not rendered. */
  datatype Card = Card(
    image: string,
    title: string,
    pricePerPerson: int,
    dateRow: Option<Tours.Day>,
    timeRow: Option<string>,
    travellersRow: Option<int>,
    nameRow: Option<string>,
    emailRow: Option<string>,
    phoneRow: Option<string>,
    totalRow: Option<int>)

  /** The head count over the four traveller categories. With non-negative counts it
      is zero exactly when nobody is selected, and no category exceeds it. */
  function TotalTravellers(p: Props): (n: int)
    ensures p.adults >= 0 && p.children812 >= 0 && p.children37 >= 0 && p.infants >= 0 ==>
              (n == 0 <==> p.adults == 0 && p.children812 == 0 && p.children37 == 0 && p.infants == 0) &&
              p.adults <= n && p.children812 <= n && p.children37 <= n && p.infants <= n
  {
    p.adults + p.children812 + p.children37 + p.infants
  }

  /** The card: the tour's picture (a placeholder when it has none), title and
      per-person price, then each row whose input is present. */
  function Render(p: Props): (c: Card)
    ensures c.image != "" && (p.tour.image != "" ==> c.image == p.tour.image)
    ensures c.title == p.tour.title && c.pricePerPerson == p.tour.price
    ensures c.totalRow.Some? <==> c.travellersRow.Some?
    ensures c.travellersRow.Some? ==>
              c.travellersRow.value > 0 && c.totalRow.value == p.tour.price * c.travellersRow.value
  {
    var total := TotalTravellers(p);
    Card(
      image := if p.tour.image != "" then p.tour.image else "/placeholder.svg",
      title := p.tour.title,
      pricePerPerson := p.tour.price,
      dateRow := p.selectedDate,
      timeRow := if p.timeSlot != "" then Some(p.timeSlot) else None,
      travellersRow := if total > 0 then Some(total) else None,
      nameRow := if p.name != "" then Some(p.name) else None,
      emailRow := if p.email != "" then Some(p.email) else None,
      phoneRow := if p.phone != "" then Some(p.phone) else None,
      totalRow := if total > 0 then Some(p.tour.price * total) else None)
  }

  /** The total is the per-person price times the head count of all four categories;
      the travellers row and the total row appear together. */
  lemma TotalIsFlatRate(p: Props)
    ensures Render(p).totalRow.Some? <==> Render(p).travellersRow.Some?
    ensures Render(p).travellersRow.Some? ==>
              Render(p).travellersRow.value == p.adults + p.children812 + p.children37 + p.infants &&
              Render(p).totalRow.value == p.tour.price * Render(p).travellersRow.value
  {
  }

  /** There is no category pricing: two bookings of the same tour with the same head
      count, however it is split across the four categories, show the same total. */
  lemma NoCategoryPricing(p: Props, q: Props)
    requires q.tour == p.tour && TotalTravellers(q) == TotalTravellers(p)
    ensures Render(q).totalRow == Render(p).totalRow
  {
  }

  /** One more traveller, in whichever category, adds one per-person price. */
  lemma OneMoreTraveller(p: Props, q: Props)
    requires TotalTravellers(p) > 0
    requires q.tour == p.tour && TotalTravellers(q) == TotalTravellers(p) + 1
    ensures Render(q).totalRow.value == Render(p).totalRow.value + p.tour.price
  {
  }

  /** With non-negative counts, the travellers and total rows appear iff some count is non-zero. */
  lemma TravellerRowsIffSomeone(p: Props)
    requires p.adults >= 0 && p.children812 >= 0 && p.children37 >= 0 && p.infants >= 0
    ensures Render(p).travellersRow.Some? <==>
              p.adults != 0 || p.children812 != 0 || p.children37 != 0 || p.infants != 0
    ensures Render(p).totalRow.Some? <==>
              p.adults != 0 || p.children812 != 0 || p.children37 != 0 || p.infants != 0
  {
  }

  /** The date row appears iff a date is selected, the time, name, email and phone rows
      iff their text is non-empty, each showing that value. */
  lemma RowVisibility(p: Props)
    ensures Render(p).dateRow.Some? <==> p.selectedDate.Some?
    ensures Render(p).dateRow.Some? ==> Render(p).dateRow == p.selectedDate
    ensures Render(p).timeRow.Some? <==> p.timeSlot != ""
    ensures Render(p).nameRow.Some? <==> p.name != ""
    ensures Render(p).emailRow.Some? <==> p.email != ""
    ensures Render(p).phoneRow.Some? <==> p.phone != ""
    ensures Render(p).timeRow.Some? ==> Render(p).timeRow.value == p.timeSlot
    ensures Render(p).nameRow.Some? ==> Render(p).nameRow.value == p.name
    ensures Render(p).emailRow.Some? ==> Render(p).emailRow.value == p.email
    ensures Render(p).phoneRow.Some? ==> Render(p).phoneRow.value == p.phone
  {
  }

  /** The postal code and the country are accepted but never shown. */
  lemma IgnoresPostalCodeAndCountry(p: Props, postalCode: string, country: string)
    ensures Render(p.(postalCode := postalCode, country := country)) == Render(p)
  {
  }
}
