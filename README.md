# Starliner tour booking — a Dafny model of its rules

This project models the rule-bearing parts of a tour-booking web application:
the tour catalogue and its availability calculator (which calendar days a tour
can be booked on), the customer fixture and its lookups, the four JSON API
endpoints (bookings, customers, tours, admin login), the admin bookings list
filter, the booking summary card, the admin change-password form and the admin
navigation highlight. Everything is sequential and deterministic once the clock,
the random number source and the modules outside the model are parameters.

Modules, one per source file:

| module | file | form |
|---|---|---|
| `Common` | (shared) | `Option`, JavaScript truthiness and `||`, `filter`/`find`, ASCII case, `includes`, `startsWith`, `split`, decimal time stamps |
| `Tours` | tours.dfy | datatypes, the catalogue, `GetTourById`; the calculator is a method with two `while` loops and `continue` guards, proved against the function `AvailableDates` |
| `Customers` | customers.dfy | datatypes, the fixture, lookups as functions |
| `BookingsRoute`, `CustomersRoute`, `ToursRoute`, `LoginRoute` | *_route.dfy | request bodies as records of optional fields; handlers as functions returning a response datatype |
| `AdminBookings` | admin_bookings.dfy | the list filter and the status colours |
| `BookingSummary` | booking_summary.dfy | the card as a function from props to the rows shown |
| `Settings` | settings.dfy | the form is a class whose fields are the page's state; the submit handler is a method |
| `AdminLayout` | admin_layout.dfy | the navigation table, the highlight predicate and the login bypass |

Modelling choices:

- Calendar days are integers counted from 1 January 1970 in local time, so the
  weekday `Date.getDay()` reports is `(d + 4) % 7`. "Now" is the parameter `today`.
- The two strings a day becomes are the functions of a `DateKeys` value: `iso`,
  the key compared with `blockedDates`, and `display`, the `toDateString()` key
  the result set holds. Where a property is an "if and only if" about days, the
  lemma requires `display` to be injective. The calculator and its general
  properties assume nothing about `iso`, so they cover the key the code really
  computes, which `Tours.UtcKeys` writes out (see Findings). Only the worked
  example `Tours.FiveDayExample` and the counterexample
  `Tours.BlockedDateShiftsADay` require `iso` to be injective, and the example
  also fixes the key of 10 March.
- A JSON request body is a record of `Option` fields; a present string is truthy
  when non-empty and a present number when non-zero. `a || b` is `StrOr`/`NumOr`.
- `Date.now()` is a natural number `stamp` rendered in decimal, `Math.random()`'s
  text is a string parameter, and `new Date().toISOString()` is a string parameter.
- The bookings that `getBookings()` returns are a parameter of `BookingsRoute.Get`,
  typed as the records `BookingsRoute.Post` creates. The admin page reads stored
  bookings through its own `AdminBookings.Booking`, whose status is one of the four
  values `getStatusColor` handles.
- `changePassword` is a function parameter of the submit handler.

## Model

| member | source | states |
|---|---|---|
| `Tours.GetTourById` | lib/tours.ts:146-148 | the result is the first catalogue tour with the given id, and is absent exactly when no tour has that id |
| `Tours.Weekday` | lib/tours.ts:175 | a day's weekday is between 0 (Sunday) and 6 |
| `Tours.WindowStep` | lib/tours.ts:170-186 | examining one more day adds that day's display key exactly when the day passes the checks |
| `Tours.GetAvailableDatesForTour` | lib/tours.ts:150-189 | the loops compute exactly `AvailableDates`: the display keys of the days in the window that pass the checks (60 days and no Sundays without a schedule) |
| `Tours.FallbackExact` | lib/tours.ts:154-165 | without a schedule a day is returned iff it is one of the 60 days from today and not a Sunday; blocked dates play no part |
| `Tours.FallbackSound` | lib/tours.ts:157-162 | without a schedule every returned key belongs to a non-Sunday in the 60-day window |
| `Tours.ScheduledSound` | lib/tours.ts:170-186 | with a schedule every returned key belongs to a day in the window whose weekday is available and whose ISO key is not blocked |
| `Tours.ScheduledExact` | lib/tours.ts:168-186 | with a schedule a day is returned iff it is `today + i` for `0 <= i < advanceBookingDays`, its weekday is in `availableDays` and its ISO key is not in `blockedDates` |
| `Tours.WindowSize` | lib/tours.ts:170-186 | a window of `n` days yields at most `n` keys |
| `Tours.AvailableBounds` | lib/tours.ts:154-186 | at most 60 keys without a schedule, at most `advanceBookingDays` with one, and none when `advanceBookingDays <= 0` or `availableDays` is empty |
| `Tours.BlockingNeverAdds` | lib/tours.ts:168-183 | adding a blocked date never adds a day to the result |
| `Tours.MoreWeekdaysNeverRemove` | lib/tours.ts:175-177 | enlarging `availableDays` never removes a day from the result |
| `Tours.StandardScheduleIsFallback` | lib/tours.ts:34-44 | Monday to Saturday, nothing blocked, 60 days selects the same days as the fallback |
| `Tours.CatalogueMatchesFallback` | lib/tours.ts:24-144 | for every catalogue tour the scheduled result equals the result the tour would get without a schedule |
| `Tours.FiveDayExample` | lib/tours.ts:170-186 | five days from Saturday 8 March 2025 with 10 March blocked leave exactly the 8th, 11th and 12th, given an injective `iso` whose key for 10 March is "2025-03-10" |
| `Tours.UtcDay` | lib/tours.ts:180 | the UTC calendar day of a local day at a given time of day and offset: the day whose 1440 minutes contain that instant in UTC |
| `Tours.UtcKeys` | lib/tours.ts:180-185 | the keys the code computes: the blocked-date key of day `d` is the ISO key of `UtcDay(d)`, while the display key stays that of the local day |
| `Tours.BlockedDateShiftsADay` | lib/tours.ts:180-181 | with the keys `UtcKeys` gives, at 20:00 five hours behind UTC, blocking tomorrow hides today and still offers tomorrow, in `AvailableDates` and so in what `GetAvailableDatesForTour` returns |
| `Tours.BlockedDayNeverOffered` | lib/tours.ts:180-183 | with the ISO key of the local day, a blocked day is never offered |
| `Customers.StatusName` | lib/customers.ts:12 | a status is written "active" or "inactive", and the two are different |
| `Customers.GetCustomers` | lib/customers.ts:84-86 | the fixture list: five customers with distinct ids |
| `Customers.GetCustomerById` | lib/customers.ts:88-90 | the result is a fixture customer with that id, absent exactly when there is none |
| `Customers.GetCustomersByStatus` | lib/customers.ts:92-94 | the result holds exactly the fixture customers with that status, as a subsequence of the fixture |
| `Customers.StatusPartition` | lib/customers.ts:92-94 | the active and the inactive customers of any list add up to the whole list |
| `Customers.OnlyInactiveCustomer` | lib/customers.ts:69-81 | CUST005 is the only inactive fixture customer; four are active |
| `BookingsRoute.Get` | app/api/bookings/route.ts:5-17 | a missing or empty status returns every booking; otherwise each booking with that status as many times as it is stored and no other, in their order |
| `BookingsRoute.Post` | app/api/bookings/route.ts:20-56 | created iff tourId, date, time, name and email are all truthy, else 400 "Missing required fields"; the response id is the booking's id and starts with "BK"; the created booking is the record `BookingsRoute.Assemble` builds from the body |
| `BookingsRoute.PostEchoesContact` | app/api/bookings/route.ts:25-34 | a created booking's customer name and email are the request's name and email (the fallbacks are dead), and tour id, date and time are copied |
| `BookingsRoute.Children` | app/api/bookings/route.ts:36 | a missing age band counts as 0; the count is the sum of the two bands when it is non-zero, else the plain `children` field (0 when missing) |
| `BookingsRoute.Assemble` | app/api/bookings/route.ts:26-45 | the new record: id "BK" followed by digits; tour id, date, time, postal code and country copied; each either-or field from the first field when it is truthy, else the second; counts and price default to 0, status to "pending" and notes to ""; a truthy status or notes is copied; created at the clock |
| `BookingsRoute.ChildrenRule` | app/api/bookings/route.ts:36 | a created booking's children is the sum of the two age bands whenever that sum is non-zero (negative bands included), else the plain `children` field when truthy, else 0 |
| `BookingsRoute.PostDefaults` | app/api/bookings/route.ts:35-44 | adults, infants and total price are 0, notes are empty, exactly when the request's value is falsy; status is "pending" unless the request gives one |
| `BookingsRoute.PriceNotRecomputed` | app/api/bookings/route.ts:38-42 | total price is the request's `totalPrice` (0 when falsy) and member count its `totalTravelers`, else `totalMembers`; changing the traveller counts changes neither |
| `CustomersRoute.Get` | app/api/customers/route.ts:5-17 | a falsy status returns the whole list; otherwise exactly the customers whose status has that name, in order |
| `CustomersRoute.GetAgreesWithByStatus` | app/api/customers/route.ts:8-11 | asking for "active" or "inactive" gives what `getCustomersByStatus` gives |
| `CustomersRoute.UnknownStatusMatchesNothing` | app/api/customers/route.ts:11 | any other non-empty status gives an empty list |
| `CustomersRoute.Post` | app/api/customers/route.ts:20-51 | 400 "Missing required fields" iff one of the five fields is falsy; otherwise the five fields are copied, bookings and spend are 0, status is active, the id starts with "CUST" and the last booking date is the clock text before its first "T" |
| `ToursRoute.Post` | app/api/tours/route.ts:15-42 | 400 iff one of the six fields is falsy; otherwise the fields are copied, price and duration are non-zero and the id starts with "tour-" |
| `ToursRoute.ZeroIsMissing` | app/api/tours/route.ts:21-23 | a price or duration of 0 is rejected as missing |
| `ToursRoute.AsCatalogueTour` | app/api/tours/route.ts:26-34 | a created tour has no schedule |
| `ToursRoute.CreatedTourUsesFallback` | app/api/tours/route.ts:26-34 | availability for a created tour is the fallback: the non-Sundays of the 60 days from today |
| `LoginRoute.Post` | app/api/auth/login/route.ts:4-36 | 400 "Email and password are required" iff email or password is falsy; otherwise the user is admin_001, "Admin User", role admin, with the request's email, and the token starts with "token_" |
| `LoginRoute.PasswordNeverCompared` | app/api/auth/login/route.ts:9-20 | any two non-empty passwords give the same answer |
| `AdminBookings.FilteredBookings` | app/admin_panel/bookings/page.tsx:30-40 | a booking is kept iff the lower-cased query occurs in one of the four lower-cased fields and the status filter is "all" or its status, as many times as it is listed; the result is a subsequence of the list; with one status chosen every kept booking has it |
| `AdminBookings.EmptySearchShowsAll` | app/admin_panel/bookings/page.tsx:30-40 | an empty query with "all" keeps every booking |
| `AdminBookings.LowerOfUpper` | app/admin_panel/bookings/page.tsx:32-35 | lower-casing an upper-cased string gives the lower-cased string |
| `AdminBookings.SearchIgnoresCase` | app/admin_panel/bookings/page.tsx:32-35 | typing the query in capitals gives the same list |
| `AdminBookings.GetStatusColor` | app/admin_panel/bookings/page.tsx:42-53 | a badge's class string starts with the background and then the text class of the status's colour family (green confirmed, yellow pending, red cancelled, blue completed) |
| `AdminBookings.StatusColorsDistinct` | app/admin_panel/bookings/page.tsx:42-53 | the four statuses get four different class strings |
| `BookingSummary.TotalTravellers` | components/booking/booking-summary.tsx:41 | with non-negative counts the head count is 0 iff every category is 0, and no category exceeds it |
| `BookingSummary.Render` | components/booking/booking-summary.tsx:46-135 | the card shows the tour's image (a placeholder when it has none), title and price; the total row appears with the travellers row, shows a positive head count and price times that count |
| `BookingSummary.TotalIsFlatRate` | components/booking/booking-summary.tsx:130-135 | the total row shows price times the sum of the four counts, and appears together with the travellers row |
| `BookingSummary.NoCategoryPricing` | components/booking/booking-summary.tsx:133 | two bookings of the same tour with the same head count, however split across the four categories, show the same total |
| `BookingSummary.OneMoreTraveller` | components/booking/booking-summary.tsx:133 | one more traveller, in any category, adds one per-person price to a non-zero total |
| `BookingSummary.TravellerRowsIffSomeone` | components/booking/booking-summary.tsx:93-101 | with non-negative counts the travellers and total rows appear iff some count is non-zero |
| `BookingSummary.RowVisibility` | components/booking/booking-summary.tsx:73-128 | the date row appears iff a date is selected, the time, name, email and phone rows iff their text is non-empty, each showing that value |
| `BookingSummary.IgnoresPostalCodeAndCountry` | components/booking/booking-summary.tsx:23-40 | the card does not depend on postal code or country |
| `Settings.PasswordCheck` | app/admin_panel/settings/page.tsx:30-43 | all checks pass iff the three fields are non-empty, the new password has at least 6 characters and equals the confirmation; a failure is one of the three messages |
| `Settings.EmptyFieldFirst` | app/admin_panel/settings/page.tsx:30-33 | an empty field is reported as "All fields are required" whatever else is wrong |
| `Settings.LengthBeforeMismatch` | app/admin_panel/settings/page.tsx:35-38 | a short new password is reported before a mismatch |
| `Settings.MismatchLast` | app/admin_panel/settings/page.tsx:40-43 | a mismatch is reported when the earlier checks pass |
| `Settings.PasswordForm.constructor` | app/admin_panel/settings/page.tsx:16-20 | the form starts with every field and message empty |
| `Settings.PasswordForm.HandlePasswordChange` | app/admin_panel/settings/page.tsx:25-54 | `changePassword` is called iff the checks pass; otherwise the first failed check's message is shown; success clears the three fields and shows the success message; a refused change shows "Current password is incorrect" and keeps the fields; at most one message is shown |
| `AdminLayout.IsActive` | app/admin_panel/layout.tsx:76-77 | the dashboard item is highlighted iff the path is "/admin_panel"; any other item iff the path starts with its link |
| `AdminLayout.Layout` | app/admin_panel/layout.tsx:34-36 | the login page is rendered bare; every other path gets the guard and a sidebar whose item `i` is highlighted iff `IsActive` holds for it |
| `AdminLayout.DashboardExactOnly` | app/admin_panel/layout.tsx:76-77 | the dashboard item is highlighted only on "/admin_panel" itself |
| `AdminLayout.SubpathActivates` | app/admin_panel/layout.tsx:76-77 | any path extending a section's link highlights that section |
| `AdminLayout.SectionShape` | app/admin_panel/layout.tsx:14-21 | the five section links are "/admin_panel/" followed by names with five different first letters |
| `AdminLayout.AtMostOneActive` | app/admin_panel/layout.tsx:75-77 | no two navigation items are highlighted for the same path |

## Findings

| source | as written | input that shows it | evidently intended | confidence | as-written member | corrected member |
|---|---|---|---|---|---|---|
| lib/tours.ts:180-181 | the blocked-date key is the UTC date of the local instant (`toISOString`), while the weekday check and the result use the local day | a west-of-UTC browser (UTC-5) at 20:00 with tomorrow's date blocked | a blocked date removes that local calendar day | medium, not executed | `Tours.BlockedDateShiftsADay` (the calculator's specification applied to `Tours.UtcKeys`) | `Tours.BlockedDayNeverOffered` |

The rest of the model takes `DateKeys.iso` as given, so every other property holds
whichever of the two keys it is.

## Left out

- The booking wizard in app/booking/[id]/page.tsx (stage gates, traveller limit, email and card checks) is not part of this model.
- `TimeSlot.capacity` is carried in the data but never read by the code, so nothing enforces it here either.
- Real `Date` arithmetic: time zones, daylight-saving changes and the text of `toDateString()`/`toISOString()` are the abstract keys of `DateKeys`; only the UTC shift of the finding is written out.
- `getTours`, imported by app/api/tours/route.ts:2, does not exist in lib/tours.ts; the GET handler of that route is not modelled.
- lib/bookings, lib/admin-auth (`changePassword`, `getAdminEmail`, `logout`), `AuthGuard` and lib/api-config.ts are not part of this model; their results are parameters.
- Network, persistence and browser effects: `apiRequest`, `useEffect` loading, `localStorage`, `router.push`/`refresh`, `console.log`, JSON parsing, `NextResponse`, and the 500 answers a thrown error produces.
- Prices and counts are integers: floating point, `NaN`, and the string-to-number conversion of `Number(price)` are not modelled, nor are request fields of an unexpected JSON type.
- The booking summary's image, title and price rows are modelled; its `shortDescription` and `durationHours` rows read fields the `Tour` type names `short_description` and `duration_hours`, a display-only mismatch, and are not modelled, nor is currency or date formatting.
- Pure rendering (login page, root layout, tour grid, site layout), Tailwind classes other than the status badges, icons and the sidebar's open/closed state.
- `Customers.GetCustomers`: states the fixture's size and distinct ids rather than restating the five records.
- `CustomersRoute.Post`: the two reads of the clock are taken to see the same instant.
- `Settings.PasswordCheck`: counts a password's length in Unicode scalar values, while the page's `length` counts UTF-16 code units, so a password of three characters outside the Basic Multilingual Plane (three emoji) passes the page's six-character check but is reported too short here.
- `AdminBookings.FilteredBookings`: lower-cases only the ASCII letters A to Z, while `toLowerCase` also folds accented and other non-ASCII letters, so a search for "é" finds "Émile" on the page but not here.
