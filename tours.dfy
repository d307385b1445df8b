/** The tour catalogue and the availability calculator of `lib/tours.ts`.

    Calendar days are integers: day `d` is the local calendar day `d` days
    after 1 January 1970, so the weekday that `Date.getDay` reports is
    `(d + 4) % 7` (that day was a Thursday). "Now" becomes the parameter
    `today`. The two strings a day is turned into, the ISO date compared with
    the blocked dates and the readable date the result set holds, are the
    functions `iso` and `display` of a `DateKeys` value, supplied by the
    caller; nothing in the model relates the ISO key to the local day, and
    `UtcKeys` below gives the key the code actually computes. */
module Tours {
  import opened Common

  type Day = int

  datatype TimeSlot = TimeSlot(time: string, capacity: int)

  datatype TourSchedule = TourSchedule(
    availableDays: seq<int>,
    timeSlots: seq<TimeSlot>,
    blockedDates: seq<string>,
    advanceBookingDays: int)

  datatype Tour = Tour(
    id: string,
    title: string,
    short_description: string,
    price: int,
    duration_hours: int,
    image: string,
    details: string,
    schedule: Option<TourSchedule>)

  /** How a day is turned into the blocked-date key and into the key of the result set. */
  datatype DateKeys = DateKeys(iso: Day -> string, display: Day -> string)

  /** Length of the window used when a tour has no schedule. */
  const FallbackDays := 60

  const Sunday := 0

  const MondayToSaturday: seq<int> := [1, 2, 3, 4, 5, 6]

  function Slots(capacity: int): seq<TimeSlot> {
    [TimeSlot("09:00", capacity), TimeSlot("11:00", capacity),
     TimeSlot("14:00", capacity), TimeSlot("16:00", capacity)]
  }

  function StandardSchedule(slots: seq<TimeSlot>): TourSchedule {
    TourSchedule(MondayToSaturday, slots, [], 60)
  }

  const Catalogue: seq<Tour> := [
    Tour("sunset-sail", "Sunset Sail Cruise",
         "Glide across the bay as the sun dips below the horizon.", 129, 2,
         "/sunset-sail-cruise.jpg",
         "Enjoy a serene two-hour sunset sail with complimentary beverages and guided commentary on local landmarks.",
         Some(StandardSchedule(Slots(10)))),
    Tour("city-walk", "Historic City Walking Tour",
         "Discover hidden alleys, architecture, and stories of the old town.", 49, 3,
         "/historic-city-walking-tour.jpg",
         "A curated route through the city's most iconic districts, with stops for photos and local treats.",
         Some(StandardSchedule(Slots(15)))),
    Tour("mountain-hike", "Guided Mountain Hike",
         "A moderate ascent with panoramic views and expert guides.", 99, 5,
         "/guided-mountain-hike.jpg",
         "Trail-tested guides lead you up scenic paths with frequent rest points and nature insights.",
         Some(StandardSchedule([TimeSlot("09:00", 12), TimeSlot("14:00", 12)]))),
    Tour("wine-country", "Wine Country Day Trip",
         "Taste award-winning wines and stroll through vineyards.", 159, 6,
         "/wine-country-vineyards.jpg",
         "Visit two boutique wineries, enjoy a picnic lunch, and learn about local varietals.",
         Some(StandardSchedule(Slots(8)))),
    Tour("reef-snorkel", "Coral Reef Snorkeling",
         "Explore vibrant marine life with top-quality gear included.", 139, 4,
         "/coral-reef-snorkeling.png",
         "Crystal-clear waters, guided snorkel tour, and safety briefing for all experience levels.",
         Some(StandardSchedule(Slots(10)))),
    Tour("food-tour", "Street Food Safari",
         "Savor local flavors on a chef-curated tasting trail.", 69, 2,
         "/street-food-tour.png",
         "Sample 6+ dishes from beloved vendors, with stories about the food culture and people behind it.",
         Some(StandardSchedule(Slots(12))))
  ]

  /** `getTourById`: the first catalogue tour with the given id, if any. */
  function GetTourById(id: string): (r: Option<Tour>)
    ensures r.None? <==> forall i :: 0 <= i < |Catalogue| ==> Catalogue[i].id != id
    ensures r.Some? ==> exists i :: 0 <= i < |Catalogue| && Catalogue[i] == r.value && r.value.id == id &&
                                   forall j :: 0 <= j < i ==> Catalogue[j].id != id
  {
    Find(Catalogue, (t: Tour) => t.id == id)
  }

  // ---------------------------------------------------------------------
  // Availability: specification
  // ---------------------------------------------------------------------

  /** `Date.getDay()` of local day `d`: 0 is Sunday, 6 is Saturday. */
  function Weekday(d: Day): (w: int)
    ensures 0 <= w < 7
  {
    (d + 4) % 7
  }

  /** Which days survive the checks: the weekday check alone without a schedule;
      with a schedule, the weekday check and then the blocked-date check. */
  datatype Policy = Fallback | Scheduled(schedule: TourSchedule)

  predicate Keeps(p: Policy, keys: DateKeys, d: Day) {
    match p
    case Fallback => Weekday(d) != Sunday
    case Scheduled(s) => Weekday(d) in s.availableDays && keys.iso(d) !in s.blockedDates
  }

  /** Number of consecutive days examined, starting at today. */
  function Horizon(p: Policy): int {
    match p
    case Fallback => FallbackDays
    case Scheduled(s) => s.advanceBookingDays
  }

  function PolicyOf(tour: Tour): Policy {
    match tour.schedule
    case None => Fallback
    case Some(s) => Scheduled(s)
  }

  /** The display keys of the days among the first `count` days from `today` that `p` keeps. */
  function Window(p: Policy, keys: DateKeys, today: Day, count: int): set<string> {
    set d | today <= d < today + count && Keeps(p, keys, d) :: keys.display(d)
  }

  /** What `getAvailableDatesForTour` returns for `tour` when it runs on day `today`. */
  function AvailableDates(tour: Tour, today: Day, keys: DateKeys): set<string> {
    var p := PolicyOf(tour);
    Window(p, keys, today, Horizon(p))
  }

  /** Examining one more day adds that day's key exactly when the day is kept. */
  lemma WindowStep(p: Policy, keys: DateKeys, today: Day, i: int)
    requires 0 <= i
    ensures Window(p, keys, today, i + 1) ==
            Window(p, keys, today, i) + (if Keeps(p, keys, today + i) then {keys.display(today + i)} else {})
  {
    var lhs := Window(p, keys, today, i + 1);
    var rhs := Window(p, keys, today, i) + (if Keeps(p, keys, today + i) then {keys.display(today + i)} else {});
    forall x | x in lhs ensures x in rhs {
      var d :| today <= d < today + i + 1 && Keeps(p, keys, d) && keys.display(d) == x;
      if d < today + i {
        assert x in Window(p, keys, today, i);
      }
    }
  }

  // ---------------------------------------------------------------------
  // Availability: the calculator
  // ---------------------------------------------------------------------

  /** `getAvailableDatesForTour(tour)` run on local day `today`. */
  method GetAvailableDatesForTour(tour: Tour, today: Day, keys: DateKeys) returns (available: set<string>)
    ensures available == AvailableDates(tour, today, keys)
  {
    available := {};
    if tour.schedule.None? {
      var i := 0;
      while i < FallbackDays
        invariant 0 <= i <= FallbackDays
        invariant available == Window(Fallback, keys, today, i)
      {
        WindowStep(Fallback, keys, today, i);
        var d := today + i;
        if Weekday(d) != Sunday {
          available := available + {keys.display(d)};
        }
        i := i + 1;
      }
      return;
    }

    var schedule := tour.schedule.value;
    var blockedSet := set b | b in schedule.blockedDates;
    var p := Scheduled(schedule);
    var i := 0;
    while i < schedule.advanceBookingDays
      invariant 0 <= i
      invariant schedule.advanceBookingDays <= 0 ==> i == 0
      invariant 0 < schedule.advanceBookingDays ==> i <= schedule.advanceBookingDays
      invariant available == Window(p, keys, today, i)
    {
      WindowStep(p, keys, today, i);
      var d := today + i;
      i := i + 1;

      if Weekday(d) !in schedule.availableDays {
        continue;
      }

      var dateStr := keys.iso(d);
      if dateStr in blockedSet {
        continue;
      }

      available := available + {keys.display(d)};
    }
    if schedule.advanceBookingDays <= 0 {
      EmptyWindow(p, keys, today, schedule.advanceBookingDays);
      EmptyWindow(p, keys, today, 0);
    }
  }

  // ---------------------------------------------------------------------
  // Availability: properties
  // ---------------------------------------------------------------------

  ghost predicate Injective(f: Day -> string) {
    forall a, b :: f(a) == f(b) ==> a == b
  }

  /** A window of no days is empty. */
  lemma EmptyWindow(p: Policy, keys: DateKeys, today: Day, count: int)
    requires count <= 0
    ensures Window(p, keys, today, count) == {}
  {
  }

  /** With an injective display key, a day's key is in the window exactly
      when the day lies in the window and is kept. */
  lemma WindowMembership(p: Policy, keys: DateKeys, today: Day, count: int, d: Day)
    requires Injective(keys.display)
    ensures keys.display(d) in Window(p, keys, today, count) <==>
            today <= d < today + count && Keeps(p, keys, d)
  {
    if keys.display(d) in Window(p, keys, today, count) {
      var e :| today <= e < today + count && Keeps(p, keys, e) && keys.display(e) == keys.display(d);
      assert e == d;
    }
  }

  /** Without a schedule: exactly the non-Sundays among the 60 days from today. */
  lemma FallbackExact(tour: Tour, today: Day, keys: DateKeys, d: Day)
    requires tour.schedule.None? && Injective(keys.display)
    ensures keys.display(d) in AvailableDates(tour, today, keys) <==>
            today <= d < today + FallbackDays && Weekday(d) != Sunday
  {
    WindowMembership(Fallback, keys, today, FallbackDays, d);
  }

  /** Without a schedule the blocked-date list plays no part: every key in the
      result is that of a non-Sunday in the 60-day window. */
  lemma FallbackSound(tour: Tour, today: Day, keys: DateKeys, k: string)
    requires tour.schedule.None?
    requires k in AvailableDates(tour, today, keys)
    ensures exists d :: today <= d < today + FallbackDays && Weekday(d) != Sunday && keys.display(d) == k
  {
  }

  /** With a schedule, every key in the result is that of a day in the window whose
      weekday is available and whose ISO date is not blocked. */
  lemma ScheduledSound(tour: Tour, today: Day, keys: DateKeys, k: string)
    requires tour.schedule.Some?
    requires k in AvailableDates(tour, today, keys)
    ensures exists d :: today <= d < today + tour.schedule.value.advanceBookingDays &&
                        Weekday(d) in tour.schedule.value.availableDays &&
                        keys.iso(d) !in tour.schedule.value.blockedDates &&
                        keys.display(d) == k
  {
  }

  /** With a schedule: a day is returned iff it lies in the booking window, its weekday
      is available and its ISO date is not blocked. */
  lemma ScheduledExact(tour: Tour, today: Day, keys: DateKeys, d: Day)
    requires tour.schedule.Some? && Injective(keys.display)
    ensures var s := tour.schedule.value;
            keys.display(d) in AvailableDates(tour, today, keys) <==>
            today <= d < today + s.advanceBookingDays &&
            Weekday(d) in s.availableDays && keys.iso(d) !in s.blockedDates
  {
    WindowMembership(Scheduled(tour.schedule.value), keys, today, tour.schedule.value.advanceBookingDays, d);
  }

  /** The window holds at most one key per examined day. */
  lemma {:induction false} WindowSize(p: Policy, keys: DateKeys, today: Day, count: nat)
    ensures |Window(p, keys, today, count)| <= count
  {
    if count == 0 {
      EmptyWindow(p, keys, today, count);
    } else {
      var n := count - 1;
      WindowSize(p, keys, today, n);
      WindowStep(p, keys, today, n);
      var extra: set<string> := if Keeps(p, keys, today + n) then {keys.display(today + n)} else {};
      GrowByAtMostOne(Window(p, keys, today, n), Window(p, keys, today, n + 1), extra);
    }
  }

  /** Adding at most one element grows a set by at most one. */
  lemma GrowByAtMostOne(prev: set<string>, next: set<string>, extra: set<string>)
    requires next == prev + extra && |extra| <= 1
    ensures |next| <= |prev| + 1
  {
    assert |prev + extra| <= |prev| + |extra|;
  }

  /** The result has at most `advanceBookingDays` keys (60 without a schedule); it is
      empty when the window is not positive or no weekday is available. */
  lemma AvailableBounds(tour: Tour, today: Day, keys: DateKeys)
    ensures tour.schedule.None? ==> |AvailableDates(tour, today, keys)| <= 60
    ensures tour.schedule.Some? ==>
              |AvailableDates(tour, today, keys)| <= if tour.schedule.value.advanceBookingDays < 0 then 0
                                                     else tour.schedule.value.advanceBookingDays
    ensures tour.schedule.Some? && (tour.schedule.value.advanceBookingDays <= 0 ||
                                    tour.schedule.value.availableDays == []) ==>
              AvailableDates(tour, today, keys) == {}
  {
    var p := PolicyOf(tour);
    if Horizon(p) <= 0 {
      EmptyWindow(p, keys, today, Horizon(p));
    } else {
      WindowSize(p, keys, today, Horizon(p));
    }
  }

  /** Adding a blocked date never adds a day. */
  lemma BlockingNeverAdds(s: TourSchedule, b: string, today: Day, keys: DateKeys)
    ensures Window(Scheduled(s.(blockedDates := s.blockedDates + [b])), keys, today, s.advanceBookingDays)
            <= Window(Scheduled(s), keys, today, s.advanceBookingDays)
  {
    var s' := s.(blockedDates := s.blockedDates + [b]);
    forall k | k in Window(Scheduled(s'), keys, today, s.advanceBookingDays)
      ensures k in Window(Scheduled(s), keys, today, s.advanceBookingDays)
    {
      var d :| today <= d < today + s.advanceBookingDays && Keeps(Scheduled(s'), keys, d) && keys.display(d) == k;
      assert Keeps(Scheduled(s), keys, d);
    }
  }

  /** Making more weekdays available never removes a day. */
  lemma MoreWeekdaysNeverRemove(s: TourSchedule, days: seq<int>, today: Day, keys: DateKeys)
    requires forall w :: w in s.availableDays ==> w in days
    ensures Window(Scheduled(s), keys, today, s.advanceBookingDays)
            <= Window(Scheduled(s.(availableDays := days)), keys, today, s.advanceBookingDays)
  {
    var s' := s.(availableDays := days);
    forall k | k in Window(Scheduled(s), keys, today, s.advanceBookingDays)
      ensures k in Window(Scheduled(s'), keys, today, s.advanceBookingDays)
    {
      var d :| today <= d < today + s.advanceBookingDays && Keeps(Scheduled(s), keys, d) && keys.display(d) == k;
      assert Keeps(Scheduled(s'), keys, d);
    }
  }

  /** Monday-to-Saturday with nothing blocked over 60 days is the fallback policy. */
  lemma StandardScheduleIsFallback(slots: seq<TimeSlot>, today: Day, keys: DateKeys)
    ensures Window(Scheduled(StandardSchedule(slots)), keys, today, FallbackDays) == Window(Fallback, keys, today, FallbackDays)
  {
    forall d ensures Keeps(Scheduled(StandardSchedule(slots)), keys, d) == Keeps(Fallback, keys, d) {
      var w := Weekday(d);
      assert w in MondayToSaturday <==> w != 0;
    }
  }

  /** For every catalogue tour the scheduled result equals what the tour would get
      without a schedule. */
  lemma CatalogueMatchesFallback(t: Tour, today: Day, keys: DateKeys)
    requires t in Catalogue
    ensures AvailableDates(t, today, keys) == AvailableDates(t.(schedule := None), today, keys)
  {
    var i :| 0 <= i < |Catalogue| && Catalogue[i] == t;
    StandardScheduleIsFallback(t.schedule.value.timeSlots, today, keys);
  }

  /** The worked example of a five-day window opening on Saturday 8 March 2025 (local
      day 20155) with Monday to Saturday available and 10 March blocked: Saturday 8,
      Tuesday 11 and Wednesday 12 remain. */
  lemma FiveDayExample(keys: DateKeys, slots: seq<TimeSlot>)
    requires Injective(keys.iso) && keys.iso(20157) == "2025-03-10"
    ensures AvailableDates(Tour("t", "", "", 0, 0, "", "",
                                Some(TourSchedule(MondayToSaturday, slots, ["2025-03-10"], 5))),
                           20155, keys)
            == {keys.display(20155), keys.display(20158), keys.display(20159)}
  {
    var s := TourSchedule(MondayToSaturday, slots, ["2025-03-10"], 5);
    var p := Scheduled(s);
    assert Weekday(20155) == 6 && Weekday(20156) == 0;
    assert Keeps(p, keys, 20155) && !Keeps(p, keys, 20156) && !Keeps(p, keys, 20157);
    assert Keeps(p, keys, 20158) && Keeps(p, keys, 20159);
    WindowStep(p, keys, 20155, 0);
    WindowStep(p, keys, 20155, 1);
    WindowStep(p, keys, 20155, 2);
    WindowStep(p, keys, 20155, 3);
    WindowStep(p, keys, 20155, 4);
    EmptyWindow(p, keys, 20155, 0);
  }

  // ---------------------------------------------------------------------
  // The blocked-date key as written: the UTC date of the local instant
  // ---------------------------------------------------------------------

  /** The time of day the calculator runs at, in minutes after local midnight, and the
      local offset from UTC in minutes (UTC time = local time - offset). Every day of
      the window carries the same time of day. */
  datatype Clock = Clock(minuteOfDay: int, utcOffset: int)

  const MinutesPerDay := 1440

  /** The UTC calendar day of local day `d` at the time of day of `c`. */
  function UtcDay(d: Day, c: Clock): (u: Day)
    ensures u * MinutesPerDay <= d * MinutesPerDay + c.minuteOfDay - c.utcOffset < (u + 1) * MinutesPerDay
  {
    (d * MinutesPerDay + c.minuteOfDay - c.utcOffset) / MinutesPerDay
  }

  /** The keys as the calculator computes them when it runs at clock `c`: the ISO key
      of the UTC day, but the display key of the local day. */
  function UtcKeys(keys: DateKeys, c: Clock): (k: DateKeys)
    ensures forall d :: k.iso(d) == keys.iso(UtcDay(d, c))
    ensures k.display == keys.display
  {
    DateKeys(d => keys.iso(UtcDay(d, c)), keys.display)
  }

  /** Run at 20:00 five hours behind UTC with the keys the code computes, blocking
      tomorrow's date hides today and still offers tomorrow. */
  lemma BlockedDateShiftsADay(keys: DateKeys, today: Day, slots: seq<TimeSlot>)
    requires Injective(keys.iso) && Injective(keys.display)
    ensures var t := Tour("t", "", "", 0, 0, "", "",
                          Some(TourSchedule([0, 1, 2, 3, 4, 5, 6], slots, [keys.iso(today + 1)], 3)));
            var k := UtcKeys(keys, Clock(20 * 60, -5 * 60));
            keys.display(today) !in AvailableDates(t, today, k) &&
            keys.display(today + 1) in AvailableDates(t, today, k)
  {
    var s := TourSchedule([0, 1, 2, 3, 4, 5, 6], slots, [keys.iso(today + 1)], 3);
    var c := Clock(20 * 60, -5 * 60);
    var k := UtcKeys(keys, c);
    assert UtcDay(today, c) == today + 1;
    assert UtcDay(today + 1, c) == today + 2;
    assert Weekday(today + 1) in s.availableDays;
    assert Keeps(Scheduled(s), k, today + 1);
    assert !Keeps(Scheduled(s), k, today);
    WindowMembership(Scheduled(s), k, today, 3, today);
    WindowMembership(Scheduled(s), k, today, 3, today + 1);
  }

  /** With the ISO key taken from the local day, a blocked date is never offered. */
  lemma BlockedDayNeverOffered(tour: Tour, today: Day, keys: DateKeys, d: Day)
    requires tour.schedule.Some? && Injective(keys.display)
    requires keys.iso(d) in tour.schedule.value.blockedDates
    ensures keys.display(d) !in AvailableDates(tour, today, keys)
  {
    ScheduledExact(tour, today, keys, d);
  }
}
