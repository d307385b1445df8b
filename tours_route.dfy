/** The tour-creation endpoint of `app/api/tours/route.ts`. `Date.now()` is the
    parameter `stamp`; prices and durations are integers, so `Number(x)` is `x`. */
module ToursRoute {
  import opened Common
  import Tours

  datatype TourBody = TourBody(
    title: Option<string>,
    shortDescription: Option<string>,
    details: Option<string>,
    price: Option<int>,
    durationHours: Option<int>,
    image: Option<string>)

  datatype NewTour = NewTour(
    id: string,
    title: string,
    shortDescription: string,
    details: string,
    price: int,
    durationHours: int,
    image: string)

  datatype PostResponse =
    | Created(data: NewTour, message: string)
    | Failed(status: int, message: string)

  predicate RequiredPresent(body: TourBody) {
    StrTruthy(body.title) && StrTruthy(body.shortDescription) && StrTruthy(body.details) &&
    NumTruthy(body.price) && NumTruthy(body.durationHours) && StrTruthy(body.image)
  }

  /** `POST /api/tours`. */
  function Post(body: TourBody, stamp: nat): (r: PostResponse)
    ensures r.Failed? <==> !RequiredPresent(body)
    ensures r.Failed? ==> r.status == 400 && r.message == "Missing required fields"
    ensures r.Created? ==>
              var t := r.data;
              Some(t.title) == body.title && Some(t.shortDescription) == body.shortDescription &&
              Some(t.details) == body.details && Some(t.image) == body.image &&
              Some(t.price) == body.price && Some(t.durationHours) == body.durationHours &&
              t.price != 0 && t.durationHours != 0 &&
              StartsWith(t.id, "tour-") && r.message == "Tour created successfully"
  {
    if !RequiredPresent(body) then
      Failed(400, "Missing required fields")
    else
      Created(NewTour(
                id := "tour-" + Decimal(stamp),
                title := body.title.value,
                shortDescription := body.shortDescription.value,
                details := body.details.value,
                price := body.price.value,
                durationHours := body.durationHours.value,
                image := body.image.value),
              "Tour created successfully")
  }

  /** A price or a duration of 0 counts as missing. */
  lemma ZeroIsMissing(body: TourBody, stamp: nat)
    requires body.price == Some(0) || body.durationHours == Some(0)
    ensures Post(body, stamp) == Failed(400, "Missing required fields")
  {
  }

  /** The created tour as the catalogue type sees it: it has no `schedule` field. */
  function AsCatalogueTour(t: NewTour): (r: Tours.Tour)
    ensures r.schedule.None? && r.id == t.id && r.price == t.price
  {
    Tours.Tour(t.id, t.title, t.shortDescription, t.price, t.durationHours, t.image, t.details, None)
  }

  /** Availability for a created tour is the fallback: the non-Sundays of the 60 days from today. */
  lemma CreatedTourUsesFallback(body: TourBody, stamp: nat, today: Tours.Day, keys: Tours.DateKeys, d: Tours.Day)
    requires Post(body, stamp).Created? && Tours.Injective(keys.display)
    ensures keys.display(d) in Tours.AvailableDates(AsCatalogueTour(Post(body, stamp).data), today, keys) <==>
            today <= d < today + Tours.FallbackDays && Tours.Weekday(d) != Tours.Sunday
  {
    Tours.FallbackExact(AsCatalogueTour(Post(body, stamp).data), today, keys, d);
  }
}
