/** The offline destination generator of services/geminiService.ts and the
    fallback rule of `fetchDestinationIntelligence`.

    The generated bundle is a function of the destination, the home currency,
    the number of days and the clock reading `now`; everything derived from the
    destination goes through one integer seed. The AI request is reduced to the
    three ways it can end (it throws, it answers with no text, or it answers
    with text that parses to a bundle). */
module DestinationIntel {
  import opened Types
  import Text

  /** `destination.length + destination.charCodeAt(0)`. The seed of an empty
      destination would be NaN, which this integer model does not represent. */
  function Seed(destination: string): (seed: int)
    requires destination != []
    ensures seed >= 1 + destination[0] as int
  {
    |destination| + destination[0] as int
  }

  /** The length `Array.from({length: days})` produces: a negative length
      counts as zero. */
  function ArrayLength(days: int): (n: nat)
    ensures days >= 0 ==> n == days
    ensures days < 0 ==> n == 0
  {
    if days < 0 then 0 else days
  }

  /** The id of activity `k` (1, 2 or 3) of the day at index `i`: `mock-d{i}-a{k}`. */
  function ActivityId(i: nat, k: nat): string
    requires 1 <= k <= 3
  {
    "mock-d" + Text.DecimalString(i) + "-a" + [Text.DigitChar(k)]
  }

  /** Different (day, slot) pairs get different ids. */
  lemma ActivityIdInjective(i: nat, k: nat, j: nat, l: nat)
    requires 1 <= k <= 3 && 1 <= l <= 3
    requires ActivityId(i, k) == ActivityId(j, l)
    ensures i == j && k == l
  {
    var a, b := ActivityId(i, k), ActivityId(j, l);
    var di, dj := Text.DecimalString(i), Text.DecimalString(j);
    assert |a| == 6 + |di| + 3 && |b| == 6 + |dj| + 3;
    assert a[6..6 + |di|] == di;
    assert b[6..6 + |dj|] == dj;
    Text.DecimalInjective(i, j);
    assert a[|a| - 1] == Text.DigitChar(k) && b[|b| - 1] == Text.DigitChar(l);
  }

  /** The day at index `i`: numbered `i + 1`, with a morning, a midday and an
      afternoon activity. */
  function MockDay(destination: string, i: nat): DayPlan {
    DayPlan(i + 1, [
      Activity(ActivityId(i, 1), "09:00", "Explore " + destination + " Landmarks",
               "Visit the most iconic spots in the city center.", "City Center", "sightseeing"),
      Activity(ActivityId(i, 2), "13:00", "Local Lunch Experience",
               "Taste the authentic flavors of the region.", "Old Town Market", "food"),
      Activity(ActivityId(i, 3), "16:00", "Sunset Views",
               "Relax and enjoy the panoramic views.", "Scenic Point", "relax")])
  }

  function MockItinerary(destination: string, days: int): (it: seq<DayPlan>)
    ensures |it| == ArrayLength(days)
    ensures forall i :: 0 <= i < |it| ==> it[i] == MockDay(destination, i)
  {
    seq(ArrayLength(days), i requires 0 <= i => MockDay(destination, i))
  }

  /** `generateMockData(destination, homeCurrency, days)` with `Date.now()` = `now`. */
  function GenerateMockData(destination: string, homeCurrency: string, days: int, now: int)
    : (d: DestinationData)
    requires destination != []
    ensures d.name == destination && d.economics.homeCurrency == homeCurrency
    ensures 20.0 <= d.coordinates.lat <= 39.0 && 70.0 <= d.coordinates.lng <= 99.0
    ensures d.economics.dailyCostLocal == d.economics.dailyCostHome
    ensures 100.0 <= d.economics.dailyCostHome <= 149.0
    ensures d.economics.budgetComparison == (if Seed(destination) % 2 == 0 then "Cheaper" else "Expensive")
    ensures d.economics.budgetComparison != "Similar"
    ensures d.lastUpdated == now
  {
    var seed := Seed(destination);
    DestinationData(
      destination,
      "The Adventure Awaits",
      Coordinates((20 + seed % 20) as real, (70 + seed % 30) as real),
      Economics("USD", homeCurrency, 1.0, 1.0,
                if seed % 2 == 0 then "Cheaper" else "Expensive",
                (100 + seed % 50) as real, (100 + seed % 50) as real),
      TimeInfo("GMT", 0.0, "Unknown offset", "Spring or Autumn"),
      WeatherInfo("Sunny Season", "25\U{B0}C / 77\U{B0}F", "Pleasant weather expected."),
      ["Respect local customs and traditions.",
       "Tipping is appreciated but not mandatory.",
       "Public transport is the best way to get around."],
      VisaInfo(VisaType.VisaFree.Label(), "Free", "Instant / On Arrival",
               ["Passport (6 months validity)", "Return Ticket"],
               "Always verify with the official embassy.", "Easy", "30-90 Days"),
      MockItinerary(destination, days),
      [TransportOption("Taxi", "Widely available app-based cabs", 20.0, 20.0),
       TransportOption("Metro", "City center connectivity", 2.0, 2.0)],
      now)
  }

  /** The itinerary has one entry per requested day, numbered 1..days in order,
      each with three activities: sightseeing at 09:00, food at 13:00 and relax
      at 16:00. */
  lemma MockItineraryShape(destination: string, homeCurrency: string, days: int, now: int)
    requires destination != []
    ensures var it := GenerateMockData(destination, homeCurrency, days, now).itinerary;
            && (days >= 0 ==> |it| == days) && (days < 0 ==> it == [])
            && forall i :: 0 <= i < |it| ==>
                 && it[i].day == i + 1 && |it[i].activities| == 3
                 && it[i].activities[0].time == "09:00" && it[i].activities[0].kind == "sightseeing"
                 && it[i].activities[1].time == "13:00" && it[i].activities[1].kind == "food"
                 && it[i].activities[2].time == "16:00" && it[i].activities[2].kind == "relax"
  {
  }

  /** No two activities of a generated bundle share an id. */
  lemma MockActivityIdsDistinct(destination: string, homeCurrency: string, days: int, now: int)
    requires destination != []
    ensures var it := GenerateMockData(destination, homeCurrency, days, now).itinerary;
            forall i, k, j, l ::
              0 <= i < |it| && 0 <= j < |it| && 0 <= k < |it[i].activities| && 0 <= l < |it[j].activities|
              && (i != j || k != l)
              ==> it[i].activities[k].id != it[j].activities[l].id
  {
    var it := GenerateMockData(destination, homeCurrency, days, now).itinerary;
    forall i, k, j, l |
      0 <= i < |it| && 0 <= j < |it| && 0 <= k < |it[i].activities| && 0 <= l < |it[j].activities|
      && (i != j || k != l)
      ensures it[i].activities[k].id != it[j].activities[l].id
    {
      assert it[i] == MockDay(destination, i) && it[j] == MockDay(destination, j);
      assert it[i].activities[k].id == ActivityId(i, k + 1);
      assert it[j].activities[l].id == ActivityId(j, l + 1);
      if ActivityId(i, k + 1) == ActivityId(j, l + 1) {
        ActivityIdInjective(i, k + 1, j, l + 1);
      }
    }
  }

  // ---------------------------------------------------------------- the response schema

  /** The enum constraints of `destinationSchema`: budget comparison, visa type,
      visa difficulty and the type of every activity take one of the listed values. */
  predicate SatisfiesSchemaEnums(d: DestinationData) {
    && d.economics.budgetComparison in ["Cheaper", "Similar", "Expensive"]
    && d.visa.visaType in [VisaType.VisaFree.Label(), VisaType.VisaOnArrival.Label(),
                           VisaType.EVisa.Label(), VisaType.EmbassyRequired.Label()]
    && d.visa.difficultyLevel in ["Easy", "Moderate", "Hard"]
    && forall i, k :: 0 <= i < |d.itinerary| && 0 <= k < |d.itinerary[i].activities| ==>
         d.itinerary[i].activities[k].kind in ["sightseeing", "food", "transport", "relax"]
  }

  /** The offline bundle is one the schema admits. */
  lemma MockSatisfiesSchema(destination: string, homeCurrency: string, days: int, now: int)
    requires destination != []
    ensures SatisfiesSchemaEnums(GenerateMockData(destination, homeCurrency, days, now))
  {
    var d := GenerateMockData(destination, homeCurrency, days, now);
    forall i, k | 0 <= i < |d.itinerary| && 0 <= k < |d.itinerary[i].activities|
      ensures d.itinerary[i].activities[k].kind in ["sightseeing", "food", "transport", "relax"]
    {
      assert d.itinerary[i] == MockDay(destination, i);
    }
  }

  // ---------------------------------------------------------------- fetchDestinationIntelligence

  /** How the AI request ends, when a client exists: it throws (network failure,
      a rejected request, text that is not JSON), it answers with empty text,
      or its text parses to a bundle. */
  datatype Reply = Failed | NoText | Parsed(data: DestinationData)

  /** `fetchDestinationIntelligence`: the parsed reply stamped with `now`, or
      else the offline bundle; it always produces a bundle. */
  function FetchDestinationIntelligence(destination: string, userCurrency: string, days: int,
                                        hasClient: bool, reply: Reply, now: int)
    : (d: DestinationData)
    requires destination != [] || (hasClient && reply.Parsed?)
    ensures d.lastUpdated == now
    ensures !hasClient || !reply.Parsed? ==> d == GenerateMockData(destination, userCurrency, days, now)
    ensures hasClient && reply.Parsed? ==> d == reply.data.(lastUpdated := now)
  {
    if !hasClient then GenerateMockData(destination, userCurrency, days, now)
    else match reply
      case Parsed(data) => data.(lastUpdated := now)
      case _ => GenerateMockData(destination, userCurrency, days, now)
  }

  /** Whenever the service falls back, what it produces has one itinerary day per
      requested day and satisfies the schema. */
  lemma FallbackIsWellFormed(destination: string, userCurrency: string, days: int,
                             hasClient: bool, reply: Reply, now: int)
    requires destination != [] && days >= 0
    requires !hasClient || !reply.Parsed?
    ensures var d := FetchDestinationIntelligence(destination, userCurrency, days, hasClient, reply, now);
            SatisfiesSchemaEnums(d) && |d.itinerary| == days && d.name == destination
  {
    MockSatisfiesSchema(destination, userCurrency, days, now);
  }
}
