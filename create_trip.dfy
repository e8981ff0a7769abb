/** The trip form (pages/CreateTrip.tsx): the trip length computed from the two
    dates, the 3 to 15 day window, and the submit step that regenerates the
    plan for a new length, merges it with the plan on screen and puts the new
    trip in front of the saved ones.

    A date field is a day number (days since 1970-01-01) or `None` when empty;
    `new Date("YYYY-MM-DD")` is midnight UTC of that day. */
module CreateTrip {
  import opened Types
  import opened Storage
  import Text
  import DestinationIntel
  import MyTrips

  const MsPerDay: int := 1000 * 60 * 60 * 24

  /** `Math.ceil(a / b)` for a positive `b`: the least `q` with `a <= q * b`. */
  function CeilDiv(a: int, b: int): (q: int)
    requires b > 0
    ensures (q - 1) * b < a <= q * b
  {
    var f := (-a) / b;
    assert -a == f * b + (-a) % b;
    -f
  }

  /** The duration effect on two instants in milliseconds: whole days between
      them, rounded up, plus one, and 0 when that is not positive or a date is
      missing. */
  function DurationMs(startMs: Option<int>, endMs: Option<int>): (d: int)
    ensures d >= 0
    ensures startMs.None? || endMs.None? ==> d == 0
    ensures startMs.Some? && endMs.Some? ==>
              (d > 0 <==> endMs.value - startMs.value > -MsPerDay)
    ensures d > 0 ==> (d - 2) * MsPerDay < endMs.value - startMs.value <= (d - 1) * MsPerDay
  {
    if startMs.None? || endMs.None? then 0
    else
      var diffDays := CeilDiv(endMs.value - startMs.value, MsPerDay) + 1;
      if diffDays > 0 then diffDays else 0
  }

  function Midnight(day: Option<int>): Option<int> {
    match day
    case None => None
    case Some(d) => Some(d * MsPerDay)
  }

  /** The trip length for two day numbers: with both dates set it is the number
      of days from start to end counting both, or 0 when the end comes first. */
  function Duration(startDay: Option<int>, endDay: Option<int>): (d: int)
    ensures startDay.None? || endDay.None? ==> d == 0
    ensures startDay.Some? && endDay.Some? ==>
              d == (if endDay.value - startDay.value + 1 > 0 then endDay.value - startDay.value + 1 else 0)
  {
    var d := DurationMs(Midnight(startDay), Midnight(endDay));
    if startDay.Some? && endDay.Some? then
      DurationOfDays(startDay.value, endDay.value);
      d
    else d
  }

  /** For two midnights the rounding up is exact. */
  lemma DurationOfDays(s: int, e: int)
    ensures DurationMs(Some(s * MsPerDay), Some(e * MsPerDay)) == (if e - s + 1 > 0 then e - s + 1 else 0)
  {
    var k := e - s;
    assert e * MsPerDay - s * MsPerDay == k * MsPerDay;
    var q := CeilDiv(k * MsPerDay, MsPerDay);
    assert (q - 1) * MsPerDay < k * MsPerDay <= q * MsPerDay;
    assert q == k;
  }

  /** `isDurationValid`: a trip lasts from 3 to 15 days. */
  predicate IsDurationValid(duration: int) {
    3 <= duration <= 15
  }

  /** A valid length needs both dates, the end on or after the start. */
  lemma ValidDurationHasDates(startDay: Option<int>, endDay: Option<int>)
    requires IsDurationValid(Duration(startDay, endDay))
    ensures startDay.Some? && endDay.Some? && startDay.value + 2 <= endDay.value <= startDay.value + 14
  {
  }

  /** The recommended budget: the daily cost times the length, or times 7 while
      the length is 0. */
  function RecommendedBudget(dailyCostHome: real, duration: int): (b: real)
    requires duration >= 0
    ensures duration == 0 ==> b == dailyCostHome * 7.0
    ensures duration > 0 ==> b == dailyCostHome * duration as real
    ensures dailyCostHome >= 0.0 && IsDurationValid(duration) ==>
              dailyCostHome * 3.0 <= b <= dailyCostHome * 15.0
  {
    dailyCostHome * (if duration == 0 then 7 else duration) as real
  }

  // ---------------------------------------------------------------- submit

  /** `a || b` on strings: the empty string is falsy. */
  function OrElse(a: string, b: string): string {
    if a != "" then a else b
  }

  /** The merge after regeneration: the fresh plan, with the coordinates of the
      plan on screen. Visa and transport are taken from the fresh plan, since a
      bundle always carries both and `||` then keeps the left side. */
  function Merge(regenerated: DestinationData, data: DestinationData): (m: DestinationData)
    ensures m.coordinates == data.coordinates
    ensures m.itinerary == regenerated.itinerary && m.visa == regenerated.visa && m.localTransport == regenerated.localTransport
    ensures m.name == regenerated.name && m.economics == regenerated.economics && m.lastUpdated == regenerated.lastUpdated
    ensures m.tagline == regenerated.tagline && m.timeInfo == regenerated.timeInfo
    ensures m.weatherInfo == regenerated.weatherInfo && m.cultureTips == regenerated.cultureTips
  {
    regenerated.(coordinates := data.coordinates)
  }

  /** The plan that is saved. It is the plan on screen when its length already
      matches; otherwise a regenerated plan for the new length in the profile's
      currency ("INR" when none is stored or set), merged with it. A stored
      profile text that does not parse throws inside the `try`, and the plan on
      screen is kept. */
  function FinalData(data: DestinationData, local: Store, duration: int,
                     hasClient: bool, reply: DestinationIntel.Reply, now: int)
    : (d: DestinationData)
    requires data.name != [] || duration == |data.itinerary| || (hasClient && reply.Parsed?)
    ensures d.coordinates == data.coordinates
    ensures duration == |data.itinerary| ==> d == data
    ensures ProfileKey in local && !local[ProfileKey].ProfileValue? ==> d == data
    ensures duration != |data.itinerary| && ProfileKey !in local ==>
              d == Merge(DestinationIntel.FetchDestinationIntelligence(data.name, "INR", duration, hasClient, reply, now), data)
    ensures duration != |data.itinerary| && ProfileKey in local && local[ProfileKey].ProfileValue? ==>
              var c := local[ProfileKey].profile.currency;
              d == Merge(DestinationIntel.FetchDestinationIntelligence(data.name, if c == "" then "INR" else c,
                                                                       duration, hasClient, reply, now), data)
  {
    if duration == |data.itinerary| then data
    else match Lookup(local, ProfileKey)
      case None =>
        Merge(DestinationIntel.FetchDestinationIntelligence(data.name, "INR", duration, hasClient, reply, now), data)
      case Some(ProfileValue(p)) =>
        Merge(DestinationIntel.FetchDestinationIntelligence(data.name, OrElse(p.currency, "INR"), duration,
                                                            hasClient, reply, now), data)
      case Some(_) => data
  }

  /** Offline, a regenerated plan has exactly the requested number of days,
      follows the schema and is priced in the profile's currency, or in "INR"
      when no profile or no currency is stored, whatever the plan on screen held. */
  lemma OfflineRegenerationHasLength(data: DestinationData, local: Store, duration: int,
                                     reply: DestinationIntel.Reply, now: int)
    requires data.name != [] && IsDurationValid(duration) && duration != |data.itinerary|
    requires ProfileKey !in local || local[ProfileKey].ProfileValue?
    ensures var d := FinalData(data, local, duration, false, reply, now);
            && |d.itinerary| == duration && DestinationIntel.SatisfiesSchemaEnums(d)
            && d.economics.homeCurrency
               == (if ProfileKey in local && local[ProfileKey].profile.currency != ""
                   then local[ProfileKey].profile.currency else "INR")
  {
    var currency := if ProfileKey in local then OrElse(local[ProfileKey].profile.currency, "INR") else "INR";
    DestinationIntel.FallbackIsWellFormed(data.name, currency, duration, false, reply, now);
  }

  /** The regeneration step of `handleSubmit`: `finalData` starts as the plan
      on screen and is replaced by the merged fresh plan when the length differs
      and the stored profile parses. */
  method Regenerate(local: Store, data: DestinationData, duration: int,
                    hasClient: bool, reply: DestinationIntel.Reply, now: int)
    returns (finalData: DestinationData)
    requires data.name != [] || duration == |data.itinerary| || (hasClient && reply.Parsed?)
    ensures finalData == FinalData(data, local, duration, hasClient, reply, now)
  {
    finalData := data;
    if duration != |data.itinerary| {
      var saved := Lookup(local, ProfileKey);
      match saved
      case None =>
        var regenerated := DestinationIntel.FetchDestinationIntelligence(data.name, "INR", duration, hasClient, reply, now);
        finalData := Merge(regenerated, data);
      case Some(ProfileValue(p)) =>
        var regenerated := DestinationIntel.FetchDestinationIntelligence(data.name, OrElse(p.currency, "INR"),
                                                                         duration, hasClient, reply, now);
        finalData := Merge(regenerated, data);
      case Some(_) =>
    }
  }

  /** The saved trip: `Date.now()` as its id, no expenses yet. */
  function NewTrip(now: nat, finalData: DestinationData, startDay: int, endDay: int, budget: real): (t: UserTrip)
    ensures t.expenses == [] && t.destination == finalData.name && t.data == finalData
    ensures t.startDay == startDay && t.endDay == endDay && t.budget == budget
    ensures |t.id| >= 1 && Text.AllDigits(t.id) && Text.ParseDecimal(t.id) == now
  {
    Text.DecimalRoundTrip(now);
    UserTrip(Text.DecimalString(now), finalData.name, startDay, endDay, budget, [], finalData)
  }

  /** Local storage after saving `trip`: the trip in front of the stored list,
      an absent list counting as empty. A stored value that is not a list makes
      the save throw, and then nothing is written. */
  function SavedTrips(local: Store, trip: UserTrip): (r: Option<Store>)
    ensures r.None? <==> TripsKey in local && !local[TripsKey].TripsValue?
    ensures r.Some? ==> r.value == local[TripsKey := TripsValue([trip] + MyTrips.LoadTrips(local))]
  {
    match Lookup(local, TripsKey)
    case None =>
      assert [trip] + MyTrips.LoadTrips(local) == [trip];
      Some(local[TripsKey := TripsValue([trip])])
    case Some(TripsValue(existing)) => Some(local[TripsKey := TripsValue([trip] + existing)])
    case Some(_) => None
  }

  /** Saving puts the new trip first and keeps every earlier trip, in order:
      the trip list loads them back that way. */
  lemma SaveKeepsEarlierTrips(local: Store, trip: UserTrip)
    requires SavedTrips(local, trip).Some?
    ensures var after := MyTrips.LoadTrips(SavedTrips(local, trip).value);
            && |after| == |MyTrips.LoadTrips(local)| + 1 && after[0] == trip
            && after[1..] == MyTrips.LoadTrips(local)
            && after == [trip] + MyTrips.LoadTrips(local)
  {
  }

  class TripForm {
    /** The plan the form was opened with. */
    const data: DestinationData
    var startDay: Option<int>
    var endDay: Option<int>
    var duration: int
    var budget: real
    var isSubmitting: bool
    var route: Option<Route>

    ghost predicate Valid()
      reads this
    {
      duration == Duration(startDay, endDay)
    }

    constructor (data: DestinationData)
      ensures Valid() && this.data == data && startDay == None && endDay == None
      ensures budget == 0.0 && !isSubmitting && route == None
    {
      this.data := data;
      startDay := None;
      endDay := None;
      duration := 0;
      budget := 0.0;
      isSubmitting := false;
      route := None;
    }

    /** A new start date. The end-date effect follows it: an end date before
        the new start is cleared. Then the length is recomputed. */
    method SetStart(day: Option<int>)
      requires Valid()
      modifies this
      ensures Valid() && budget == old(budget) && isSubmitting == old(isSubmitting) && route == old(route)
      ensures day == old(startDay) ==> startDay == old(startDay) && endDay == old(endDay)
      ensures day != old(startDay) ==> startDay == day
      ensures day != old(startDay) ==>
                endDay == (if day.Some? && old(endDay).Some? && day.value > old(endDay).value then None else old(endDay))
    {
      if day == startDay {
        return;
      }
      startDay := day;
      if startDay.Some? && endDay.Some? && startDay.value > endDay.value {
        endDay := None;
      }
      duration := Duration(startDay, endDay);
    }

    /** A new end date: the length is recomputed; an end before the start is
        kept, and then the length is 0. */
    method SetEnd(day: Option<int>)
      requires Valid()
      modifies this
      ensures Valid() && endDay == day && startDay == old(startDay)
      ensures budget == old(budget) && isSubmitting == old(isSubmitting) && route == old(route)
    {
      endDay := day;
      duration := Duration(startDay, endDay);
    }

    method SetBudget(value: real)
      modifies this
      ensures budget == value && startDay == old(startDay) && endDay == old(endDay) && duration == old(duration)
      ensures isSubmitting == old(isSubmitting) && route == old(route)
    {
      budget := value;
    }

    /** `handleSubmit`: nothing outside the 3 to 15 day window. Inside it the
        trip is built from the final plan and saved in front of the stored
        trips, and the trip list opens; a stored list that does not parse
        stops the save, and then nothing is written and the form stays. */
    method Submit(b: Browser, hasClient: bool, reply: DestinationIntel.Reply, now: nat)
      requires Valid()
      requires data.name != [] || !IsDurationValid(duration) || duration == |data.itinerary| || (hasClient && reply.Parsed?)
      modifies this, b
      ensures Valid() && startDay == old(startDay) && endDay == old(endDay) && budget == old(budget)
      ensures b.session == old(b.session)
      ensures !IsDurationValid(duration) ==>
                b.local == old(b.local) && route == old(route) && isSubmitting == old(isSubmitting)
      ensures IsDurationValid(duration) ==>
                && startDay.Some? && endDay.Some?
                && var final := FinalData(data, old(b.local), duration, hasClient, reply, now);
                   var trip := NewTrip(now, final, startDay.value, endDay.value, budget);
                   var saved := SavedTrips(old(b.local), trip);
                   && isSubmitting
                   && (saved.None? ==> b.local == old(b.local) && route == old(route))
                   && (saved.Some? ==> b.local == saved.value && route == Some(TripsPage))
    {
      if !IsDurationValid(duration) {
        return;
      }
      ValidDurationHasDates(startDay, endDay);
      isSubmitting := true;
      var finalData := Regenerate(b.local, data, duration, hasClient, reply, now);
      var trip := NewTrip(now, finalData, startDay.value, endDay.value, budget);
      var existing := Lookup(b.local, TripsKey);
      if existing.None? || existing.value.TripsValue? {
        var ts := if existing.None? then [] else existing.value.trips;
        b.local := b.local[TripsKey := TripsValue([trip] + ts)];
        route := Some(TripsPage);
      }
    }
  }
}
