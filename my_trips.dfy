/** The trip list (pages/MyTrips.tsx): loading the saved trips, the upcoming /
    past split, the destination filter and the sorted list of destinations the
    filter offers. All of it is computed from the trips and the clock. */
module MyTrips {
  import opened Types
  import opened Storage
  import Text

  const MsPerDay: int := 1000 * 60 * 60 * 24

  /** The mount effect: the stored trips, or none when nothing is stored or the
      stored text does not parse. */
  function LoadTrips(local: Store): (trips: seq<UserTrip>)
    ensures TripsKey in local && local[TripsKey].TripsValue? ==> trips == local[TripsKey].trips
    ensures TripsKey !in local || !local[TripsKey].TripsValue? ==> trips == []
  {
    match Lookup(local, TripsKey)
    case Some(TripsValue(ts)) => ts
    case _ => []
  }

  /** `isPast`: the end date, read as midnight UTC of that day, lies strictly
      before `nowMs`. */
  predicate IsPast(t: UserTrip, nowMs: int) {
    t.endDay * MsPerDay < nowMs
  }

  /** A trip never goes back from past to upcoming: as the clock moves on,
      every trip the past tab shows stays on it and the upcoming tab only
      loses trips. The switch happens just after midnight UTC of the end day. */
  lemma PastStaysPast(trips: seq<UserTrip>, destination: string, t: UserTrip, n: int, m: int)
    requires n <= m
    ensures IsPast(t, n) ==> IsPast(t, m)
    ensures !IsPast(t, t.endDay * MsPerDay) && IsPast(t, t.endDay * MsPerDay + 1)
    ensures forall x :: x in FilteredTrips(trips, PastTab, destination, n) ==> x in FilteredTrips(trips, PastTab, destination, m)
    ensures forall x :: x in FilteredTrips(trips, Upcoming, destination, m) ==> x in FilteredTrips(trips, Upcoming, destination, n)
  {
  }

  // ---------------------------------------------------------------- filteredTrips

  datatype Tab = Upcoming | PastTab

  /** The filter's test: the time class matches the tab, and the destination
      filter is "All" or names the trip's destination. */
  predicate Keep(t: UserTrip, tab: Tab, destination: string, nowMs: int) {
    && (if tab == Upcoming then !IsPast(t, nowMs) else IsPast(t, nowMs))
    && (destination == "All" || t.destination == destination)
  }

  /** `a` is `b` with some elements left out, the rest in their order: each
      element of `b` is either kept as the next element of `a` or dropped. */
  predicate IsSubsequence<T(==)>(a: seq<T>, b: seq<T>) {
    if b == [] then a == []
    else (a != [] && a[0] == b[0] && IsSubsequence(a[1..], b[1..])) || IsSubsequence(a, b[1..])
  }

  /** `trips.filter(...)`: the trips that pass, in their order. */
  function FilteredTrips(trips: seq<UserTrip>, tab: Tab, destination: string, nowMs: int)
    : (r: seq<UserTrip>)
    ensures |r| <= |trips|
    ensures forall t :: t in r <==> t in trips && Keep(t, tab, destination, nowMs)
    ensures forall t :: multiset(r)[t] == (if Keep(t, tab, destination, nowMs) then multiset(trips)[t] else 0)
    ensures IsSubsequence(r, trips)
  {
    if trips == [] then []
    else
      var rest := FilteredTrips(trips[1..], tab, destination, nowMs);
      assert trips == [trips[0]] + trips[1..];
      if Keep(trips[0], tab, destination, nowMs) then [trips[0]] + rest
      else rest
  }

  /** With the destination filter on "All", the two tabs split the trips: each
      trip is in exactly one of them, counting repeats. */
  lemma {:induction false} TabsPartition(trips: seq<UserTrip>, nowMs: int)
    ensures multiset(FilteredTrips(trips, Upcoming, "All", nowMs)) + multiset(FilteredTrips(trips, PastTab, "All", nowMs))
            == multiset(trips)
    ensures |FilteredTrips(trips, Upcoming, "All", nowMs)| + |FilteredTrips(trips, PastTab, "All", nowMs)| == |trips|
  {
    if trips != [] {
      TabsPartition(trips[1..], nowMs);
      assert trips == [trips[0]] + trips[1..];
    }
  }

  // ---------------------------------------------------------------- uniqueDestinations

  function Destinations(trips: seq<UserTrip>): (ds: seq<string>)
    ensures |ds| == |trips| && forall i :: 0 <= i < |trips| ==> ds[i] == trips[i].destination
  {
    if trips == [] then [] else [trips[0].destination] + Destinations(trips[1..])
  }

  predicate Distinct(s: seq<string>) {
    forall i, j :: 0 <= i < j < |s| ==> s[i] != s[j]
  }

  /** `Array.from(new Set(s))`: the first occurrence of each string, in order. */
  function Dedup(s: seq<string>): (r: seq<string>)
    ensures Distinct(r) && forall x :: x in r <==> x in s
  {
    if s == [] then []
    else
      var r := Dedup(s[..|s| - 1]);
      assert s == s[..|s| - 1] + [s[|s| - 1]];
      if s[|s| - 1] in r then r else r + [s[|s| - 1]]
  }

  /** Ordered by code units with no repeats. */
  predicate StrictlySorted(s: seq<string>) {
    forall i, j :: 0 <= i < j < |s| ==> Text.Less(s[i], s[j])
  }

  /** `x` put into its place in a sorted sequence that lacks it. */
  function Insert(x: string, s: seq<string>): (r: seq<string>)
    requires StrictlySorted(s) && x !in s
    ensures StrictlySorted(r) && multiset(r) == multiset(s) + multiset{x}
  {
    if s == [] then [x]
    else if Text.Less(x, s[0]) then
      LessThanAll(x, s);
      [x] + s
    else
      Text.LessTotal(x, s[0]);
      var r := Insert(x, s[1..]);
      assert s == [s[0]] + s[1..];
      HeadLessThanAll(s, x, r);
      [s[0]] + r
  }

  lemma LessThanAll(x: string, s: seq<string>)
    requires StrictlySorted(s) && s != [] && Text.Less(x, s[0])
    ensures StrictlySorted([x] + s)
  {
    var r := [x] + s;
    forall i, j | 0 <= i < j < |r| ensures Text.Less(r[i], r[j]) {
      assert r[j] == s[j - 1];
      if i == 0 {
        if j > 1 { Text.LessTrans(x, s[0], s[j - 1]); }
      } else {
        assert r[i] == s[i - 1];
      }
    }
  }

  lemma HeadLessThanAll(s: seq<string>, x: string, r: seq<string>)
    requires StrictlySorted(s) && s != [] && Text.Less(s[0], x) && StrictlySorted(r)
    requires multiset(r) == multiset(s[1..]) + multiset{x}
    ensures StrictlySorted([s[0]] + r)
  {
    forall j | 0 <= j < |r| ensures Text.Less(s[0], r[j]) {
      assert r[j] in multiset(r);
      if r[j] != x {
        assert r[j] in multiset(s[1..]);
        var k :| 0 <= k < |s[1..]| && s[1..][k] == r[j];
        assert s[k + 1] == r[j];
      }
    }
  }

  /** `.sort()` on distinct strings. */
  function Sort(s: seq<string>): (r: seq<string>)
    requires Distinct(s)
    ensures StrictlySorted(r) && multiset(r) == multiset(s)
  {
    if s == [] then []
    else
      var n := |s| - 1;
      var r := Sort(s[..n]);
      assert s == s[..n] + [s[n]];
      assert s[n] !in s[..n];
      assert s[n] !in multiset(r);
      Insert(s[n], r)
  }

  /** `uniqueDestinations`: every destination named once, in code-unit order. */
  function UniqueDestinations(trips: seq<UserTrip>): (ds: seq<string>)
    ensures StrictlySorted(ds) && Distinct(ds)
    ensures forall d :: d in ds <==> exists i :: 0 <= i < |trips| && trips[i].destination == d
  {
    var ds := Sort(Dedup(Destinations(trips)));
    SortedIsDistinct(ds);
    SortKeepsMembers(Dedup(Destinations(trips)));
    DestinationsMembers(trips);
    ds
  }

  lemma SortKeepsMembers(s: seq<string>)
    requires Distinct(s)
    ensures forall d :: d in Sort(s) <==> d in s
  {
    var r := Sort(s);
    forall d ensures d in r <==> d in s {
      assert d in r <==> d in multiset(r);
      assert d in s <==> d in multiset(s);
    }
  }

  lemma DestinationsMembers(trips: seq<UserTrip>)
    ensures forall d :: d in Destinations(trips) <==> exists i :: 0 <= i < |trips| && trips[i].destination == d
  {
    var ds := Destinations(trips);
    forall d | d in ds ensures exists i :: 0 <= i < |trips| && trips[i].destination == d {
      var i :| 0 <= i < |ds| && ds[i] == d;
      assert trips[i].destination == d;
    }
    forall d | exists i :: 0 <= i < |trips| && trips[i].destination == d ensures d in ds {
      var i :| 0 <= i < |trips| && trips[i].destination == d;
      assert ds[i] == d;
    }
  }

  lemma SortedIsDistinct(s: seq<string>)
    requires StrictlySorted(s)
    ensures Distinct(s)
  {
    forall i, j | 0 <= i < j < |s| ensures s[i] != s[j] {
      if s[i] == s[j] { Text.LessIrreflexive(s[i]); }
    }
  }

  /** Only one sorted sequence without repeats holds a given set of strings, so
      the destination list is determined by the destinations alone. */
  lemma {:induction false} SortedSetUnique(a: seq<string>, b: seq<string>)
    requires StrictlySorted(a) && StrictlySorted(b)
    requires forall x :: x in a <==> x in b
    ensures a == b
  {
    SameMembersBothEmpty(a, b);
    if a != [] {
      assert a[0] in b && b[0] in a;
      if a[0] != b[0] {
        var j :| 0 <= j < |b| && b[j] == a[0];
        var i :| 0 <= i < |a| && a[i] == b[0];
        assert Text.Less(b[0], a[0]);
        assert Text.Less(a[0], b[0]);
        Text.LessAsymmetric(a[0], b[0]);
      }
      forall x ensures x in a[1..] <==> x in b[1..] {
        TailMembers(a, x);
        TailMembers(b, x);
      }
      SortedSetUnique(a[1..], b[1..]);
      assert a == [a[0]] + a[1..] && b == [b[0]] + b[1..];
    }
  }

  lemma SameMembersBothEmpty(a: seq<string>, b: seq<string>)
    requires forall x :: x in a <==> x in b
    ensures a == [] <==> b == []
  {
    if a != [] { assert a[0] in a; }
    if b != [] { assert b[0] in b; }
  }

  lemma TailMembers(s: seq<string>, x: string)
    requires StrictlySorted(s) && s != []
    ensures x in s[1..] <==> x in s && x != s[0]
  {
    if x in s[1..] {
      var k :| 0 <= k < |s[1..]| && s[1..][k] == x;
      assert Text.Less(s[0], s[k + 1]);
      if x == s[0] { Text.LessIrreflexive(x); }
    }
    if x in s && x != s[0] {
      var k :| 0 <= k < |s| && s[k] == x;
      assert s[1..][k - 1] == x;
    }
  }

  /** Any sorted list of the destinations without repeats is the one shown. */
  lemma UniqueDestinationsCharacterized(trips: seq<UserTrip>, ds: seq<string>)
    requires StrictlySorted(ds)
    requires forall d :: d in ds <==> exists i :: 0 <= i < |trips| && trips[i].destination == d
    ensures ds == UniqueDestinations(trips)
  {
    SortedSetUnique(ds, UniqueDestinations(trips));
  }
}
