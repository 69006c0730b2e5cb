/**
 * The logistics data hook: four lists and the dashboard statistics, filled
 * from the fixtures when the simulated fetch completes, and two status
 * filters over the lists.
 */
module Logistics {
  import opened Types
  import opened MockData

  /** `Array.prototype.filter`: the elements satisfying `p`, in their original order. */
  function Filter<T>(s: seq<T>, p: T -> bool): (r: seq<T>)
    ensures |r| <= |s|
    ensures forall i :: 0 <= i < |r| ==> p(r[i])
    ensures forall x :: x in r ==> x in s
  {
    if s == [] then []
    else if p(s[0]) then [s[0]] + Filter(s[1..], p)
    else Filter(s[1..], p)
  }

  /** `idx` lists strictly increasing positions of `s` whose elements spell `r`. */
  ghost predicate Embedding<T>(idx: seq<nat>, r: seq<T>, s: seq<T>) {
    && |idx| == |r|
    && (forall i, j :: 0 <= i < j < |idx| ==> idx[i] < idx[j])
    && (forall i :: 0 <= i < |idx| ==> idx[i] < |s| && s[idx[i]] == r[i])
  }

  /** `r` is obtained from `s` by deleting elements, without reordering. */
  ghost predicate IsSubsequence<T>(r: seq<T>, s: seq<T>) {
    exists idx :: Embedding(idx, r, s)
  }

  /** Shifts every position of an embedding one place to the right. */
  function Shift(idx: seq<nat>): (r: seq<nat>)
    ensures |r| == |idx|
    ensures forall i :: 0 <= i < |idx| ==> r[i] == idx[i] + 1
  {
    if idx == [] then [] else [idx[0] + 1] + Shift(idx[1..])
  }

  lemma {:induction false} FilterEmbedding<T>(s: seq<T>, p: T -> bool) returns (idx: seq<nat>)
    ensures Embedding(idx, Filter(s, p), s)
  {
    if s == [] {
      idx := [];
    } else {
      var tail := FilterEmbedding(s[1..], p);
      if p(s[0]) {
        idx := [0] + Shift(tail);
      } else {
        idx := Shift(tail);
      }
    }
  }

  /** The filter result is a subsequence of its input. */
  lemma FilterIsSubsequence<T>(s: seq<T>, p: T -> bool)
    ensures IsSubsequence(Filter(s, p), s)
  {
    var idx := FilterEmbedding(s, p);
  }

  /** Every element satisfying `p` is kept as often as it occurs; no other element is kept. */
  lemma {:induction false} FilterCounts<T>(s: seq<T>, p: T -> bool)
    ensures forall x :: multiset(Filter(s, p))[x] == if p(x) then multiset(s)[x] else 0
  {
    if s != [] {
      FilterCounts(s[1..], p);
      assert s == [s[0]] + s[1..];
    }
  }

  /** Filtering again by the same predicate removes nothing more. */
  lemma {:induction false} FilterIdempotent<T>(s: seq<T>, p: T -> bool)
    ensures Filter(Filter(s, p), p) == Filter(s, p)
  {
    if s != [] {
      FilterIdempotent(s[1..], p);
      if p(s[0]) {
        assert ([s[0]] + Filter(s[1..], p))[1..] == Filter(s[1..], p);
      }
    }
  }

  function IsTripInTransit(t: Trip): bool { t.status == TripInTransit }

  function IsTruckInTransit(t: Truck): bool { t.status == TruckInTransit }

  /** `getInTransitTrips`: exactly the in-transit trips, in their original order. */
  function InTransitTrips(trips: seq<Trip>): (r: seq<Trip>)
    ensures IsSubsequence(r, trips)
    ensures forall i :: 0 <= i < |r| ==> r[i].status == TripInTransit
    ensures forall t :: multiset(r)[t] == if t.status == TripInTransit then multiset(trips)[t] else 0
  {
    FilterIsSubsequence(trips, IsTripInTransit);
    FilterCounts(trips, IsTripInTransit);
    Filter(trips, IsTripInTransit)
  }

  /** `getInTransitTrucks`: exactly the in-transit trucks, in their original order. */
  function InTransitTrucks(trucks: seq<Truck>): (r: seq<Truck>)
    ensures IsSubsequence(r, trucks)
    ensures forall i :: 0 <= i < |r| ==> r[i].status == TruckInTransit
    ensures forall t :: multiset(r)[t] == if t.status == TruckInTransit then multiset(trucks)[t] else 0
  {
    FilterIsSubsequence(trucks, IsTruckInTransit);
    FilterCounts(trucks, IsTruckInTransit);
    Filter(trucks, IsTruckInTransit)
  }

  /** Filtering the in-transit trips or trucks a second time changes nothing. */
  lemma InTransitIdempotent(trips: seq<Trip>, trucks: seq<Truck>)
    ensures InTransitTrips(InTransitTrips(trips)) == InTransitTrips(trips)
    ensures InTransitTrucks(InTransitTrucks(trucks)) == InTransitTrucks(trucks)
  {
    FilterIdempotent(trips, IsTripInTransit);
    FilterIdempotent(trucks, IsTruckInTransit);
  }

  /** Filtering three elements of which only the last fails keeps the first two. */
  lemma FilterFirstTwoOfThree<T>(s: seq<T>, p: T -> bool)
    requires |s| == 3 && p(s[0]) && p(s[1]) && !p(s[2])
    ensures Filter(s, p) == [s[0], s[1]]
  {
    var last := s[2..];
    assert last == [s[2]] && last[1..] == [];
    assert Filter(last, p) == [];
    assert s[1..][1..] == last;
    assert Filter(s[1..], p) == [s[1]];
  }

  /** Over the fixtures, the filters give the first two trips and the first two trucks. */
  lemma FixtureFilters()
    ensures InTransitTrips(MockTrips) == [MockTrips[0], MockTrips[1]]
    ensures InTransitTrucks(MockTrucks) == [MockTrucks[0], MockTrucks[1]]
  {
    FilterFirstTwoOfThree(MockTrips, IsTripInTransit);
    FilterFirstTwoOfThree(MockTrucks, IsTruckInTransit);
  }

  /** The hook's state cells. */
  class LogisticsState {
    var drivers: seq<Driver>
    var trucks: seq<Truck>
    var trips: seq<Trip>
    var bids: seq<Bid>
    var stats: DashboardStats
    var loading: bool

    /** First render: loading, empty lists, the fixture statistics. */
    constructor ()
      ensures loading
      ensures drivers == [] && trucks == [] && trips == [] && bids == []
      ensures stats == MockDashboardStats
    {
      drivers, trucks, trips, bids := [], [], [], [];
      stats := MockDashboardStats;
      loading := true;
    }

    /** `loadData` before its timer fires: only the loading flag is set. */
    method LoadData()
      modifies this`loading
      ensures loading
    {
      loading := true;
    }

    /** The timer callback of `loadData`: every cell takes its fixture, loading ends. */
    method CompleteLoad()
      modifies this
      ensures drivers == MockDrivers && trucks == MockTrucks && trips == MockTrips && bids == MockBids
      ensures stats == MockDashboardStats
      ensures !loading
    {
      drivers := MockDrivers;
      trucks := MockTrucks;
      trips := MockTrips;
      bids := MockBids;
      stats := MockDashboardStats;
      loading := false;
    }
  }

  /** Until the load completes, both filters give empty lists. */
  method FiltersBeforeLoad() returns (inTransitTrips: seq<Trip>, inTransitTrucks: seq<Truck>, loading: bool)
    ensures loading
    ensures inTransitTrips == [] && inTransitTrucks == []
  {
    var state := new LogisticsState();
    state.LoadData();
    inTransitTrips := InTransitTrips(state.trips);
    inTransitTrucks := InTransitTrucks(state.trucks);
    loading := state.loading;
  }

  /** Once loaded, the lists hold 3 drivers, 3 trucks, 3 trips and 2 bids. */
  method CountsAfterLoad() returns (drivers: nat, trucks: nat, trips: nat, bids: nat, loading: bool)
    ensures drivers == 3 && trucks == 3 && trips == 3 && bids == 2
    ensures !loading
  {
    var state := new LogisticsState();
    state.LoadData();
    state.CompleteLoad();
    FixtureCounts();
    drivers, trucks, trips, bids := |state.drivers|, |state.trucks|, |state.trips|, |state.bids|;
    loading := state.loading;
  }

  /** Once loaded, each filter gives the first two fixture records. */
  method FiltersAfterLoad() returns (inTransitTrips: seq<Trip>, inTransitTrucks: seq<Truck>)
    ensures inTransitTrips == [MockTrips[0], MockTrips[1]]
    ensures inTransitTrucks == [MockTrucks[0], MockTrucks[1]]
  {
    var state := new LogisticsState();
    state.LoadData();
    state.CompleteLoad();
    FixtureFilters();
    inTransitTrips := InTransitTrips(state.trips);
    inTransitTrucks := InTransitTrucks(state.trucks);
  }
}
