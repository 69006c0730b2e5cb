/** The fixed in-memory fixtures that stand in for a backend. */
module MockData {
  import opened Wrappers
  import opened Types

  const MockDrivers: seq<Driver> := [
    Driver("1", "Ramesh kamenani", "https://i.pravatar.cc/150?img=12", DriverAssigned, true, true),
    Driver("2", "Suresh Kumar", "https://i.pravatar.cc/150?img=13", DriverInTransit, true, true),
    Driver("3", "Vijay Singh", "https://i.pravatar.cc/150?img=14", DriverAvailable, true, false)
  ]

  const MockTrucks: seq<Truck> := [
    Truck("1", "AP32 H 5643", "HYD, Kukatapalli", TruckInTransit, true, true,
          MockDrivers[0], Some(17.4948), Some(78.3917)),
    Truck("2", "TN09 AB 1234", "Chennai, T Nagar", TruckInTransit, true, true,
          MockDrivers[1], Some(13.0418), Some(80.2341)),
    Truck("3", "KA05 MN 7890", "Bangalore, Whitefield", TruckAvailable, true, true,
          MockDrivers[2], Some(12.9698), Some(77.7499))
  ]

  const MockTrips: seq<Trip> := [
    Trip("1", "ID 8274455", "Hyderabad", "Visakhapatnam", "10, Jul 2025", "14 Jul,2025", TripInTransit),
    Trip("2", "ID 8274456", "Chennai", "Bangalore", "12, Jul 2025", "15 Jul,2025", TripInTransit),
    Trip("3", "ID 8274457", "Mumbai", "Pune", "15, Jul 2025", "16 Jul,2025", TripScheduled)
  ]

  const MockBids: seq<Bid> := [
    Bid("1", "ID 8274455", 45000, BidPending, "Delhi", "Jaipur"),
    Bid("2", "ID 8274456", 38000, BidAccepted, "Mumbai", "Surat")
  ]

  const MockDashboardStats: DashboardStats := DashboardStats(9, 23, 11)

  lemma FixtureCounts()
    ensures |MockDrivers| == 3 && |MockTrucks| == 3 && |MockTrips| == 3 && |MockBids| == 2
  {
  }

  /** Truck i carries a copy of driver i. */
  lemma TrucksEmbedDrivers()
    ensures |MockTrucks| == |MockDrivers|
    ensures forall i :: 0 <= i < |MockTrucks| ==> MockTrucks[i].driver == MockDrivers[i]
  {
  }

  /** No two records of one list share an `id`. */
  lemma IdsDistinct()
    ensures forall i, j :: 0 <= i < j < |MockDrivers| ==> MockDrivers[i].id != MockDrivers[j].id
    ensures forall i, j :: 0 <= i < j < |MockTrucks| ==> MockTrucks[i].id != MockTrucks[j].id
    ensures forall i, j :: 0 <= i < j < |MockTrips| ==> MockTrips[i].id != MockTrips[j].id
  {
  }

  /** Exactly the first two trips and the first two trucks are in transit. */
  lemma InTransitFixtures()
    ensures forall i :: 0 <= i < |MockTrips| ==> (MockTrips[i].status == TripInTransit <==> i < 2)
    ensures MockTrips[2].status == TripScheduled
    ensures forall i :: 0 <= i < |MockTrucks| ==> (MockTrucks[i].status == TruckInTransit <==> i < 2)
    ensures MockTrucks[2].status == TruckAvailable
  {
  }

  /** Every bid names the `tripId` of a fixture trip. */
  lemma BidsReferenceTrips()
    ensures forall b :: b in MockBids ==> exists t :: t in MockTrips && t.tripId == b.tripId
  {
    assert MockBids[0].tripId == MockTrips[0].tripId;
    assert MockBids[1].tripId == MockTrips[1].tripId;
  }

  lemma BidAmountsPositive()
    ensures forall b :: b in MockBids ==> b.amount > 0
  {
  }
}
