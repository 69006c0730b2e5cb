/**
 * The domain records of the logistics app: drivers, trucks, trips, bids and
 * dashboard statistics. Every status is a closed enumeration; its string
 * literal is what the app stores and displays.
 */
module Types {
  import opened Wrappers

  datatype DriverStatus = DriverAssigned | DriverAvailable | DriverInTransit
  datatype TruckStatus = TruckInTransit | TruckAvailable | TruckMaintenance
  datatype TripStatus = TripInTransit | TripCompleted | TripScheduled
  datatype BidStatus = BidPending | BidAccepted | BidRejected

  datatype Driver = Driver(
    id: string,
    name: string,
    avatar: string,
    status: DriverStatus,
    hasLicense: bool,
    hasInsurance: bool)

  /** A truck holds its driver by value; its coordinates are optional. */
  datatype Truck = Truck(
    id: string,
    vehicleNumber: string,
    location: string,
    status: TruckStatus,
    hasRegistration: bool,
    hasInsurance: bool,
    driver: Driver,
    latitude: Option<real>,
    longitude: Option<real>)

  datatype Trip = Trip(
    id: string,
    tripId: string,
    from: string,
    to: string,
    startDate: string,
    endDate: string,
    status: TripStatus)

  datatype Bid = Bid(
    id: string,
    tripId: string,
    amount: int,
    status: BidStatus,
    from: string,
    to: string)

  datatype DashboardStats = DashboardStats(inTransit: int, trucks: int, bids: int)

  // String literals of the status enumerations

  function DriverStatusName(s: DriverStatus): string {
    match s
    case DriverAssigned => "assigned"
    case DriverAvailable => "available"
    case DriverInTransit => "in-transit"
  }

  function TruckStatusName(s: TruckStatus): string {
    match s
    case TruckInTransit => "in-transit"
    case TruckAvailable => "available"
    case TruckMaintenance => "maintenance"
  }

  function TripStatusName(s: TripStatus): string {
    match s
    case TripInTransit => "in-transit"
    case TripCompleted => "completed"
    case TripScheduled => "scheduled"
  }

  function BidStatusName(s: BidStatus): string {
    match s
    case BidPending => "pending"
    case BidAccepted => "accepted"
    case BidRejected => "rejected"
  }

  /** The driver status a string literal denotes, if it denotes one. */
  function ParseDriverStatus(x: string): (r: Option<DriverStatus>)
    ensures r.Some? <==> x in {"assigned", "available", "in-transit"}
    ensures r.Some? ==> DriverStatusName(r.value) == x
    ensures forall s :: DriverStatusName(s) == x ==> r == Some(s)
  {
    if x == "assigned" then Some(DriverAssigned)
    else if x == "available" then Some(DriverAvailable)
    else if x == "in-transit" then Some(DriverInTransit)
    else None
  }

  /** The truck status a string literal denotes, if it denotes one. */
  function ParseTruckStatus(x: string): (r: Option<TruckStatus>)
    ensures r.Some? <==> x in {"in-transit", "available", "maintenance"}
    ensures r.Some? ==> TruckStatusName(r.value) == x
    ensures forall s :: TruckStatusName(s) == x ==> r == Some(s)
  {
    if x == "in-transit" then Some(TruckInTransit)
    else if x == "available" then Some(TruckAvailable)
    else if x == "maintenance" then Some(TruckMaintenance)
    else None
  }

  /** The trip status a string literal denotes, if it denotes one. */
  function ParseTripStatus(x: string): (r: Option<TripStatus>)
    ensures r.Some? <==> x in {"in-transit", "completed", "scheduled"}
    ensures r.Some? ==> TripStatusName(r.value) == x
    ensures forall s :: TripStatusName(s) == x ==> r == Some(s)
  {
    if x == "in-transit" then Some(TripInTransit)
    else if x == "completed" then Some(TripCompleted)
    else if x == "scheduled" then Some(TripScheduled)
    else None
  }

  /** The bid status a string literal denotes, if it denotes one. */
  function ParseBidStatus(x: string): (r: Option<BidStatus>)
    ensures r.Some? <==> x in {"pending", "accepted", "rejected"}
    ensures r.Some? ==> BidStatusName(r.value) == x
    ensures forall s :: BidStatusName(s) == x ==> r == Some(s)
  {
    if x == "pending" then Some(BidPending)
    else if x == "accepted" then Some(BidAccepted)
    else if x == "rejected" then Some(BidRejected)
    else None
  }

  /** Distinct statuses have distinct literals, so the literal identifies the status. */
  lemma StatusNamesInjective()
    ensures forall a: DriverStatus, b: DriverStatus :: DriverStatusName(a) == DriverStatusName(b) ==> a == b
    ensures forall a: TruckStatus, b: TruckStatus :: TruckStatusName(a) == TruckStatusName(b) ==> a == b
    ensures forall a: TripStatus, b: TripStatus :: TripStatusName(a) == TripStatusName(b) ==> a == b
    ensures forall a: BidStatus, b: BidStatus :: BidStatusName(a) == BidStatusName(b) ==> a == b
  {
    forall a: DriverStatus, b: DriverStatus | DriverStatusName(a) == DriverStatusName(b)
      ensures a == b
    {
      assert ParseDriverStatus(DriverStatusName(a)) == Some(a);
    }
    forall a: TruckStatus, b: TruckStatus | TruckStatusName(a) == TruckStatusName(b)
      ensures a == b
    {
      assert ParseTruckStatus(TruckStatusName(a)) == Some(a);
    }
    forall a: TripStatus, b: TripStatus | TripStatusName(a) == TripStatusName(b)
      ensures a == b
    {
      assert ParseTripStatus(TripStatusName(a)) == Some(a);
    }
    forall a: BidStatus, b: BidStatus | BidStatusName(a) == BidStatusName(b)
      ensures a == b
    {
      assert ParseBidStatus(BidStatusName(a)) == Some(a);
    }
  }
}
