/**
 * The freight ledger of the drivers: which trips credit a driver (with the
 * legacy single-driver fallback), the freight each one earns at the
 * driver's current rate, and the row computed for every active driver.
 */
module FreightManager {
  import opened Wrappers
  import opened Types
  import Lists
  import Ledger
  import TripsManager

  /** `staff.filter(s => s.role === StaffRole.DRIVER && s.active)`. */
  function Drivers(staff: seq<Staff>): seq<Staff>
  {
    Ledger.ActiveWithRole(staff, Driver)
  }

  /**
   * `t.driverIds || (t.driverId ? [t.driverId] : [])`: the list whenever it
   * is present, even empty; the legacy id only when the list is absent.
   */
  function ListedDriverIds(t: Trip): seq<string>
  {
    if t.driverIds.Some? then t.driverIds.value
    else if Truthy(t.driverId) then [t.driverId.value]
    else []
  }

  /**
   * The two readings of a trip's drivers disagree exactly on a record with
   * an empty list and a legacy id: the edit form falls back to the legacy
   * id, the ledger does not.
   */
  lemma DriverFallbacksDiffer(t: Trip)
    ensures TripsManager.EditDriverIds(t) != ListedDriverIds(t) <==> t.driverIds == Some([]) && Truthy(t.driverId)
  {
    if t.driverIds.Some? && |t.driverIds.value| == 0 {
      assert t.driverIds == Some([]);
    }
  }

  /** A trip credits the driver when the driver is listed on it and it is finished. */
  predicate DriverQualifies(t: Trip, driverId: string)
  {
    driverId in ListedDriverIds(t) && t.status == Finished
  }

  /** Freight for one trip: its distance times the driver's current rate (0 when absent). */
  function DriverAmount(t: Trip, driver: Staff): real
  {
    t.distanceKm * driver.kmRate.GetOr(0.0)
  }

  /** The driver's qualifying trips in list order, each with its freight. */
  function DriverDetails(trips: seq<Trip>, driver: Staff): seq<Ledger.TripEarning>
  {
    if trips == [] then [] else
      var rest := DriverDetails(trips[..|trips| - 1], driver);
      var t := trips[|trips| - 1];
      if DriverQualifies(t, driver.id) then rest + [Ledger.TripEarning(t, DriverAmount(t, driver))] else rest
  }

  /** The details are exactly the qualifying trips, each with its freight. */
  lemma {:induction false} DriverDetailsMembers(trips: seq<Trip>, driver: Staff)
    ensures var r := DriverDetails(trips, driver);
            && (forall e :: e in r ==> e.trip in trips && DriverQualifies(e.trip, driver.id) && e.amount == DriverAmount(e.trip, driver))
            && (forall t :: t in trips && DriverQualifies(t, driver.id) ==> Ledger.TripEarning(t, DriverAmount(t, driver)) in r)
  {
    if trips != [] {
      var prefix := trips[..|trips| - 1];
      DriverDetailsMembers(prefix, driver);
      assert forall x :: x in trips <==> x in prefix || x == trips[|trips| - 1];
    }
  }

  /** `totalEarned`: the sum of the freight of the qualifying trips. */
  function DriverEarned(trips: seq<Trip>, driver: Staff): real
  {
    Lists.Sum(DriverDetails(trips, driver), Ledger.EarningAmount)
  }

  function DriverRow(driver: Staff, trips: seq<Trip>, payments: seq<Payment>): Ledger.LedgerRow
  {
    Ledger.Row(driver, DriverDetails(trips, driver), payments)
  }

  /** Kilometres of the trips that credit the driver. */
  function FinishedKm(trips: seq<Trip>, driverId: string): real
  {
    if trips == [] then 0.0
    else
      var t := trips[|trips| - 1];
      FinishedKm(trips[..|trips| - 1], driverId) + (if DriverQualifies(t, driverId) then t.distanceKm else 0.0)
  }

  /**
   * One driver's row (`driverStats` for one driver): the qualifying trips are
   * collected and their freight accumulated in one pass.
   */
  method ComputeDriverRow(driver: Staff, trips: seq<Trip>, payments: seq<Payment>) returns (row: Ledger.LedgerRow)
    ensures row == DriverRow(driver, trips, payments)
    ensures row.member == driver
  {
    var details: seq<Ledger.TripEarning> := [];
    var totalEarned := 0.0;
    var i := 0;
    while i < |trips|
      invariant 0 <= i <= |trips|
      invariant details == DriverDetails(trips[..i], driver)
      invariant totalEarned == Lists.Sum(details, Ledger.EarningAmount)
    {
      var t := trips[i];
      DetailsStep(trips, i, driver);
      var ids: seq<string>;
      if t.driverIds.Some? {
        ids := t.driverIds.value;
      } else if t.driverId.Some? && t.driverId.value != "" {
        ids := [t.driverId.value];
      } else {
        ids := [];
      }
      assert ids == ListedDriverIds(t);
      if driver.id in ids && t.status == Finished {
        var rate := if driver.kmRate.Some? then driver.kmRate.value else 0.0;
        var amount := t.distanceKm * rate;
        assert amount == DriverAmount(t, driver);
        var e := Ledger.TripEarning(t, amount);
        Lists.SumAppend(details, e, Ledger.EarningAmount);
        totalEarned := totalEarned + amount;
        details := details + [e];
      }
      i := i + 1;
    }
    assert trips[..i] == trips;
    var myPayments := Ledger.PaymentsOf(payments, driver.id);
    var totalPaid := Lists.Sum(myPayments, Ledger.PaymentAmount);
    row := Ledger.LedgerRow(driver, totalEarned, totalPaid, totalEarned - totalPaid,
                            Ledger.NewestFirst(details, Ledger.EarningDate),
                            Ledger.NewestFirst(myPayments, Ledger.PaymentDate));
  }

  /** One more trip extends the details exactly when it qualifies. */
  lemma DetailsStep(trips: seq<Trip>, i: int, driver: Staff)
    requires 0 <= i < |trips|
    ensures DriverDetails(trips[..i + 1], driver) ==
            if DriverQualifies(trips[i], driver.id)
            then DriverDetails(trips[..i], driver) + [Ledger.TripEarning(trips[i], DriverAmount(trips[i], driver))]
            else DriverDetails(trips[..i], driver)
  {
    assert trips[..i + 1][..i] == trips[..i];
  }

  /** `driverStats`: `drivers.map(...)`, one ledger row per active driver, in staff order. */
  function DriverStats(staff: seq<Staff>, trips: seq<Trip>, payments: seq<Payment>): seq<Ledger.LedgerRow>
  {
    Lists.Map(Drivers(staff), d => DriverRow(d, trips, payments))
  }

  /** Each row of `driverStats` belongs to an active driver of the staff list, in the order of that list. */
  lemma DriverStatsRows(staff: seq<Staff>, trips: seq<Trip>, payments: seq<Payment>)
    ensures |DriverStats(staff, trips, payments)| == |Drivers(staff)|
    ensures forall i :: 0 <= i < |Drivers(staff)| ==> DriverStats(staff, trips, payments)[i].member == Drivers(staff)[i]
    ensures forall r :: r in DriverStats(staff, trips, payments) ==> r.member in staff && r.member.role == Driver && r.member.active
  {
    var drivers, rows := Drivers(staff), DriverStats(staff, trips, payments);
    forall i | 0 <= i < |rows| ensures rows[i].member == drivers[i] && drivers[i] in drivers {
      Ledger.RowFacts(drivers[i], DriverDetails(trips, drivers[i]), payments);
    }
  }

  /** The last trip adds its freight when it qualifies. */
  lemma DriverEarnedLast(trips: seq<Trip>, driver: Staff)
    requires trips != []
    ensures var t := trips[|trips| - 1];
            DriverEarned(trips, driver) ==
            DriverEarned(trips[..|trips| - 1], driver) + (if DriverQualifies(t, driver.id) then DriverAmount(t, driver) else 0.0)
  {
    var t := trips[|trips| - 1];
    var rest := DriverDetails(trips[..|trips| - 1], driver);
    if DriverQualifies(t, driver.id) {
      assert (rest + [Ledger.TripEarning(t, DriverAmount(t, driver))])[..|rest|] == rest;
    }
  }

  /** The kilometres of one credited trip. */
  function EarningKm(e: Ledger.TripEarning): real
  {
    e.trip.distanceKm
  }

  /** The finished kilometres are the kilometres of the trips listed in the driver's details. */
  lemma {:induction false} FinishedKmOfDetails(trips: seq<Trip>, driver: Staff)
    ensures FinishedKm(trips, driver.id) == Lists.Sum(DriverDetails(trips, driver), EarningKm)
  {
    if trips != [] {
      var t := trips[|trips| - 1];
      var rest := DriverDetails(trips[..|trips| - 1], driver);
      FinishedKmOfDetails(trips[..|trips| - 1], driver);
      if DriverQualifies(t, driver.id) {
        assert (rest + [Ledger.TripEarning(t, DriverAmount(t, driver))])[..|rest|] == rest;
      }
    }
  }

  /**
   * What a driver earned is the kilometres of its finished trips times its
   * current rate; the freight stored on the trips plays no part.
   */
  lemma DriverEarnedIsKmTimesRate(trips: seq<Trip>, driver: Staff)
    ensures DriverEarned(trips, driver) == FinishedKm(trips, driver.id) * driver.kmRate.GetOr(0.0)
  {
    var details := DriverDetails(trips, driver);
    FinishedKmOfDetails(trips, driver);
    DriverDetailFreight(trips, driver, details);
  }

  /** The freight summed over the details is their kilometres times the rate. */
  lemma {:induction false} DriverDetailFreight(trips: seq<Trip>, driver: Staff, details: seq<Ledger.TripEarning>)
    requires details == DriverDetails(trips, driver)
    ensures Lists.Sum(details, Ledger.EarningAmount) == Lists.Sum(details, EarningKm) * driver.kmRate.GetOr(0.0)
  {
    if trips != [] {
      var t := trips[|trips| - 1];
      var rest := DriverDetails(trips[..|trips| - 1], driver);
      DriverDetailFreight(trips[..|trips| - 1], driver, rest);
      if DriverQualifies(t, driver.id) {
        var e := Ledger.TripEarning(t, DriverAmount(t, driver));
        assert details == rest + [e];
        assert (rest + [e])[..|rest|] == rest;
        AddScaled(Lists.Sum(rest, Ledger.EarningAmount), Lists.Sum(rest, EarningKm), t.distanceKm,
                  driver.kmRate.GetOr(0.0));
      }
    }
  }

  /** Adding x kilometres to a scaled total adds x times the rate. */
  lemma AddScaled(earned: real, km: real, x: real, rate: real)
    requires earned == km * rate
    ensures earned + x * rate == (km + x) * rate
  {
  }

  /**
   * For a driver found in the staff list, the ledger's freight for a trip is
   * what the trip form charges for that driver, except that a driver
   * without a rate earns nothing in both.
   */
  lemma DriverAmountMatchesCosting(staff: seq<Staff>, t: Trip, driver: Staff)
    requires TripsManager.FindStaff(staff, driver.id) == Some(driver)
    ensures DriverAmount(t, driver) == TripsManager.DriverFreight(staff, t.distanceKm, driver.id)
  {
  }

  /** A legacy trip without a list credits its single driver once finished. */
  lemma LegacyTripCredits(t: Trip, driverId: string)
    requires t.driverIds.None? && t.driverId == Some(driverId) && driverId != "" && t.status == Finished
    ensures DriverQualifies(t, driverId)
  {
  }
}
