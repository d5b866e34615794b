/**
 * The weekend-bonus ledger of the helpers: which trips credit a helper, the
 * bonus each one earns under the current settings, and the row computed for
 * every active helper.
 */
module BonusesManager {
  import opened Types
  import Lists
  import Ledger

  /** `staff.filter(s => s.role === StaffRole.HELPER && s.active)`. */
  function Helpers(staff: seq<Staff>): seq<Staff>
  {
    Ledger.ActiveWithRole(staff, Helper)
  }

  /** A trip credits the helper when it was on a weekend, the helper was on it, and it is finished. */
  predicate HelperQualifies(t: Trip, helperId: string)
  {
    t.isWeekend && helperId in t.helperIds && t.status == Finished
  }

  /** The bonus for one trip, from the current settings (not from the trip's stored costs). */
  function HelperBonus(t: Trip, settings: Settings): real
  {
    match t.jobType
    case MRI => settings.helperBonusMRI
    case CT => settings.helperBonusCT
    case Other => 0.0
  }

  /** The helper's qualifying trips in list order, each with its bonus. */
  function HelperDetails(trips: seq<Trip>, settings: Settings, helperId: string): seq<Ledger.TripEarning>
  {
    if trips == [] then [] else
      var rest := HelperDetails(trips[..|trips| - 1], settings, helperId);
      var t := trips[|trips| - 1];
      if HelperQualifies(t, helperId) then rest + [Ledger.TripEarning(t, HelperBonus(t, settings))] else rest
  }

  /** The details are exactly the qualifying trips, each with its bonus. */
  lemma {:induction false} HelperDetailsMembers(trips: seq<Trip>, settings: Settings, helperId: string)
    ensures var r := HelperDetails(trips, settings, helperId);
            && (forall e :: e in r ==> e.trip in trips && HelperQualifies(e.trip, helperId) && e.amount == HelperBonus(e.trip, settings))
            && (forall t :: t in trips && HelperQualifies(t, helperId) ==> Ledger.TripEarning(t, HelperBonus(t, settings)) in r)
  {
    if trips != [] {
      var prefix := trips[..|trips| - 1];
      HelperDetailsMembers(prefix, settings, helperId);
      assert forall x :: x in trips <==> x in prefix || x == trips[|trips| - 1];
    }
  }

  /** `totalEarned`: the sum of the bonuses of the qualifying trips. */
  function HelperEarned(trips: seq<Trip>, settings: Settings, helperId: string): real
  {
    Lists.Sum(HelperDetails(trips, settings, helperId), Ledger.EarningAmount)
  }

  function HelperRow(helper: Staff, trips: seq<Trip>, settings: Settings, payments: seq<Payment>): Ledger.LedgerRow
  {
    Ledger.Row(helper, HelperDetails(trips, settings, helper.id), payments)
  }

  /** Number of trips of one job type that credit the helper. */
  function QualifyingCount(trips: seq<Trip>, helperId: string, jobType: JobType): nat
  {
    if trips == [] then 0
    else
      var t := trips[|trips| - 1];
      QualifyingCount(trips[..|trips| - 1], helperId, jobType) +
        (if HelperQualifies(t, helperId) && t.jobType == jobType then 1 else 0)
  }

  /**
   * One helper's row (`helperStats` for one helper): the qualifying trips
   * are collected and their bonuses accumulated in one pass.
   */
  method ComputeHelperRow(helper: Staff, trips: seq<Trip>, settings: Settings, payments: seq<Payment>)
    returns (row: Ledger.LedgerRow)
    ensures row == HelperRow(helper, trips, settings, payments)
    ensures row.member == helper
  {
    var details: seq<Ledger.TripEarning> := [];
    var totalEarned := 0.0;
    var i := 0;
    while i < |trips|
      invariant 0 <= i <= |trips|
      invariant details == HelperDetails(trips[..i], settings, helper.id)
      invariant totalEarned == Lists.Sum(details, Ledger.EarningAmount)
    {
      var t := trips[i];
      DetailsStep(trips, i, settings, helper.id);
      if t.isWeekend && helper.id in t.helperIds && t.status == Finished {
        var amount := 0.0;
        if t.jobType == MRI {
          amount := settings.helperBonusMRI;
        } else if t.jobType == CT {
          amount := settings.helperBonusCT;
        }
        assert amount == HelperBonus(t, settings);
        var e := Ledger.TripEarning(t, amount);
        Lists.SumAppend(details, e, Ledger.EarningAmount);
        totalEarned := totalEarned + amount;
        details := details + [e];
      }
      i := i + 1;
    }
    assert trips[..i] == trips;
    var myPayments := Ledger.PaymentsOf(payments, helper.id);
    var totalPaid := Lists.Sum(myPayments, Ledger.PaymentAmount);
    row := Ledger.LedgerRow(helper, totalEarned, totalPaid, totalEarned - totalPaid,
                            Ledger.NewestFirst(details, Ledger.EarningDate),
                            Ledger.NewestFirst(myPayments, Ledger.PaymentDate));
  }

  /** One more trip extends the details exactly when it qualifies. */
  lemma DetailsStep(trips: seq<Trip>, i: int, settings: Settings, helperId: string)
    requires 0 <= i < |trips|
    ensures HelperDetails(trips[..i + 1], settings, helperId) ==
            if HelperQualifies(trips[i], helperId)
            then HelperDetails(trips[..i], settings, helperId) + [Ledger.TripEarning(trips[i], HelperBonus(trips[i], settings))]
            else HelperDetails(trips[..i], settings, helperId)
  {
    assert trips[..i + 1][..i] == trips[..i];
  }

  /** `helperStats`: `helpers.map(...)`, one ledger row per active helper, in staff order. */
  function HelperStats(staff: seq<Staff>, trips: seq<Trip>, settings: Settings, payments: seq<Payment>): seq<Ledger.LedgerRow>
  {
    Lists.Map(Helpers(staff), h => HelperRow(h, trips, settings, payments))
  }

  /** Each row of `helperStats` belongs to an active helper of the staff list, in the order of that list. */
  lemma HelperStatsRows(staff: seq<Staff>, trips: seq<Trip>, settings: Settings, payments: seq<Payment>)
    ensures |HelperStats(staff, trips, settings, payments)| == |Helpers(staff)|
    ensures forall i :: 0 <= i < |Helpers(staff)| ==> HelperStats(staff, trips, settings, payments)[i].member == Helpers(staff)[i]
    ensures forall r :: r in HelperStats(staff, trips, settings, payments) ==> r.member in staff && r.member.role == Helper && r.member.active
  {
    var helpers, rows := Helpers(staff), HelperStats(staff, trips, settings, payments);
    forall i | 0 <= i < |rows| ensures rows[i].member == helpers[i] && helpers[i] in helpers {
      Ledger.RowFacts(helpers[i], HelperDetails(trips, settings, helpers[i].id), payments);
    }
  }

  /** The qualifying trips of a concatenation are those of each part. */
  lemma {:induction false} HelperDetailsConcat(a: seq<Trip>, b: seq<Trip>, settings: Settings, helperId: string)
    ensures HelperDetails(a + b, settings, helperId) == HelperDetails(a, settings, helperId) + HelperDetails(b, settings, helperId)
  {
    if b == [] {
      assert a + b == a;
    } else {
      var b', t := b[..|b| - 1], b[|b| - 1];
      assert (a + b)[..|a + b| - 1] == a + b' && (a + b)[|a + b| - 1] == t;
      HelperDetailsConcat(a, b', settings, helperId);
    }
  }

  /** A trip that does not qualify (open or in progress, say) never changes what a helper earned, wherever it sits. */
  lemma NonQualifyingTripEarnsNothing(a: seq<Trip>, t: Trip, b: seq<Trip>, settings: Settings, helperId: string)
    requires !HelperQualifies(t, helperId)
    ensures HelperEarned(a + [t] + b, settings, helperId) == HelperEarned(a + b, settings, helperId)
  {
    HelperDetailsConcat(a + [t], b, settings, helperId);
    HelperDetailsConcat(a, [t], settings, helperId);
    HelperDetailsConcat(a, b, settings, helperId);
    assert HelperDetails([t], settings, helperId) == [] by {
      assert [t][..0] == [];
    }
    assert HelperDetails(a, settings, helperId) + [] == HelperDetails(a, settings, helperId);
  }

  /** Without a qualifying trip a helper has earned nothing. */
  lemma NoQualifyingTripsEarnNothing(trips: seq<Trip>, settings: Settings, helperId: string)
    requires forall t :: t in trips ==> !HelperQualifies(t, helperId)
    ensures HelperEarned(trips, settings, helperId) == 0.0
  {
    HelperDetailsMembers(trips, settings, helperId);
  }

  /** `k × r` written as repeated addition. */
  function Times(k: nat, r: real): real
  {
    if k == 0 then 0.0 else Times(k - 1, r) + r
  }

  lemma {:induction false} TimesIsProduct(k: nat, r: real)
    ensures Times(k, r) == k as real * r
  {
    if k > 0 {
      TimesIsProduct(k - 1, r);
      assert k as real * r == (k - 1) as real * r + r;
    }
  }

  /**
   * What a helper earned is the number of qualifying MRI trips times the MRI
   * bonus plus the number of qualifying CT trips times the CT bonus.
   */
  lemma {:induction false} HelperEarnedCounts(trips: seq<Trip>, settings: Settings, helperId: string)
    ensures HelperEarned(trips, settings, helperId) ==
            Times(QualifyingCount(trips, helperId, MRI), settings.helperBonusMRI) +
            Times(QualifyingCount(trips, helperId, CT), settings.helperBonusCT)
  {
    if trips != [] {
      HelperEarnedCounts(trips[..|trips| - 1], settings, helperId);
      HelperEarnedLast(trips, settings, helperId);
    }
  }

  /** The last trip adds its bonus when it qualifies. */
  lemma HelperEarnedLast(trips: seq<Trip>, settings: Settings, helperId: string)
    requires trips != []
    ensures var t := trips[|trips| - 1];
            HelperEarned(trips, settings, helperId) ==
            HelperEarned(trips[..|trips| - 1], settings, helperId) + (if HelperQualifies(t, helperId) then HelperBonus(t, settings) else 0.0)
  {
    var t := trips[|trips| - 1];
    var rest := HelperDetails(trips[..|trips| - 1], settings, helperId);
    if HelperQualifies(t, helperId) {
      assert (rest + [Ledger.TripEarning(t, HelperBonus(t, settings))])[..|rest|] == rest;
    }
  }
}
