/**
 * The trip form: weekend detection, the live cost estimate, loading a trip
 * for editing, the driver/helper check-box toggles, and submission
 * (validation, then delete-and-append on the trip store).
 */
module TripsManager {
  import opened Wrappers
  import opened Types
  import opened Text
  import Calendar
  import Lists
  import StorageService

  /** `date.split('-').map(Number)` taken as `[y, m, day]`; `None` when a piece is missing or NaN. */
  function DateParts(date: string): Option<(int, int, int)>
  {
    var parts := Split(date, '-');
    if |parts| < 3 then None
    else
      match (NumberOf(parts[0]), NumberOf(parts[1]), NumberOf(parts[2]))
      case (Some(y), Some(m), Some(d)) => Some((y, m, d))
      case _ => None
  }

  /** `new Date(y, m - 1, day).getDay()` is Sunday (0) or Saturday (6); an invalid date is not a weekend. */
  predicate IsWeekend(date: string)
  {
    match DateParts(date)
    case None => false
    case Some((y, m, d)) =>
      match Calendar.JsGetDay(y, m - 1, d)
      case None => false
      case Some(w) => w == 0 || w == 6
  }

  /** A date written as `YYYY-MM-DD` is read back as its year, month and day. */
  lemma IsoDateParts(y: nat, m: nat, d: nat)
    requires y < 10000 && m < 100 && d < 100
    ensures DateParts(Calendar.IsoDate(y, m, d)) == Some((y, m, d))
  {
    var py, pm, pd := PadDigits(y, 4), PadDigits(m, 2), PadDigits(d, 2);
    assert Calendar.IsoDate(y, m, d) == Join([py, pm, pd], '-') by {
      assert Join([pd], '-') == pd;
      assert Join([pm, pd], '-') == pm + ['-'] + pd by { assert [pm, pd][1..] == [pd]; }
      assert [py, pm, pd][1..] == [pm, pd];
    }
    forall p | p in [py, pm, pd] ensures '-' !in p {
      assert AllDigits(p);
    }
    SplitJoin([py, pm, pd], '-');
    PadDigitsValue(y, 4);
    PadDigitsValue(m, 2);
    PadDigitsValue(d, 2);
  }

  /**
   * For a calendar date from year 100 to 9999 written as `YYYY-MM-DD`, the
   * trip is a weekend trip exactly when the date is a Saturday or a Sunday.
   */
  lemma IsWeekendOfIsoDate(y: nat, m: nat, d: nat)
    requires 100 <= y <= 9999 && 1 <= m <= 12 && 1 <= d <= Calendar.DaysInMonth(y, m)
    ensures IsWeekend(Calendar.IsoDate(y, m, d)) <==>
            (Calendar.SakamotoWeekday(y, m, d) == 0 || Calendar.SakamotoWeekday(y, m, d) == 6)
  {
    IsoDateParts(y, m, d);
    Calendar.JsDayNumberOfCivilDate(y, m, d);
    Calendar.WeekdayAgreesWithSakamoto(y, m, d);
  }

  datatype CostEstimate = CostEstimate(base: real, freight: real, bonus: real, total: real)

  /** The job's base value: weekend MRI and CT jobs only. */
  function JobBase(jobType: JobType, isWeekend: bool, settings: Settings): real
  {
    if !isWeekend then 0.0
    else match jobType
      case MRI => settings.mriRate
      case CT => settings.ctRate
      case Other => 0.0
  }

  /** The bonus each helper gets: weekend MRI and CT jobs only. */
  function HelperBonusRate(jobType: JobType, isWeekend: bool, settings: Settings): real
  {
    if !isWeekend then 0.0
    else match jobType
      case MRI => settings.helperBonusMRI
      case CT => settings.helperBonusCT
      case Other => 0.0
  }

  /** Base and bonus are zero on weekdays and for Other jobs, and are the configured rates otherwise. */
  lemma BaseAndBonusRules(jobType: JobType, isWeekend: bool, settings: Settings)
    ensures !isWeekend || jobType == Other ==>
              JobBase(jobType, isWeekend, settings) == 0.0 && HelperBonusRate(jobType, isWeekend, settings) == 0.0
    ensures isWeekend && jobType == MRI ==>
              JobBase(jobType, isWeekend, settings) == settings.mriRate &&
              HelperBonusRate(jobType, isWeekend, settings) == settings.helperBonusMRI
    ensures isWeekend && jobType == CT ==>
              JobBase(jobType, isWeekend, settings) == settings.ctRate &&
              HelperBonusRate(jobType, isWeekend, settings) == settings.helperBonusCT
  {
  }

  /** `staff.find(s => s.id === id)`: the first member with that id. */
  function FindStaff(staff: seq<Staff>, id: string): (r: Option<Staff>)
    ensures r.None? <==> forall i :: 0 <= i < |staff| ==> staff[i].id != id
    ensures r.Some? ==> exists i :: 0 <= i < |staff| && staff[i] == r.value && r.value.id == id &&
                                    forall j :: 0 <= j < i ==> staff[j].id != id
  {
    if staff == [] then None
    else if staff[0].id == id then Some(staff[0])
    else
      var r := FindStaff(staff[1..], id);
      assert forall i :: 1 <= i < |staff| ==> staff[i] == staff[1..][i - 1];
      r
  }

  /** Freight owed for one listed driver: distance times the driver's rate when the driver exists and has a (non-zero) rate. */
  function DriverFreight(staff: seq<Staff>, distanceKm: real, driverId: string): real
  {
    match FindStaff(staff, driverId)
    case Some(d) => if d.kmRate.Some? && d.kmRate.value != 0.0 then distanceKm * d.kmRate.value else 0.0
    case None => 0.0
  }

  /** The rate of a listed driver, 0 when missing or without a rate. */
  function KmRate(staff: seq<Staff>, driverId: string): real
  {
    match FindStaff(staff, driverId)
    case Some(d) => d.kmRate.GetOr(0.0)
    case None => 0.0
  }

  /** Total freight of the trip: the sum over the listed drivers. */
  function Freight(staff: seq<Staff>, distanceKm: real, driverIds: seq<string>): real
  {
    Lists.Sum(driverIds, id => DriverFreight(staff, distanceKm, id))
  }

  /** Freight is the distance times the sum of the listed drivers' rates. */
  lemma FreightIsDistanceTimesRates(staff: seq<Staff>, distanceKm: real, driverIds: seq<string>)
    ensures Freight(staff, distanceKm, driverIds) == Lists.Sum(driverIds, id => KmRate(staff, id)) * distanceKm
  {
    forall i | 0 <= i < |driverIds|
      ensures DriverFreight(staff, distanceKm, driverIds[i]) == KmRate(staff, driverIds[i]) * distanceKm
    {
      DriverFreightIsDistanceTimesRate(staff, distanceKm, driverIds[i]);
    }
    Lists.SumScaled(driverIds, id => KmRate(staff, id), id => DriverFreight(staff, distanceKm, id), distanceKm);
  }

  /** One driver's freight is the distance times that driver's rate. */
  lemma DriverFreightIsDistanceTimesRate(staff: seq<Staff>, distanceKm: real, driverId: string)
    ensures DriverFreight(staff, distanceKm, driverId) == KmRate(staff, driverId) * distanceKm
  {
  }

  /** Drivers missing from the staff list add nothing: a trip whose drivers are all unknown has no freight. */
  lemma {:induction false} FreightOfUnknownDrivers(staff: seq<Staff>, distanceKm: real, driverIds: seq<string>)
    requires forall id :: id in driverIds ==> FindStaff(staff, id) == None
    ensures Freight(staff, distanceKm, driverIds) == 0.0
  {
    if driverIds != [] {
      FreightOfUnknownDrivers(staff, distanceKm, driverIds[..|driverIds| - 1]);
    }
  }

  /** With a non-negative distance and non-negative rates, freight is non-negative. */
  lemma {:induction false} FreightNonNegative(staff: seq<Staff>, distanceKm: real, driverIds: seq<string>)
    requires distanceKm >= 0.0
    requires forall s :: s in staff && s.kmRate.Some? ==> s.kmRate.value >= 0.0
    ensures Freight(staff, distanceKm, driverIds) >= 0.0
  {
    if driverIds != [] {
      FreightNonNegative(staff, distanceKm, driverIds[..|driverIds| - 1]);
    }
  }

  /** The order in which drivers were ticked does not change the freight. */
  lemma FreightIgnoresOrder(staff: seq<Staff>, distanceKm: real, a: seq<string>, b: seq<string>)
    requires multiset(a) == multiset(b)
    ensures Freight(staff, distanceKm, a) == Freight(staff, distanceKm, b)
  {
    Lists.SumPermutation(a, b, id => DriverFreight(staff, distanceKm, id));
  }

  /**
   * The live estimate (`estimatedCost`): base and per-helper bonus from the
   * settings, freight accumulated driver by driver.
   */
  method EstimateCost(jobType: JobType, isWeekend: bool, helperIds: seq<string>, driverIds: seq<string>,
                      distanceKm: real, staff: seq<Staff>, settings: Settings) returns (c: CostEstimate)
    ensures c.base == JobBase(jobType, isWeekend, settings)
    ensures c.bonus == |helperIds| as real * HelperBonusRate(jobType, isWeekend, settings)
    ensures c.freight == Freight(staff, distanceKm, driverIds)
    ensures c.total == c.base + c.bonus + c.freight
  {
    var jobCost := 0.0;
    if isWeekend {
      if jobType == MRI {
        jobCost := settings.mriRate;
      } else if jobType == CT {
        jobCost := settings.ctRate;
      }
    }
    var bonusRate := 0.0;
    if isWeekend {
      if jobType == MRI {
        bonusRate := settings.helperBonusMRI;
      } else if jobType == CT {
        bonusRate := settings.helperBonusCT;
      }
    }
    var totalBonusCost := |helperIds| as real * bonusRate;
    var totalFreight := 0.0;
    var i := 0;
    while i < |driverIds|
      invariant 0 <= i <= |driverIds|
      invariant totalFreight == Freight(staff, distanceKm, driverIds[..i])
    {
      var d := FindStaff(staff, driverIds[i]);
      if d.Some? && d.value.kmRate.Some? && d.value.kmRate.value != 0.0 {
        totalFreight := totalFreight + distanceKm * d.value.kmRate.value;
      }
      assert driverIds[..i + 1][..i] == driverIds[..i];
      i := i + 1;
    }
    assert driverIds[..i] == driverIds;
    c := CostEstimate(jobCost, totalFreight, totalBonusCost, jobCost + totalBonusCost + totalFreight);
  }

  /** The drivers loaded by `startEdit`: the list when non-empty, else the legacy id when set, else none. */
  function EditDriverIds(t: Trip): seq<string>
  {
    if t.driverIds.Some? && |t.driverIds.value| > 0 then t.driverIds.value
    else if Truthy(t.driverId) then [t.driverId.value]
    else []
  }

  /** `prev.includes(id) ? prev.filter(x => x !== id) : [...prev, id]`. */
  function Toggle(ids: seq<string>, id: string): (r: seq<string>)
    ensures forall x :: x in r <==> (if x == id then id !in ids else x in ids)
  {
    if id in ids then Lists.Remove(ids, id) else ids + [id]
  }

  /** Toggling never creates a duplicate. */
  lemma ToggleNoDuplicates(ids: seq<string>, id: string)
    requires Lists.NoDuplicates(ids)
    ensures Lists.NoDuplicates(Toggle(ids, id))
  {
    if id in ids {
      Lists.RemoveNoDuplicates(ids, id);
    }
  }

  /** Toggling an unselected id twice restores the list exactly. */
  lemma ToggleTwiceUnselected(ids: seq<string>, id: string)
    requires id !in ids
    ensures Toggle(Toggle(ids, id), id) == ids
  {
    assert id in ids + [id];
    Lists.RemoveConcat(ids, [id], id);
    Lists.RemoveAbsent(ids, id);
    assert Lists.Remove([id], id) == [] by { assert [id][..0] == []; }
  }

  /**
   * Toggling a selected id twice selects the same ids again (a list without
   * duplicates keeps its multiset), but the id moves to the end.
   */
  lemma ToggleTwiceSelected(ids: seq<string>, id: string)
    requires id in ids && Lists.NoDuplicates(ids)
    ensures multiset(Toggle(Toggle(ids, id), id)) == multiset(ids)
    ensures Toggle(Toggle(ids, id), id) == Lists.Remove(ids, id) + [id]
  {
    var once := Lists.Remove(ids, id);
    assert Toggle(ids, id) == once;
    assert id !in once;
    assert Toggle(once, id) == once + [id];
    RemoveOnlyOccurrence(ids, id);
  }

  /** Removing the one occurrence of `id` takes exactly one `id` out of the multiset. */
  lemma RemoveOnlyOccurrence(ids: seq<string>, id: string)
    requires id in ids && Lists.NoDuplicates(ids)
    ensures multiset(Lists.Remove(ids, id)) + multiset{id} == multiset(ids)
  {
    var i :| 0 <= i < |ids| && ids[i] == id;
    var before, after := ids[..i], ids[i + 1..];
    assert ids == before + [id] + after;
    OnlyOccurrence(ids, i);
    RemoveSelected(before, after, id);
    MultisetOfSplit(before, after, id);
  }

  lemma MultisetOfSplit(before: seq<string>, after: seq<string>, id: string)
    ensures multiset(before + after) + multiset{id} == multiset(before + [id] + after)
  {
  }

  /** In a list without duplicates, the element at `i` occurs nowhere else. */
  lemma OnlyOccurrence(ids: seq<string>, i: nat)
    requires i < |ids| && Lists.NoDuplicates(ids)
    ensures ids[i] !in ids[..i] + ids[i + 1..]
  {
    var rest := ids[..i] + ids[i + 1..];
    forall k | 0 <= k < |rest| ensures rest[k] != ids[i] {
      if k < i {
        assert rest[k] == ids[k];
      } else {
        assert rest[k] == ids[k + 1];
      }
    }
  }

  /** Removing the one occurrence of `id` from `before + [id] + after`. */
  lemma RemoveSelected(before: seq<string>, after: seq<string>, id: string)
    requires id !in before + after
    ensures Lists.Remove(before + [id] + after, id) == before + after
  {
    assert id !in before && id !in after by {
      assert forall x :: x in before ==> x in before + after;
      assert forall x :: x in after ==> x in before + after;
    }
    Lists.RemoveConcat(before + [id], after, id);
    Lists.RemoveConcat(before, [id], id);
    Lists.RemoveAbsent(before, id);
    Lists.RemoveAbsent(after, id);
    assert Lists.Remove([id], id) == [] by { assert [id][..0] == []; }
  }

  /** The trip list after a submit: the edited trip's old record is dropped, the new one appended. */
  function AfterSubmit(trips: seq<Trip>, editingId: Option<string>, trip: Trip): seq<Trip>
  {
    (if Truthy(editingId) then Lists.RemoveId(trips, TripId, editingId.value) else trips) + [trip]
  }

  /**
   * Editing keeps exactly one trip with the edited id, last; the others are
   * the previous list without that id, in their previous order.
   */
  lemma EditKeepsOneTrip(trips: seq<Trip>, trip: Trip)
    requires trip.id != ""
    ensures var r := AfterSubmit(trips, Some(trip.id), trip);
            && r[|r| - 1] == trip
            && r[..|r| - 1] == Lists.RemoveId(trips, TripId, trip.id)
            && forall x :: x in r[..|r| - 1] ==> x.id != trip.id
  {
    var r := AfterSubmit(trips, Some(trip.id), trip);
    assert r[..|r| - 1] == Lists.RemoveId(trips, TripId, trip.id);
  }

  /** The form's state (`useState` fields). */
  class TripForm {
    var editingId: Option<string>
    var date: string
    var clientName: string
    var origin: string
    var destination: string
    var distanceKm: real
    var jobType: JobType
    var status: TripStatus
    var driverIds: seq<string>
    var helperIds: seq<string>
    var showForm: bool

    /** The initial state; `today` stands for `new Date().toISOString().split('T')[0]`. */
    constructor (today: string)
      ensures editingId == None && date == today && clientName == "" && origin == "" && destination == ""
      ensures distanceKm == 0.0 && jobType == MRI && status == Open
      ensures driverIds == [] && helperIds == [] && !showForm
    {
      editingId := None;
      date := today;
      clientName, origin, destination := "", "", "";
      distanceKm := 0.0;
      jobType := MRI;
      status := Open;
      driverIds, helperIds := [], [];
      showForm := false;
    }

    /** Load a trip for editing, normalising the legacy single driver id. */
    method StartEdit(trip: Trip)
      modifies this
      ensures editingId == Some(trip.id) && date == trip.date && clientName == trip.clientName
      ensures origin == trip.origin && destination == trip.destination && distanceKm == trip.distanceKm
      ensures jobType == trip.jobType && status == trip.status
      ensures driverIds == EditDriverIds(trip) && helperIds == trip.helperIds && showForm
    {
      editingId := Some(trip.id);
      date := trip.date;
      clientName, origin, destination := trip.clientName, trip.origin, trip.destination;
      distanceKm := trip.distanceKm;
      jobType := trip.jobType;
      status := trip.status;
      if trip.driverIds.Some? && |trip.driverIds.value| > 0 {
        driverIds := trip.driverIds.value;
      } else if Truthy(trip.driverId) {
        driverIds := [trip.driverId.value];
      } else {
        driverIds := [];
      }
      helperIds := trip.helperIds;
      showForm := true;
    }

    /** `resetForm`: every field back to its initial value except the job type and the form's visibility. */
    method ResetForm(today: string)
      modifies this
      ensures editingId == None && date == today && clientName == "" && origin == "" && destination == ""
      ensures distanceKm == 0.0 && status == Open && driverIds == [] && helperIds == []
      ensures jobType == old(jobType) && showForm == old(showForm)
    {
      editingId := None;
      date := today;
      clientName, origin, destination := "", "", "";
      distanceKm := 0.0;
      helperIds := [];
      driverIds := [];
      status := Open;
    }

    method ToggleDriver(id: string)
      modifies this`driverIds
      ensures driverIds == Toggle(old(driverIds), id)
    {
      if id in driverIds {
        driverIds := Lists.Remove(driverIds, id);
      } else {
        driverIds := driverIds + [id];
      }
    }

    method ToggleHelper(id: string)
      modifies this`helperIds
      ensures helperIds == Toggle(old(helperIds), id)
    {
      if id in helperIds {
        helperIds := Lists.Remove(helperIds, id);
      } else {
        helperIds := helperIds + [id];
      }
    }

    /**
     * The trip the form would save under `newId`: its fields, the weekend
     * flag of its date and the cost snapshot (base, freight, and total =
     * base + helper bonuses + freight) computed from the given staff and settings.
     */
    ghost function Draft(staff: seq<Staff>, settings: Settings, newId: string): (t: Trip)
      reads this
    {
      var weekend := IsWeekend(date);
      var base := JobBase(jobType, weekend, settings);
      var freight := Freight(staff, distanceKm, driverIds);
      var bonus := |helperIds| as real * HelperBonusRate(jobType, weekend, settings);
      Trip(if Truthy(editingId) then editingId.value else newId,
           date, clientName, origin, destination, distanceKm, jobType, status,
           Some(driverIds), None, helperIds, weekend, base, freight, base + bonus + freight, None)
    }

    /**
     * `handleSubmit`: without a driver nothing happens; otherwise the edited
     * trip's record is deleted, the costed trip appended, and the form reset
     * and hidden. `newId` stands for `Date.now().toString()`.
     */
    method Submit(store: StorageService.Storage, staff: seq<Staff>, settings: Settings, newId: string, today: string)
      returns (saved: Option<Trip>)
      modifies this, store
      ensures old(driverIds) == [] ==> saved == None && unchanged(store) && unchanged(this)
      ensures old(driverIds) != [] ==> saved == Some(old(Draft(staff, settings, newId)))
      ensures old(driverIds) != [] ==>
                && store.GetTrips() == AfterSubmit(old(store.GetTrips()), old(editingId), saved.value)
                && store.staffItem == old(store.staffItem) && store.paymentsItem == old(store.paymentsItem)
                && store.settingsItem == old(store.settingsItem)
                && editingId == None && driverIds == [] && helperIds == [] && !showForm
      ensures old(driverIds) != [] ==>
                && date == today && clientName == "" && origin == "" && destination == ""
                && distanceKm == 0.0 && status == Open && jobType == old(jobType)
    {
      if |driverIds| == 0 {
        return None;
      }
      var weekend := IsWeekend(date);
      var cost := EstimateCost(jobType, weekend, helperIds, driverIds, distanceKm, staff, settings);
      var trip := Trip(
        if Truthy(editingId) then editingId.value else newId,
        date, clientName, origin, destination, distanceKm, jobType, status,
        Some(driverIds), None, helperIds, weekend, cost.base, cost.freight, cost.total, None);
      assert trip == Draft(staff, settings, newId);
      if Truthy(editingId) {
        store.DeleteTrip(editingId.value);
      }
      store.SaveTrip(trip);
      showForm := false;
      ResetForm(today);
      saved := Some(trip);
    }
  }
}
