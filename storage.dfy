/**
 * The persistence service. Browser `localStorage` is an in-memory store with
 * one slot per key (`slift_staff`, `slift_trips`, `slift_payments`,
 * `slift_settings`); a slot holds the parsed JSON value, `None` when the key
 * was never written. Serialisation itself is not modelled.
 */
module StorageService {
  import opened Wrappers
  import opened Types
  import Lists

  const DefaultSettings: Settings := Settings(150.0, 100.0, 60.0, 40.0, 2.5, None)

  /** The four seed members returned while nothing has been stored. */
  const MockStaff: seq<Staff> := [
    Staff("1", "Carlos Silva", Driver, true, Some("(11) 99999-1234"), Some("Fiat Fiorino"), Some("ABC-1234"), Some(2.5)),
    Staff("2", "Roberto Santos", Driver, true, Some("(11) 98888-5678"), Some("Renault Master"), Some("XYZ-9876"), Some(3.2)),
    Staff("3", "João Souza", Helper, true, Some("(11) 97777-1111"), None, None, None),
    Staff("4", "Pedro Alves", Helper, true, Some("(11) 96666-2222"), None, None, None)
  ]

  /** Settings as read back from storage: any key may be missing. */
  datatype StoredSettings = StoredSettings(
    mriRate: Option<real>,
    ctRate: Option<real>,
    helperBonusMRI: Option<real>,
    helperBonusCT: Option<real>,
    fuelCostPerKm: Option<real>,
    logo: Option<string>)

  /** `{ ...DEFAULT_SETTINGS, ...parsed }`: a stored key wins, a missing key takes its default. */
  function MergeSettings(stored: StoredSettings): (s: Settings)
    ensures stored.mriRate.Some? ==> s.mriRate == stored.mriRate.value
    ensures stored.mriRate.None? ==> s.mriRate == DefaultSettings.mriRate
    ensures stored.ctRate.Some? ==> s.ctRate == stored.ctRate.value
    ensures stored.ctRate.None? ==> s.ctRate == DefaultSettings.ctRate
    ensures stored.helperBonusMRI.Some? ==> s.helperBonusMRI == stored.helperBonusMRI.value
    ensures stored.helperBonusMRI.None? ==> s.helperBonusMRI == DefaultSettings.helperBonusMRI
    ensures stored.helperBonusCT.Some? ==> s.helperBonusCT == stored.helperBonusCT.value
    ensures stored.helperBonusCT.None? ==> s.helperBonusCT == DefaultSettings.helperBonusCT
    ensures stored.fuelCostPerKm.Some? ==> s.fuelCostPerKm == stored.fuelCostPerKm.value
    ensures stored.fuelCostPerKm.None? ==> s.fuelCostPerKm == DefaultSettings.fuelCostPerKm
    ensures s.logo == stored.logo
  {
    Settings(
      stored.mriRate.GetOr(DefaultSettings.mriRate),
      stored.ctRate.GetOr(DefaultSettings.ctRate),
      stored.helperBonusMRI.GetOr(DefaultSettings.helperBonusMRI),
      stored.helperBonusCT.GetOr(DefaultSettings.helperBonusCT),
      stored.fuelCostPerKm.GetOr(DefaultSettings.fuelCostPerKm),
      match stored.logo case Some(l) => Some(l) case None => DefaultSettings.logo)
  }

  /** What `saveSettings` writes: every key of a complete settings record. */
  function Stored(s: Settings): StoredSettings
  {
    StoredSettings(Some(s.mriRate), Some(s.ctRate), Some(s.helperBonusMRI), Some(s.helperBonusCT),
                   Some(s.fuelCostPerKm), s.logo)
  }

  class Storage {
    var staffItem: Option<seq<Staff>>
    var tripsItem: Option<seq<Trip>>
    var paymentsItem: Option<seq<Payment>>
    var settingsItem: Option<StoredSettings>

    /** A browser profile in which nothing has been stored yet. */
    constructor ()
      ensures staffItem == None && tripsItem == None && paymentsItem == None && settingsItem == None
    {
      staffItem, tripsItem, paymentsItem, settingsItem := None, None, None, None;
    }

    function GetStaff(): seq<Staff>
      reads this
    {
      staffItem.GetOr(MockStaff)
    }

    function GetTrips(): seq<Trip>
      reads this
    {
      tripsItem.GetOr([])
    }

    function GetPayments(): seq<Payment>
      reads this
    {
      paymentsItem.GetOr([])
    }

    function GetSettings(): Settings
      reads this
    {
      match settingsItem
      case None => DefaultSettings
      case Some(stored) => MergeSettings(stored)
    }

    method SaveStaff(staff: seq<Staff>)
      modifies this
      ensures GetStaff() == staff && staffItem == Some(staff)
      ensures tripsItem == old(tripsItem) && paymentsItem == old(paymentsItem) && settingsItem == old(settingsItem)
    {
      staffItem := Some(staff);
    }

    /** Read the list, push the trip onto it and write it back. */
    method SaveTrip(trip: Trip)
      modifies this
      ensures GetTrips() == old(GetTrips()) + [trip] && tripsItem.Some?
      ensures staffItem == old(staffItem) && paymentsItem == old(paymentsItem) && settingsItem == old(settingsItem)
    {
      var trips := GetTrips();
      trips := trips + [trip];
      tripsItem := Some(trips);
    }

    /** Write back the list without the trips that carry `id`. */
    method DeleteTrip(id: string)
      modifies this
      ensures GetTrips() == Lists.RemoveId(old(GetTrips()), TripId, id) && tripsItem.Some?
      ensures staffItem == old(staffItem) && paymentsItem == old(paymentsItem) && settingsItem == old(settingsItem)
    {
      var trips := Lists.RemoveId(GetTrips(), TripId, id);
      tripsItem := Some(trips);
    }

    method SavePayment(payment: Payment)
      modifies this
      ensures GetPayments() == old(GetPayments()) + [payment] && paymentsItem.Some?
      ensures staffItem == old(staffItem) && tripsItem == old(tripsItem) && settingsItem == old(settingsItem)
    {
      var payments := GetPayments();
      payments := payments + [payment];
      paymentsItem := Some(payments);
    }

    method DeletePayment(id: string)
      modifies this
      ensures GetPayments() == Lists.RemoveId(old(GetPayments()), PaymentId, id) && paymentsItem.Some?
      ensures staffItem == old(staffItem) && tripsItem == old(tripsItem) && settingsItem == old(settingsItem)
    {
      var payments := Lists.RemoveId(GetPayments(), PaymentId, id);
      paymentsItem := Some(payments);
    }

    method SaveSettings(settings: Settings)
      modifies this
      ensures settingsItem == Some(Stored(settings)) && GetSettings() == settings
      ensures staffItem == old(staffItem) && tripsItem == old(tripsItem) && paymentsItem == old(paymentsItem)
    {
      settingsItem := Some(Stored(settings));
    }
  }

  /** With nothing stored the getters return the seed staff, empty lists and the default settings. */
  lemma EmptyStorageDefaults(store: Storage)
    requires store.staffItem == None && store.tripsItem == None
    requires store.paymentsItem == None && store.settingsItem == None
    ensures store.GetStaff() == MockStaff && |store.GetStaff()| == 4
    ensures store.GetTrips() == [] && store.GetPayments() == []
    ensures store.GetSettings() == DefaultSettings
    ensures DefaultSettings.mriRate == 150.0 && DefaultSettings.ctRate == 100.0
    ensures DefaultSettings.helperBonusMRI == 60.0 && DefaultSettings.helperBonusCT == 40.0
    ensures DefaultSettings.fuelCostPerKm == 2.5
  {
  }

  /** Saving settings and reading them back gives the same settings. */
  lemma SettingsRoundTrip(s: Settings)
    ensures MergeSettings(Stored(s)) == s
  {
  }
}
