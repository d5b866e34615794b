/**
 * The staff screen: the record built from the form (driver-only fields
 * dropped for helpers), the upsert of that record into the staff list, the
 * delete, and the form state that editing loads.
 */
module StaffManager {
  import opened Wrappers
  import opened Types
  import Lists
  import StorageService

  /**
   * `staffData`: the submitted member is always active and keeps its phone;
   * vehicle type, plate and rate are kept for a driver and absent for a
   * helper.
   */
  function StaffRecord(id: string, name: string, role: StaffRole, phone: string,
                       vehicleType: string, plate: string, kmRate: real): (s: Staff)
    ensures s.id == id && s.name == name && s.role == role && s.active && s.phone == Some(phone)
    ensures role == Driver ==> s.vehicleType == Some(vehicleType) && s.plate == Some(plate) && s.kmRate == Some(kmRate)
    ensures role == Helper ==> s.vehicleType.None? && s.plate.None? && s.kmRate.None?
  {
    var isDriver := role == Driver;
    Staff(id, name, role, true, Some(phone),
          if isDriver then Some(vehicleType) else None,
          if isDriver then Some(plate) else None,
          if isDriver then Some(kmRate) else None)
  }

  /**
   * `updatedList`: with an editing id, every entry with that id is replaced
   * by the record and nothing else changes; without one, the record is
   * appended.
   */
  function Upserted(staffList: seq<Staff>, editingId: Option<string>, record: Staff): (r: seq<Staff>)
    ensures Truthy(editingId) ==> |r| == |staffList|
    ensures Truthy(editingId) ==> forall i :: 0 <= i < |r| ==>
              r[i] == (if staffList[i].id == editingId.value then record else staffList[i])
    ensures !Truthy(editingId) ==> |r| == |staffList| + 1 && r[..|staffList|] == staffList && r[|staffList|] == record
  {
    if Truthy(editingId) then Lists.ReplaceId(staffList, StaffId, editingId.value, record)
    else staffList + [record]
  }

  /** `staffList.filter(s => s.id !== id)`. */
  function Deleted(staffList: seq<Staff>, id: string): (r: seq<Staff>)
    ensures forall s :: s in r <==> s in staffList && s.id != id
  {
    Lists.RemoveId(staffList, StaffId, id)
  }

  /** A record as the screens produce it: active, with a phone, and driver fields exactly on drivers. */
  predicate WellFormed(s: Staff)
  {
    && s.active
    && s.phone.Some?
    && (s.role == Driver ==> s.vehicleType.Some? && s.plate.Some? && s.kmRate.Some?)
    && (s.role == Helper ==> s.vehicleType.None? && s.plate.None? && s.kmRate.None?)
  }

  /** Every submitted record is well formed. */
  lemma StaffRecordWellFormed(id: string, name: string, role: StaffRole, phone: string,
                              vehicleType: string, plate: string, kmRate: real)
    ensures WellFormed(StaffRecord(id, name, role, phone, vehicleType, plate, kmRate))
  {
  }

  /**
   * Editing a well-formed member and submitting without changes rebuilds
   * the same record: what `startEdit` loads is what `handleSubmit` saves.
   */
  lemma EditRoundTrip(s: Staff)
    requires WellFormed(s)
    ensures StaffRecord(s.id, s.name, s.role, s.phone.GetOr(""), s.vehicleType.GetOr(""),
                        s.plate.GetOr(""), s.kmRate.GetOr(0.0)) == s
  {
  }

  /** Deleting after an edit deletes the same entries as deleting before it. */
  lemma DeleteAfterEdit(staffList: seq<Staff>, id: string, record: Staff)
    requires record.id == id && id != ""
    ensures Deleted(Upserted(staffList, Some(id), record), id) == Deleted(staffList, id)
  {
    assert Upserted(staffList, Some(id), record) == Lists.ReplaceId(staffList, StaffId, id, record);
    Lists.RemoveIdAfterReplace(staffList, StaffId, id, record);
  }

  /** Deleting a member just added under a fresh id gives back the original list. */
  lemma DeleteAfterAdd(staffList: seq<Staff>, record: Staff)
    requires forall s :: s in staffList ==> s.id != record.id
    ensures Deleted(Upserted(staffList, None, record), record.id) == staffList
  {
    Lists.RemoveIdConcat(staffList, [record], StaffId, record.id);
    Lists.RemoveAbsentId(staffList, StaffId, record.id);
    assert [record][..0] == [];
    assert staffList + [] == staffList;
  }

  /** The staff form (`useState` fields). */
  class StaffForm {
    var showForm: bool
    var editingId: Option<string>
    var name: string
    var role: StaffRole
    var phone: string
    var vehicleType: string
    var plate: string
    var kmRate: real

    /** `resetForm`'s values: a blank driver. */
    predicate IsBlank()
      reads this
    {
      editingId == None && name == "" && phone == "" && vehicleType == "" && plate == "" &&
      kmRate == 0.0 && role == Driver
    }

    constructor ()
      ensures IsBlank() && !showForm
    {
      showForm := false;
      editingId, name, phone, vehicleType, plate, kmRate, role := None, "", "", "", "", 0.0, Driver;
    }

    /** The record the form would submit; `newId` stands for `Date.now().toString()`. */
    function Record(newId: string): Staff
      reads this
    {
      StaffRecord(if Truthy(editingId) then editingId.value else newId,
                  name, role, phone, vehicleType, plate, kmRate)
    }

    /** `startEdit`: loads the member, absent texts as "" and an absent rate as 0. */
    method StartEdit(s: Staff)
      modifies this
      ensures editingId == Some(s.id) && name == s.name && role == s.role
      ensures phone == s.phone.GetOr("") && vehicleType == s.vehicleType.GetOr("") && plate == s.plate.GetOr("")
      ensures kmRate == s.kmRate.GetOr(0.0)
      ensures showForm
    {
      editingId := Some(s.id);
      name := s.name;
      role := s.role;
      phone := if s.phone.Some? then s.phone.value else "";
      vehicleType := if s.vehicleType.Some? then s.vehicleType.value else "";
      plate := if s.plate.Some? then s.plate.value else "";
      kmRate := if s.kmRate.Some? then s.kmRate.value else 0.0;
      showForm := true;
    }

    method ResetForm()
      modifies this
      ensures IsBlank() && showForm == old(showForm)
    {
      editingId, name, phone, vehicleType, plate, kmRate, role := None, "", "", "", "", 0.0, Driver;
    }

    /**
     * `handleSubmit`: saves the staff list with the record upserted, then
     * closes and clears the form; trips, payments and settings are untouched.
     */
    method Submit(store: StorageService.Storage, newId: string)
      modifies this, store
      ensures store.GetStaff() == Upserted(old(store.GetStaff()), old(editingId), old(Record(newId)))
      ensures store.tripsItem == old(store.tripsItem) && store.paymentsItem == old(store.paymentsItem)
      ensures store.settingsItem == old(store.settingsItem)
      ensures IsBlank() && !showForm
    {
      var id := if editingId.Some? && editingId.value != "" then editingId.value else newId;
      var staffData := StaffRecord(id, name, role, phone, vehicleType, plate, kmRate);
      var updated: seq<Staff>;
      if editingId.Some? && editingId.value != "" {
        updated := Lists.ReplaceId(store.GetStaff(), StaffId, editingId.value, staffData);
      } else {
        updated := store.GetStaff() + [staffData];
      }
      store.SaveStaff(updated);
      showForm := false;
      ResetForm();
    }
  }

  /** `handleDelete`: only when the confirmation is accepted is the member removed. */
  method Delete(store: StorageService.Storage, id: string, confirmed: bool)
    modifies store
    ensures confirmed ==> store.GetStaff() == Deleted(old(store.GetStaff()), id)
    ensures confirmed ==> store.tripsItem == old(store.tripsItem) && store.paymentsItem == old(store.paymentsItem) &&
                          store.settingsItem == old(store.settingsItem)
    ensures !confirmed ==> unchanged(store)
  {
    if confirmed {
      store.SaveStaff(Lists.RemoveId(store.GetStaff(), StaffId, id));
    }
  }
}
