/**
 * What the helper-bonus and driver-freight ledgers share: the payments made
 * to one member, the ledger row (earned, paid, balance and the two
 * newest-first histories), the choice of active staff of one role, and the
 * payment form whose handler both screens implement identically.
 */
module Ledger {
  import opened Wrappers
  import opened Types
  import Text
  import Lists
  import Sorting
  import StorageService

  /** A trip with the amount it earned one member (`{ ...t, bonusAmount }` / `{ ...t, freightAmount }`). */
  datatype TripEarning = TripEarning(trip: Trip, amount: real)

  /** One member's ledger row as displayed. */
  datatype LedgerRow = LedgerRow(
    member: Staff,
    totalEarned: real,
    totalPaid: real,
    balance: real,
    trips: seq<TripEarning>,
    payments: seq<Payment>)

  function EarningAmount(e: TripEarning): real { e.amount }
  function EarningDate(e: TripEarning): string { e.trip.date }
  function PaymentAmount(p: Payment): real { p.amount }
  function PaymentDate(p: Payment): string { p.date }

  /** `staff.filter(s => s.role === role && s.active)`. */
  function ActiveWithRole(staff: seq<Staff>, role: StaffRole): (r: seq<Staff>)
    ensures |r| <= |staff|
    ensures forall s :: s in r <==> s in staff && s.role == role && s.active
  {
    if staff == [] then [] else
      var rest := ActiveWithRole(staff[..|staff| - 1], role);
      var s := staff[|staff| - 1];
      assert forall x :: x in staff <==> x in staff[..|staff| - 1] || x == s;
      if s.role == role && s.active then rest + [s] else rest
  }

  /** `payments.filter(p => p.staffId === staffId)`. */
  function PaymentsOf(payments: seq<Payment>, staffId: string): (r: seq<Payment>)
    ensures |r| <= |payments|
    ensures forall p :: p in r <==> p in payments && p.staffId == staffId
  {
    if payments == [] then [] else
      var rest := PaymentsOf(payments[..|payments| - 1], staffId);
      var p := payments[|payments| - 1];
      assert forall x :: x in payments <==> x in payments[..|payments| - 1] || x == p;
      if p.staffId == staffId then rest + [p] else rest
  }

  /** `myPayments.reduce((acc, p) => acc + p.amount, 0)`. */
  function TotalPaid(payments: seq<Payment>, staffId: string): real
  {
    Lists.Sum(PaymentsOf(payments, staffId), PaymentAmount)
  }

  /** The comparator `new Date(b.date) - new Date(a.date)`: a goes first when its date is later. */
  function NewerBy<T>(date: T -> string): (T, T) -> bool
  {
    (a, b) => Text.LexLess(date(b), date(a))
  }

  /** A list sorted newest first, equal dates keeping their order. */
  function NewestFirst<T>(s: seq<T>, date: T -> string): (r: seq<T>)
    ensures multiset(r) == multiset(s)
  {
    Sorting.SortBy(s, NewerBy(date))
  }

  /**
   * The ledger row of `member` from the trips it earned on (in list order)
   * and all payments: earned and paid are sums, the balance their difference,
   * and both histories are shown newest first.
   */
  function Row(member: Staff, details: seq<TripEarning>, payments: seq<Payment>): LedgerRow
  {
    var earned := Lists.Sum(details, EarningAmount);
    var paid := TotalPaid(payments, member.id);
    LedgerRow(member, earned, paid, earned - paid,
              NewestFirst(details, EarningDate), NewestFirst(PaymentsOf(payments, member.id), PaymentDate))
  }

  /** Later-date-first is a strict weak order, so the stable sort orders the whole list. */
  lemma NewerByIsOrder<T(!new)>(date: T -> string)
    ensures Sorting.Asymmetric(NewerBy(date))
    ensures Sorting.NegativelyTransitive(NewerBy(date))
  {
    forall a: T, b: T ensures NewerBy(date)(a, b) ==> !NewerBy(date)(b, a) {
      Text.LexTrichotomy(date(a), date(b));
    }
    forall a: T, b: T, c: T
      ensures !NewerBy(date)(b, a) && !NewerBy(date)(c, b) ==> !NewerBy(date)(c, a)
    {
      if !NewerBy(date)(b, a) && !NewerBy(date)(c, b) {
        Text.LexLeTransitive(date(c), date(b), date(a));
      }
    }
  }

  /** Newest first: no element has an earlier date than one after it. */
  lemma NewestFirstOrdered<T(!new)>(s: seq<T>, date: T -> string)
    ensures var r := NewestFirst(s, date);
            forall i, j :: 0 <= i < j < |r| ==> Text.LexLe(date(r[j]), date(r[i]))
  {
    NewerByIsOrder(date);
    Sorting.SortByOrdered(s, NewerBy(date));
    Sorting.AdjacentToOrdered(NewestFirst(s, date), NewerBy(date));
  }

  /**
   * Everything the row promises: the balance is earned minus paid; the
   * histories are permutations of the earning trips and of exactly this
   * member's payments, ordered newest first, and add up to the totals
   * whatever their order.
   */
  lemma RowFacts(member: Staff, details: seq<TripEarning>, payments: seq<Payment>)
    ensures var r := Row(member, details, payments);
            && r.member == member
            && r.balance == r.totalEarned - r.totalPaid
            && r.totalEarned == Lists.Sum(details, EarningAmount)
            && r.totalPaid == TotalPaid(payments, member.id)
            && multiset(r.trips) == multiset(details)
            && (forall p :: p in r.payments <==> p in payments && p.staffId == member.id)
            && Lists.Sum(r.trips, EarningAmount) == r.totalEarned
            && Lists.Sum(r.payments, PaymentAmount) == r.totalPaid
            && (forall i, j :: 0 <= i < j < |r.trips| ==> Text.LexLe(r.trips[j].trip.date, r.trips[i].trip.date))
            && (forall i, j :: 0 <= i < j < |r.payments| ==> Text.LexLe(r.payments[j].date, r.payments[i].date))
  {
    var r := Row(member, details, payments);
    var mine := PaymentsOf(payments, member.id);
    Lists.SumPermutation(r.trips, details, EarningAmount);
    Lists.SumPermutation(r.payments, mine, PaymentAmount);
    NewestFirstOrdered(details, EarningDate);
    NewestFirstOrdered(mine, PaymentDate);
    forall p ensures p in r.payments <==> p in mine {
      assert p in r.payments <==> p in multiset(r.payments);
      assert p in mine <==> p in multiset(mine);
    }
  }

  /** Recording a payment adds its amount to the paid total of its member only. */
  lemma {:induction false} TotalPaidAppend(payments: seq<Payment>, p: Payment, staffId: string)
    ensures TotalPaid(payments + [p], staffId) ==
            TotalPaid(payments, staffId) + (if p.staffId == staffId then p.amount else 0.0)
  {
    assert (payments + [p])[..|payments|] == payments;
  }

  /** Deleting an id none of whose payments belongs to the member leaves its paid total alone. */
  lemma {:induction false} TotalPaidRemoveOther(payments: seq<Payment>, id: string, staffId: string)
    requires forall q :: q in payments && q.id == id ==> q.staffId != staffId
    ensures TotalPaid(Lists.RemoveId(payments, PaymentId, id), staffId) == TotalPaid(payments, staffId)
  {
    if payments != [] {
      var prefix, q := payments[..|payments| - 1], payments[|payments| - 1];
      assert payments == prefix + [q];
      TotalPaidRemoveOther(prefix, id, staffId);
      Lists.RemoveIdConcat(prefix, [q], PaymentId, id);
      TotalPaidAppend(prefix, q, staffId);
      if q.id != id {
        assert Lists.RemoveId([q], PaymentId, id) == [q] by {
          assert [q][..0] == [];
        }
        TotalPaidAppend(Lists.RemoveId(prefix, PaymentId, id), q, staffId);
      } else {
        assert Lists.RemoveId([q], PaymentId, id) == [] by {
          assert [q][..0] == [];
        }
        assert Lists.RemoveId(prefix, PaymentId, id) + [] == Lists.RemoveId(prefix, PaymentId, id);
      }
    }
  }

  /**
   * A valid payment lowers its member's balance by exactly its amount and
   * leaves every other member's balance as it was.
   */
  lemma PaymentLowersBalance(member: Staff, details: seq<TripEarning>, payments: seq<Payment>, p: Payment)
    ensures Row(member, details, payments + [p]).balance ==
            Row(member, details, payments).balance - (if p.staffId == member.id then p.amount else 0.0)
  {
    TotalPaidAppend(payments, p, member.id);
  }

  /** Deleting a payment just recorded under a fresh id restores every balance. */
  lemma DeletingPaymentRestoresBalance(member: Staff, details: seq<TripEarning>, payments: seq<Payment>, p: Payment)
    requires forall q :: q in payments ==> q.id != p.id
    ensures Row(member, details, Lists.RemoveId(payments + [p], PaymentId, p.id)).balance ==
            Row(member, details, payments).balance
  {
    Lists.RemoveIdConcat(payments, [p], PaymentId, p.id);
    Lists.RemoveAbsentId(payments, PaymentId, p.id);
    assert Lists.RemoveId([p], PaymentId, p.id) == [] by {
      assert [p][..0] == [];
    }
    assert payments + [] == payments;
  }

  /** `parseFloat(paymentAmount)` accepted when it is a number greater than zero. */
  predicate ValidAmount(amount: Option<real>)
  {
    amount.Some? && amount.value > 0.0
  }

  /**
   * The payment `handlePayment` records: none for an invalid amount,
   * otherwise the amount for `staffId` under the given id, time and note.
   */
  function NewPayment(amount: Option<real>, staffId: string, newId: string, now: string, note: string): (r: Option<Payment>)
    ensures r.Some? <==> ValidAmount(amount)
    ensures r.Some? ==> r.value.amount > 0.0 && Some(r.value.amount) == amount
    ensures r.Some? ==> r.value == Payment(newId, staffId, amount.value, now, Some(note))
  {
    if amount.None? || amount.value <= 0.0 then None
    else Some(Payment(newId, staffId, amount.value, now, Some(note)))
  }

  /**
   * The payment form of either ledger screen: the member whose form is open,
   * the parsed amount (`None` standing for NaN) and the note.
   */
  class PaymentForm {
    var selectedId: Option<string>
    var amount: Option<real>
    var note: string

    constructor ()
      ensures selectedId == None && amount == None && note == ""
    {
      selectedId, amount, note := None, None, "";
    }

    /**
     * `handlePayment`: an invalid amount saves nothing and changes nothing;
     * a valid one appends the payment and clears the form. `newId` and
     * `now` stand for `Date.now()` and `new Date().toISOString()`.
     */
    method HandlePayment(store: StorageService.Storage, staffId: string, newId: string, now: string)
      returns (saved: Option<Payment>)
      modifies this, store
      ensures saved == NewPayment(old(amount), staffId, newId, now, old(note))
      ensures saved.None? ==> unchanged(this) && unchanged(store)
      ensures saved.Some? ==>
                && store.GetPayments() == old(store.GetPayments()) + [saved.value]
                && store.staffItem == old(store.staffItem) && store.tripsItem == old(store.tripsItem)
                && store.settingsItem == old(store.settingsItem)
                && selectedId == None && amount == None && note == ""
    {
      if amount.None? || amount.value <= 0.0 {
        return None;
      }
      var payment := Payment(newId, staffId, amount.value, now, Some(note));
      store.SavePayment(payment);
      amount := None;
      note := "";
      selectedId := None;
      saved := Some(payment);
    }
  }

  /** `handleDeletePayment`: only when the confirmation is accepted is the payment deleted. */
  method DeletePayment(store: StorageService.Storage, id: string, confirmed: bool)
    modifies store
    ensures confirmed ==> store.GetPayments() == Lists.RemoveId(old(store.GetPayments()), PaymentId, id)
    ensures confirmed ==> store.staffItem == old(store.staffItem) && store.tripsItem == old(store.tripsItem) &&
                          store.settingsItem == old(store.settingsItem)
    ensures !confirmed ==> unchanged(store)
  {
    if confirmed {
      store.DeletePayment(id);
    }
  }
}
