/**
 * The freight quote calculator: the rate tables, the chain of totals from
 * the vehicle and crane rows to the rounded sale price, and the handlers
 * that add, remove and edit rows.
 */
module BudgetCalculator {
  import Lists

  /** `VEHICLE_RATES`: price per kilometre of each vehicle type. */
  const VehicleRates: map<string, real> := map[
    "Carreta" := 7.0, "Truck" := 6.0, "Toco" := 4.0, "Vuc" := 3.0,
    "Carro de Apoio" := 2.4, "Van" := 2.0, "Fiorino" := 1.9]

  /** `CRANE_PRICES`: price of one crane of each capacity. */
  const CranePrices: map<string, real> := map[
    "30 ton" := 8100.0, "50 ton" := 9150.0, "70 ton" := 10350.0, "90 ton" := 12520.0,
    "110 ton" := 24900.0, "120 ton" := 26500.0, "160 ton" := 27800.0, "200 ton" := 37000.0,
    "220 ton" := 47320.0, "250 ton" := 63000.0, "300 ton" := 86100.0, "500 ton" := 170000.0]

  const HelperPrice: real := 350.0
  const MunkPrice: real := 2500.0

  /** A vehicle line; `kind` is the source's `type` field. */
  datatype VehicleRow = VehicleRow(id: string, kind: string, quantity: real, km: real)

  datatype CraneRow = CraneRow(id: string, kind: string, quantity: real)

  function VehicleId(v: VehicleRow): string { v.id }
  function CraneId(c: CraneRow): string { c.id }

  /** `VEHICLE_RATES[type] || 0`: every listed rate is positive, so 0 means exactly "not in the table". */
  function VehicleRate(kind: string): (r: real)
    ensures r == 0.0 <==> kind !in VehicleRates
    ensures kind in VehicleRates ==> r == VehicleRates[kind]
  {
    if kind in VehicleRates then VehicleRates[kind] else 0.0
  }

  /** `CRANE_PRICES[type] || 0`: every listed price is positive, so 0 means exactly "not in the table". */
  function CranePrice(kind: string): (r: real)
    ensures r == 0.0 <==> kind !in CranePrices
    ensures kind in CranePrices ==> r == CranePrices[kind]
  {
    if kind in CranePrices then CranePrices[kind] else 0.0
  }

  function VehicleCost(v: VehicleRow): real
  {
    v.quantity * v.km * VehicleRate(v.kind)
  }

  function CraneCost(c: CraneRow): real
  {
    c.quantity * CranePrice(c.kind)
  }

  /** `totalVehicles`. */
  function VehiclesTotal(vehicles: seq<VehicleRow>): real
  {
    Lists.Sum(vehicles, VehicleCost)
  }

  /** `totalCranes`. */
  function CranesTotal(cranes: seq<CraneRow>): real
  {
    Lists.Sum(cranes, CraneCost)
  }

  /** Everything the user enters. */
  datatype Inputs = Inputs(
    vehicles: seq<VehicleRow>,
    helpersQty: real,
    merchandiseValue: real,
    insurancePercent: real,
    munkQty: real,
    cranes: seq<CraneRow>,
    othersValue: real,
    marginPercent: real,
    taxRate: real)

  /** Every figure the calculator displays. */
  datatype Quote = Quote(
    vehicles: real,
    helpers: real,
    insurance: real,
    munk: real,
    cranes: real,
    subTotal: real,
    tax: real,
    finalCost: real,
    salePriceExact: real,
    salePriceRounded: int)

  /** `Math.ceil`: the least integer not below x. */
  function Ceil(x: real): (c: int)
    ensures x <= c as real < x + 1.0
  {
    -((-x).Floor)
  }

  /** The memo chain from the rows and amounts to the rounded sale price. */
  function ComputeQuote(b: Inputs): Quote
  {
    var vehicles := VehiclesTotal(b.vehicles);
    var helpers := b.helpersQty * HelperPrice;
    var insurance := b.merchandiseValue * (b.insurancePercent / 100.0);
    var munk := b.munkQty * MunkPrice;
    var cranes := CranesTotal(b.cranes);
    var subTotal := vehicles + helpers + insurance + munk + cranes + b.othersValue;
    var tax := subTotal * (b.taxRate / 100.0);
    var finalCost := subTotal + tax;
    var exact := finalCost * (1.0 + b.marginPercent / 100.0);
    Quote(vehicles, helpers, insurance, munk, cranes, subTotal, tax, finalCost, exact, Ceil(exact))
  }

  /**
   * The sale price is the subtotal with tax added and the margin applied on
   * top, and the displayed price is that figure rounded up to a whole unit.
   */
  lemma SalePriceFormula(b: Inputs)
    ensures var q := ComputeQuote(b);
            && q.finalCost == q.subTotal * (1.0 + b.taxRate / 100.0)
            && q.salePriceExact == q.subTotal * (1.0 + b.taxRate / 100.0) * (1.0 + b.marginPercent / 100.0)
            && q.salePriceExact <= q.salePriceRounded as real < q.salePriceExact + 1.0
  {
    var q := ComputeQuote(b);
    assert q.finalCost == q.subTotal * (1.0 + b.taxRate / 100.0);
  }

  /** One truck over 100 km with 18% tax and a 30% margin: 600 + 108 = 708, times 1.3 is 920.4, shown as 921. */
  lemma TruckExample()
    ensures var q := ComputeQuote(Inputs([VehicleRow("1", "Truck", 1.0, 100.0)], 0.0, 0.0, 0.5, 0.0, [], 0.0, 30.0, 18.0));
            q.vehicles == 600.0 && q.subTotal == 600.0 && q.tax == 108.0 && q.finalCost == 708.0 &&
            q.salePriceExact == 920.4 && q.salePriceRounded == 921
  {
    var vs := [VehicleRow("1", "Truck", 1.0, 100.0)];
    assert vs[..0] == [];
    assert VehicleRate("Truck") == 6.0;
    assert VehiclesTotal(vs) == 600.0;
    assert CranesTotal([]) == 0.0;
  }

  /** Adding a vehicle row (a truck with 0 km) does not change the vehicle total. */
  lemma AddedVehicleCostsNothing(vehicles: seq<VehicleRow>, newId: string)
    ensures VehiclesTotal(vehicles + [VehicleRow(newId, "Truck", 1.0, 0.0)]) == VehiclesTotal(vehicles)
  {
    var vs := vehicles + [VehicleRow(newId, "Truck", 1.0, 0.0)];
    assert vs[..|vs| - 1] == vehicles;
  }

  /** Adding a crane row (one 30 ton crane) adds 8100 to the crane total. */
  lemma AddedCraneCosts(cranes: seq<CraneRow>, newId: string)
    ensures CranesTotal(cranes + [CraneRow(newId, "30 ton", 1.0)]) == CranesTotal(cranes) + 8100.0
  {
    var cs := cranes + [CraneRow(newId, "30 ton", 1.0)];
    assert cs[..|cs| - 1] == cranes;
    assert CranePrice("30 ton") == 8100.0;
  }

  /** Removing a row takes exactly the cost of the rows with that id off the total. */
  lemma RemovedVehiclesTotal(vehicles: seq<VehicleRow>, id: string)
    ensures VehiclesTotal(Lists.RemoveId(vehicles, VehicleId, id)) ==
            VehiclesTotal(vehicles) - Lists.Sum(Lists.KeepId(vehicles, VehicleId, id), VehicleCost)
  {
    Lists.SumRemoveId(vehicles, VehicleId, id, VehicleCost);
  }

  lemma RemovedCranesTotal(cranes: seq<CraneRow>, id: string)
    ensures CranesTotal(Lists.RemoveId(cranes, CraneId, id)) ==
            CranesTotal(cranes) - Lists.Sum(Lists.KeepId(cranes, CraneId, id), CraneCost)
  {
    Lists.SumRemoveId(cranes, CraneId, id, CraneCost);
  }

  /** The field an edit sets: `updateVehicle(id, 'type' | 'quantity' | 'km', value)`. */
  datatype VehicleEdit = SetVehicleKind(kind: string) | SetVehicleQuantity(quantity: real) | SetKm(km: real)

  /** The field an edit sets: `updateCrane(id, 'type' | 'quantity', value)`. */
  datatype CraneEdit = SetCraneKind(kind: string) | SetCraneQuantity(quantity: real)

  /** `{ ...v, [field]: value }`: the named field takes the value, the others (and the id) stay. */
  function ApplyVehicleEdit(v: VehicleRow, edit: VehicleEdit): (r: VehicleRow)
    ensures r.id == v.id
    ensures r.kind == (if edit.SetVehicleKind? then edit.kind else v.kind)
    ensures r.quantity == (if edit.SetVehicleQuantity? then edit.quantity else v.quantity)
    ensures r.km == (if edit.SetKm? then edit.km else v.km)
  {
    match edit
    case SetVehicleKind(kind) => v.(kind := kind)
    case SetVehicleQuantity(quantity) => v.(quantity := quantity)
    case SetKm(km) => v.(km := km)
  }

  function ApplyCraneEdit(c: CraneRow, edit: CraneEdit): (r: CraneRow)
    ensures r.id == c.id
    ensures r.kind == (if edit.SetCraneKind? then edit.kind else c.kind)
    ensures r.quantity == (if edit.SetCraneQuantity? then edit.quantity else c.quantity)
  {
    match edit
    case SetCraneKind(kind) => c.(kind := kind)
    case SetCraneQuantity(quantity) => c.(quantity := quantity)
  }

  /** The calculator's state (`useState` fields). */
  class BudgetForm {
    var vehicles: seq<VehicleRow>
    var helpersQty: real
    var merchandiseValue: real
    var insurancePercent: real
    var munkQty: real
    var cranes: seq<CraneRow>
    var othersValue: real
    var marginPercent: real
    var taxRate: real

    /** The initial state: one truck with 0 km, 0.5% insurance, 30% margin, 18% tax, everything else 0. */
    constructor ()
      ensures vehicles == [VehicleRow("1", "Truck", 1.0, 0.0)] && cranes == []
      ensures helpersQty == 0.0 && merchandiseValue == 0.0 && insurancePercent == 0.5
      ensures munkQty == 0.0 && othersValue == 0.0 && marginPercent == 30.0 && taxRate == 18.0
    {
      vehicles := [VehicleRow("1", "Truck", 1.0, 0.0)];
      helpersQty, merchandiseValue, insurancePercent := 0.0, 0.0, 0.5;
      munkQty := 0.0;
      cranes := [];
      othersValue := 0.0;
      marginPercent, taxRate := 30.0, 18.0;
    }

    function CurrentInputs(): Inputs
      reads this
    {
      Inputs(vehicles, helpersQty, merchandiseValue, insurancePercent, munkQty, cranes, othersValue, marginPercent, taxRate)
    }

    /** `addVehicle`; `newId` stands for `Date.now().toString()`. */
    method AddVehicle(newId: string)
      modifies this`vehicles
      ensures vehicles == old(vehicles) + [VehicleRow(newId, "Truck", 1.0, 0.0)]
    {
      vehicles := vehicles + [VehicleRow(newId, "Truck", 1.0, 0.0)];
    }

    method RemoveVehicle(id: string)
      modifies this`vehicles
      ensures vehicles == Lists.RemoveId(old(vehicles), VehicleId, id)
    {
      vehicles := Lists.RemoveId(vehicles, VehicleId, id);
    }

    method UpdateVehicle(id: string, edit: VehicleEdit)
      modifies this`vehicles
      ensures |vehicles| == |old(vehicles)|
      ensures forall i :: 0 <= i < |vehicles| ==>
                vehicles[i] == if old(vehicles)[i].id == id then ApplyVehicleEdit(old(vehicles)[i], edit) else old(vehicles)[i]
    {
      vehicles := Lists.UpdateId(vehicles, VehicleId, id, v => ApplyVehicleEdit(v, edit));
    }

    /** `addCrane`; `newId` stands for `Date.now().toString()`. */
    method AddCrane(newId: string)
      modifies this`cranes
      ensures cranes == old(cranes) + [CraneRow(newId, "30 ton", 1.0)]
    {
      cranes := cranes + [CraneRow(newId, "30 ton", 1.0)];
    }

    method RemoveCrane(id: string)
      modifies this`cranes
      ensures cranes == Lists.RemoveId(old(cranes), CraneId, id)
    {
      cranes := Lists.RemoveId(cranes, CraneId, id);
    }

    method UpdateCrane(id: string, edit: CraneEdit)
      modifies this`cranes
      ensures |cranes| == |old(cranes)|
      ensures forall i :: 0 <= i < |cranes| ==>
                cranes[i] == if old(cranes)[i].id == id then ApplyCraneEdit(old(cranes)[i], edit) else old(cranes)[i]
    {
      cranes := Lists.UpdateId(cranes, CraneId, id, c => ApplyCraneEdit(c, edit));
    }
  }

  /** The freshly opened calculator quotes 0: its only vehicle has 0 km. */
  lemma InitialQuoteIsZero(form: BudgetForm)
    requires form.vehicles == [VehicleRow("1", "Truck", 1.0, 0.0)] && form.cranes == []
    requires form.helpersQty == 0.0 && form.merchandiseValue == 0.0 && form.munkQty == 0.0 && form.othersValue == 0.0
    ensures ComputeQuote(form.CurrentInputs()).salePriceRounded == 0
  {
    AddedVehicleCostsNothing([], "1");
    assert [] + [VehicleRow("1", "Truck", 1.0, 0.0)] == form.vehicles;
  }
}
