/**
 * The records of the ledger. The source's string enumerations become closed
 * datatypes; `Label` gives the string each one is stored under. Optional
 * fields of the source (`phone?`, `kmRate?`, ...) are `Option`s.
 */
module Types {
  import opened Wrappers

  /** Kind of job; only MRI and CT jobs earn a base value and a helper bonus. */
  datatype JobType = MRI | CT | Other {
    function Label(): string
    {
      match this
      case MRI => "Ressonância Magnética"
      case CT => "Tomografia"
      case Other => "Outro"
    }
  }

  datatype StaffRole = Driver | Helper {
    function Label(): string
    {
      match this
      case Driver => "Motorista"
      case Helper => "Ajudante"
    }
  }

  datatype TripStatus = Open | InProgress | Finished {
    function Label(): string
    {
      match this
      case Open => "Em Aberto"
      case InProgress => "Em Andamento"
      case Finished => "Finalizado"
    }
  }

  /** The stored job-type label back to its job type; any other string is no job type. */
  function ParseJobType(s: string): (r: Option<JobType>)
    ensures forall j: JobType :: r == Some(j) <==> s == j.Label()
  {
    if s == MRI.Label() then Some(MRI)
    else if s == CT.Label() then Some(CT)
    else if s == Other.Label() then Some(Other)
    else None
  }

  /** The stored role label back to its role. */
  function ParseStaffRole(s: string): (r: Option<StaffRole>)
    ensures forall role: StaffRole :: r == Some(role) <==> s == role.Label()
  {
    if s == Driver.Label() then Some(Driver)
    else if s == Helper.Label() then Some(Helper)
    else None
  }

  /** The stored status label back to its status. */
  function ParseTripStatus(s: string): (r: Option<TripStatus>)
    ensures forall st: TripStatus :: r == Some(st) <==> s == st.Label()
  {
    if s == Open.Label() then Some(Open)
    else if s == InProgress.Label() then Some(InProgress)
    else if s == Finished.Label() then Some(Finished)
    else None
  }

  /** A member of staff; vehicleType, plate and kmRate belong to drivers. */
  datatype Staff = Staff(
    id: string,
    name: string,
    role: StaffRole,
    active: bool,
    phone: Option<string>,
    vehicleType: Option<string>,
    plate: Option<string>,
    kmRate: Option<real>)

  /**
   * A trip. `driverIds` is `None` only on records written before the list
   * existed; such records may carry the single `driverId` instead.
   * `baseValue`, `driverKmCost` and `totalCost` are frozen at save time.
   */
  datatype Trip = Trip(
    id: string,
    date: string,
    clientName: string,
    origin: string,
    destination: string,
    distanceKm: real,
    jobType: JobType,
    status: TripStatus,
    driverIds: Option<seq<string>>,
    driverId: Option<string>,
    helperIds: seq<string>,
    isWeekend: bool,
    baseValue: real,
    driverKmCost: real,
    totalCost: real,
    notes: Option<string>)

  datatype Payment = Payment(id: string, staffId: string, amount: real, date: string, notes: Option<string>)

  /** The rate configuration; fuelCostPerKm is informational only. */
  datatype Settings = Settings(
    mriRate: real,
    ctRate: real,
    helperBonusMRI: real,
    helperBonusCT: real,
    fuelCostPerKm: real,
    logo: Option<string>)

  function StaffId(s: Staff): string { s.id }
  function TripId(t: Trip): string { t.id }
  function PaymentId(p: Payment): string { p.id }

  /** JavaScript truthiness of an optional string: present and not empty. */
  predicate Truthy(s: Option<string>)
  {
    s.Some? && s.value != ""
  }
}
