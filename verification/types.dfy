/** The records of the salon-management store: users and their roles, clients,
    the service catalogue, professionals, appointments, ledger transactions and
    the salon settings. Money is `real`, so that sums and the loyalty-point
    division are exact; loyalty points are whole numbers. */
module Types {

  /** Stands for a TypeScript optional field or a value that may be `undefined`. */
  datatype Option<T> = None | Some(value: T) {
    function GetOr(default: T): T {
      match this
      case Some(v) => v
      case None => default
    }
  }

  datatype UserRole = Owner | Professional | Receptionist

  /** The six appointment states; the UI itself only cycles through three of them. */
  datatype AppointmentStatus = Scheduled | Confirmed | Arrived | Completed | NoShow | Cancelled

  datatype ServiceStatus = Active | Inactive

  datatype TxKind = Income | Expense

  datatype User = User(
    id: string,
    name: string,
    email: string,
    role: UserRole,
    photoUrl: Option<string>,
    professionalId: Option<string>)

  datatype Client = Client(
    id: string,
    name: string,
    phone: string,
    email: Option<string>,
    photoUrl: Option<string>,
    birthDate: Option<string>,
    allergies: Option<string>,
    colorFormula: Option<string>,
    notes: Option<string>,
    tags: seq<string>,
    lastVisit: Option<string>,
    totalSpent: real,
    loyaltyPoints: int)

  datatype Service = Service(
    id: string,
    name: string,
    price: real,
    durationMinutes: int,
    category: string,
    description: Option<string>,
    status: ServiceStatus)

  datatype Professional = Professional(
    id: string,
    name: string,
    photoUrl: string,
    color: string,
    specialties: seq<string>)

  datatype Appointment = Appointment(
    id: string,
    clientId: string,
    professionalId: string,
    serviceIds: seq<string>,
    dateTime: string,
    status: AppointmentStatus,
    totalValue: real,
    notes: Option<string>)

  datatype Transaction = Transaction(
    id: string,
    date: string,
    kind: TxKind,
    value: real,
    description: string,
    category: string)

  datatype SalonSettings = SalonSettings(
    salonName: string,
    phone: string,
    address: string,
    logoUrl: string,
    loyaltyEnabled: bool,
    pointsPerCurrency: real,
    loyaltyRewardDescription: string,
    bookingLinkSlug: string)

  // The argument records of the "add" operations: the entity without the
  // fields the store fills in itself.

  datatype AppointmentDraft = AppointmentDraft(
    clientId: string,
    professionalId: string,
    serviceIds: seq<string>,
    dateTime: string,
    notes: Option<string>)

  datatype ClientDraft = ClientDraft(
    name: string,
    phone: string,
    email: Option<string>,
    photoUrl: Option<string>,
    birthDate: Option<string>,
    allergies: Option<string>,
    colorFormula: Option<string>,
    notes: Option<string>,
    lastVisit: Option<string>)

  /** `status` is `None` when the caller left it out (or passed a falsy value). */
  datatype ServiceDraft = ServiceDraft(
    name: string,
    price: real,
    durationMinutes: int,
    category: string,
    description: Option<string>,
    status: Option<ServiceStatus>)

  datatype ProfessionalDraft = ProfessionalDraft(
    name: string,
    photoUrl: string,
    color: string,
    specialties: seq<string>)

  datatype TransactionDraft = TransactionDraft(
    kind: TxKind,
    value: real,
    description: string,
    category: string)

  // The argument records of the "update" operations (`Partial<T>`): a field is
  // `Some` when the key is present in the object that is spread over the
  // record. For a field that is itself optional, `Some(None)` is a key present
  // with the value `undefined`, which the spread copies as well.

  datatype ClientPatch = ClientPatch(
    id: Option<string>,
    name: Option<string>,
    phone: Option<string>,
    email: Option<Option<string>>,
    photoUrl: Option<Option<string>>,
    birthDate: Option<Option<string>>,
    allergies: Option<Option<string>>,
    colorFormula: Option<Option<string>>,
    notes: Option<Option<string>>,
    tags: Option<seq<string>>,
    lastVisit: Option<Option<string>>,
    totalSpent: Option<real>,
    loyaltyPoints: Option<int>)

  datatype ServicePatch = ServicePatch(
    id: Option<string>,
    name: Option<string>,
    price: Option<real>,
    durationMinutes: Option<int>,
    category: Option<string>,
    description: Option<Option<string>>,
    status: Option<ServiceStatus>)

  datatype ProfessionalPatch = ProfessionalPatch(
    id: Option<string>,
    name: Option<string>,
    photoUrl: Option<string>,
    color: Option<string>,
    specialties: Option<seq<string>>)

  datatype SettingsPatch = SettingsPatch(
    salonName: Option<string>,
    phone: Option<string>,
    address: Option<string>,
    logoUrl: Option<string>,
    loyaltyEnabled: Option<bool>,
    pointsPerCurrency: Option<real>,
    loyaltyRewardDescription: Option<string>,
    bookingLinkSlug: Option<string>)

  // The `find`/`map`/`filter` callbacks of the program that compare a record's
  // id with a given one, each written once so that every use is the same function.

  function ServiceWithId(id: string): Service -> bool { (s: Service) => s.id == id }
  function ClientWithId(id: string): Client -> bool { (c: Client) => c.id == id }
  function ProfessionalWithId(id: string): Professional -> bool { (p: Professional) => p.id == id }
  function AppointmentWithId(id: string): Appointment -> bool { (a: Appointment) => a.id == id }
  function ClientWithoutId(id: string): Client -> bool { (c: Client) => c.id != id }
  function ServiceWithoutId(id: string): Service -> bool { (s: Service) => s.id != id }
  function ProfessionalWithoutId(id: string): Professional -> bool { (p: Professional) => p.id != id }
}
