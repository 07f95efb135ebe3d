/** The frontend domain records of the `src/types` files. Staff and client roles and statuses
    stay strings: the code compares them against free-form filter strings and the
    backend mappers can produce values outside the declared unions. */
module Domain {
  import opened Wrappers
  import Text

  // ---------------------------------------------------------------------------
  // Staff
  // ---------------------------------------------------------------------------

  /** The declared `StaffRole` union. */
  const StaffRoles: seq<string> := ["trainer", "receptionist", "manager", "nutritionist", "physiotherapist"]
  /** The declared `StaffStatus` union. */
  const StaffStatuses: seq<string> := ["active", "on-leave", "inactive"]
  /** The declared `StaffPermission` union. */
  const StaffPermissions: seq<string> :=
    ["manage_clients", "manage_schedule", "view_reports", "manage_pricing", "manage_staff", "full_access"]

  /** The declared `StaffMember` record, as the fixture table holds it. */
  datatype StaffMember = StaffMember(
    id: string,
    firstName: string,
    lastName: string,
    email: string,
    phone: Option<string>,
    role: string,
    status: string,
    avatar: Option<string>,
    specializations: seq<string>,
    hireDate: string,
    permissions: seq<string>)

  // ---------------------------------------------------------------------------
  // Clients
  // ---------------------------------------------------------------------------

  const ClientStatuses: seq<string> := ["active", "inactive", "pending"]

  datatype Client = Client(
    id: string,
    firstName: string,
    lastName: string,
    email: string,
    phone: Option<string>,
    avatar: Option<string>,
    membershipId: Option<string>,
    membershipName: Option<string>,
    assignedStaffId: Option<string>,
    assignedStaffName: Option<string>,
    status: string,
    joinDate: string,
    lastVisit: Option<string>)

  // ---------------------------------------------------------------------------
  // Pricing
  // ---------------------------------------------------------------------------

  datatype PlanType = Membership | ClassPack {
    /** The wire spelling compared against tab and filter strings. */
    function Name(): string {
      match this
      case Membership => "membership"
      case ClassPack => "class-pack"
    }
  }

  datatype BillingCycle = Monthly | Quarterly | Yearly | OneTime {
    function Name(): string {
      match this
      case Monthly => "monthly"
      case Quarterly => "quarterly"
      case Yearly => "yearly"
      case OneTime => "one-time"
    }
  }

  datatype PlanStatus = Active | Archived | Draft {
    function Name(): string {
      match this
      case Active => "active"
      case Archived => "archived"
      case Draft => "draft"
    }
  }

  /** A floating-point value left unevaluated: `parseFloat(text)` or a literal. */
  datatype Float = ParseFloat(text: string) | Literal(value: real)

  /** `n.toFixed(2)`, left unevaluated. */
  datatype FixedText = ToFixed2(of: Float)

  /** A `PricingPlan` as the pages read it. Fields the declared type makes mandatory but
      that a producer may leave undefined are optional here (`status`, `currency`,
      `subscriberCount`), so that the API-mapped plans can be read through it. */
  datatype PricingPlan = PricingPlan(
    id: string,
    name: string,
    description: string,
    planType: PlanType,
    price: Float,
    currency: Option<string>,
    billingCycle: BillingCycle,
    features: seq<string>,
    status: Option<PlanStatus>,
    maxClasses: Option<int>,
    validityDays: Option<int>,
    createdAt: string,
    subscriberCount: Option<int>)

  /** `CreatePlanInput`; the numeric optionals may hold `parseInt` results, NaN included. */
  datatype CreatePlanInput = CreatePlanInput(
    name: string,
    description: string,
    planType: PlanType,
    price: Float,
    billingCycle: BillingCycle,
    features: seq<string>,
    maxClasses: Option<Text.Num>,
    validityDays: Option<Text.Num>)

  // ---------------------------------------------------------------------------
  // Schedule
  // ---------------------------------------------------------------------------

  datatype SessionType = GroupClass | PersonalTraining | Workshop | OpenGym {
    function Label(): string {
      match this
      case GroupClass => "Group Class"
      case PersonalTraining => "Personal Training"
      case Workshop => "Workshop"
      case OpenGym => "Open Gym"
    }
  }

  /** The declared `SessionStatus` union; the API mapper emits "full"/"open" instead. */
  const SessionStatuses: seq<string> := ["scheduled", "in-progress", "completed", "cancelled"]

  datatype Session = Session(
    id: string,
    title: string,
    sessionType: SessionType,
    trainerId: string,
    trainerName: string,
    startTime: string,
    endTime: string,
    capacity: int,
    enrolledCount: int,
    location: string,
    status: string,
    color: Option<string>)

  datatype CreateSessionInput = CreateSessionInput(
    title: string,
    sessionType: SessionType,
    trainerId: string,
    startTime: string,
    endTime: string,
    capacity: int,
    location: string)

  /** `Omit<Session, 'id'>`, what the fixture table's create receives. */
  datatype SessionDraft = SessionDraft(
    title: string,
    sessionType: SessionType,
    trainerId: string,
    trainerName: string,
    startTime: string,
    endTime: string,
    capacity: int,
    enrolledCount: int,
    location: string,
    status: string,
    color: Option<string>)
  {
    /** `{ ...draft, id }`. */
    function WithId(id: string): Session {
      Session(id, title, sessionType, trainerId, trainerName, startTime, endTime,
              capacity, enrolledCount, location, status, color)
    }
  }
}
