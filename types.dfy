// The record and enum shapes of the transit dashboard (src/types.ts).
// Fares are integer cents and driver ratings integer tenths of a star;
// coordinates and distances stay `real`, as nothing is computed from them.

module Types {

  datatype Option<T> = None | Some(value: T)

  /** `User.role`; `Commuter` is the role the source spells 'user'. */
  datatype Role = Commuter | SuperAdmin | MunicipalAdmin | OperatorAdmin

  datatype BusStatus = Running | Scheduled | Breakdown | Delayed

  datatype StopStatus = Covered | ToBeCovered | Missed

  datatype GrievanceCategory = Delay | DriverBehavior | BusCondition | OtherCategory

  datatype GrievanceStatus = Open | InProgress | Resolved | Closed

  datatype Priority = Low | Medium | High

  /** The string literal the source uses for each enum value. */
  function RoleName(r: Role): string {
    match r
    case Commuter => "user"
    case SuperAdmin => "super_admin"
    case MunicipalAdmin => "municipal_admin"
    case OperatorAdmin => "operator_admin"
  }

  function BusStatusName(s: BusStatus): string {
    match s
    case Running => "running"
    case Scheduled => "scheduled"
    case Breakdown => "breakdown"
    case Delayed => "delayed"
  }

  function GrievanceStatusName(s: GrievanceStatus): string {
    match s
    case Open => "open"
    case InProgress => "in_progress"
    case Resolved => "resolved"
    case Closed => "closed"
  }

  function CategoryName(c: GrievanceCategory): string {
    match c
    case Delay => "delay"
    case DriverBehavior => "driver_behavior"
    case BusCondition => "bus_condition"
    case OtherCategory => "other"
  }

  function PriorityName(p: Priority): string {
    match p
    case Low => "low"
    case Medium => "medium"
    case High => "high"
  }

  datatype EmergencyContact = EmergencyContact(id: string, name: string, phone: string, relationship: string)

  datatype User = User(
    id: string,
    name: string,
    email: string,
    role: Role,
    phone: Option<string>,
    emergencyContacts: Option<seq<EmergencyContact>>)

  datatype Bus = Bus(
    id: string,
    number: string,
    routeId: string,
    driverId: string,
    currentLat: real,
    currentLng: real,
    speed: int,
    status: BusStatus,
    passengers: int,
    capacity: int,
    nextStopId: string,
    eta: int)

  datatype BusStop = BusStop(
    id: string,
    name: string,
    lat: real,
    lng: real,
    routes: seq<string>,
    status: StopStatus)

  /** `fare` is in cents. */
  datatype Route = Route(
    id: string,
    number: string,
    name: string,
    stops: seq<BusStop>,
    startTime: string,
    endTime: string,
    frequency: int,
    fare: int,
    distance: real)

  /** `rating` is in tenths of a star (4.8 is 48). */
  datatype Driver = Driver(
    id: string,
    name: string,
    phone: string,
    licenseNumber: string,
    rating: int,
    onTimePercentage: int,
    totalTrips: int)

  /** `createdAt` keeps the ISO timestamp text; dates are only ever formatted. */
  datatype Grievance = Grievance(
    id: string,
    userId: string,
    title: string,
    description: string,
    category: GrievanceCategory,
    status: GrievanceStatus,
    priority: Priority,
    createdAt: string,
    assignedTo: Option<string>)

  /** The hue of a Tailwind colour class; shades are presentation only. */
  datatype Color = Green | Yellow | Red | Blue | Gray | Orange | Purple
}
