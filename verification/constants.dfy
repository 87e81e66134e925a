/** The shared enumerations of lib/constants.ts: each object of string
    constants becomes a datatype whose `Value()` is the string the backend
    uses, and each colour object becomes a map from those strings. */
module Constants {
  import opened Wrappers

  datatype Role = Admin | Manager | FieldWorker {
    function Value(): string {
      match this
      case Admin => "admin"
      case Manager => "manager"
      case FieldWorker => "field_worker"
    }
  }

  datatype WorkOrderStatus = Pending | Assigned | InProgress | Completed | Cancelled {
    function Value(): string {
      match this
      case Pending => "pending"
      case Assigned => "assigned"
      case InProgress => "in_progress"
      case Completed => "completed"
      case Cancelled => "cancelled"
    }
  }

  datatype Priority = Low | Medium | High | Critical {
    function Value(): string {
      match this
      case Low => "low"
      case Medium => "medium"
      case High => "high"
      case Critical => "critical"
    }
  }

  datatype Availability = Available | Busy | Offline {
    function Value(): string {
      match this
      case Available => "available"
      case Busy => "busy"
      case Offline => "offline"
    }
  }

  /** Reads a role string back; since the result is determined by the string,
      two roles with the same string are the same role. */
  function ParseRole(s: string): (r: Option<Role>)
    ensures forall x: Role :: x.Value() == s <==> r == Some(x)
  {
    if s == "admin" then Some(Admin)
    else if s == "manager" then Some(Manager)
    else if s == "field_worker" then Some(FieldWorker)
    else None
  }

  function ParseStatus(s: string): (r: Option<WorkOrderStatus>)
    ensures forall x: WorkOrderStatus :: x.Value() == s <==> r == Some(x)
  {
    if s == "pending" then Some(Pending)
    else if s == "assigned" then Some(Assigned)
    else if s == "in_progress" then Some(InProgress)
    else if s == "completed" then Some(Completed)
    else if s == "cancelled" then Some(Cancelled)
    else None
  }

  function ParsePriority(s: string): (r: Option<Priority>)
    ensures forall x: Priority :: x.Value() == s <==> r == Some(x)
  {
    if s == "low" then Some(Low)
    else if s == "medium" then Some(Medium)
    else if s == "high" then Some(High)
    else if s == "critical" then Some(Critical)
    else None
  }

  function ParseAvailability(s: string): (r: Option<Availability>)
    ensures forall x: Availability :: x.Value() == s <==> r == Some(x)
  {
    if s == "available" then Some(Available)
    else if s == "busy" then Some(Busy)
    else if s == "offline" then Some(Offline)
    else None
  }

  /** Distinct members of each enumeration have distinct strings. */
  lemma ValuesDistinct()
    ensures forall a: Role, b: Role :: a.Value() == b.Value() ==> a == b
    ensures forall a: WorkOrderStatus, b: WorkOrderStatus :: a.Value() == b.Value() ==> a == b
    ensures forall a: Priority, b: Priority :: a.Value() == b.Value() ==> a == b
    ensures forall a: Availability, b: Availability :: a.Value() == b.Value() ==> a == b
  {
    forall a: Role, b: Role | a.Value() == b.Value() ensures a == b {
      assert ParseRole(a.Value()) == Some(a) && ParseRole(b.Value()) == Some(b);
    }
    forall a: WorkOrderStatus, b: WorkOrderStatus | a.Value() == b.Value() ensures a == b {
      assert ParseStatus(a.Value()) == Some(a) && ParseStatus(b.Value()) == Some(b);
    }
    forall a: Priority, b: Priority | a.Value() == b.Value() ensures a == b {
      assert ParsePriority(a.Value()) == Some(a) && ParsePriority(b.Value()) == Some(b);
    }
    forall a: Availability, b: Availability | a.Value() == b.Value() ensures a == b {
      assert ParseAvailability(a.Value()) == Some(a) && ParseAvailability(b.Value()) == Some(b);
    }
  }

  const STATUS_COLORS: map<string, string> := map[
    "pending" := "bg-gray-100 text-gray-800",
    "assigned" := "bg-blue-100 text-blue-800",
    "in_progress" := "bg-yellow-100 text-yellow-800",
    "completed" := "bg-green-100 text-green-800",
    "cancelled" := "bg-red-100 text-red-800"]

  const PRIORITY_COLORS: map<string, string> := map[
    "low" := "bg-gray-100 text-gray-800 border-gray-300",
    "medium" := "bg-blue-100 text-blue-800 border-blue-300",
    "high" := "bg-orange-100 text-orange-800 border-orange-300",
    "critical" := "bg-red-100 text-red-800 border-red-300"]

  /** STATUS_COLORS has a key for every work-order status and no other key
      (a map holds one entry per key). */
  lemma StatusColorsOnePerStatus()
    ensures forall s: WorkOrderStatus :: s.Value() in STATUS_COLORS
    ensures forall k :: k in STATUS_COLORS ==> ParseStatus(k).Some?
  {
  }

  /** PRIORITY_COLORS has a key for every priority and no other key. */
  lemma PriorityColorsOnePerPriority()
    ensures forall p: Priority :: p.Value() in PRIORITY_COLORS
    ensures forall k :: k in PRIORITY_COLORS ==> ParsePriority(k).Some?
  {
  }

  /** The colour of a status, a total lookup over the enumeration. */
  function StatusColor(s: WorkOrderStatus): (c: string)
    ensures c in STATUS_COLORS.Values
  {
    STATUS_COLORS[s.Value()]
  }

  function PriorityColor(p: Priority): (c: string)
    ensures c in PRIORITY_COLORS.Values
  {
    PRIORITY_COLORS[p.Value()]
  }
}
