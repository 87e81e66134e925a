/** The records the pages receive from the backend, with the fields the
    modelled code reads. Optional fields (`phone?`, `battery?`, ...) are
    Options; enumerated fields (`role`, `status`, `priority`) stay strings,
    because the pages compare them as strings and must handle values outside
    the enumerations. */
module Entities {
  import opened Wrappers

  datatype User = User(id: string, name: string, email: string, role: string, phone: Option<string>)

  /** A GeoJSON position: first the longitude, then the latitude. */
  datatype LngLat = LngLat(lng: real, lat: real)

  /** The statuses a worker location declares (`'available' | 'on_job' |
      'offline' | 'break'`); the backend may still send anything else. */
  const WORKER_STATUSES: seq<string> := ["available", "on_job", "offline", "break"]

  /** A worker's last reported position. */
  datatype Location = Location(
    id: string,
    user: User,
    coordinates: LngLat,
    status: string,
    accuracy: Option<real>,
    speed: Option<real>,
    battery: Option<real>,
    lastUpdated: string)

  datatype Customer = Customer(name: string, phone: string, email: Option<string>)

  datatype Place = Place(
    address: string,
    city: Option<string>,
    state: Option<string>,
    zipCode: Option<string>,
    coordinates: LngLat)

  datatype Assignee = Assignee(id: string, name: string)

  datatype WorkOrder = WorkOrder(
    id: string,
    title: string,
    description: string,
    customer: Customer,
    location: Place,
    priority: string,
    status: string,
    assignedTo: Option<Assignee>,
    scheduledDate: Option<string>,
    estimatedDuration: int)

  /** The page-level access decision taken on mount. */
  datatype Access = RedirectToLogin | RedirectToDashboard | Load

  const LOGIN_PATH := "/login"
  const DASHBOARD_PATH := "/dashboard"

  /** JavaScript truthiness of a string that may be null: null and "" are falsy. */
  predicate Truthy(s: Option<string>) {
    s.Some? && s.value != ""
  }

  /** The mount guard of the tracking, team and analytics pages: without a
      user or a truthy token go to the login page; a field worker goes to the
      dashboard; any other signed-in user, whatever the role string, gets the
      data loaded. */
  function StaffPageAccess(user: Option<User>, token: Option<string>): (a: Access)
    ensures a == RedirectToLogin <==> user.None? || !Truthy(token)
    ensures a == RedirectToDashboard <==> user.Some? && Truthy(token) && user.value.role == "field_worker"
    ensures a == Load ==> user.Some? && user.value.role != "field_worker"
  {
    if user.None? || !Truthy(token) then RedirectToLogin
    else if user.value.role == "field_worker" then RedirectToDashboard
    else Load
  }

  /** `message || fallback` for a server message that may be missing: an
      empty message is falsy too. */
  function MessageOr(message: Option<string>, fallback: string): (m: string)
    ensures Truthy(message) ==> m == message.value
    ensures !Truthy(message) ==> m == fallback
  {
    if Truthy(message) then message.value else fallback
  }

  /** How a form's POST ended: a 2xx reply, a non-2xx reply carrying an
      optional `message`, or a failure of `fetch` or of reading the JSON body
      (which lands in the `catch`). */
  datatype PostReply = Accepted | Refused(message: Option<string>) | Failed
}
