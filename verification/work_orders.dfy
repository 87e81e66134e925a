/** components/WorkOrdersPage.tsx: badge styles, the status filter, the
    create-form validation and payload, the form reset, and the role and
    status gates on the controls. */
module WorkOrders {
  import opened Wrappers
  import opened Entities
  import Constants
  import Listing

  const GRAY_BADGE := "bg-gray-100 text-gray-800"

  /** `getPriorityColor`: the four priorities get their own style, anything
      else the gray default. */
  function PriorityColor(priority: string): (c: string)
    ensures c == GRAY_BADGE <==> Constants.ParsePriority(priority).None?
    ensures priority == "critical" ==> c == "bg-red-100 text-red-800"
    ensures priority == "high" ==> c == "bg-orange-100 text-orange-800"
    ensures priority == "medium" ==> c == "bg-yellow-100 text-yellow-800"
    ensures priority == "low" ==> c == "bg-green-100 text-green-800"
  {
    match priority
    case "critical" => "bg-red-100 text-red-800"
    case "high" => "bg-orange-100 text-orange-800"
    case "medium" => "bg-yellow-100 text-yellow-800"
    case "low" => "bg-green-100 text-green-800"
    case _ => GRAY_BADGE
  }

  /** `getStatusColor`: 'cancelled' shares the gray default, the other four
      statuses get their own style. */
  function StatusColor(status: string): (c: string)
    ensures c == GRAY_BADGE <==>
      Constants.ParseStatus(status).None? || status == Constants.WorkOrderStatus.Cancelled.Value()
    ensures status == "completed" ==> c == "bg-green-100 text-green-800"
    ensures status == "in_progress" ==> c == "bg-blue-100 text-blue-800"
    ensures status == "assigned" ==> c == "bg-purple-100 text-purple-800"
    ensures status == "pending" ==> c == "bg-yellow-100 text-yellow-800"
  {
    match status
    case "completed" => "bg-green-100 text-green-800"
    case "in_progress" => "bg-blue-100 text-blue-800"
    case "assigned" => "bg-purple-100 text-purple-800"
    case "pending" => "bg-yellow-100 text-yellow-800"
    case "cancelled" => GRAY_BADGE
    case _ => GRAY_BADGE
  }

  /** The page's badges do not follow the shared STATUS_COLORS table: a
      pending order is yellow here and gray there. */
  lemma StatusBadgeDiffersFromSharedTable()
    ensures StatusColor("pending") != Constants.StatusColor(Constants.WorkOrderStatus.Pending)
  {
  }

  function OrderStatus(o: WorkOrder): string { o.status }

  /** `filteredOrders`. */
  function FilteredOrders(orders: seq<WorkOrder>, filter: string): seq<WorkOrder>
  {
    Listing.Filter(orders, OrderStatus, filter)
  }

  /** The filter keeps all orders for 'all', otherwise exactly those with the
      chosen status, in their order, as many as there are with that status. */
  lemma FilteredOrdersExact(orders: seq<WorkOrder>, filter: string)
    ensures filter == Listing.ALL ==> FilteredOrders(orders, filter) == orders
    ensures filter != Listing.ALL ==>
      && (forall k :: 0 <= k < |FilteredOrders(orders, filter)| ==> FilteredOrders(orders, filter)[k].status == filter)
      && (forall k :: 0 <= k < |orders| && orders[k].status == filter ==> orders[k] in FilteredOrders(orders, filter))
      && |FilteredOrders(orders, filter)| == Listing.Count(orders, OrderStatus, filter)
    ensures Listing.Subsequence(FilteredOrders(orders, filter), orders)
  {
  }

  /** The status drop-down is offered only for orders still open: of the
      five statuses, pending, assigned and in-progress orders get it, and an
      order carrying a status outside the five gets it too. */
  function StatusControlOffered(o: WorkOrder): (offered: bool)
    ensures !offered ==> Constants.ParseStatus(o.status).Some?
    ensures Constants.ParseStatus(o.status).Some? ==>
      var st := Constants.ParseStatus(o.status).value;
      (offered <==> st == Constants.Pending || st == Constants.Assigned || st == Constants.InProgress)
  {
    o.status != "completed" && o.status != "cancelled"
  }

  /** `user?.role !== 'field_worker'`: also true while there is no user. */
  function CanCreate(user: Option<User>): (allowed: bool)
    ensures !allowed <==> user.Some? && Constants.ParseRole(user.value.role) == Some(Constants.Role.FieldWorker)
  {
    !(user.Some? && user.value.role == "field_worker")
  }

  /** The mount effect: redirect, or load the orders and, for a non field
      worker, the list of field workers too. */
  datatype Mount = ToLogin | LoadOrders(withFieldWorkers: bool)

  function OnMount(user: Option<User>, token: Option<string>): (m: Mount)
    ensures m == ToLogin <==> user.None? || !Truthy(token)
    ensures m.LoadOrders? ==> (m.withFieldWorkers <==> user.value.role != "field_worker")
  {
    if user.None? || !Truthy(token) then ToLogin
    else LoadOrders(user.value.role != "field_worker")
  }

  /** Field workers are fetched exactly for the users who see the create
      button. */
  lemma FieldWorkersFetchedForCreators(user: Option<User>, token: Option<string>)
    requires OnMount(user, token).LoadOrders?
    ensures OnMount(user, token).withFieldWorkers <==> CanCreate(user)
  {
  }

  /** The create form: every input is text. */
  datatype Form = Form(
    title: string, description: string,
    customerName: string, customerPhone: string, customerEmail: string,
    address: string, city: string, state: string, zipCode: string,
    latitude: string, longitude: string,
    priority: string, assignedTo: string, scheduledDate: string, estimatedDuration: string)

  const INITIAL_FORM := Form("", "", "", "", "", "", "", "", "", "", "", "medium", "", "", "60")

  const CUSTOMER_REQUIRED := "Customer name and phone are required"
  const COORDINATES_REQUIRED := "Latitude and longitude are required"

  /** `value || undefined`. */
  function OrUndefined(s: string): (r: Option<string>)
    ensures r.None? <==> s == ""
    ensures r.Some? ==> r.value == s
  {
    if s == "" then None else Some(s)
  }

  /** `parseInt(estimatedDuration) || 60`: NaN (None) and 0 are falsy. */
  function DurationOrDefault(parsed: Option<int>): (d: int)
    ensures d == 60 <==> parsed.None? || parsed.value == 0 || parsed.value == 60
    ensures parsed.Some? && parsed.value != 0 ==> d == parsed.value
  {
    if parsed.Some? && parsed.value != 0 then parsed.value else 60
  }

  datatype PayloadLocation = PayloadLocation(
    kind: string, address: string, city: Option<string>, state: Option<string>,
    zipCode: Option<string>, coordinateTexts: seq<string>)

  /** The JSON body of the POST. `coordinateTexts` are the two texts handed
      to `parseFloat`, in the order they are sent. */
  datatype Payload = Payload(
    title: string, description: string, customer: Customer, location: PayloadLocation,
    priority: string, assignedTo: Option<string>, scheduledDate: Option<string>, estimatedDuration: int)

  function BuildPayload(f: Form, parsedDuration: Option<int>): Payload
  {
    Payload(f.title, f.description,
      Customer(f.customerName, f.customerPhone, OrUndefined(f.customerEmail)),
      PayloadLocation("Point", f.address, OrUndefined(f.city), OrUndefined(f.state), OrUndefined(f.zipCode),
                      [f.longitude, f.latitude]),
      f.priority, OrUndefined(f.assignedTo), OrUndefined(f.scheduledDate), DurationOrDefault(parsedDuration))
  }

  /** The checks of `handleCreateWorkOrder` before anything is sent, then the
      payload. The customer check comes first. */
  function PrepareCreate(f: Form, parsedDuration: Option<int>): (r: Result<Payload, string>)
    ensures r.Err? <==> f.customerName == "" || f.customerPhone == "" || f.latitude == "" || f.longitude == ""
    ensures (f.customerName == "" || f.customerPhone == "") ==> r == Err(CUSTOMER_REQUIRED)
    ensures f.customerName != "" && f.customerPhone != "" && (f.latitude == "" || f.longitude == "")
      ==> r == Err(COORDINATES_REQUIRED)
    ensures r.Ok? ==>
      && r.value.title == f.title && r.value.description == f.description
      && r.value.priority == f.priority
      && r.value.customer == Customer(f.customerName, f.customerPhone, OrUndefined(f.customerEmail))
      && r.value.location.kind == "Point" && r.value.location.address == f.address
      && r.value.location.coordinateTexts == [f.longitude, f.latitude]
      && r.value.location.city == OrUndefined(f.city)
      && r.value.location.state == OrUndefined(f.state)
      && r.value.location.zipCode == OrUndefined(f.zipCode)
      && r.value.assignedTo == OrUndefined(f.assignedTo)
      && r.value.scheduledDate == OrUndefined(f.scheduledDate)
      && r.value.estimatedDuration == DurationOrDefault(parsedDuration)
  {
    if f.customerName == "" || f.customerPhone == "" then Err(CUSTOMER_REQUIRED)
    else if f.latitude == "" || f.longitude == "" then Err(COORDINATES_REQUIRED)
    else Ok(BuildPayload(f, parsedDuration))
  }

  /** The outcome of one submit: the body that was sent (if any), the alert
      shown, and whether the list is fetched again. */
  datatype Submission = Submission(sent: Option<Payload>, alert: string, refetch: bool)

  class WorkOrdersView {
    var workOrders: seq<WorkOrder>
    var showCreateModal: bool
    var formData: Form
    var filterStatus: string

    constructor ()
      ensures workOrders == [] && !showCreateModal && formData == INITIAL_FORM && filterStatus == Listing.ALL
    {
      workOrders, showCreateModal, formData, filterStatus := [], false, INITIAL_FORM, Listing.ALL;
    }

    /** `handleCreateWorkOrder`: a rejected form sends nothing; an accepted
        POST closes the modal and resets the form; any other outcome leaves
        the form and the modal as they were. */
    method SubmitCreate(parsedDuration: Option<int>, reply: PostReply) returns (s: Submission)
      modifies this
      ensures workOrders == old(workOrders) && filterStatus == old(filterStatus)
      ensures PrepareCreate(old(formData), parsedDuration).Err? ==>
        && s == Submission(None, PrepareCreate(old(formData), parsedDuration).error, false)
        && formData == old(formData) && showCreateModal == old(showCreateModal)
      ensures PrepareCreate(old(formData), parsedDuration).Ok? ==>
        && s.sent == Some(PrepareCreate(old(formData), parsedDuration).value)
        && (s.refetch <==> reply.Accepted?)
        && (reply.Accepted? ==> !showCreateModal && formData == INITIAL_FORM
                                && s.alert == "Work order created successfully!")
        && (!reply.Accepted? ==> formData == old(formData) && showCreateModal == old(showCreateModal))
        && (reply.Refused? ==> s.alert == "Error: " + MessageOr(reply.message, "Failed to create work order"))
        && (reply.Failed? ==> s.alert == "Failed to create work order. Check console for details.")
    {
      var prepared := PrepareCreate(formData, parsedDuration);
      if prepared.Err? {
        return Submission(None, prepared.error, false);
      }
      var payload := prepared.value;
      match reply {
        case Accepted =>
          showCreateModal := false;
          formData := INITIAL_FORM;
          s := Submission(Some(payload), "Work order created successfully!", true);
        case Refused(message) =>
          s := Submission(Some(payload), "Error: " + MessageOr(message, "Failed to create work order"), false);
        case Failed =>
          s := Submission(Some(payload), "Failed to create work order. Check console for details.", false);
      }
    }
  }
}
