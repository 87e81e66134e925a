/** components/TeamPage.tsx: role badges and icons, the role filter, the
    per-role counts, the add-member form, and who may add or remove. */
module Team {
  import opened Wrappers
  import opened Entities
  import Constants
  import Listing

  const GRAY_BADGE := "bg-gray-100 text-gray-800"
  const ROLE_VALUES := ["admin", "manager", "field_worker"]

  /** `getRoleBadgeColor` (the dashboard has the same switch). */
  function RoleBadgeColor(role: string): (c: string)
    ensures c == GRAY_BADGE <==> Constants.ParseRole(role).None?
    ensures role == "admin" ==> c == "bg-red-100 text-red-800"
    ensures role == "manager" ==> c == "bg-blue-100 text-blue-800"
    ensures role == "field_worker" ==> c == "bg-green-100 text-green-800"
  {
    match role
    case "admin" => "bg-red-100 text-red-800"
    case "manager" => "bg-blue-100 text-blue-800"
    case "field_worker" => "bg-green-100 text-green-800"
    case _ => GRAY_BADGE
  }

  /** `getRoleIcon`. */
  function RoleIcon(role: string): (icon: string)
    ensures icon == "👤" <==> role !in ROLE_VALUES
    ensures role == "admin" ==> icon == "👨‍💼"
    ensures role == "manager" ==> icon == "👔"
    ensures role == "field_worker" ==> icon == "🔧"
  {
    match role
    case "admin" => "👨‍💼"
    case "manager" => "👔"
    case "field_worker" => "🔧"
    case _ => "👤"
  }

  function RoleOf(u: User): string { u.role }

  /** `filteredMembers`. */
  function FilteredMembers(members: seq<User>, filter: string): seq<User>
  {
    Listing.Filter(members, RoleOf, filter)
  }

  /** The numbers on the stat cards and on the filter buttons. */
  datatype RoleCounts = RoleCounts(total: nat, admins: nat, managers: nat, fieldWorkers: nat)

  function CountRoles(members: seq<User>): (c: RoleCounts)
    ensures c.total == |members|
    ensures c.admins <= |members| && c.managers <= |members| && c.fieldWorkers <= |members|
  {
    RoleCounts(|members|, Listing.Count(members, RoleOf, "admin"),
               Listing.Count(members, RoleOf, "manager"), Listing.Count(members, RoleOf, "field_worker"))
  }

  /** What the loaded page shows: the counts and the listed cards. */
  datatype Display = Display(counts: RoleCounts, listed: seq<User>)

  function Render(members: seq<User>, filter: string): Display
  {
    Display(CountRoles(members), FilteredMembers(members, filter))
  }

  /** The counts do not depend on the active filter; the listed cards are
      exactly the members with the chosen role, in order, and as many as the
      count on that role's button. */
  lemma CountsIgnoreFilter(members: seq<User>, f1: string, f2: string)
    ensures Render(members, f1).counts == Render(members, f2).counts
    ensures Render(members, f1).counts.total == |members|
    ensures f1 == Listing.ALL ==> Render(members, f1).listed == members
    ensures f1 != Listing.ALL ==>
      && |Render(members, f1).listed| == Listing.Count(members, RoleOf, f1)
      && (forall k :: 0 <= k < |Render(members, f1).listed| ==> Render(members, f1).listed[k].role == f1)
      && (forall k :: 0 <= k < |members| && members[k].role == f1 ==> members[k] in Render(members, f1).listed)
    ensures f1 == "admin" ==> |Render(members, f1).listed| == Render(members, f1).counts.admins
    ensures f1 == "manager" ==> |Render(members, f1).listed| == Render(members, f1).counts.managers
    ensures f1 == "field_worker" ==> |Render(members, f1).listed| == Render(members, f1).counts.fieldWorkers
  {
  }

  /** When every member has one of the three roles, the three role cards add
      up to the total card. */
  lemma RoleCountsAddUp(members: seq<User>)
    requires forall k :: 0 <= k < |members| ==> members[k].role in ROLE_VALUES
    ensures var c := CountRoles(members);
      c.admins + c.managers + c.fieldWorkers == c.total
  {
    Listing.CountsPartition(members, RoleOf, ROLE_VALUES);
    var v := ROLE_VALUES;
    assert v[1..] == ["manager", "field_worker"];
    assert v[1..][1..] == ["field_worker"];
    assert v[1..][1..][1..] == [];
    var c := (x: string) => Listing.Count(members, RoleOf, x);
    assert Listing.SumCounts(members, RoleOf, v[1..][1..]) == c("field_worker") + 0;
    assert Listing.SumCounts(members, RoleOf, v[1..]) == c("manager") + c("field_worker");
  }

  /** The add-member form: the body posted to the register endpoint as is. */
  datatype MemberForm = MemberForm(name: string, email: string, password: string, role: string, phone: string)

  const INITIAL_MEMBER_FORM := MemberForm("", "", "", "field_worker", "")
  const FIELDS_REQUIRED := "Name, email, and password are required"

  /** The required-field check of `handleAddMember`; phone is optional. */
  function CheckMember(f: MemberForm): (r: Result<MemberForm, string>)
    ensures r.Err? <==> f.name == "" || f.email == "" || f.password == ""
    ensures r.Err? ==> r.error == FIELDS_REQUIRED
    ensures r.Ok? ==> r.value == f
  {
    if f.name == "" || f.email == "" || f.password == "" then Err(FIELDS_REQUIRED) else Ok(f)
  }

  /** `user?.role === 'admin'`. */
  predicate AddVisible(viewer: Option<User>) {
    viewer.Some? && viewer.value.role == "admin"
  }

  /** `user?.role === 'admin' && member._id !== user._id`. */
  predicate RemoveVisible(viewer: Option<User>, member: User) {
    viewer.Some? && viewer.value.role == "admin" && member.id != viewer.value.id
  }

  /** An admin never sees a remove button on their own card, and nobody but
      an admin sees one at all. */
  lemma RemoveNeverOnSelf(viewer: Option<User>, member: User)
    ensures viewer.Some? && member.id == viewer.value.id ==> !RemoveVisible(viewer, member)
    ensures RemoveVisible(viewer, member) ==> AddVisible(viewer)
  {
  }

  /** The page admits every signed-in user who is not a field worker; a
      manager among them sees neither the add nor any remove control, which
      only admins get. */
  lemma ManagersSeeNoAdminControls(viewer: Option<User>, token: Option<string>, member: User)
    requires StaffPageAccess(viewer, token) == Load
    requires viewer.value.role == "manager"
    ensures !AddVisible(viewer) && !RemoveVisible(viewer, member)
  {
  }

  /** The outcome of a submit or delete: the request sent (if any), the
      alert shown, and whether the list is fetched again. */
  datatype Outcome<R> = Outcome(sent: Option<R>, alert: string, refetch: bool)

  /** `handleDeleteMember`: declining the confirmation sends nothing and
      shows nothing; otherwise a DELETE for the member's id is sent. */
  function DeleteMember(member: User, confirmed: bool, reply: PostReply): (o: Outcome<string>)
    ensures !confirmed <==> o.sent.None?
    ensures !confirmed ==> o.alert == "" && !o.refetch
    ensures confirmed ==> o.sent == Some(member.id)
    ensures o.refetch <==> confirmed && reply.Accepted?
    ensures confirmed && reply.Accepted? ==> o.alert == member.name + " has been removed from the team."
    ensures confirmed && reply.Refused? ==>
      o.alert == "Error: " + MessageOr(reply.message, "Failed to remove team member")
    ensures confirmed && reply.Failed? ==>
      o.alert == "Failed to remove team member. Check console for details."
  {
    if !confirmed then Outcome(None, "", false)
    else match reply
      case Accepted => Outcome(Some(member.id), member.name + " has been removed from the team.", true)
      case Refused(message) => Outcome(Some(member.id), "Error: " + MessageOr(message, "Failed to remove team member"), false)
      case Failed => Outcome(Some(member.id), "Failed to remove team member. Check console for details.", false)
  }

  class TeamView {
    var members: seq<User>
    var showAddModal: bool
    var formData: MemberForm
    var filterRole: string

    constructor ()
      ensures members == [] && !showAddModal && formData == INITIAL_MEMBER_FORM && filterRole == Listing.ALL
    {
      members, showAddModal, formData, filterRole := [], false, INITIAL_MEMBER_FORM, Listing.ALL;
    }

    /** `handleAddMember`: a form missing a required field sends nothing; an
        accepted POST closes the modal and resets the form to a blank
        field-worker entry; any other reply leaves the form as it was. */
    method SubmitAdd(reply: PostReply) returns (o: Outcome<MemberForm>)
      modifies this
      ensures members == old(members) && filterRole == old(filterRole)
      ensures CheckMember(old(formData)).Err? ==>
        && o == Outcome(None, FIELDS_REQUIRED, false)
        && formData == old(formData) && showAddModal == old(showAddModal)
      ensures CheckMember(old(formData)).Ok? ==>
        && o.sent == Some(old(formData))
        && (o.refetch <==> reply.Accepted?)
        && (reply.Accepted? ==> !showAddModal && formData == INITIAL_MEMBER_FORM
                                && o.alert == "Team member added successfully!")
        && (!reply.Accepted? ==> formData == old(formData) && showAddModal == old(showAddModal))
        && (reply.Refused? ==> o.alert == "Error: " + MessageOr(reply.message, "Failed to add team member"))
        && (reply.Failed? ==> o.alert == "Failed to add team member. Check console for details.")
    {
      var checked := CheckMember(formData);
      if checked.Err? {
        return Outcome(None, checked.error, false);
      }
      match reply {
        case Accepted =>
          o := Outcome(Some(formData), "Team member added successfully!", true);
          showAddModal := false;
          formData := INITIAL_MEMBER_FORM;
        case Refused(message) =>
          o := Outcome(Some(formData), "Error: " + MessageOr(message, "Failed to add team member"), false);
        case Failed =>
          o := Outcome(Some(formData), "Failed to add team member. Check console for details.", false);
      }
    }
  }
}
