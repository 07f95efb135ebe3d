/** The staff service of `src/lib/api/staff-api.ts`: how a backend user becomes a staff
    member, which users the staff list keeps, and the create and update payloads. */
module StaffApi {
  import opened Wrappers
  import opened Json
  import opened BackendUsers
  import ApiClient
  import Lists
  import Domain

  const DefaultPassword: string := "TempPassword123!"
  const ProfilesEndpoint: string := "/users/profiles/"
  const CreateStaffEndpoint: string := "/users/profiles/create_staff/"

  /** What `mapBackendUserToStaff` returns: the declared `StaffMember` without
      `permissions`, plus `clients` and `schedule`. Its role may be `owner`, which the
      declared role union lacks. */
  datatype ApiStaffMember = ApiStaffMember(
    id: string,
    firstName: string,
    lastName: string,
    email: string,
    phone: string,
    role: string,
    status: string,
    avatar: Option<string>,
    specializations: seq<string>,
    hireDate: string,
    clients: int,
    schedule: string)

  /** The backend role as a frontend role. */
  function MapRole(role: string): (r: string)
    ensures r == "trainer" || r == "manager" || r == "owner"
    ensures r == "manager" <==> role == "gym_manager"
    ensures r == "owner" <==> role == "gym_owner"
  {
    if role == "trainer" then "trainer"
    else if role == "gym_manager" then "manager"
    else if role == "gym_owner" then "owner"
    else "trainer"
  }

  /** `staff_status === 'on_leave' ? 'on-leave' : (staff_status || 'active')`. */
  function MapStaffStatus(status: Option<string>): (r: string)
    ensures status == Some("on_leave") ==> r == "on-leave"
    ensures !Filled(status) ==> r == "active"
    ensures Filled(status) && status.value != "on_leave" ==> r == status.value
  {
    if status == Some("on_leave") then "on-leave" else OrStr(status, "active")
  }

  /** `user.profile?.staff_status`: undefined when there is no profile. */
  function ProfileStatus(u: BackendUser): Option<string> {
    if u.profile.Some? then u.profile.value.staffStatus else None
  }

  /** `mapBackendUserToStaff`. */
  function MapBackendUserToStaff(u: BackendUser): (m: ApiStaffMember)
    ensures (m.firstName, m.lastName) == SplitName(Nickname(u))
    ensures m.id == u.id && m.email == u.email && m.hireDate == u.dateJoined
    ensures m.role == MapRole(u.role) && m.status == MapStaffStatus(ProfileStatus(u))
    ensures u.profile.None? ==> m.phone == "" && m.avatar.None? && m.specializations == [] && m.status == "active"
    ensures u.profile.Some? ==>
              m.phone == OrStr(u.profile.value.phoneNumber, "")
              && (m.avatar.Some? <==> Filled(u.profile.value.profileImage))
              && (m.avatar.Some? ==> m.avatar == u.profile.value.profileImage)
              && m.specializations == u.profile.value.specializations.GetOr([])
    ensures m.clients == 0 && m.schedule == ""
  {
    var (first, last) := SplitName(Nickname(u));
    match u.profile
    case None =>
      ApiStaffMember(u.id, first, last, u.email, "", MapRole(u.role), MapStaffStatus(None), None, [], u.dateJoined, 0, "")
    case Some(p) =>
      ApiStaffMember(u.id, first, last, u.email, OrStr(p.phoneNumber, ""), MapRole(u.role),
                     MapStaffStatus(p.staffStatus),
                     if Filled(p.profileImage) then p.profileImage else None,
                     p.specializations.GetOr([]), u.dateJoined, 0, "")
  }

  /** The users the staff view shows: trainers and managers. */
  predicate IsStaffUser(u: BackendUser) {
    u.role == "trainer" || u.role == "gym_manager"
  }

  function StaffUsers(users: seq<BackendUser>): seq<BackendUser> {
    Lists.Filter(users, IsStaffUser)
  }

  /** `fetchStaffFromApi`. */
  function FetchStaff(response: ApiClient.ListResponse<BackendUser>): (staff: seq<ApiStaffMember>)
    ensures |staff| == |StaffUsers(ApiClient.Results(response))|
    ensures forall i :: 0 <= i < |staff| ==> staff[i] == MapBackendUserToStaff(StaffUsers(ApiClient.Results(response))[i])
    ensures forall i :: 0 <= i < |staff| ==> staff[i].role == "trainer" || staff[i].role == "manager"
  {
    Lists.Map(StaffUsers(ApiClient.Results(response)), MapBackendUserToStaff)
  }

  /** The staff filter keeps exactly the trainers and managers, in their order. */
  lemma StaffUsersExact(users: seq<BackendUser>)
    ensures forall u :: u in StaffUsers(users) <==> u in users && IsStaffUser(u)
    ensures Lists.IsSubsequence(StaffUsers(users), users)
  {
    forall u ensures u in StaffUsers(users) <==> u in users && IsStaffUser(u) {
      Lists.FilterMembership(users, IsStaffUser, u);
    }
    Lists.FilterIsSubsequence(users, IsStaffUser);
  }

  /** The staff list never shows an owner, although the mapper can produce one. */
  lemma NoOwnerInStaffList(response: ApiClient.ListResponse<BackendUser>)
    ensures forall m :: m in FetchStaff(response) ==> m.role != "owner"
  {
  }

  /** Mapping a gym owner gives a role outside the declared `StaffRole` union. */
  lemma OwnerOutsideDeclaredRoles(u: BackendUser)
    requires u.role == "gym_owner"
    ensures MapBackendUserToStaff(u).role !in Domain.StaffRoles
  {
  }

  /** `fetchStaffMemberFromApi`: the GET result mapped, undefined when the call throws. */
  function FetchStaffMember(response: Option<BackendUser>): (m: Option<ApiStaffMember>)
    ensures m.Some? <==> response.Some?
    ensures m.Some? ==> m.value == MapBackendUserToStaff(response.value)
  {
    if response.Some? then Some(MapBackendUserToStaff(response.value)) else None
  }

  /** The create form's values as the service reads them; `password` and `bio` are read
      although the declared input type has neither. */
  datatype CreateStaffInput = CreateStaffInput(
    firstName: string,
    lastName: string,
    email: string,
    phone: Option<string>,
    role: string,
    specializations: seq<string>,
    permissions: seq<string>,
    password: Option<string>,
    bio: Option<string>)

  /** The body `createStaffMemberApi` posts. Phone, specializations and permissions
      are not sent. */
  function CreatePayload(data: CreateStaffInput): (body: Json)
    ensures body.JObj?
    ensures body.fields.Keys == {"email", "password", "role", "nickname", "bio", "profile_image"}
    ensures body.fields["email"] == JStr(data.email)
    ensures body.fields["password"] == JStr(if Filled(data.password) then data.password.value else DefaultPassword)
    ensures body.fields["role"] == JStr(if data.role == "manager" then "gym_manager" else "trainer")
    ensures body.fields["nickname"] == JStr(JoinedNickname(data.firstName, data.lastName))
    ensures body.fields["bio"] == JStr(OrStr(data.bio, ""))
    ensures body.fields["profile_image"] == JNull
  {
    JObj(map[
      "email" := JStr(data.email),
      "password" := JStr(OrStr(data.password, DefaultPassword)),
      "role" := JStr(if data.role == "manager" then "gym_manager" else "trainer"),
      "nickname" := JStr(JoinedNickname(data.firstName, data.lastName)),
      "bio" := JStr(OrStr(data.bio, "")),
      "profile_image" := JNull])
  }

  function CreateRequest(data: CreateStaffInput): ApiClient.Request {
    ApiClient.Request(ApiClient.Post, CreateStaffEndpoint, Some(CreatePayload(data)))
  }

  /** The role a created member reads back with: only `manager` survives; every other
      declared role comes back as `trainer`. */
  lemma {:induction false} CreatedRoleReadsBack(data: CreateStaffInput)
    ensures MapRole(CreatePayload(data).fields["role"].s) == if data.role == "manager" then "manager" else "trainer"
  {
    var body := CreatePayload(data);
    assert body.fields["role"] == JStr(if data.role == "manager" then "gym_manager" else "trainer");
  }

  /** The optional fields an update reads. */
  datatype UpdateStaffInput = UpdateStaffInput(
    firstName: Option<string>,
    lastName: Option<string>,
    bio: Option<string>,
    status: Option<string>)

  /** The body `updateStaffMemberApi` patches. */
  function UpdatePayload(data: UpdateStaffInput): (body: Json)
    ensures body.JObj? && body.fields.Keys <= {"profile"}
    ensures "profile" in body.fields <==> Filled(data.firstName) || Filled(data.lastName) || Filled(data.bio)
    ensures "profile" in body.fields ==>
              var profile := body.fields["profile"];
              profile.JObj? && profile.fields.Keys <= {"nickname", "bio"}
              && ("nickname" in profile.fields <==>
                    (Filled(data.firstName) || Filled(data.lastName))
                    && JoinedNickname(OrStr(data.firstName, ""), OrStr(data.lastName, "")) != "")
              && ("nickname" in profile.fields ==>
                    profile.fields["nickname"] == JStr(JoinedNickname(OrStr(data.firstName, ""), OrStr(data.lastName, ""))))
              && ("bio" in profile.fields <==> Filled(data.bio))
              && ("bio" in profile.fields ==> profile.fields["bio"] == JStr(data.bio.value))
  {
    var nickname := JoinedNickname(OrStr(data.firstName, ""), OrStr(data.lastName, ""));
    var named: map<string, Json> :=
      if (Filled(data.firstName) || Filled(data.lastName)) && nickname != "" then map["nickname" := JStr(nickname)]
      else map[];
    var profile := if Filled(data.bio) then named["bio" := JStr(data.bio.value)] else named;
    if Filled(data.firstName) || Filled(data.lastName) || Filled(data.bio) then JObj(map["profile" := JObj(profile)])
    else JObj(map[])
  }

  /** A status change is never sent, so an update that only changes the status sends
      an empty body. */
  lemma StatusNeverSent(status: Option<string>)
    ensures UpdatePayload(UpdateStaffInput(None, None, None, status)) == JObj(map[])
  {
  }

  /** A blank name given alone still creates an empty profile object. */
  lemma BlankNameSendsEmptyProfile()
    ensures UpdatePayload(UpdateStaffInput(Some(" "), None, None, None)) == JObj(map["profile" := JObj(map[])])
  {
    assert Text.IsSpace(' ');
    assert Text.AllSpace("  ");
  }

  /** `deleteStaffMemberApi`: true when the DELETE succeeds, false when it throws. */
  function DeleteRequest(id: string): ApiClient.Request {
    ApiClient.Request(ApiClient.Delete, ProfilesEndpoint + id + "/", None)
  }
}
