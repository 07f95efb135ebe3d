/** The client service of `src/lib/api/clients-api.ts`: backend users and passes as
    frontend clients and passes, the client list filter, the pass assignment body and
    the membership shown for a client with passes. */
module ClientsApi {
  import opened Wrappers
  import opened Json
  import opened BackendUsers
  import opened Domain
  import ApiClient
  import Lists

  const NoActivePlan: string := "No Active Plan"
  const UnknownPlan: string := "Unknown Plan"
  const PassesEndpoint: string := "/scheduling/client-passes/"

  /** A pass as the backend returns it. */
  datatype BackendClientPass = BackendClientPass(
    id: string,
    client: string,
    clientName: string,
    clientEmail: string,
    pricingOption: string,
    pricingOptionName: Option<string>,
    creditsRemaining: int,
    startDate: string,
    expiryDate: string,
    isActive: bool,
    createdAt: string)

  datatype ClientPass = ClientPass(
    id: string,
    pricingOptionId: string,
    pricingOptionName: string,
    sessionsRemaining: int,
    expiresAt: string,
    isActive: bool)

  /** `mapBackendUserToClient(user, { membershipName })`. */
  function MapBackendUserToClient(u: BackendUser, membershipName: Option<string>): (c: Client)
    ensures (c.firstName, c.lastName) == SplitName(Nickname(u))
    ensures c.id == u.id && c.email == u.email
    ensures c.status == "active"
    ensures c.membershipName.Some? && c.membershipName.value != ""
    ensures Filled(membershipName) ==> c.membershipName == membershipName
    ensures !Filled(membershipName) ==> c.membershipName == Some(NoActivePlan)
    ensures c.joinDate == u.dateJoined && c.lastVisit == Some(u.dateJoined)
    ensures c.membershipId.None? && c.assignedStaffId.None? && c.assignedStaffName.None?
    ensures c.phone.Some? && (u.profile.None? ==> c.phone == Some("") && c.avatar.None?)
    ensures u.profile.Some? ==> c.phone == Some(OrStr(u.profile.value.phoneNumber, ""))
                                && (c.avatar.Some? <==> Filled(u.profile.value.profileImage))
                                && (c.avatar.Some? ==> c.avatar == u.profile.value.profileImage)
  {
    var (first, last) := SplitName(Nickname(u));
    var phone := if u.profile.Some? then OrStr(u.profile.value.phoneNumber, "") else "";
    var avatar := if u.profile.Some? && Filled(u.profile.value.profileImage) then u.profile.value.profileImage else None;
    Client(u.id, first, last, u.email, Some(phone), avatar, None, Some(OrStr(membershipName, NoActivePlan)),
           None, None, "active", u.dateJoined, Some(u.dateJoined))
  }

  /** `mapBackendPassToClientPass`. */
  function MapBackendPass(p: BackendClientPass): (c: ClientPass)
    ensures c.id == p.id && c.pricingOptionId == p.pricingOption && c.isActive == p.isActive
    ensures c.sessionsRemaining == p.creditsRemaining && c.expiresAt == p.expiryDate
    ensures c.pricingOptionName != ""
    ensures Filled(p.pricingOptionName) ==> c.pricingOptionName == p.pricingOptionName.value
    ensures !Filled(p.pricingOptionName) ==> c.pricingOptionName == UnknownPlan
  {
    ClientPass(p.id, p.pricingOption, OrStr(p.pricingOptionName, UnknownPlan), p.creditsRemaining, p.expiryDate, p.isActive)
  }

  predicate IsClientUser(u: BackendUser) {
    u.role == "client"
  }

  /** `fetchClientsFromApi`: the users whose role is `client`, mapped with no extras. */
  function FetchClients(response: ApiClient.ListResponse<BackendUser>): (clients: seq<Client>)
    ensures |clients| == |Lists.Filter(ApiClient.Results(response), IsClientUser)|
    ensures forall i :: 0 <= i < |clients| ==>
              clients[i] == MapBackendUserToClient(Lists.Filter(ApiClient.Results(response), IsClientUser)[i], None)
    ensures forall i :: 0 <= i < |clients| ==> clients[i].membershipName == Some(NoActivePlan)
  {
    Lists.Map(Lists.Filter(ApiClient.Results(response), IsClientUser), u => MapBackendUserToClient(u, None))
  }

  /** The client filter keeps exactly the users with role `client`, in their order. */
  lemma ClientUsersExact(users: seq<BackendUser>)
    ensures forall u :: u in Lists.Filter(users, IsClientUser) <==> u in users && u.role == "client"
    ensures Lists.IsSubsequence(Lists.Filter(users, IsClientUser), users)
  {
    forall u ensures u in Lists.Filter(users, IsClientUser) <==> u in users && u.role == "client" {
      Lists.FilterMembership(users, IsClientUser, u);
    }
    Lists.FilterIsSubsequence(users, IsClientUser);
  }

  /** `fetchClientPassesFromApi`. */
  function FetchClientPasses(response: ApiClient.ListResponse<BackendClientPass>): (passes: seq<ClientPass>)
    ensures |passes| == |ApiClient.Results(response)|
    ensures forall i :: 0 <= i < |passes| ==> passes[i] == MapBackendPass(ApiClient.Results(response)[i])
  {
    Lists.Map(ApiClient.Results(response), MapBackendPass)
  }

  function PassesRequest(clientId: string): ApiClient.Request {
    ApiClient.Request(ApiClient.Get, PassesEndpoint + "?client=" + clientId, None)
  }

  /** The body `assignPassToClientApi` posts. */
  function AssignPayload(clientId: string, pricingOptionId: string): (body: Json)
    ensures body.JObj? && body.fields.Keys == {"client", "pricing_option"}
    ensures body.fields["client"] == JStr(clientId) && body.fields["pricing_option"] == JStr(pricingOptionId)
  {
    JObj(map["client" := JStr(clientId), "pricing_option" := JStr(pricingOptionId)])
  }

  function AssignRequest(clientId: string, pricingOptionId: string): ApiClient.Request {
    ApiClient.Request(ApiClient.Post, PassesEndpoint, Some(AssignPayload(clientId, pricingOptionId)))
  }

  /** The membership label a client with passes gets: the name of the first active pass. */
  function FirstActivePassName(passes: seq<ClientPass>): (name: Option<string>)
    ensures name.Some? <==> exists i :: 0 <= i < |passes| && passes[i].isActive
    ensures name.Some? ==> exists i :: 0 <= i < |passes| && passes[i].isActive && name.value == passes[i].pricingOptionName
                             && forall j :: 0 <= j < i ==> !passes[j].isActive
  {
    var active := Lists.FindIndex(passes, (p: ClientPass) => p.isActive);
    if active.Some? then Some(passes[active.value].pricingOptionName) else None
  }

  /** `fetchClientWithPassesFromApi`. Both calls are given by their outcomes (None when
      one throws); a failed call makes the whole result null. */
  function FetchClientWithPasses(user: Option<BackendUser>, passes: Option<ApiClient.ListResponse<BackendClientPass>>)
    : (r: Option<(Client, seq<ClientPass>)>)
    ensures r.Some? <==> user.Some? && passes.Some?
    ensures r.Some? ==> r.value.1 == FetchClientPasses(passes.value)
    ensures r.Some? ==> r.value.0 == MapBackendUserToClient(user.value, FirstActivePassName(FetchClientPasses(passes.value)))
  {
    if user.Some? && passes.Some? then
      var all := FetchClientPasses(passes.value);
      Some((MapBackendUserToClient(user.value, FirstActivePassName(all)), all))
    else None
  }

  /** With an active pass, the client's membership is the plan name of the first active
      pass; without one it is "No Active Plan". */
  lemma {:induction false} MembershipFromPasses(u: BackendUser, response: ApiClient.ListResponse<BackendClientPass>)
    ensures var (client, passes) := FetchClientWithPasses(Some(u), Some(response)).value;
            (forall i :: 0 <= i < |passes| ==> !passes[i].isActive) ==> client.membershipName == Some(NoActivePlan)
    ensures var (client, passes) := FetchClientWithPasses(Some(u), Some(response)).value;
            forall i :: 0 <= i < |passes| && passes[i].isActive && (forall j :: 0 <= j < i ==> !passes[j].isActive)
              ==> client.membershipName == Some(passes[i].pricingOptionName)
  {
    var passes := FetchClientPasses(response);
    var name := FirstActivePassName(passes);
    forall i | 0 <= i < |passes| && passes[i].isActive && (forall j :: 0 <= j < i ==> !passes[j].isActive)
      ensures name == Some(passes[i].pricingOptionName)
    {
      var k :| 0 <= k < |passes| && passes[k].isActive && name.value == passes[k].pricingOptionName
               && forall j :: 0 <= j < k ==> !passes[j].isActive;
      assert k == i;
    }
  }
}
