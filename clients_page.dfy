/** The clients page of `src/app/dashboard/clients/page.tsx`: the search and status
    filter, the counts on the stat cards, and the row selection with its bulk assign. */
module ClientsPage {
  import opened Wrappers
  import opened Json
  import opened Domain
  import Text
  import Seqs = Lists
  import NameSearch
  import StaffApi

  /** The status tab that shows every client. */
  const AllTab: string := "all"

  /** Whether a client is a row of the table for the search query and the status tab. */
  predicate Shown(c: Client, query: string, statusTab: string) {
    NameSearch.Matches(query, c.firstName, c.lastName, c.email) && (statusTab == AllTab || c.status == statusTab)
  }

  function ShownBy(query: string, statusTab: string): Client -> bool {
    (c: Client) => Shown(c, query, statusTab)
  }

  /** `filteredClients`: undefined until the clients have loaded. */
  function FilteredClients(clients: Option<seq<Client>>, query: string, statusTab: string): (shown: Option<seq<Client>>)
    ensures shown.Some? <==> clients.Some?
  {
    if clients.Some? then Some(Seqs.Filter(clients.value, ShownBy(query, statusTab))) else None
  }

  /** The table shows exactly the clients that match the query and the tab, in the
      loaded order, and everyone with an empty query on the all tab. */
  lemma FilteredClientsSpec(clients: seq<Client>, query: string, statusTab: string)
    ensures Seqs.IsSubsequence(FilteredClients(Some(clients), query, statusTab).value, clients)
    ensures forall c :: c in FilteredClients(Some(clients), query, statusTab).value <==>
                          c in clients && Shown(c, query, statusTab)
    ensures query == "" && statusTab == AllTab ==> FilteredClients(Some(clients), query, statusTab).value == clients
  {
    Seqs.FilterSpec(clients, ShownBy(query, statusTab));
    if query == "" && statusTab == AllTab {
      Seqs.FilterAll(clients, ShownBy(query, statusTab));
    }
  }

  function HasStatus(status: string): Client -> bool {
    (c: Client) => c.status == status
  }

  /** `c.assignedStaffId` is truthy. */
  function IsAssigned(): Client -> bool {
    (c: Client) => Filled(c.assignedStaffId)
  }

  /** `clients?.length || 0`. */
  function TotalCount(clients: Option<seq<Client>>): nat {
    if clients.Some? then |clients.value| else 0
  }

  /** `clients?.filter(p).length || 0`. */
  function CountWhere(clients: Option<seq<Client>>, p: Client -> bool): nat {
    if clients.Some? then Seqs.Count(clients.value, p) else 0
  }

  /** The numbers of active, pending and inactive clients never add up to more than the
      total card, and the assigned card never exceeds it either. */
  lemma CountsWithinTotal(clients: Option<seq<Client>>)
    ensures CountWhere(clients, HasStatus("active")) + CountWhere(clients, HasStatus("pending"))
            + CountWhere(clients, HasStatus("inactive")) <= TotalCount(clients)
    ensures CountWhere(clients, IsAssigned()) <= TotalCount(clients)
  {
    if clients.Some? {
      var s := clients.value;
      var activeOrPending := (c: Client) => c.status == "active" || c.status == "pending";
      var any := (c: Client) => activeOrPending(c) || c.status == "inactive";
      Seqs.CountDisjointUnion(s, HasStatus("active"), HasStatus("pending"), activeOrPending);
      Seqs.CountDisjointUnion(s, activeOrPending, HasStatus("inactive"), any);
      assert Seqs.Count(s, any) <= |s|;
    }
  }

  /** `filteredClients?.map((c) => c.id) || []`. */
  function ShownIds(shown: Option<seq<Client>>): (ids: seq<string>)
    ensures shown.None? ==> ids == []
    ensures shown.Some? ==> |ids| == |shown.value| && forall i :: 0 <= i < |ids| ==> ids[i] == shown.value[i].id
  {
    if shown.Some? then Seqs.Map(shown.value, (c: Client) => c.id) else []
  }

  /** The header checkbox: checked when as many ids are selected as rows are shown, and
      at least one row is. */
  predicate HeaderChecked(selected: seq<string>, shown: Option<seq<Client>>) {
    shown.Some? && |selected| == |shown.value| && |shown.value| > 0
  }

  /** Right after selecting all, the header is checked exactly when some row is shown. */
  lemma SelectAllChecksHeader(shown: Option<seq<Client>>)
    ensures HeaderChecked(ShownIds(shown), shown) <==> shown.Some? && |shown.value| > 0
  {
  }

  /** The header compares lengths only: after the filter changes it can be checked while
      a shown row is not selected. */
  lemma {:induction false} HeaderCheckedWithUnselectedRow(c: Client, otherId: string)
    requires c.id != otherId
    ensures HeaderChecked([otherId], Some([c])) && c.id !in [otherId]
  {
  }

  /** The toast text after an assignment. */
  function AssignedMessage(count: nat, m: StaffApi.ApiStaffMember): string {
    Text.NatToString(count) + " client(s) assigned to " + m.firstName + " " + m.lastName
  }

  function HasId(id: string): StaffApi.ApiStaffMember -> bool {
    (m: StaffApi.ApiStaffMember) => m.id == id
  }

  /** The selected client ids as page state. */
  class Selection {
    var selected: seq<string>

    constructor()
      ensures selected == []
    {
      selected := [];
    }

    /** `toggleClientSelection`. */
    method Toggle(id: string)
      modifies this
      ensures selected == Seqs.Toggle(old(selected), id)
    {
      if id in selected {
        selected := Seqs.Filter(selected, Seqs.Without(id));
      } else {
        selected := selected + [id];
      }
    }

    /** The header checkbox's `onChange`. */
    method SetAll(checked: bool, shown: Option<seq<Client>>)
      modifies this
      ensures selected == if checked then ShownIds(shown) else []
    {
      if checked {
        selected := ShownIds(shown);
      } else {
        selected := [];
      }
    }

    /** The Clear button. */
    method Clear()
      modifies this
      ensures selected == []
    {
      selected := [];
    }

    /** `handleAssignStaff`: only when the member is found among the loaded staff and
        something is selected, a toast with the count and the member's name is shown and
        the selection is cleared; otherwise nothing happens. */
    method AssignStaff(staff: Option<seq<StaffApi.ApiStaffMember>>, staffId: string) returns (toast: Option<string>)
      modifies this
      ensures var found := if staff.Some? then Seqs.Find(staff.value, HasId(staffId)) else None;
              (toast.Some? <==> found.Some? && |old(selected)| > 0)
              && (toast.Some? ==> selected == [] && toast.value == AssignedMessage(|old(selected)|, found.value))
              && (toast.None? ==> selected == old(selected))
    {
      var found := if staff.Some? then Seqs.Find(staff.value, HasId(staffId)) else None;
      if found.Some? && |selected| > 0 {
        toast := Some(AssignedMessage(|selected|, found.value));
        selected := [];
      } else {
        toast := None;
      }
    }
  }

  /** Toggling a client in and out again leaves the same clients selected, and the same
      list when it was not selected before. */
  lemma ToggleBack(selected: seq<string>, id: string)
    ensures forall y :: y in Seqs.Toggle(Seqs.Toggle(selected, id), id) <==> y in selected
    ensures id !in selected ==> Seqs.Toggle(Seqs.Toggle(selected, id), id) == selected
  {
    Seqs.ToggleTwice(selected, id);
    if id !in selected {
      Seqs.ToggleAbsentTwice(selected, id);
    }
  }
}
