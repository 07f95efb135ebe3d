/** The staff page of `src/app/dashboard/staff/page.tsx`: the search, role and status
    filters over the loaded staff, and the counts on the stat cards. */
module StaffPage {
  import opened Wrappers
  import Seqs = Lists
  import NameSearch
  import StaffApi

  /** The select value that lets every role or status through. */
  const AllFilter: string := "all"

  /** Whether a member is shown for the query, the role filter and the status filter. */
  predicate Shown(m: StaffApi.ApiStaffMember, query: string, roleFilter: string, statusFilter: string) {
    NameSearch.Matches(query, m.firstName, m.lastName, m.email)
    && (roleFilter == AllFilter || m.role == roleFilter)
    && (statusFilter == AllFilter || m.status == statusFilter)
  }

  function ShownBy(query: string, roleFilter: string, statusFilter: string): StaffApi.ApiStaffMember -> bool {
    (m: StaffApi.ApiStaffMember) => Shown(m, query, roleFilter, statusFilter)
  }

  /** `filteredStaff || []`, the members handed to the grid. */
  function FilteredStaff(staff: Option<seq<StaffApi.ApiStaffMember>>, query: string, roleFilter: string, statusFilter: string): seq<StaffApi.ApiStaffMember> {
    if staff.Some? then Seqs.Filter(staff.value, ShownBy(query, roleFilter, statusFilter)) else []
  }

  /** The grid shows exactly the members passing all three filters, in the loaded order;
      with an empty query and both filters on `all` it shows everyone. */
  lemma FilteredStaffSpec(staff: seq<StaffApi.ApiStaffMember>, query: string, roleFilter: string, statusFilter: string)
    ensures Seqs.IsSubsequence(FilteredStaff(Some(staff), query, roleFilter, statusFilter), staff)
    ensures forall m :: m in FilteredStaff(Some(staff), query, roleFilter, statusFilter) <==>
                          m in staff && Shown(m, query, roleFilter, statusFilter)
    ensures query == "" && roleFilter == AllFilter && statusFilter == AllFilter
            ==> FilteredStaff(Some(staff), query, roleFilter, statusFilter) == staff
  {
    Seqs.FilterSpec(staff, ShownBy(query, roleFilter, statusFilter));
    if query == "" && roleFilter == AllFilter && statusFilter == AllFilter {
      Seqs.FilterAll(staff, ShownBy(query, roleFilter, statusFilter));
    }
  }

  /** Choosing a role never shows a member the `all` role option hides. */
  lemma {:induction false} RoleFilterNarrows(staff: seq<StaffApi.ApiStaffMember>, query: string, role: string, statusFilter: string)
    ensures Seqs.IsSubsequence(FilteredStaff(Some(staff), query, role, statusFilter),
                               FilteredStaff(Some(staff), query, AllFilter, statusFilter))
  {
    var wide := ShownBy(query, AllFilter, statusFilter);
    var narrow := ShownBy(query, role, statusFilter);
    Seqs.FilterFilter(staff, wide, narrow, narrow);
    Seqs.FilterIsSubsequence(Seqs.Filter(staff, wide), narrow);
  }

  function HasStatus(status: string): StaffApi.ApiStaffMember -> bool {
    (m: StaffApi.ApiStaffMember) => m.status == status
  }

  function HasRole(role: string): StaffApi.ApiStaffMember -> bool {
    (m: StaffApi.ApiStaffMember) => m.role == role
  }

  /** `staff?.length || 0`. */
  function TotalCount(staff: Option<seq<StaffApi.ApiStaffMember>>): nat {
    if staff.Some? then |staff.value| else 0
  }

  /** `staff?.filter(p).length || 0`. */
  function CountWhere(staff: Option<seq<StaffApi.ApiStaffMember>>, p: StaffApi.ApiStaffMember -> bool): nat {
    if staff.Some? then Seqs.Count(staff.value, p) else 0
  }

  /** The active and on-leave cards together never exceed the total, nor does the
      trainer card. */
  lemma CountsWithinTotal(staff: Option<seq<StaffApi.ApiStaffMember>>)
    ensures CountWhere(staff, HasStatus("active")) + CountWhere(staff, HasStatus("on-leave")) <= TotalCount(staff)
    ensures CountWhere(staff, HasRole("trainer")) <= TotalCount(staff)
  {
    if staff.Some? {
      var either := (m: StaffApi.ApiStaffMember) => m.status == "active" || m.status == "on-leave";
      Seqs.CountDisjointUnion(staff.value, HasStatus("active"), HasStatus("on-leave"), either);
      assert Seqs.Count(staff.value, either) <= |staff.value|;
    }
  }
}
