/** The in-memory staff table of `src/lib/mock-data/staff.ts`: a module-level array
    that create pushes onto, update overwrites at the first matching index and delete
    splices. Ids are derived from the current length. */
module MockStaff {
  import opened Wrappers
  import opened Domain
  import Text
  import Lists

  /** `String(members.length + 1)`, the id a new member receives. */
  function NextId(members: seq<StaffMember>): (id: string)
    ensures id == Text.NatToString(|members| + 1)
    ensures Text.ParseInt(id) == Text.Int(|members| + 1)
  {
    Text.ParseIntOfIntToString(|members| + 1);
    Text.NatToString(|members| + 1)
  }

  function HasId(id: string): StaffMember -> bool {
    (m: StaffMember) => m.id == id
  }

  /** `Partial<StaffMember>`: the fields an update overwrites. */
  datatype StaffPatch = StaffPatch(
    id: Option<string>,
    firstName: Option<string>,
    lastName: Option<string>,
    email: Option<string>,
    phone: Option<Option<string>>,
    role: Option<string>,
    status: Option<string>,
    avatar: Option<Option<string>>,
    specializations: Option<seq<string>>,
    hireDate: Option<string>,
    permissions: Option<seq<string>>)

  /** `{ ...m, ...patch }`: a field the patch defines replaces the member's. */
  function Merge(m: StaffMember, p: StaffPatch): (r: StaffMember)
    ensures p.id.None? ==> r.id == m.id
    ensures p.id.Some? ==> r.id == p.id.value
    ensures r.firstName == p.firstName.GetOr(m.firstName) && r.lastName == p.lastName.GetOr(m.lastName)
    ensures r.email == p.email.GetOr(m.email) && r.phone == p.phone.GetOr(m.phone)
    ensures r.role == p.role.GetOr(m.role) && r.status == p.status.GetOr(m.status)
    ensures r.avatar == p.avatar.GetOr(m.avatar) && r.specializations == p.specializations.GetOr(m.specializations)
    ensures r.hireDate == p.hireDate.GetOr(m.hireDate) && r.permissions == p.permissions.GetOr(m.permissions)
  {
    StaffMember(p.id.GetOr(m.id), p.firstName.GetOr(m.firstName), p.lastName.GetOr(m.lastName),
                p.email.GetOr(m.email), p.phone.GetOr(m.phone), p.role.GetOr(m.role), p.status.GetOr(m.status),
                p.avatar.GetOr(m.avatar), p.specializations.GetOr(m.specializations),
                p.hireDate.GetOr(m.hireDate), p.permissions.GetOr(m.permissions))
  }

  /** An empty patch changes nothing. */
  lemma MergeEmpty(m: StaffMember)
    ensures Merge(m, StaffPatch(None, None, None, None, None, None, None, None, None, None, None)) == m
  {
  }

  /** The table after `createStaffMember(data)` on day `hireDate`, and the new member:
      the submitted fields with the length-derived id and the given hire date. */
  function Created(members: seq<StaffMember>, data: StaffMember, hireDate: string): (r: (seq<StaffMember>, StaffMember))
    ensures |r.0| == |members| + 1 && r.0[..|members|] == members && r.0[|members|] == r.1
    ensures r.1 == data.(id := NextId(members), hireDate := hireDate)
  {
    var m := data.(id := NextId(members), hireDate := hireDate);
    (members + [m], m)
  }

  /** The table after `updateStaffMember(id, patch)` and what it returns. */
  function Updated(members: seq<StaffMember>, id: string, patch: StaffPatch): (r: (seq<StaffMember>, Option<StaffMember>))
    ensures |r.0| == |members|
    ensures r.1.None? <==> forall i :: 0 <= i < |members| ==> members[i].id != id
    ensures r.1.None? ==> r.0 == members
    ensures r.1.Some? ==> exists k :: 0 <= k < |members| && members[k].id == id
                            && (forall j :: 0 <= j < k ==> members[j].id != id)
                            && r.1.value == Merge(members[k], patch) && r.0 == members[k := r.1.value]
  {
    match Lists.FindIndex(members, HasId(id))
    case None => (members, None)
    case Some(k) => var merged := Merge(members[k], patch); (members[k := merged], Some(merged))
  }

  /** The table after `deleteStaffMember(id)` and what it returns. */
  function Deleted(members: seq<StaffMember>, id: string): (r: (seq<StaffMember>, bool))
    ensures r.1 <==> exists i :: 0 <= i < |members| && members[i].id == id
    ensures !r.1 ==> r.0 == members
    ensures r.1 ==> |r.0| == |members| - 1
                    && exists k :: 0 <= k < |members| && members[k].id == id
                         && (forall j :: 0 <= j < k ==> members[j].id != id)
                         && r.0 == members[..k] + members[k + 1..]
  {
    match Lists.FindIndex(members, HasId(id))
    case None => (members, false)
    case Some(k) => (members[..k] + members[k + 1..], true)
  }

  /** Deleting removes only the first member with the id: a later duplicate stays. */
  lemma {:induction false} DeleteKeepsLaterDuplicates(members: seq<StaffMember>, id: string, i: nat, j: nat)
    requires i < j < |members| && members[i].id == id && members[j].id == id
    ensures var (after, _) := Deleted(members, id); exists m :: m in after && m.id == id
  {
    var (after, found) := Deleted(members, id);
    var k :| 0 <= k < |members| && members[k].id == id && (forall q :: 0 <= q < k ==> members[q].id != id)
             && after == members[..k] + members[k + 1..];
    assert k <= i;
    assert after[j - 1] == members[j];
  }

  /** Ids come from the length, not from the ids in use: deleting the first of two
      members and creating a new one gives two members with id "2". */
  lemma {:induction false} CreateAfterDeleteDuplicatesId(a: StaffMember, b: StaffMember, data: StaffMember, hireDate: string)
    requires a.id == "1" && b.id == "2"
    ensures var (afterDelete, _) := Deleted([a, b], "1");
            var (afterCreate, created) := Created(afterDelete, data, hireDate);
            |afterCreate| == 2 && afterCreate[0].id == "2" && created.id == "2" && afterCreate[1] == created
  {
    var (afterDelete, found) := Deleted([a, b], "1");
    assert Lists.FindIndex([a, b], HasId("1")) == Some(0);
    assert afterDelete == [b];
    assert Text.NatToString(2) == "2";
  }

  /** The mock staff store as a stateful object. */
  class StaffTable {
    var members: seq<StaffMember>

    constructor(initial: seq<StaffMember>)
      ensures members == initial
    {
      members := initial;
    }

    /** `fetchStaffMembers`. */
    method FetchAll() returns (r: seq<StaffMember>)
      ensures r == members
    {
      r := members;
    }

    /** `fetchStaffMember`: the first member with the id. */
    method Fetch(id: string) returns (r: Option<StaffMember>)
      ensures r.Some? <==> exists i :: 0 <= i < |members| && members[i].id == id
      ensures r.Some? ==> exists k :: 0 <= k < |members| && members[k] == r.value && r.value.id == id
                            && forall j :: 0 <= j < k ==> members[j].id != id
    {
      Lists.FindAtFindIndex(members, HasId(id));
      r := Lists.Find(members, HasId(id));
    }

    /** `createStaffMember`. */
    method Create(data: StaffMember, hireDate: string) returns (m: StaffMember)
      modifies this
      ensures (members, m) == Created(old(members), data, hireDate)
    {
      m := data.(id := NextId(members), hireDate := hireDate);
      members := members + [m];
    }

    /** `updateStaffMember`. */
    method Update(id: string, patch: StaffPatch) returns (r: Option<StaffMember>)
      modifies this
      ensures (members, r) == Updated(old(members), id, patch)
    {
      var index := Lists.FindIndex(members, HasId(id));
      if index.Some? {
        members := members[index.value := Merge(members[index.value], patch)];
        r := Some(members[index.value]);
      } else {
        r := None;
      }
    }

    /** `deleteStaffMember`. */
    method Delete(id: string) returns (deleted: bool)
      modifies this
      ensures (members, deleted) == Deleted(old(members), id)
    {
      var index := Lists.FindIndex(members, HasId(id));
      if index.Some? {
        members := members[..index.value] + members[index.value + 1..];
        deleted := true;
      } else {
        deleted := false;
      }
    }
  }
}
