/**
 * Groups of users: a group has a non-empty name, unique among all groups, and
 * its members are the users its group-member rows point at.
 */
module Groups {
  import opened Wrappers
  import Text

  datatype Group = Group(id: nat, name: string)

  /** A group-member row: user `userId` belongs to group `groupId`. */
  datatype GroupMember = GroupMember(groupId: nat, userId: nat)

  datatype ValidationError = NameBlank | NameTaken

  /** The validation errors of a group named `name` next to the `existing` groups. */
  function NameErrors(name: string, existing: seq<Group>): (r: set<ValidationError>)
    ensures NameBlank in r <==> Text.Blank(name)
    ensures NameTaken in r <==> exists g | g in existing :: g.name == name
  {
    (if Text.Blank(name) then {NameBlank} else {}) +
    (if exists g | g in existing :: g.name == name then {NameTaken} else {})
  }

  /** `valid?`: a non-blank name that no existing group already has. */
  predicate IsValidName(name: string, existing: seq<Group>)
    ensures IsValidName(name, existing) <==> !Text.Blank(name) && forall g | g in existing :: g.name != name
  {
    NameErrors(name, existing) == {}
  }

  /** `Group.find(id)`: the group with that id, None when there is none. */
  function Find(groups: seq<Group>, id: nat): (r: Option<Group>)
    ensures r.Some? ==> r.value in groups && r.value.id == id
    ensures r.None? <==> forall g | g in groups :: g.id != id
  {
    if groups == [] then None
    else if groups[0].id == id then Some(groups[0])
    else
      assert groups == [groups[0]] + groups[1..];
      Find(groups[1..], id)
  }

  /** `group.members`: the users referenced by the group's group-member rows. */
  function MembersOf(memberships: seq<GroupMember>, groupId: nat): (r: set<nat>)
    ensures forall u :: u in r <==> GroupMember(groupId, u) in memberships
  {
    set m | m in memberships && m.groupId == groupId :: m.userId
  }

  /** The members of all the groups `groupIds` together. */
  function MembersOfAll(memberships: seq<GroupMember>, groupIds: set<nat>): (r: set<nat>)
    ensures forall u :: u in r <==> exists g | g in groupIds :: u in MembersOf(memberships, g)
  {
    var r := set m | m in memberships && m.groupId in groupIds :: m.userId;
    assert forall u | u in r :: exists g | g in groupIds :: u in MembersOf(memberships, g) by {
      forall u | u in r ensures exists g | g in groupIds :: u in MembersOf(memberships, g) {
        var m :| m in memberships && m.groupId in groupIds && m.userId == u;
        assert m == GroupMember(m.groupId, u);
        assert u in MembersOf(memberships, m.groupId);
      }
    }
    r
  }

  class GroupStore {
    /** The groups table; a group's id is its position. */
    var groups: seq<Group>
    /** The group_members table. */
    var memberships: seq<GroupMember>

    ghost predicate Valid()
      reads this
    {
      && (forall i | 0 <= i < |groups| :: groups[i].id == i && !Text.Blank(groups[i].name))
      && (forall i, j | 0 <= i < j < |groups| :: groups[i].name != groups[j].name)
    }

    constructor ()
      ensures Valid() && groups == [] && memberships == []
    {
      groups := [];
      memberships := [];
    }

    /**
     * `Group.create(name: name)`: a valid group is appended and its id returned;
     * an invalid one is rejected with its errors and nothing is stored.
     */
    method Create(name: string) returns (r: Result<nat, set<ValidationError>>)
      requires Valid()
      modifies this
      ensures Valid()
      ensures memberships == old(memberships)
      ensures r.Ok? <==> IsValidName(name, old(groups))
      ensures r.Ok? ==> r.value == |old(groups)| && groups == old(groups) + [Group(r.value, name)]
      ensures r.Err? ==> r.error == NameErrors(name, old(groups)) && groups == old(groups)
    {
      var errors := NameErrors(name, groups);
      if errors != {} {
        return Err(errors);
      }
      var id := |groups|;
      ghost var before := groups;
      groups := groups + [Group(id, name)];
      assert forall i | 0 <= i < id :: groups[i] == before[i] && groups[i].name != name by {
        forall i | 0 <= i < id ensures groups[i] == before[i] && groups[i].name != name {
          assert before[i] in before;
        }
      }
      r := Ok(id);
    }

    /** `create(:group_member, group: g, user: u)`: user `userId` joins group `groupId`. */
    method AddMember(groupId: nat, userId: nat)
      requires Valid() && Find(groups, groupId).Some?
      modifies this
      ensures Valid()
      ensures groups == old(groups)
      ensures memberships == old(memberships) + [GroupMember(groupId, userId)]
      ensures MembersOf(memberships, groupId) == old(MembersOf(memberships, groupId)) + {userId}
      ensures forall g | g != groupId :: MembersOf(memberships, g) == old(MembersOf(memberships, g))
    {
      memberships := memberships + [GroupMember(groupId, userId)];
    }
  }
}
