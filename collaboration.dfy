/**
 * Collaborators of a resource (a cookbook): only the resource's owner may add
 * collaborators, individually or by group, or hand the resource over to one of
 * them. Every collaborator added queues one "collaborator added" mail.
 * Authorization failures and unknown resources both surface as NotFound (the
 * controller answers 404 for both).
 */
module Collaboration {
  import opened Wrappers
  import Groups

  /** The kinds of resource a collaborator row may point at. */
  datatype ResourceKind = Cookbook

  /** Resolving the `resourceable_type` parameter; any other name is unknown. */
  function ParseKind(name: string): (r: Option<ResourceKind>)
    ensures r.Some? <==> name == "Cookbook"
  {
    if name == "Cookbook" then Some(Cookbook) else None
  }

  /** A polymorphic resource reference: `resourceable_type` and `resourceable_id`. */
  datatype ResourceRef = ResourceRef(kind: ResourceKind, id: nat)

  /** A Collaborator row. */
  datatype Collaborator = Collaborator(id: nat, userId: nat, resource: ResourceRef)

  /** A queued "collaborator added" mail: the row, its user, the resource and its owner. */
  datatype Notification = CollaboratorAdded(collaboratorId: nat, userId: nat, resource: ResourceRef, ownerId: nat)

  datatype Error = NotFound

  /** The `collaborator` parameters of `POST #create`. */
  datatype CreateParams = CreateParams(userIds: set<nat>, groupIds: set<nat>, resourceableType: string, resourceableId: nat)

  /** What an authorized creation will do: add `userIds` to `resource`, owned by `owner`. */
  datatype Plan = Plan(resource: ResourceRef, owner: nat, userIds: set<nat>)

  /** The users that already collaborate on `res`. */
  function CollaboratorIds(rows: seq<Collaborator>, res: ResourceRef): (r: set<nat>)
    ensures forall u :: u in r <==> exists k | 0 <= k < |rows| :: rows[k].resource == res && rows[k].userId == u
  {
    set k | 0 <= k < |rows| && rows[k].resource == res :: rows[k].userId
  }

  /** The users of some rows. */
  function UserIdsOf(rows: seq<Collaborator>): set<nat> {
    set k | 0 <= k < |rows| :: rows[k].userId
  }

  /** One "collaborator added" mail per row, in row order, each to that row's user. */
  function Notices(rows: seq<Collaborator>, owner: nat): (r: seq<Notification>)
    ensures |r| == |rows|
    ensures forall k | 0 <= k < |rows| ::
      r[k] == CollaboratorAdded(rows[k].id, rows[k].userId, rows[k].resource, owner)
  {
    if rows == [] then []
    else Notices(rows[..|rows| - 1], owner) + [Notice(rows[|rows| - 1], owner)]
  }

  function Notice(row: Collaborator, owner: nat): Notification {
    CollaboratorAdded(row.id, row.userId, row.resource, owner)
  }

  /** True iff the caller may act on `res` as its owner. */
  predicate OwnedBy(owners: map<ResourceRef, nat>, res: ResourceRef, caller: nat) {
    res in owners && owners[res] == caller
  }

  /** True iff `u` is named directly or is a member of one of the named groups. */
  predicate Requested(memberships: seq<Groups.GroupMember>, params: CreateParams, u: nat) {
    u in params.userIds || exists g | g in params.groupIds :: u in Groups.MembersOf(memberships, g)
  }

  /**
   * The decision of `POST #create`. The resource type must be known, the
   * resource must exist, the caller must own it and every group must exist;
   * otherwise NotFound. The users to add are the requested ones (named directly
   * or through group membership) that are registered, are not the owner and do
   * not collaborate on the resource yet.
   */
  function PlanCreate(users: set<nat>, owners: map<ResourceRef, nat>, rows: seq<Collaborator>,
                      groups: seq<Groups.Group>, memberships: seq<Groups.GroupMember>,
                      caller: nat, params: CreateParams): (r: Result<Plan, Error>)
    ensures ParseKind(params.resourceableType).None? ==> r == Err(NotFound)
    ensures ParseKind(params.resourceableType).Some? ==>
      (r.Ok? <==>
        && OwnedBy(owners, ResourceRef(ParseKind(params.resourceableType).value, params.resourceableId), caller)
        && forall g | g in params.groupIds :: Groups.Find(groups, g).Some?)
    ensures r.Err? ==> r.error == NotFound
    ensures r.Ok? ==>
      && r.value.resource == ResourceRef(Cookbook, params.resourceableId)
      && r.value.owner == caller
      && OwnedBy(owners, r.value.resource, caller)
    ensures r.Ok? ==> forall u :: u in r.value.userIds <==>
      && Requested(memberships, params, u)
      && u in users
      && u != caller
      && u !in CollaboratorIds(rows, r.value.resource)
  {
    match ParseKind(params.resourceableType)
    case None => Err(NotFound)
    case Some(kind) =>
      var res := ResourceRef(kind, params.resourceableId);
      if !OwnedBy(owners, res, caller) then Err(NotFound)
      else if !(forall g | g in params.groupIds :: Groups.Find(groups, g).Some?) then Err(NotFound)
      else
        var requested := params.userIds + Groups.MembersOfAll(memberships, params.groupIds);
        Ok(Plan(res, caller, (requested * users) - {caller} - CollaboratorIds(rows, res)))
  }

  /** The position of the row with id `id`, if any. */
  function FindRow(rows: seq<Collaborator>, id: nat): (r: Option<nat>)
    ensures r.Some? ==> r.value < |rows| && rows[r.value].id == id
    ensures r.None? <==> forall k | 0 <= k < |rows| :: rows[k].id != id
  {
    if rows == [] then None
    else if rows[|rows| - 1].id == id then Some(|rows| - 1)
    else
      assert forall k | 0 <= k < |rows| - 1 :: rows[..|rows| - 1][k] == rows[k];
      FindRow(rows[..|rows| - 1], id)
  }

  /** `user.collaborator_for_cookbook(cookbook)`: the user's row for that resource, if any. */
  function CollaboratorFor(rows: seq<Collaborator>, userId: nat, res: ResourceRef): (r: Option<Collaborator>)
    ensures r.Some? ==> r.value in rows && r.value.userId == userId && r.value.resource == res
    ensures r.None? <==> userId !in CollaboratorIds(rows, res)
  {
    if rows == [] then None
    else if rows[|rows| - 1].userId == userId && rows[|rows| - 1].resource == res then Some(rows[|rows| - 1])
    else
      var prefix := rows[..|rows| - 1];
      assert rows == prefix + [rows[|rows| - 1]];
      assert CollaboratorIds(rows, res) == CollaboratorIds(prefix, res) + (if rows[|rows| - 1].resource == res then {rows[|rows| - 1].userId} else {});
      CollaboratorFor(prefix, userId, res)
  }

  /** In a well-formed table the row CollaboratorFor finds is the only row of that user for that resource. */
  lemma CollaboratorForUnique(rows: seq<Collaborator>, k: nat)
    requires RowsWellFormed(rows) && k < |rows|
    ensures CollaboratorFor(rows, rows[k].userId, rows[k].resource) == Some(rows[k])
  {
  }

  /**
   * The decision of `PUT #transfer`: the row must exist and the caller must own
   * its resource; the result is the resource and its new owner, the row's user.
   */
  function PlanTransfer(owners: map<ResourceRef, nat>, rows: seq<Collaborator>, caller: nat, id: nat)
    : (r: Result<(ResourceRef, nat), Error>)
    ensures r.Ok? <==> FindRow(rows, id).Some? && OwnedBy(owners, rows[FindRow(rows, id).value].resource, caller)
    ensures r.Ok? ==> exists k | 0 <= k < |rows| ::
      rows[k].id == id && r.value == (rows[k].resource, rows[k].userId)
  {
    match FindRow(rows, id)
    case None => Err(NotFound)
    case Some(k) =>
      if OwnedBy(owners, rows[k].resource, caller) then Ok((rows[k].resource, rows[k].userId))
      else Err(NotFound)
  }

  /**
   * The decision of `DELETE #destroy`: the row must exist and the caller must own
   * its resource or be the collaborator themself; the result is the row's position.
   */
  function PlanDestroy(owners: map<ResourceRef, nat>, rows: seq<Collaborator>, caller: nat, id: nat)
    : (r: Result<nat, Error>)
    ensures r.Ok? <==> (FindRow(rows, id).Some? &&
      (OwnedBy(owners, rows[FindRow(rows, id).value].resource, caller) || rows[FindRow(rows, id).value].userId == caller))
    ensures r.Ok? ==> r.value < |rows| && rows[r.value].id == id
  {
    match FindRow(rows, id)
    case None => Err(NotFound)
    case Some(k) =>
      if OwnedBy(owners, rows[k].resource, caller) || rows[k].userId == caller then Ok(k)
      else Err(NotFound)
  }

  /** Row ids increase along the table and no user collaborates twice on one resource. */
  ghost predicate RowsWellFormed(rows: seq<Collaborator>) {
    forall i, j | 0 <= i < j < |rows| ::
      rows[i].id < rows[j].id && (rows[i].userId != rows[j].userId || rows[i].resource != rows[j].resource)
  }

  /** The Collaborator table is well formed, its ids are below `nextId` and its resources exist. */
  ghost predicate TableValid(rows: seq<Collaborator>, nextId: nat, owners: map<ResourceRef, nat>) {
    && RowsWellFormed(rows)
    && forall k | 0 <= k < |rows| :: rows[k].id < nextId && rows[k].resource in owners
  }

  /** Appending a row with a fresh, larger id for a new (user, resource) pair keeps the table well formed. */
  lemma AppendKeepsWellFormed(rows: seq<Collaborator>, nextId: nat, owners: map<ResourceRef, nat>, row: Collaborator)
    requires TableValid(rows, nextId, owners)
    requires row.id == nextId && row.resource in owners
    requires forall k | 0 <= k < |rows| :: rows[k].userId != row.userId || rows[k].resource != row.resource
    ensures TableValid(rows + [row], nextId + 1, owners)
  {
    var s := rows + [row];
    forall i, j | 0 <= i < j < |s|
      ensures s[i].id < s[j].id && (s[i].userId != s[j].userId || s[i].resource != s[j].resource)
    {
      assert s[i] == rows[i];
      if j < |rows| {
        assert s[j] == rows[j];
      }
    }
  }

  /** No user has two rows among `rows`. */
  ghost predicate UsersDistinct(rows: seq<Collaborator>) {
    forall i, j | 0 <= i < j < |rows| :: rows[i].userId != rows[j].userId
  }

  /** The rows are all for `res` and their ids count up from `firstId`. */
  ghost predicate Numbered(created: seq<Collaborator>, res: ResourceRef, firstId: nat) {
    forall k | 0 <= k < |created| :: created[k].resource == res && created[k].id == firstId + k
  }

  lemma NumberedAppend(created: seq<Collaborator>, res: ResourceRef, firstId: nat, u: nat)
    requires Numbered(created, res, firstId)
    ensures Numbered(created + [Collaborator(firstId + |created|, u, res)], res, firstId)
  {
    var row := Collaborator(firstId + |created|, u, res);
    forall k | 0 <= k < |created| + 1
      ensures (created + [row])[k].resource == res && (created + [row])[k].id == firstId + k
    {
      if k < |created| {
        assert (created + [row])[k] == created[k];
      }
    }
  }

  /**
   * The rows of one batch for `res`, numbered from `firstId` on, for distinct
   * users none of whom collaborates on `res` yet.
   */
  ghost predicate FreshBatch(rows: seq<Collaborator>, res: ResourceRef, firstId: nat, created: seq<Collaborator>) {
    && UsersDistinct(created)
    && UserIdsOf(created) !! CollaboratorIds(rows, res)
    && Numbered(created, res, firstId)
  }

  /** Storing a fresh batch keeps the Collaborator table valid. */
  lemma {:induction false} BatchKeepsValid(rows: seq<Collaborator>, nextId: nat, owners: map<ResourceRef, nat>,
                                           res: ResourceRef, created: seq<Collaborator>)
    requires TableValid(rows, nextId, owners) && res in owners
    requires FreshBatch(rows, res, nextId, created)
    ensures TableValid(rows + created, nextId + |created|, owners)
  {
    if created == [] {
      assert rows + created == rows;
      return;
    }
    var n := |created| - 1;
    var prefix, last := created[..n], created[n];
    assert created == prefix + [last];
    assert UserIdsOf(prefix) <= UserIdsOf(created) by {
      forall u | u in UserIdsOf(prefix) ensures u in UserIdsOf(created) {
        var k :| 0 <= k < |prefix| && prefix[k].userId == u;
        assert created[k] == prefix[k];
      }
    }
    assert FreshBatch(rows, res, nextId, prefix);
    BatchKeepsValid(rows, nextId, owners, res, prefix);
    assert last.userId in UserIdsOf(created);
    assert forall k | 0 <= k < n :: prefix[k].userId != last.userId by {
      forall k | 0 <= k < n ensures prefix[k].userId != last.userId {
        assert created[k] == prefix[k];
      }
    }
    NewUserNotCollaborating(rows, prefix, res, last.userId);
    AppendKeepsWellFormed(rows + prefix, nextId + n, owners, last);
    assert rows + prefix + [last] == rows + created;
  }

  /** A user outside both the old rows of `res` and the rows created so far has no row for `res`. */
  lemma NewUserNotCollaborating(rows: seq<Collaborator>, created: seq<Collaborator>, res: ResourceRef, u: nat)
    requires u !in CollaboratorIds(rows, res) && u !in UserIdsOf(created)
    ensures forall k | 0 <= k < |rows + created| :: (rows + created)[k].userId != u || (rows + created)[k].resource != res
  {
    var s := rows + created;
    forall k | 0 <= k < |s| && s[k].resource == res ensures s[k].userId != u {
      if k < |rows| {
        assert rows[k] == s[k];
      } else {
        assert created[k - |rows|] == s[k];
      }
    }
  }

  lemma UserIdsOfAppend(rows: seq<Collaborator>, row: Collaborator)
    ensures UserIdsOf(rows + [row]) == UserIdsOf(rows) + {row.userId}
  {
    var s := rows + [row];
    assert s[|rows|] == row;
    forall u | u in UserIdsOf(rows) ensures u in UserIdsOf(s) {
      var k :| 0 <= k < |rows| && rows[k].userId == u;
      assert s[k] == rows[k];
    }
  }

  lemma NoticesAppend(rows: seq<Collaborator>, row: Collaborator, owner: nat)
    ensures Notices(rows + [row], owner) == Notices(rows, owner) + [Notice(row, owner)]
  {
    assert (rows + [row])[..|rows|] == rows;
  }

  /**
   * A batch under construction: the rows `created` so far cover the plan's
   * users outside `remaining`, once each, and `mails` announces them.
   */
  ghost predicate Building(p: Plan, firstId: nat, created: seq<Collaborator>, mails: seq<Notification>, remaining: set<nat>) {
    && remaining <= p.userIds
    && UserIdsOf(created) == p.userIds - remaining
    && |created| + |remaining| == |p.userIds|
    && UsersDistinct(created)
    && Numbered(created, p.resource, firstId)
    && mails == Notices(created, p.owner)
  }

  /** Adding the row of one remaining user keeps a batch under construction consistent. */
  lemma BuildingStep(p: Plan, firstId: nat, created: seq<Collaborator>, mails: seq<Notification>, remaining: set<nat>, u: nat)
    requires Building(p, firstId, created, mails, remaining) && u in remaining
    ensures var row := Collaborator(firstId + |created|, u, p.resource);
      Building(p, firstId, created + [row], mails + [Notice(row, p.owner)], remaining - {u})
  {
    var row := Collaborator(firstId + |created|, u, p.resource);
    UserIdsOfAppend(created, row);
    NoticesAppend(created, row, p.owner);
    NumberedAppend(created, p.resource, firstId, u);
    forall k | 0 <= k < |created| ensures created[k].userId != u {
      assert created[k].userId in UserIdsOf(created);
    }
    var next := created + [row];
    forall i, j | 0 <= i < j < |next| ensures next[i].userId != next[j].userId {
      assert next[i] == created[i];
    }
  }

  /**
   * The loop of `POST #create`: one row for each user of the plan, with ids
   * counting up from `firstId`, and one "collaborator added" mail per row.
   */
  method BuildBatch(p: Plan, firstId: nat) returns (created: seq<Collaborator>, mails: seq<Notification>)
    ensures |created| == |p.userIds| && UserIdsOf(created) == p.userIds
    ensures UsersDistinct(created)
    ensures forall k | 0 <= k < |created| :: created[k].resource == p.resource && created[k].id == firstId + k
    ensures mails == Notices(created, p.owner)
  {
    var remaining := p.userIds;
    created, mails := [], [];
    while remaining != {}
      invariant Building(p, firstId, created, mails, remaining)
      decreases remaining
    {
      var u :| u in remaining;
      var row := Collaborator(firstId + |created|, u, p.resource);
      BuildingStep(p, firstId, created, mails, remaining, u);
      created := created + [row];
      mails := mails + [Notice(row, p.owner)];
      remaining := remaining - {u};
    }
  }

  class CollaborationManager {
    /** The ids of the registered users. */
    var users: set<nat>
    /** Each resource's owner. */
    var owners: map<ResourceRef, nat>
    /** The Collaborator table. */
    var collaborators: seq<Collaborator>
    /** The id the next Collaborator row receives. */
    var nextId: nat
    /** The queued "collaborator added" mails. */
    var outbox: seq<Notification>

    ghost predicate Valid()
      reads this
    {
      TableValid(collaborators, nextId, owners)
    }

    constructor (users: set<nat>, owners: map<ResourceRef, nat>)
      ensures Valid()
      ensures this.users == users && this.owners == owners
      ensures collaborators == [] && outbox == [] && nextId == 0
    {
      this.users := users;
      this.owners := owners;
      collaborators := [];
      nextId := 0;
      outbox := [];
    }

    /**
     * `GET #index` without a query: every registered user except the
     * `ineligible_user_ids`.
     */
    function Candidates(ineligible: set<nat>): (r: set<nat>)
      reads this
      ensures r <= users && r !! ineligible
      ensures forall u | u in users && u !in ineligible :: u in r
    {
      users - ineligible
    }

    /**
     * `POST #create`: when PlanCreate refuses, nothing changes and the answer is
     * NotFound. Otherwise one row is appended per planned user and one mail is
     * queued per appended row; the appended rows are returned.
     */
    method Create(caller: nat, params: CreateParams, groups: Groups.GroupStore)
      returns (r: Result<seq<Collaborator>, Error>)
      requires Valid()
      modifies this
      ensures Valid()
      ensures users == old(users) && owners == old(owners)
      ensures
        var plan := old(PlanCreate(users, owners, collaborators, groups.groups, groups.memberships, caller, params));
        && (plan.Err? ==>
              && r == Err(NotFound)
              && collaborators == old(collaborators) && outbox == old(outbox) && nextId == old(nextId))
        && (plan.Ok? ==>
              && r.Ok?
              && collaborators == old(collaborators) + r.value
              && outbox == old(outbox) + Notices(r.value, plan.value.owner)
              && nextId == old(nextId) + |r.value|
              && |r.value| == |plan.value.userIds|
              && UserIdsOf(r.value) == plan.value.userIds
              && (forall k | 0 <= k < |r.value| ::
                    r.value[k].resource == plan.value.resource && r.value[k].id == old(nextId) + k))
    {
      var plan := PlanCreate(users, owners, collaborators, groups.groups, groups.memberships, caller, params);
      if plan.Err? {
        return Err(NotFound);
      }
      var created := AddCollaborators(plan.value);
      r := Ok(created);
    }

    /**
     * Appends one row for each user of `p` and queues its mail; the users
     * must not collaborate on the resource yet. The batch is built first and
     * stored as a whole, so the table never holds part of it.
     */
    method AddCollaborators(p: Plan) returns (created: seq<Collaborator>)
      requires Valid()
      requires p.resource in owners
      requires p.userIds !! CollaboratorIds(collaborators, p.resource)
      modifies this
      ensures Valid()
      ensures users == old(users) && owners == old(owners)
      ensures collaborators == old(collaborators) + created
      ensures outbox == old(outbox) + Notices(created, p.owner)
      ensures nextId == old(nextId) + |created|
      ensures |created| == |p.userIds| && UserIdsOf(created) == p.userIds
      ensures forall k | 0 <= k < |created| :: created[k].resource == p.resource && created[k].id == old(nextId) + k
    {
      var mails;
      created, mails := BuildBatch(p, nextId);
      BatchKeepsValid(collaborators, nextId, owners, p.resource, created);
      collaborators, outbox, nextId := collaborators + created, outbox + mails, nextId + |created|;
    }

    /**
     * `PUT #transfer`: the owner hands the resource to the collaborator's user;
     * anyone else gets NotFound and nothing changes. The collaborator rows and
     * the mail queue are left as they are.
     */
    method Transfer(caller: nat, collaboratorId: nat) returns (r: Result<ResourceRef, Error>)
      requires Valid()
      modifies this
      ensures Valid()
      ensures users == old(users) && collaborators == old(collaborators)
      ensures outbox == old(outbox) && nextId == old(nextId)
      ensures
        var plan := old(PlanTransfer(owners, collaborators, caller, collaboratorId));
        && (plan.Err? ==> r == Err(NotFound) && owners == old(owners))
        && (plan.Ok? ==> r == Ok(plan.value.0) && owners == old(owners)[plan.value.0 := plan.value.1])
    {
      var plan := PlanTransfer(owners, collaborators, caller, collaboratorId);
      if plan.Err? {
        return Err(NotFound);
      }
      var (res, newOwner) := plan.value;
      owners := owners[res := newOwner];
      r := Ok(res);
    }

    /**
     * `DELETE #destroy`: the owner, or the collaborator themself, removes the
     * row; anyone else gets NotFound and nothing changes.
     */
    method Destroy(caller: nat, collaboratorId: nat) returns (r: Result<Collaborator, Error>)
      requires Valid()
      modifies this
      ensures Valid()
      ensures users == old(users) && owners == old(owners)
      ensures outbox == old(outbox) && nextId == old(nextId)
      ensures
        var plan := old(PlanDestroy(owners, collaborators, caller, collaboratorId));
        && (plan.Err? ==> r == Err(NotFound) && collaborators == old(collaborators))
        && (plan.Ok? ==>
              && r == Ok(old(collaborators)[plan.value])
              && collaborators == old(collaborators)[..plan.value] + old(collaborators)[plan.value + 1..])
    {
      var plan := PlanDestroy(owners, collaborators, caller, collaboratorId);
      if plan.Err? {
        return Err(NotFound);
      }
      var k := plan.value;
      var row := collaborators[k];
      RemoveKeepsValid(collaborators, nextId, owners, k);
      collaborators := collaborators[..k] + collaborators[k + 1..];
      r := Ok(row);
    }
  }

  /** Deleting one row keeps the Collaborator table valid. */
  lemma RemoveKeepsValid(rows: seq<Collaborator>, nextId: nat, owners: map<ResourceRef, nat>, k: nat)
    requires TableValid(rows, nextId, owners) && k < |rows|
    ensures TableValid(rows[..k] + rows[k + 1..], nextId, owners)
  {
    var rest := rows[..k] + rows[k + 1..];
    assert forall i | 0 <= i < |rest| :: rest[i] == if i < k then rows[i] else rows[i + 1];
  }

  /** An accepted creation never adds the owner, whether named directly or through a group. */
  lemma OwnerNeverAdded(users: set<nat>, owners: map<ResourceRef, nat>, rows: seq<Collaborator>,
                        groups: seq<Groups.Group>, memberships: seq<Groups.GroupMember>,
                        caller: nat, params: CreateParams)
    requires PlanCreate(users, owners, rows, groups, memberships, caller, params).Ok?
    ensures var p := PlanCreate(users, owners, rows, groups, memberships, caller, params).value;
      owners[p.resource] !in p.userIds
  {
  }

  /**
   * Resubmitting an accepted request after its rows were added adds nobody:
   * every planned user now collaborates on the resource.
   */
  lemma {:induction false} ResubmitAddsNothing(users: set<nat>, owners: map<ResourceRef, nat>, rows: seq<Collaborator>,
                                              groups: seq<Groups.Group>, memberships: seq<Groups.GroupMember>,
                                              caller: nat, params: CreateParams, added: seq<Collaborator>)
    requires PlanCreate(users, owners, rows, groups, memberships, caller, params).Ok?
    requires var p := PlanCreate(users, owners, rows, groups, memberships, caller, params).value;
      UserIdsOf(added) == p.userIds && forall k | 0 <= k < |added| :: added[k].resource == p.resource
    ensures var p := PlanCreate(users, owners, rows, groups, memberships, caller, params).value;
      PlanCreate(users, owners, rows + added, groups, memberships, caller, params) == Ok(Plan(p.resource, p.owner, {}))
  {
    var p := PlanCreate(users, owners, rows, groups, memberships, caller, params).value;
    var rows' := rows + added;
    var q := PlanCreate(users, owners, rows', groups, memberships, caller, params);
    assert q.Ok? && q.value.resource == p.resource && q.value.owner == p.owner;
    assert CollaboratorIds(rows, p.resource) <= CollaboratorIds(rows', p.resource) by {
      forall v | v in CollaboratorIds(rows, p.resource) ensures v in CollaboratorIds(rows', p.resource) {
        var k :| 0 <= k < |rows| && rows[k].resource == p.resource && rows[k].userId == v;
        assert rows'[k] == rows[k];
      }
    }
    assert p.userIds <= CollaboratorIds(rows', p.resource) by {
      forall u | u in p.userIds ensures u in CollaboratorIds(rows', p.resource) {
        var k :| 0 <= k < |added| && added[k].userId == u;
        assert rows'[|rows| + k] == added[k];
      }
    }
    assert q.value.userIds == {};
  }
}
