/**
 * The examples of the collaborators controller, replayed on the model: Fanny
 * owns a cookbook on which one user already collaborates; Hank and Hanky are
 * two other registered users.
 */
module CollaborationScenarios {
  import opened Wrappers
  import Groups
  import Text
  import opened Collaboration

  const Fanny: nat := 1
  const Hank: nat := 2
  const Hanky: nat := 3
  const ExistingCollaborator: nat := 4
  const Book: ResourceRef := ResourceRef(Cookbook, 10)

  /** The users of the fixture. */
  function Everyone(): set<nat> {
    {Fanny, Hank, Hanky, ExistingCollaborator}
  }

  /** `collaborator: { user_ids: ids, resourceable_type: kind, resourceable_id: cookbook.id }` */
  function Params(ids: set<nat>, groupIds: set<nat>, kind: string): CreateParams {
    CreateParams(ids, groupIds, kind, Book.id)
  }

  /** The one-row table of the fixture. */
  function FixtureRows(): seq<Collaborator> {
    [Collaborator(0, ExistingCollaborator, Book)]
  }

  lemma FixtureCollaborators()
    ensures CollaboratorIds(FixtureRows(), Book) == {ExistingCollaborator}
  {
    assert FixtureRows()[0].userId == ExistingCollaborator;
  }

  /** A one-row batch whose users are `{u}` is u's row. */
  lemma SingleRow(rows: seq<Collaborator>, u: nat)
    requires |rows| == 1 && UserIdsOf(rows) == {u}
    ensures rows[0].userId == u
  {
    assert rows[0].userId in UserIdsOf(rows);
  }

  /** The users Fanny's request plans to add, when the request names `ids` directly. */
  lemma PlanForOwner(ids: set<nat>)
    ensures var plan := PlanCreate(Everyone(), map[Book := Fanny], FixtureRows(), [], [], Fanny, Params(ids, {}, "Cookbook"));
      plan == Ok(Plan(Book, Fanny, ids * {Hank, Hanky}))
  {
    FixtureCollaborators();
    var plan := PlanCreate(Everyone(), map[Book := Fanny], FixtureRows(), [], [], Fanny, Params(ids, {}, "Cookbook"));
    assert Groups.MembersOfAll([], {}) == {};
    assert plan.Ok?;
    assert plan.value.userIds == ids * {Hank, Hanky};
  }

  /** Fanny's request naming Hank plans to add exactly Hank. */
  lemma PlanAddsHank()
    ensures PlanCreate(Everyone(), map[Book := Fanny], FixtureRows(), [], [], Fanny, Params({Hank}, {}, "Cookbook"))
      == Ok(Plan(Book, Fanny, {Hank}))
  {
    PlanForOwner({Hank});
    assert {Hank} * {Hank, Hanky} == {Hank};
  }

  /** Fanny's request naming the group whose one member is Hanky plans to add exactly Hanky. */
  lemma PlanAddsGroup()
    ensures PlanCreate(Everyone(), map[Book := Fanny], FixtureRows(), [Groups.Group(0, "chefs")],
                       [Groups.GroupMember(0, Hanky)], Fanny, Params({}, {0}, "Cookbook"))
      == Ok(Plan(Book, Fanny, {Hanky}))
  {
    var memberships := [Groups.GroupMember(0, Hanky)];
    FixtureCollaborators();
    assert Groups.MembersOfAll(memberships, {0}) == {Hanky} by {
      assert Groups.MembersOf(memberships, 0) == {Hanky};
    }
    assert Groups.Find([Groups.Group(0, "chefs")], 0).Some?;
    assert ({} + {Hanky}) * Everyone() - {Fanny} - {ExistingCollaborator} == {Hanky};
  }

  /** On the empty table, Fanny's request naming the existing collaborator plans to add exactly them. */
  lemma PlanSeedsFixture()
    ensures PlanCreate(Everyone(), map[Book := Fanny], [], [], [], Fanny, Params({ExistingCollaborator}, {}, "Cookbook"))
      == Ok(Plan(Book, Fanny, {ExistingCollaborator}))
  {
    assert Groups.MembersOfAll([], {}) == {};
    assert PlanCreate(Everyone(), map[Book := Fanny], [], [], [], Fanny, Params({ExistingCollaborator}, {}, "Cookbook")).value.userIds
      == {ExistingCollaborator};
  }

  /** The fixture: four registered users, Fanny's cookbook and its existing collaborator. */
  method Fixture() returns (m: CollaborationManager, gs: Groups.GroupStore)
    ensures fresh(m) && fresh(gs) && m.Valid() && gs.Valid()
    ensures m.users == Everyone() && m.owners == map[Book := Fanny]
    ensures m.collaborators == FixtureRows() && m.nextId == 1
    ensures gs.groups == [] && gs.memberships == []
  {
    m := new CollaborationManager(Everyone(), map[Book := Fanny]);
    gs := new Groups.GroupStore();
    PlanSeedsFixture();
    var r := m.Create(Fanny, Params({ExistingCollaborator}, {}, "Cookbook"), gs);
    SingleRow(r.value, ExistingCollaborator);
  }

  /** The owner adds Hank: one more Collaborator row and one more queued mail, addressed to Hank. */
  method OwnerAddsCollaborator() returns (rowsAdded: int, mailsAdded: int, mail: Notification)
    ensures rowsAdded == 1 && mailsAdded == 1
    ensures mail == CollaboratorAdded(1, Hank, Book, Fanny)
  {
    var m, gs := Fixture();
    var rows, mails := |m.collaborators|, |m.outbox|;
    PlanAddsHank();
    var r := m.Create(Fanny, Params({Hank}, {}, "Cookbook"), gs);
    SingleRow(r.value, Hank);
    rowsAdded, mailsAdded := |m.collaborators| - rows, |m.outbox| - mails;
    mail := m.outbox[|m.outbox| - 1];
  }

  /** Hanky does not own the cookbook: NotFound, and no row or mail is added. */
  method NonOwnerCannotAdd() returns (r: Result<seq<Collaborator>, Error>, rowsAdded: int, mailsAdded: int)
    ensures r == Err(NotFound) && rowsAdded == 0 && mailsAdded == 0
  {
    var m, gs := Fixture();
    var rows, mails := |m.collaborators|, |m.outbox|;
    r := m.Create(Hanky, Params({Hank}, {}, "Cookbook"), gs);
    rowsAdded, mailsAdded := |m.collaborators| - rows, |m.outbox| - mails;
  }

  /** Fanny names only themself: the request is accepted and nobody is added. */
  method OwnerCannotAddThemself() returns (r: Result<seq<Collaborator>, Error>, rowsAdded: int)
    ensures r == Ok([]) && rowsAdded == 0
  {
    var m, gs := Fixture();
    var rows := |m.collaborators|;
    PlanForOwner({Fanny});
    assert {Fanny} * {Hank, Hanky} == {};
    r := m.Create(Fanny, Params({Fanny}, {}, "Cookbook"), gs);
    rowsAdded := |m.collaborators| - rows;
  }

  /** `resourceable_type: 'Butter'` is no known resource type: NotFound and nothing added. */
  method UnknownResourceType() returns (r: Result<seq<Collaborator>, Error>, rowsAdded: int)
    ensures r == Err(NotFound) && rowsAdded == 0
  {
    var m, gs := Fixture();
    var rows := |m.collaborators|;
    r := m.Create(Fanny, Params({Hank}, {}, "Butter"), gs);
    rowsAdded := |m.collaborators| - rows;
  }

  /** Adding a group: the group is looked up and its one member, Hanky, becomes a collaborator. */
  method OwnerAddsGroup() returns (added: seq<nat>)
    ensures added == [Hanky]
  {
    var m, gs := Fixture();
    var g := gs.Create("chefs");
    assert !Text.IsSpace("chefs"[0]);
    assert Groups.NameErrors("chefs", []) == {};
    gs.AddMember(0, Hanky);
    assert gs.groups == [Groups.Group(0, "chefs")] && gs.memberships == [Groups.GroupMember(0, Hanky)];
    PlanAddsGroup();
    var r := m.Create(Fanny, Params({}, {0}, "Cookbook"), gs);
    SingleRow(r.value, Hanky);
    added := [r.value[0].userId];
  }

  /** A group id that names no group: NotFound and nothing added. */
  method UnknownGroup() returns (r: Result<seq<Collaborator>, Error>, rowsAdded: int)
    ensures r == Err(NotFound) && rowsAdded == 0
  {
    var m, gs := Fixture();
    var rows := |m.collaborators|;
    r := m.Create(Fanny, Params({}, {7}, "Cookbook"), gs);
    rowsAdded := |m.collaborators| - rows;
  }

  /** The fixture with Hank's row (id 1) added by Fanny. */
  method FixtureWithHank() returns (m: CollaborationManager)
    ensures fresh(m) && m.Valid()
    ensures m.users == Everyone() && m.owners == map[Book := Fanny]
    ensures m.collaborators == FixtureRows() + [Collaborator(1, Hank, Book)]
  {
    var gs;
    m, gs := Fixture();
    PlanAddsHank();
    var r := m.Create(Fanny, Params({Hank}, {}, "Cookbook"), gs);
    SingleRow(r.value, Hank);
  }

  /** The owner transfers the cookbook to Hank, the user of collaborator row 1. */
  method OwnerTransfers() returns (r: Result<ResourceRef, Error>, newOwner: nat)
    ensures r == Ok(Book) && newOwner == Hank
  {
    var m := FixtureWithHank();
    r := m.Transfer(Fanny, 1);
    newOwner := m.owners[Book];
  }

  /** The collaborator Hank may not transfer: NotFound and Fanny still owns the cookbook. */
  method CollaboratorCannotTransfer() returns (r: Result<ResourceRef, Error>, owner: nat)
    ensures r == Err(NotFound) && owner == Fanny
  {
    var m := FixtureWithHank();
    r := m.Transfer(Hank, 1);
    owner := m.owners[Book];
  }

  /** The owner removes Hank's row: the row is returned and the table is back to the fixture's. */
  method OwnerRemovesCollaborator() returns (r: Result<Collaborator, Error>, rows: seq<Collaborator>)
    ensures r == Ok(Collaborator(1, Hank, Book)) && rows == FixtureRows()
  {
    var m := FixtureWithHank();
    r := m.Destroy(Fanny, 1);
    rows := m.collaborators;
  }

  /** Without a query, the candidates leave out the ineligible Fanny and existing collaborator. */
  method IndexWithoutIneligible() returns (candidates: set<nat>)
    ensures candidates == {Hank, Hanky}
  {
    var m, gs := Fixture();
    candidates := m.Candidates({Fanny, ExistingCollaborator});
  }

  /** Hank's row for the cookbook is what `collaborator_for_cookbook` finds. */
  lemma FindsCollaboratorForCookbook()
    ensures CollaboratorFor(FixtureRows() + [Collaborator(1, Hank, Book)], Hank, Book) == Some(Collaborator(1, Hank, Book))
  {
  }
}
