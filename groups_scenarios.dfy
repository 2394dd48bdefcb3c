/** The examples of the Group model, replayed on a group store. */
module GroupsScenarios {
  import opened Wrappers
  import opened Groups
  import Text

  /** `Group.new(name: '')` is not valid. */
  method BlankName() returns (r: Result<nat, set<ValidationError>>, stored: nat)
    ensures r == Err({NameBlank}) && stored == 0
  {
    var store := new GroupStore();
    assert NameErrors("", []) == {NameBlank} by {
      forall e | e in NameErrors("", []) ensures e == NameBlank {
        assert e.NameBlank? || e.NameTaken?;
      }
    }
    r := store.Create("");
    stored := |store.groups|;
  }

  lemma NamesPresent()
    ensures !Text.Blank("chefs") && !Text.Blank("cooks")
  {
    assert !Text.IsSpace("chefs"[0]) && !Text.IsSpace("cooks"[0]);
  }

  /** A name of spaces only is as blank as the empty name. */
  method WhitespaceName() returns (r: Result<nat, set<ValidationError>>, stored: nat)
    ensures r == Err({NameBlank}) && stored == 0
  {
    var store := new GroupStore();
    assert NameErrors("  ", []) == {NameBlank} by {
      forall e | e in NameErrors("  ", []) ensures e == NameBlank {
        assert e.NameBlank? || e.NameTaken?;
      }
    }
    r := store.Create("  ");
    stored := |store.groups|;
  }

  /** After `create(:group)`, a second group with the same name is not valid and is not stored. */
  method DuplicateName() returns (first: Result<nat, set<ValidationError>>, second: Result<nat, set<ValidationError>>, stored: nat)
    ensures first == Ok(0) && second == Err({NameTaken}) && stored == 1
  {
    var store := new GroupStore();
    NamesPresent();
    first := store.Create("chefs");
    assert Group(0, "chefs") in store.groups;
    assert NameErrors("chefs", store.groups) == {NameTaken} by {
      forall e | e in NameErrors("chefs", store.groups) ensures e == NameTaken {
        assert e.NameBlank? || e.NameTaken?;
      }
    }
    second := store.Create("chefs");
    stored := |store.groups|;
  }

  /** A group's members are the users of its group-member rows, and only those. */
  method Members() returns (members: set<nat>, others: set<nat>)
    ensures members == {3, 5} && others == {}
  {
    var store := new GroupStore();
    NamesPresent();
    var chefs := store.Create("chefs");
    var cooks := store.Create("cooks");
    store.AddMember(0, 3);
    store.AddMember(0, 5);
    members := MembersOf(store.memberships, 0);
    others := MembersOf(store.memberships, 1);
  }
}
