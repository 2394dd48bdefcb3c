# Supermarket collaborators, users and groups

Supermarket is a community site where cookbooks are published. A cookbook has
exactly one owner. The owner may add other registered users as collaborators.
Users can be named directly or brought in through groups. Every collaborator
added is sent a "collaborator added" mail. The owner may also hand the
cookbook over to one of its collaborators.

Users sign in through Chef OAuth and may link GitHub accounts. A user's
agreement status comes from the individual (ICLA) and corporate (CCLA)
contributor licence agreements they signed. A user may be an admin of
organizations. Commit authors seen on GitHub are tied to a user through the
user's GitHub logins.

The model has three parts.

- **`Collaboration`** (`collaboration.dfy`) holds the decisions of the
  collaborators controller as pure functions: `PlanCreate`, `PlanTransfer`
  and `PlanDestroy`. The class `CollaborationManager` holds these tables:
  - the registered users;
  - each cookbook's owner;
  - the Collaborator table;
  - the queue of mails.

  Its methods apply those decisions. `Create` builds its batch of rows and mails in a loop (`BuildBatch`).
  The invariant `Valid` is preserved by every method:
  - row ids increase;
  - no user collaborates twice on one cookbook;
  - every row points at an existing cookbook.
- **`Identity`** (`identity.dfy`) holds the user queries:
  - licence agreements;
  - the latest ICLA;
  - the organization admin flag;
  - the Chef username;
  - linked GitHub accounts;
  - the split of commit authors into verified and unverified.

  These are functions over a `User` value. The class `UserDirectory` holds the users table. It performs Chef sign-in (find or create), account linking and account removal in place.
- **`Groups`** (`groups.dfy`) holds group name validation and group membership. The class `GroupStore` holds the groups and group-member tables.

The `*_scenarios.dfy` modules replay the repository's examples on the model with concrete data.

Authorization failures, unknown resource types, unknown groups and unknown
collaborator rows all give the one error `NotFound`. The examples show a 404
for a caller who does not own the cookbook, for an unknown resource type and
for a transfer by someone other than the owner.

A name or an email is blank when it is empty or holds whitespace only
(`Text.Blank`). Presence validations reject blank values.

## Model

| member | source | states |
|---|---|---|
| Collaboration.ParseKind | spec/controllers/collaborators_controller_spec.rb:74-80 | a resource type is known iff it is `Cookbook` |
| Collaboration.CollaboratorIds | spec/controllers/collaborators_controller_spec.rb:8 | a user is in the result iff some row ties that user to the resource |
| Collaboration.Notices | spec/controllers/collaborators_controller_spec.rb:46-54 | exactly one mail per row, in row order, each naming that row, its user, the resource and the owner |
| Collaboration.PlanCreate | spec/controllers/collaborators_controller_spec.rb:37-99 | an unknown type is NotFound; for a known type the request is accepted iff the caller owns the cookbook and every group exists; an accepted plan adds exactly the requested users (named directly or members of a named group) who are registered, are not the owner and do not collaborate yet |
| Collaboration.FindRow | spec/controllers/collaborators_controller_spec.rb:116-121 | finds a row with the id iff one exists |
| Collaboration.CollaboratorFor | spec/models/user_spec.rb:18-23 | returns a row of that user for that cookbook, and None iff the user does not collaborate on it |
| Collaboration.CollaboratorForUnique | spec/models/user_spec.rb:18-23 | in a valid table the row found is the one and only row of that user for that cookbook |
| Collaboration.PlanTransfer | spec/controllers/collaborators_controller_spec.rb:125-141 | accepted iff the row exists and the caller owns its cookbook; the new owner is the row's user |
| Collaboration.PlanDestroy | spec/controllers/collaborators_controller_spec.rb:115-122 | accepted iff the row exists and the caller owns its cookbook or is the row's user; the result is that row's position |
| Collaboration.AppendKeepsWellFormed | spec/controllers/collaborators_controller_spec.rb:37-44 | appending a row for a new (user, cookbook) pair with a fresh id keeps the table valid |
| Collaboration.NumberedAppend | spec/controllers/collaborators_controller_spec.rb:37-44 | appending the next-numbered row for the cookbook keeps the batch numbered |
| Collaboration.BatchKeepsValid | spec/controllers/collaborators_controller_spec.rb:37-44 | storing a batch of fresh, consecutively numbered rows for distinct new users keeps the table valid |
| Collaboration.NewUserNotCollaborating | spec/controllers/collaborators_controller_spec.rb:66-72 | a user outside the old collaborators and the batch so far has no row for the cookbook |
| Collaboration.UserIdsOfAppend | spec/controllers/collaborators_controller_spec.rb:37-44 | appending a row adds exactly its user to the users of a batch |
| Collaboration.NoticesAppend | spec/controllers/collaborators_controller_spec.rb:46-54 | appending a row appends exactly its mail |
| Collaboration.BuildingStep | spec/controllers/collaborators_controller_spec.rb:46-54 | adding one remaining user's row and mail keeps the loop's batch consistent |
| Collaboration.BuildBatch | spec/controllers/collaborators_controller_spec.rb:46-54 | one row per planned user, users distinct, ids counting up, one mail per row |
| Collaboration.CollaborationManager.constructor | spec/controllers/collaborators_controller_spec.rb:4-8 | an empty valid table with the given users and owners |
| Collaboration.CollaborationManager.Candidates | spec/controllers/collaborators_controller_spec.rb:23-32 | the candidates are registered and not ineligible, and every registered eligible user is a candidate |
| Collaboration.CollaborationManager.Create | spec/controllers/collaborators_controller_spec.rb:37-80 | on refusal nothing changes and the answer is NotFound; otherwise exactly the planned users get one new row each and one queued mail each |
| Collaboration.CollaborationManager.AddCollaborators | spec/controllers/collaborators_controller_spec.rb:40-53 | the table grows by exactly the batch and the queue by exactly its mails, keeping the table valid |
| Collaboration.CollaborationManager.Transfer | spec/controllers/collaborators_controller_spec.rb:125-141 | the owner's request makes the row's user the owner; anyone else gets NotFound and the owner is unchanged; the rows are untouched |
| Collaboration.CollaborationManager.Destroy | spec/controllers/collaborators_controller_spec.rb:115-122 | an authorized request removes exactly that row and returns it; otherwise NotFound and nothing changes |
| Collaboration.RemoveKeepsValid | spec/controllers/collaborators_controller_spec.rb:115-122 | deleting a row keeps the table valid |
| Collaboration.OwnerNeverAdded | spec/controllers/collaborators_controller_spec.rb:66-72 | an accepted plan never contains the owner |
| Collaboration.ResubmitAddsNothing | spec/controllers/collaborators_controller_spec.rb:37-44 | after an accepted plan's rows are stored, the same request plans to add nobody |
| CollaborationScenarios.FixtureCollaborators | spec/controllers/collaborators_controller_spec.rb:8 | the fixture's cookbook has exactly the existing collaborator |
| CollaborationScenarios.PlanForOwner | spec/controllers/collaborators_controller_spec.rb:37-72 | Fanny's direct request adds exactly the named users among Hank and Hanky |
| CollaborationScenarios.Fixture | spec/controllers/collaborators_controller_spec.rb:4-8 | four users, Fanny's cookbook and its one existing collaborator |
| CollaborationScenarios.OwnerAddsCollaborator | spec/controllers/collaborators_controller_spec.rb:37-54 | adding Hank adds one row and one mail, addressed to Hank |
| CollaborationScenarios.NonOwnerCannotAdd | spec/controllers/collaborators_controller_spec.rb:56-64 | Hanky's request is NotFound and adds nothing |
| CollaborationScenarios.OwnerCannotAddThemself | spec/controllers/collaborators_controller_spec.rb:66-72 | Fanny naming themself adds no row |
| CollaborationScenarios.UnknownResourceType | spec/controllers/collaborators_controller_spec.rb:74-80 | type `Butter` is NotFound and adds nothing |
| CollaborationScenarios.OwnerAddsGroup | spec/controllers/collaborators_controller_spec.rb:82-99 | the group is found and its member becomes the one new collaborator |
| CollaborationScenarios.UnknownGroup | spec/controllers/collaborators_controller_spec.rb:90-93 | a group id naming no group is NotFound and adds nothing |
| CollaborationScenarios.FixtureWithHank | spec/controllers/collaborators_controller_spec.rb:116 | the fixture plus Hank's row |
| CollaborationScenarios.OwnerTransfers | spec/controllers/collaborators_controller_spec.rb:128-134 | Fanny's transfer makes Hank the owner |
| CollaborationScenarios.CollaboratorCannotTransfer | spec/controllers/collaborators_controller_spec.rb:136-141 | Hank's transfer is NotFound and Fanny stays owner |
| CollaborationScenarios.OwnerRemovesCollaborator | spec/controllers/collaborators_controller_spec.rb:115-122 | Fanny's destroy removes Hank's row and only it |
| CollaborationScenarios.IndexWithoutIneligible | spec/controllers/collaborators_controller_spec.rb:23-32 | with Fanny and the existing collaborator ineligible, the candidates are Hank and Hanky |
| CollaborationScenarios.FindsCollaboratorForCookbook | spec/models/user_spec.rb:18-23 | Hank's row is the collaborator found for Hank and the cookbook |
| Identity.SignedIcla | spec/models/user_spec.rb:25-35 | true iff the user has an ICLA signature |
| Identity.SignedCcla | spec/models/user_spec.rb:92-102 | true iff the user has a CCLA signature |
| Identity.SignedCla | spec/models/user_spec.rb:104-133 | true iff the user has an ICLA or a CCLA signature |
| Identity.LatestSignature | spec/models/user_spec.rb:82-90 | None iff there are no signatures; otherwise a signature with the greatest `signed_at`, and the last of equals |
| Identity.LatestIclaSignature | spec/models/user_spec.rb:82-90 | None iff no ICLA is signed; otherwise one of the user's ICLAs with the greatest `signed_at` |
| Identity.AdminOf | spec/models/user_spec.rb:148-164 | true iff some contributor row for the organization has the admin flag |
| Identity.AdminOfOrganization | spec/models/user_spec.rb:148-164 | true iff one of the user's contributor rows for the organization has the admin flag |
| Identity.FirstAccountFor | spec/models/user_spec.rb:257-262 | None iff no account of the provider; otherwise the first account of that provider |
| Identity.ChefAccount | spec/models/user_spec.rb:306-314 | a Chef account of the user, None iff none is linked |
| Identity.Username | spec/models/user_spec.rb:257-270 | the username of a Chef account, and the empty string when no Chef account is linked |
| Identity.LinkedGithubAccount | spec/models/user_spec.rb:179-193 | true iff a GitHub account is linked |
| Identity.AccountFromOAuth | spec/models/user_spec.rb:166-177 | the account carries the payload's provider, uid, username and token |
| Identity.UpsertAccount | spec/models/user_spec.rb:187-191 | the saved account is present, accounts with other keys are kept, nothing else appears, and the count grows iff the key was new |
| Identity.UpsertKeepsKeysUnique | spec/models/user_spec.rb:316-320 | saving an account keeps (provider, uid) keys unique and leaves exactly one account with that key |
| Identity.UpsertIdempotent | spec/models/user_spec.rb:328-332 | saving the same account twice equals saving it once |
| Identity.GithubLogins | spec/models/user_spec.rb:195-255 | the logins are exactly the usernames of the user's GitHub accounts |
| Identity.OwnedAuthors | spec/models/user_spec.rb:195-255 | exactly the commit authors whose login is one of the user's |
| Identity.AuthorsBySignature | spec/models/user_spec.rb:195-255 | exactly the user's commit authors with the given CLA flag |
| Identity.VerifiedCommitAuthorIdentities | spec/models/user_spec.rb:195-224 | a commit author is listed iff its login is one of the user's GitHub logins and it signed a CLA |
| Identity.UnverifiedCommitAuthorIdentities | spec/models/user_spec.rb:226-255 | a commit author is listed iff its login is one of the user's GitHub logins and it has not signed a CLA |
| Identity.IdentitiesPartition | spec/models/user_spec.rb:195-255 | verified and unverified together are exactly the user's commit authors, counted with multiplicity |
| Identity.VerifiedUnverifiedDisjoint | spec/models/user_spec.rb:195-255 | no commit author is both verified and unverified |
| Identity.FirstUserFrom | spec/models/user_spec.rb:272-283 | the first matching user from the start position, None iff none matches |
| Identity.ChefOwner | spec/models/user_spec.rb:323-332 | a user holding the Chef uid, None iff nobody does |
| Identity.FindByGithubLogin | spec/models/user_spec.rb:272-283 | the first user with a GitHub account of that login; None (an unsaved new user) iff nobody has it |
| Identity.UserDirectory.constructor | spec/models/user_spec.rb:290-295 | an empty, valid users table |
| Identity.UserDirectory.FindOrCreateFromChefOAuth | spec/models/user_spec.rb:285-362 | a blank email (empty or whitespace only) is rejected and nothing changes; a new Chef uid appends one user with the payload's details and one account; a known uid updates that user's names, email, key and account and adds no user |
| Identity.UserDirectory.SaveAccountFromOAuth | spec/models/user_spec.rb:187-191 | the payload's account is stored on the user, replacing the one with the same key, and a GitHub payload links GitHub |
| Identity.UserDirectory.DestroyAllAccounts | spec/models/user_spec.rb:264-269 | the user loses every account, so the username is empty |
| IdentityScenarios.IclaSignature | spec/models/user_spec.rb:25-35 | with one ICLA signed true, with none false |
| IdentityScenarios.CclaSignature | spec/models/user_spec.rb:92-102 | with one CCLA signed true, with none false |
| IdentityScenarios.ClaSignature | spec/models/user_spec.rb:104-133 | both: true; CCLA only: true; neither: false |
| IdentityScenarios.LatestOfTwo | spec/models/user_spec.rb:82-90 | of signatures a year and a month old, the month-old one is the latest |
| IdentityScenarios.OrganizationAdmin | spec/models/user_spec.rb:148-164 | an admin contributor row gives true, a non-admin one false |
| IdentityScenarios.JoeDoeLogins | spec/models/user_spec.rb:200-205 | the user's GitHub logins are exactly `joedoe` |
| IdentityScenarios.SignedAuthorIsVerified | spec/models/user_spec.rb:197-209 | a signed `joedoe` is verified and not unverified |
| IdentityScenarios.UnsignedAuthorIsUnverified | spec/models/user_spec.rb:211-240 | an unsigned `joedoe` is unverified and not verified |
| IdentityScenarios.ChefUsername | spec/models/user_spec.rb:258-262 | the Chef account `fanny` gives username `fanny` |
| IdentityScenarios.GithubLoginLookup | spec/models/user_spec.rb:272-283 | the GitHub login finds its user; `trex` finds nobody |
| IdentityScenarios.GithubAccountFromOAuth | spec/models/user_spec.rb:166-177 | the GitHub payload gives a GitHub account with its uid and token |
| IdentityScenarios.FirstSignIn | spec/models/user_spec.rb:290-321 | the first sign-in stores one user with the payload's details and one Chef account |
| IdentityScenarios.RepeatedSignIn | spec/models/user_spec.rb:323-361 | a second sign-in adds no user and overwrites names, key and token |
| IdentityScenarios.LinkGithub | spec/models/user_spec.rb:179-191 | not linked before saving the GitHub account, linked after |
| IdentityScenarios.UnlinkChefId | spec/models/user_spec.rb:264-269 | the username is `johndoe`, then empty once all accounts are destroyed |
| IdentityScenarios.BlankEmail | spec/models/user_spec.rb:14-16 | a payload without email is rejected and stores no user |
| IdentityScenarios.WhitespaceEmail | spec/models/user_spec.rb:14-16 | a payload whose email is whitespace only is rejected and stores no user |
| Groups.NameErrors | spec/models/group_spec.rb:9-19 | NameBlank iff the name is blank (empty or whitespace only); NameTaken iff an existing group has the name |
| Groups.IsValidName | spec/models/group_spec.rb:9-19 | valid iff the name is not blank and no existing group has it |
| Groups.Find | spec/controllers/collaborators_controller_spec.rb:90-93 | a group with that id, None iff there is none |
| Groups.MembersOf | spec/models/group_spec.rb:4-7 | a user is a member iff a group-member row ties the user to the group |
| Groups.MembersOfAll | spec/controllers/collaborators_controller_spec.rb:95-99 | a user is in the result iff they are a member of one of the groups |
| Groups.GroupStore.constructor | spec/models/group_spec.rb:15 | an empty, valid store |
| Groups.GroupStore.Create | spec/models/group_spec.rb:9-19 | a valid name appends a group; an invalid one returns its errors and stores nothing; names stay unique and not blank |
| Groups.GroupStore.AddMember | spec/controllers/collaborators_controller_spec.rb:83-84 | appends one group-member row; the group gains that member and other groups are unchanged |
| GroupsScenarios.BlankName | spec/models/group_spec.rb:9-12 | an empty name is rejected with NameBlank and nothing is stored |
| GroupsScenarios.WhitespaceName | spec/models/group_spec.rb:9-12 | a name of spaces only is rejected with NameBlank and nothing is stored |
| GroupsScenarios.DuplicateName | spec/models/group_spec.rb:14-19 | the first group is stored; a second with its name is rejected with NameTaken |
| GroupsScenarios.Members | spec/models/group_spec.rb:4-7 | a group's members are exactly its rows' users |

## Left out

- User search and the query-ordered `index` result (spec/models/user_spec.rb:37-80, spec/controllers/collaborators_controller_spec.rb:15-21) are not modelled. They rely on database similarity matching. `Candidates` models `index` without a query, as a filter by the ineligible ids.
- The association declarations (spec/models/user_spec.rb:4-12, spec/models/group_spec.rb:4-7) are not modelled beyond the tables they describe.
- `followed_cookbook_versions` (spec/models/user_spec.rb:135-146) is not modelled. The cookbook-version model is not part of this model.
- Mail delivery and the background job queue are not modelled. A mail is a `Notification` appended to the outbox.
- The OAuth handshake is not modelled. A payload arrives as a resolved `OAuthPayload` record.
- Redirects and status codes are not modelled. Every 404 is the `NotFound` result.
- Persistence and reloading are not modelled. Row ids are assigned by the model, and a user's id is its position in the users table.
- The pending group examples (spec/controllers/collaborators_controller_spec.rb:101-112) state no behaviour. The model still adds a row and a mail for each group member.
- Collaboration.CollaborationManager.Transfer: does not delete the new owner's collaborator row, although owners are otherwise never collaborators of their own cookbook. No example checks that removal, so the rows are left as they were.
- Identity.VerifiedCommitAuthorIdentities: a commit author counts as verified by its own `signed_cla` flag, as the examples set it up. It does not resolve the author to a user and ask whether that user signed an ICLA or a CCLA.
- Collaboration.CollaborationManager.Destroy: the examples only check that removal is dispatched. The rule that the owner or the collaborator themself may remove the row is a modelling choice.
- Identity.UserDirectory.FindOrCreateFromChefOAuth: only the email presence validation is modelled. No other user validation appears in the examples.
- The deployment attributes (cookbooks/omnibus-supermarket/attributes/default.rb) carry no decision logic and are not modelled.
- The User, Group and collaborators controller source code is not available. Where the examples are silent, the model makes the choices listed next.
- Collaboration.PlanCreate: three rules come from no example. Ids of unregistered users are dropped. Users who already collaborate on the cookbook are skipped. A group id that names no group rejects the whole request with NotFound; the group examples (spec/controllers/collaborators_controller_spec.rb:90-99) only check that the group and its members are looked up.
- Collaboration.PlanDestroy, Collaboration.PlanTransfer: an unknown collaborator row gives NotFound. No example shows the answer for it.
- Collaboration.CollaborationManager.Candidates: does not exclude the cookbook's owner or its collaborators by itself. The example passes them among the ineligible ids.
- Identity.LatestSignature: among signatures with equal `signed_at`, the last one wins. The example uses distinct times.
- Identity.ChefOwner: Chef sign-in finds the existing user by the Chef account's uid. The examples keep both uid and username fixed, so they do not tell the two keys apart.
- Text.Blank: counts only ASCII whitespace as blank (space, tab, line feed, vertical tab, form feed, carriage return). Other Unicode whitespace is not modelled.
