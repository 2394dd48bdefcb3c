/**
 * Users of the marketplace: their linked OAuth accounts, their contributor
 * license agreement signatures, their organization memberships and the commit
 * authors attributed to them, plus the user directory that signing in through
 * Chef OAuth creates and refreshes.
 */
module Identity {
  import opened Wrappers
  import Text

  /** Provider names as stored on an account row. */
  const ChefProvider: string := "chef_oauth2"
  const GithubProvider: string := "github"

  /** A user's identity at an OAuth provider. (provider, uid) identifies the account. */
  datatype Account = Account(provider: string, uid: string, username: string, oauthToken: string)

  /** An ICLA or CCLA signature; `signedAt` is the signing time stamp. */
  datatype Signature = Signature(id: nat, signedAt: int)

  /** The user's membership of an organization, with its admin flag. */
  datatype Contributor = Contributor(organizationId: nat, admin: bool)

  datatype User = User(
    id: nat,
    firstName: string,
    lastName: string,
    email: string,
    publicKey: string,
    accounts: seq<Account>,
    iclaSignatures: seq<Signature>,
    cclaSignatures: seq<Signature>,
    contributors: seq<Contributor>)

  /** An author observed on a commit, identified by a GitHub login. */
  datatype CommitAuthor = CommitAuthor(login: string, signedCla: bool)

  /** A resolved OAuth payload: uid, info (username, names, email, public key) and credentials. */
  datatype OAuthPayload = OAuthPayload(
    provider: string,
    uid: string,
    username: string,
    token: string,
    firstName: string,
    lastName: string,
    email: string,
    publicKey: string)

  datatype ValidationError = EmailBlank

  // ---------------------------------------------------------------------------
  // Contributor license agreements

  /** `signed_icla?` */
  predicate SignedIcla(u: User)
    ensures SignedIcla(u) <==> exists s :: s in u.iclaSignatures
  {
    if u.iclaSignatures == [] then false
    else assert u.iclaSignatures[0] in u.iclaSignatures; true
  }

  /** `signed_ccla?` */
  predicate SignedCcla(u: User)
    ensures SignedCcla(u) <==> exists s :: s in u.cclaSignatures
  {
    if u.cclaSignatures == [] then false
    else assert u.cclaSignatures[0] in u.cclaSignatures; true
  }

  /** `signed_cla?`: either kind of agreement satisfies the requirement. */
  predicate SignedCla(u: User)
    ensures SignedCla(u) <==> (exists s :: s in u.iclaSignatures) || (exists s :: s in u.cclaSignatures)
  {
    SignedIcla(u) || SignedCcla(u)
  }

  /**
   * The signature with the greatest `signedAt`; among equal time stamps the one
   * recorded last wins. None exactly when there is no signature.
   */
  function LatestSignature(sigs: seq<Signature>): (r: Option<Signature>)
    ensures r.None? <==> sigs == []
    ensures r.Some? ==> r.value in sigs
    ensures r.Some? ==> forall s | s in sigs :: s.signedAt <= r.value.signedAt
    ensures r.Some? ==> exists i | 0 <= i < |sigs| ::
      sigs[i] == r.value && forall j | i < j < |sigs| :: sigs[j].signedAt < r.value.signedAt
  {
    if sigs == [] then None
    else
      var n := |sigs| - 1;
      var last := sigs[n];
      var prefix := sigs[..n];
      assert sigs == prefix + [last];
      match LatestSignature(prefix)
      case None =>
        assert sigs[n] == last;
        Some(last)
      case Some(best) =>
        if best.signedAt <= last.signedAt then
          assert sigs[n] == last;
          Some(last)
        else
          var i :| 0 <= i < |prefix| && prefix[i] == best
                   && forall j | i < j < |prefix| :: prefix[j].signedAt < best.signedAt;
          assert sigs[i] == best;
          Some(best)
  }

  /** `latest_icla_signature` */
  function LatestIclaSignature(u: User): (r: Option<Signature>)
    ensures r.None? <==> !SignedIcla(u)
    ensures r.Some? ==> r.value in u.iclaSignatures
    ensures r.Some? ==> forall s | s in u.iclaSignatures :: s.signedAt <= r.value.signedAt
  {
    LatestSignature(u.iclaSignatures)
  }

  // ---------------------------------------------------------------------------
  // Organizations

  /** True iff some contributor row for `org` carries the admin flag. */
  function AdminOf(rows: seq<Contributor>, org: nat): (r: bool)
    ensures r <==> exists i | 0 <= i < |rows| :: rows[i].organizationId == org && rows[i].admin
  {
    if rows == [] then false
    else if rows[0].organizationId == org && rows[0].admin then true
    else
      var rest := AdminOf(rows[1..], org);
      assert forall i | 1 <= i < |rows| :: rows[i] == rows[1..][i - 1];
      rest
  }

  /** `admin_of_organization?(organization)` */
  function AdminOfOrganization(u: User, org: nat): (r: bool)
    ensures r <==> exists c | c in u.contributors :: c.organizationId == org && c.admin
  {
    AdminOf(u.contributors, org)
  }

  // ---------------------------------------------------------------------------
  // Accounts

  /** Two accounts with the same provider and uid are the same account row. */
  predicate SameKey(a: Account, b: Account) {
    a.provider == b.provider && a.uid == b.uid
  }

  /** No two account rows share a (provider, uid) key. */
  ghost predicate KeysUnique(accounts: seq<Account>) {
    forall i, j | 0 <= i < |accounts| && 0 <= j < |accounts| && i != j :: !SameKey(accounts[i], accounts[j])
  }

  predicate HasKey(accounts: seq<Account>, a: Account) {
    exists b | b in accounts :: SameKey(b, a)
  }

  /** The first account of `provider` (`accounts.for(provider).first`). */
  function FirstAccountFor(accounts: seq<Account>, provider: string): (r: Option<Account>)
    ensures r.None? <==> forall a | a in accounts :: a.provider != provider
    ensures r.Some? ==> r.value in accounts && r.value.provider == provider
    ensures r.Some? ==> exists i | 0 <= i < |accounts| ::
      accounts[i] == r.value && forall j | 0 <= j < i :: accounts[j].provider != provider
  {
    if accounts == [] then None
    else if accounts[0].provider == provider then Some(accounts[0])
    else
      var rest := FirstAccountFor(accounts[1..], provider);
      assert accounts == [accounts[0]] + accounts[1..];
      match rest
      case None => None
      case Some(a) =>
        var i :| 0 <= i < |accounts[1..]| && accounts[1..][i] == a
                 && forall j | 0 <= j < i :: accounts[1..][j].provider != provider;
        assert accounts[i + 1] == a;
        Some(a)
  }

  /** `chef_account`: the user's first Chef account, if one is linked. */
  function ChefAccount(u: User): (r: Option<Account>)
    ensures r.None? <==> forall a | a in u.accounts :: a.provider != ChefProvider
    ensures r.Some? ==> r.value in u.accounts && r.value.provider == ChefProvider
  {
    FirstAccountFor(u.accounts, ChefProvider)
  }

  /** `username`: the Chef account's username, or the empty string once no Chef account is linked. */
  function Username(u: User): (r: string)
    ensures (forall a | a in u.accounts :: a.provider != ChefProvider) ==> r == ""
    ensures (exists a | a in u.accounts :: a.provider == ChefProvider) ==>
      exists a | a in u.accounts :: a.provider == ChefProvider && a.username == r
  {
    match ChefAccount(u)
    case Some(a) => a.username
    case None => ""
  }

  /** `linked_github_account?` */
  function LinkedGithubAccount(u: User): (r: bool)
    ensures r <==> exists a | a in u.accounts :: a.provider == GithubProvider
  {
    FirstAccountFor(u.accounts, GithubProvider).Some?
  }

  /** `account_from_oauth(auth)`: the (provider, uid) account carrying the payload's username and token. */
  function AccountFromOAuth(auth: OAuthPayload): (r: Account)
    ensures r.provider == auth.provider && r.uid == auth.uid
    ensures r.oauthToken == auth.token && r.username == auth.username
  {
    Account(auth.provider, auth.uid, auth.username, auth.token)
  }

  /**
   * Saving an account: the row with the same (provider, uid) is overwritten,
   * otherwise the account is appended.
   */
  function UpsertAccount(accounts: seq<Account>, a: Account): (r: seq<Account>)
    ensures a in r
    ensures forall b | b in accounts && !SameKey(b, a) :: b in r
    ensures forall b | b in r && b != a :: b in accounts
    ensures |r| == if HasKey(accounts, a) then |accounts| else |accounts| + 1
  {
    if accounts == [] then [a]
    else
      assert accounts == [accounts[0]] + accounts[1..];
      if SameKey(accounts[0], a) then
        assert accounts[0] in accounts;
        [a] + accounts[1..]
      else
        var rest := UpsertAccount(accounts[1..], a);
        assert HasKey(accounts, a) <==> HasKey(accounts[1..], a);
        [accounts[0]] + rest
  }

  /** Prepending a row whose key no other row has keeps the keys unique, and conversely. */
  lemma KeysUniqueCons(head: Account, tail: seq<Account>)
    ensures KeysUnique([head] + tail) <==>
      KeysUnique(tail) && forall b | b in tail :: !SameKey(head, b)
  {
    var s := [head] + tail;
    if KeysUnique(s) {
      forall i, j | 0 <= i < |tail| && 0 <= j < |tail| && i != j ensures !SameKey(tail[i], tail[j]) {
        assert s[i + 1] == tail[i] && s[j + 1] == tail[j];
      }
      forall b | b in tail ensures !SameKey(head, b) {
        var k :| 0 <= k < |tail| && tail[k] == b;
        assert s[0] == head && s[k + 1] == b;
      }
    }
    if KeysUnique(tail) && forall b | b in tail :: !SameKey(head, b) {
      forall i, j | 0 <= i < |s| && 0 <= j < |s| && i != j ensures !SameKey(s[i], s[j]) {
        if i == 0 {
          assert s[j] in tail;
        } else if j == 0 {
          assert s[i] in tail;
        } else {
          assert s[i] == tail[i - 1] && s[j] == tail[j - 1];
        }
      }
    }
  }

  /** Saving keeps the account keys unique, and the saved account is the only row with its key. */
  lemma {:induction false} UpsertKeepsKeysUnique(accounts: seq<Account>, a: Account)
    requires KeysUnique(accounts)
    ensures KeysUnique(UpsertAccount(accounts, a))
    ensures forall b | b in UpsertAccount(accounts, a) && SameKey(b, a) :: b == a
  {
    if accounts == [] {
      return;
    }
    var head, tail := accounts[0], accounts[1..];
    assert accounts == [head] + tail;
    KeysUniqueCons(head, tail);
    if SameKey(head, a) {
      KeysUniqueCons(a, tail);
    } else {
      var rest := UpsertAccount(tail, a);
      UpsertKeepsKeysUnique(tail, a);
      KeysUniqueCons(head, rest);
    }
  }

  // ---------------------------------------------------------------------------
  // Commit-author identities

  /** The usernames of the user's GitHub accounts. */
  function GithubLogins(u: User): (r: set<string>)
    ensures forall l :: l in r <==> exists a | a in u.accounts :: a.provider == GithubProvider && a.username == l
  {
    set a | a in u.accounts && a.provider == GithubProvider :: a.username
  }

  /** The commit authors whose login is one of `logins`, in table order. */
  function OwnedAuthors(authors: seq<CommitAuthor>, logins: set<string>): (r: seq<CommitAuthor>)
    ensures forall c :: c in r <==> c in authors && c.login in logins
  {
    if authors == [] then []
    else
      var rest := OwnedAuthors(authors[1..], logins);
      assert authors == [authors[0]] + authors[1..];
      if authors[0].login in logins then [authors[0]] + rest else rest
  }

  /** The commit authors whose login is one of `logins` and whose CLA flag equals `signed`. */
  function AuthorsBySignature(authors: seq<CommitAuthor>, logins: set<string>, signed: bool): (r: seq<CommitAuthor>)
    ensures forall c :: c in r <==> c in authors && c.login in logins && c.signedCla == signed
  {
    if authors == [] then []
    else
      var rest := AuthorsBySignature(authors[1..], logins, signed);
      assert authors == [authors[0]] + authors[1..];
      if authors[0].login in logins && authors[0].signedCla == signed then [authors[0]] + rest else rest
  }

  /** `verified_commit_author_identities` over the commit-author table `authors`. */
  function VerifiedCommitAuthorIdentities(u: User, authors: seq<CommitAuthor>): (r: seq<CommitAuthor>)
    ensures forall c :: c in r <==> c in authors && c.login in GithubLogins(u) && c.signedCla
  {
    AuthorsBySignature(authors, GithubLogins(u), true)
  }

  /** `unverified_commit_author_identities` over the commit-author table `authors`. */
  function UnverifiedCommitAuthorIdentities(u: User, authors: seq<CommitAuthor>): (r: seq<CommitAuthor>)
    ensures forall c :: c in r <==> c in authors && c.login in GithubLogins(u) && !c.signedCla
  {
    AuthorsBySignature(authors, GithubLogins(u), false)
  }

  /**
   * The verified and unverified identities together are exactly the user's
   * commit-author identities, each row once, in neither list twice.
   */
  lemma {:induction false} IdentitiesPartition(authors: seq<CommitAuthor>, logins: set<string>)
    ensures multiset(AuthorsBySignature(authors, logins, true)) + multiset(AuthorsBySignature(authors, logins, false))
            == multiset(OwnedAuthors(authors, logins))
  {
    if authors != [] {
      IdentitiesPartition(authors[1..], logins);
    }
  }

  /** No commit author is both verified and unverified. */
  lemma VerifiedUnverifiedDisjoint(u: User, authors: seq<CommitAuthor>, c: CommitAuthor)
    ensures !(c in VerifiedCommitAuthorIdentities(u, authors) && c in UnverifiedCommitAuthorIdentities(u, authors))
  {
  }

  // ---------------------------------------------------------------------------
  // The user directory

  /** The index of the first user from `from` on that satisfies `p`. */
  function FirstUserFrom(users: seq<User>, from: nat, p: User -> bool): (r: Option<nat>)
    requires from <= |users|
    ensures r.Some? ==> from <= r.value < |users| && p(users[r.value])
    ensures r.Some? ==> forall j | from <= j < r.value :: !p(users[j])
    ensures r.None? ==> forall j | from <= j < |users| :: !p(users[j])
    decreases |users| - from
  {
    if from == |users| then None
    else if p(users[from]) then Some(from)
    else FirstUserFrom(users, from + 1, p)
  }

  /** True iff `u` holds a Chef account with this uid. */
  predicate HasChefUid(u: User, uid: string) {
    exists a | a in u.accounts :: a.provider == ChefProvider && a.uid == uid
  }

  /** The user who already holds the Chef account `uid`, if any. */
  function ChefOwner(users: seq<User>, uid: string): (r: Option<nat>)
    ensures r.Some? ==> r.value < |users| && HasChefUid(users[r.value], uid)
    ensures r.None? ==> forall j | 0 <= j < |users| :: !HasChefUid(users[j], uid)
  {
    FirstUserFrom(users, 0, u => HasChefUid(u, uid))
  }

  predicate HasGithubLogin(u: User, login: string) {
    exists a | a in u.accounts :: a.provider == GithubProvider && a.username == login
  }

  /** `User.find_by_github_login`: None stands for the new, unsaved user returned when nobody matches. */
  function FindByGithubLogin(users: seq<User>, login: string): (r: Option<nat>)
    ensures r.Some? ==> r.value < |users| && HasGithubLogin(users[r.value], login)
    ensures r.Some? ==> forall j | 0 <= j < r.value :: !HasGithubLogin(users[j], login)
    ensures r.None? <==> forall j | 0 <= j < |users| :: !HasGithubLogin(users[j], login)
  {
    FirstUserFrom(users, 0, u => HasGithubLogin(u, login))
  }

  /** The Chef account a payload describes. */
  function ChefAccountFrom(auth: OAuthPayload): Account {
    Account(ChefProvider, auth.uid, auth.username, auth.token)
  }

  /** The user record refreshed from a Chef payload: names, email, key and the Chef account. */
  function Refreshed(u: User, auth: OAuthPayload): User {
    u.(firstName := auth.firstName, lastName := auth.lastName, email := auth.email,
       publicKey := auth.publicKey, accounts := UpsertAccount(u.accounts, ChefAccountFrom(auth)))
  }

  /** A new user created from a Chef payload, with its one Chef account. */
  function NewUser(id: nat, auth: OAuthPayload): User {
    User(id, auth.firstName, auth.lastName, auth.email, auth.publicKey, [ChefAccountFrom(auth)], [], [], [])
  }

  class UserDirectory {
    /** The users table; a user's id is its position. */
    var users: seq<User>

    ghost predicate Valid()
      reads this
    {
      forall i | 0 <= i < |users| ::
        users[i].id == i && !Text.Blank(users[i].email) && KeysUnique(users[i].accounts)
    }

    constructor ()
      ensures Valid() && users == []
    {
      users := [];
    }

    /**
     * `User.find_or_create_from_chef_oauth(auth)`: the user already holding the
     * Chef account `auth.uid` is refreshed from the payload; otherwise a new
     * user with exactly that one account is created. A blank email fails
     * validation and nothing is stored.
     */
    method FindOrCreateFromChefOAuth(auth: OAuthPayload) returns (r: Result<nat, ValidationError>)
      requires Valid()
      modifies this
      ensures Valid()
      ensures Text.Blank(auth.email) ==> r == Err(EmailBlank) && users == old(users)
      ensures !Text.Blank(auth.email) ==> r.Ok? && r.value < |users| && ChefOwner(users, auth.uid) == Some(r.value)
      ensures r.Ok? && old(ChefOwner(users, auth.uid)).None? ==>
        r.value == |old(users)| && users == old(users) + [NewUser(r.value, auth)]
      ensures r.Ok? && old(ChefOwner(users, auth.uid)).Some? ==>
        r.value == old(ChefOwner(users, auth.uid)).value
        && users == old(users)[r.value := Refreshed(old(users)[r.value], auth)]
    {
      if Text.Blank(auth.email) {
        return Err(EmailBlank);
      }
      var acct := ChefAccountFrom(auth);
      match ChefOwner(users, auth.uid)
      case None =>
        var id := |users|;
        var u := NewUser(id, auth);
        assert acct in u.accounts;
        assert KeysUnique(u.accounts);
        users := users + [u];
        assert HasChefUid(users[id], auth.uid);
        r := Ok(id);
      case Some(id) =>
        UpsertKeepsKeysUnique(users[id].accounts, acct);
        var u := Refreshed(users[id], auth);
        assert acct in u.accounts;
        ghost var before := users;
        users := users[id := u];
        assert forall j | 0 <= j < id :: users[j] == before[j];
        assert HasChefUid(users[id], auth.uid);
        r := Ok(id);
    }

    /**
     * `user.account_from_oauth(auth).save!`: stores the payload's account on
     * user `id`, overwriting the row with the same (provider, uid).
     */
    method SaveAccountFromOAuth(id: nat, auth: OAuthPayload)
      requires Valid() && id < |users|
      modifies this
      ensures Valid()
      ensures |users| == |old(users)|
      ensures users == old(users)[id := old(users)[id].(accounts := UpsertAccount(old(users)[id].accounts, AccountFromOAuth(auth)))]
      ensures AccountFromOAuth(auth) in users[id].accounts
      ensures auth.provider == GithubProvider ==> LinkedGithubAccount(users[id])
    {
      var u := users[id];
      UpsertKeepsKeysUnique(u.accounts, AccountFromOAuth(auth));
      users := users[id := u.(accounts := UpsertAccount(u.accounts, AccountFromOAuth(auth)))];
    }

    /** `user.accounts.destroy_all`: user `id` keeps its record but loses every linked account. */
    method DestroyAllAccounts(id: nat)
      requires Valid() && id < |users|
      modifies this
      ensures Valid()
      ensures users == old(users)[id := old(users)[id].(accounts := [])]
      ensures Username(users[id]) == "" && !LinkedGithubAccount(users[id])
    {
      users := users[id := users[id].(accounts := [])];
    }
  }

  /** Saving the same account twice leaves the accounts as saving it once. */
  lemma {:induction false} UpsertIdempotent(accounts: seq<Account>, a: Account)
    ensures UpsertAccount(UpsertAccount(accounts, a), a) == UpsertAccount(accounts, a)
  {
    if accounts != [] && !SameKey(accounts[0], a) {
      UpsertIdempotent(accounts[1..], a);
    }
  }
}
