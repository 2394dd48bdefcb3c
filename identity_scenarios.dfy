/**
 * The examples of the User model, replayed on the model with concrete users,
 * signatures, accounts and OAuth payloads.
 */
module IdentityScenarios {
  import opened Wrappers
  import opened Identity
  import Text

  /** `build(:user)`: a user with an email and nothing linked or signed. */
  function Plain(id: nat): User {
    User(id, "John", "Doe", "johndoe@example.com", "", [], [], [], [])
  }

  const OneYearAgo: Signature := Signature(1, -365)
  const OneMonthAgo: Signature := Signature(2, -30)

  lemma IclaSignature()
    ensures SignedIcla(Plain(0).(iclaSignatures := [OneYearAgo]))
    ensures !SignedIcla(Plain(0))
  {
    assert OneYearAgo in Plain(0).(iclaSignatures := [OneYearAgo]).iclaSignatures;
  }

  lemma CclaSignature()
    ensures SignedCcla(Plain(0).(cclaSignatures := [OneYearAgo]))
    ensures !SignedCcla(Plain(0))
  {
    assert OneYearAgo in Plain(0).(cclaSignatures := [OneYearAgo]).cclaSignatures;
  }

  /** Both agreements, a CCLA only, and neither. */
  lemma ClaSignature()
    ensures SignedCla(Plain(0).(iclaSignatures := [OneYearAgo], cclaSignatures := [OneMonthAgo]))
    ensures SignedCla(Plain(0).(cclaSignatures := [OneMonthAgo]))
    ensures !SignedCla(Plain(0))
  {
    assert OneMonthAgo in Plain(0).(cclaSignatures := [OneMonthAgo]).cclaSignatures;
  }

  /** Of a signature from a year ago and one from a month ago, the latter is the latest. */
  lemma LatestOfTwo()
    ensures LatestIclaSignature(Plain(0).(iclaSignatures := [OneYearAgo, OneMonthAgo])) == Some(OneMonthAgo)
  {
    assert [OneYearAgo, OneMonthAgo][..1] == [OneYearAgo];
  }

  lemma OrganizationAdmin()
    ensures AdminOfOrganization(Plain(0).(contributors := [Contributor(7, true)]), 7)
    ensures !AdminOfOrganization(Plain(0).(contributors := [Contributor(7, false)]), 7)
  {
    assert Contributor(7, true) in Plain(0).(contributors := [Contributor(7, true)]).contributors;
  }

  /** A user whose GitHub account is `joedoe`. */
  function JoeDoe(): User {
    Plain(0).(accounts := [Account(GithubProvider, "1", "joedoe", "token")])
  }

  lemma JoeDoeLogins()
    ensures GithubLogins(JoeDoe()) == {"joedoe"}
  {
    assert JoeDoe().accounts[0].provider == GithubProvider;
  }

  /** A commit author `joedoe` who signed a CLA is verified, not unverified. */
  lemma SignedAuthorIsVerified()
    ensures VerifiedCommitAuthorIdentities(JoeDoe(), [CommitAuthor("joedoe", true)]) == [CommitAuthor("joedoe", true)]
    ensures UnverifiedCommitAuthorIdentities(JoeDoe(), [CommitAuthor("joedoe", true)]) == []
  {
    JoeDoeLogins();
  }

  /** A commit author `joedoe` who has not signed a CLA is unverified, not verified. */
  lemma UnsignedAuthorIsUnverified()
    ensures VerifiedCommitAuthorIdentities(JoeDoe(), [CommitAuthor("joedoe", false)]) == []
    ensures UnverifiedCommitAuthorIdentities(JoeDoe(), [CommitAuthor("joedoe", false)]) == [CommitAuthor("joedoe", false)]
  {
    JoeDoeLogins();
  }

  lemma ChefUsername()
    ensures Username(Plain(0).(accounts := [Account(ChefProvider, "1", "fanny", "token")])) == "fanny"
  {
  }

  /** The user whose GitHub account has the login is found; an unknown login finds nobody. */
  lemma GithubLoginLookup()
    ensures FindByGithubLogin([Plain(0), JoeDoe().(id := 1)], "joedoe") == Some(1)
    ensures FindByGithubLogin([Plain(0), JoeDoe().(id := 1)], "trex") == None
  {
    var users := [Plain(0), JoeDoe().(id := 1)];
    assert HasGithubLogin(users[1], "joedoe") by {
      assert JoeDoe().accounts[0] in users[1].accounts;
    }
    assert !HasGithubLogin(users[0], "joedoe");
  }

  lemma GithubAccountFromOAuth()
    ensures AccountFromOAuth(GithubAuth) == Account(GithubProvider, "12345", "johndoe", "oauth_token")
  {
  }

  const ChefAuth: OAuthPayload :=
    OAuthPayload(ChefProvider, "123545", "johndoe", "oauth_token", "John", "Doe", "johndoe@example.com", "ssh-rsa key")

  lemma ChefAuthHasEmail()
    ensures !Text.Blank(ChefAuth.email)
  {
    assert !Text.IsSpace(ChefAuth.email[0]);
  }

  const GithubAuth: OAuthPayload :=
    OAuthPayload(GithubProvider, "12345", "johndoe", "oauth_token", "John", "Doe", "johndoe@example.com", "")

  /** The first Chef sign-in creates one user with the payload's details and exactly one account. */
  method FirstSignIn() returns (count: nat, u: User)
    ensures count == 1
    ensures u.firstName == "John" && u.lastName == "Doe" && u.email == "johndoe@example.com" && u.publicKey == "ssh-rsa key"
    ensures |u.accounts| == 1 && ChefAccount(u) == Some(Account(ChefProvider, "123545", "johndoe", "oauth_token"))
  {
    var d := new UserDirectory();
    ChefAuthHasEmail();
    var r := d.FindOrCreateFromChefOAuth(ChefAuth);
    count := |d.users|;
    u := d.users[r.value];
  }

  /** Signing in again with new names, key and token creates no user and overwrites them. */
  method RepeatedSignIn() returns (before: nat, after: nat, u: User)
    ensures before == 1 && after == 1
    ensures u.firstName == "Sous" && u.lastName == "Chef" && u.publicKey == "ssh-rsa blahblahblah"
    ensures ChefAccount(u) == Some(Account(ChefProvider, "123545", "johndoe", "cool_token"))
    ensures u.email == "johndoe@example.com"
  {
    var d := new UserDirectory();
    ChefAuthHasEmail();
    var first := d.FindOrCreateFromChefOAuth(ChefAuth);
    before := |d.users|;
    var newAuth := ChefAuth.(firstName := "Sous", lastName := "Chef", publicKey := "ssh-rsa blahblahblah", token := "cool_token");
    var r := d.FindOrCreateFromChefOAuth(newAuth);
    after := |d.users|;
    u := d.users[r.value];
  }

  /** Saving the GitHub account from a payload links GitHub. */
  method LinkGithub() returns (before: bool, after: bool)
    ensures !before && after
  {
    var d := new UserDirectory();
    ChefAuthHasEmail();
    var r := d.FindOrCreateFromChefOAuth(ChefAuth);
    before := LinkedGithubAccount(d.users[0]);
    d.SaveAccountFromOAuth(0, GithubAuth);
    after := LinkedGithubAccount(d.users[0]);
  }

  /** After all accounts are destroyed the username falls back to the empty string. */
  method UnlinkChefId() returns (before: string, after: string)
    ensures before == "johndoe" && after == ""
  {
    var d := new UserDirectory();
    ChefAuthHasEmail();
    var r := d.FindOrCreateFromChefOAuth(ChefAuth);
    before := Username(d.users[0]);
    d.DestroyAllAccounts(0);
    after := Username(d.users[0]);
  }

  /** A payload whose email is whitespace only is rejected like a missing one. */
  method WhitespaceEmail() returns (r: Result<nat, ValidationError>, count: nat)
    ensures r == Err(EmailBlank) && count == 0
  {
    var d := new UserDirectory();
    r := d.FindOrCreateFromChefOAuth(ChefAuth.(email := " \t"));
    count := |d.users|;
  }

  /** A payload without an email is rejected and no user is stored. */
  method BlankEmail() returns (r: Result<nat, ValidationError>, count: nat)
    ensures r == Err(EmailBlank) && count == 0
  {
    var d := new UserDirectory();
    r := d.FindOrCreateFromChefOAuth(ChefAuth.(email := ""));
    count := |d.users|;
  }
}
