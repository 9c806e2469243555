/**
 * Request sequences against a freshly created site, proved from the handlers' contracts alone:
 * what a caller of the store can rely on across several requests.
 */
module Scenarios {
  import opened Wrappers
  import opened Models
  import opened Auth
  import opened Media
  import opened App

  /**
   * A stand-in for the password library (not a real hash): a digest keeps the first 200 characters
   * of the password, so it verifies exactly the passwords that share those characters.
   */
  function Digest(pw: string): string
  {
    "$2b$12$" + if |pw| <= 200 then pw else pw[..200]
  }

  function StandInScheme(): (scheme: PasswordScheme)
    ensures Sound(scheme)
  {
    PasswordScheme(Digest, (h: string, pw: string) => h == Digest(pw))
  }

  /** A stand-in for a case-insensitive collation: ASCII letters compare without regard to case. */
  function IgnoreCase(s: string): string
  {
    if s == [] then []
    else [if 'A' <= s[0] <= 'Z' then (s[0] as int + 32) as char else s[0]] + IgnoreCase(s[1..])
  }

  /** A fresh site seeded twice: the first seed creates the default admin, the second finds it. */
  method SeedTwice() returns (site: Site, first: SeedOutcome, second: SeedOutcome)
    ensures fresh(site) && site.Valid() && site.scheme == StandInScheme() && site.collation == IgnoreCase
    ensures first == Created && second == AlreadyExists && site.session == Anonymous
    ensures site.admins == map[1 := AdminUser(DEFAULT_ADMIN_USERNAME, Digest(DEFAULT_ADMIN_PASSWORD))]
  {
    site := new Site(StandInScheme(), IgnoreCase);
    first := site.CreateAdmin();
    second := site.CreateAdmin();
  }

  /** Seeding twice creates the admin once; the default credentials then sign in and a wrong password does not. */
  method SeedTwiceThenLogin() returns (first: SeedOutcome, second: SeedOutcome, admins: nat, wrong: Reply, right: Reply, session: Session)
    ensures first == Created && second == AlreadyExists && admins == 1
    ensures wrong == Done(Some(InvalidCredentials)) && right == Done(None) && session == Authenticated(1)
  {
    var site;
    site, first, second := SeedTwice();
    admins := |site.admins|;
    assert Digest("guess") != Digest(DEFAULT_ADMIN_PASSWORD) by {
      assert Digest("guess")[7] != Digest(DEFAULT_ADMIN_PASSWORD)[7];
    }
    wrong := site.Login(Some(DEFAULT_ADMIN_USERNAME), Some("guess"));
    right := site.Login(Some(DEFAULT_ADMIN_USERNAME), Some(DEFAULT_ADMIN_PASSWORD));
    session := site.session;
  }

  /** Under a case-insensitive collation, "ADMIN" signs in as the seeded user "admin". */
  method LoginIgnoresCase() returns (reply: Reply, session: Session)
    ensures reply == Done(None) && session == Authenticated(1)
  {
    var site := new Site(StandInScheme(), IgnoreCase);
    var _ := site.CreateAdmin();
    assert site.admins == map[1 := AdminUser(DEFAULT_ADMIN_USERNAME, Digest(DEFAULT_ADMIN_PASSWORD))];
    assert IgnoreCase("ADMIN") == IgnoreCase(DEFAULT_ADMIN_USERNAME);
    reply := site.Login(Some("ADMIN"), Some(DEFAULT_ADMIN_PASSWORD));
    session := site.session;
  }

  /** A site signed in as the seeded admin. */
  method SignedInSite() returns (site: Site)
    ensures fresh(site) && site.Valid() && site.SignedIn()
    ensures site.projects == map[] && site.clients == map[] && site.contacts == map[] && site.subscribers == map[]
    ensures site.nextProjectId == 1 && site.nextClientId == 1 && site.nextContactId == 1 && site.nextSubscriberId == 1
  {
    site := new Site(StandInScheme(), IgnoreCase);
    var _ := site.CreateAdmin();
    var _ := site.Login(Some(DEFAULT_ADMIN_USERNAME), Some(DEFAULT_ADMIN_PASSWORD));
  }

  /** One admin request that adds a project: one more row, every other table as it was. */
  method AddProject(site: Site, name: string, description: string)
    requires site.Valid() && site.SignedIn() && |name| <= NAME_MAX
    modifies site
    ensures site.Valid() && site.SignedIn()
    ensures |site.projects| == |old(site.projects)| + 1
    ensures site.clients == old(site.clients) && site.contacts == old(site.contacts) && site.subscribers == old(site.subscribers)
  {
    var _ := site.CreateProject(Some(name), Some(description), None);
  }

  /** One admin request that adds a client: one more row, every other table as it was. */
  method AddClient(site: Site, name: string)
    requires site.Valid() && site.SignedIn() && |name| <= NAME_MAX
    modifies site
    ensures site.Valid() && site.SignedIn()
    ensures |site.clients| == |old(site.clients)| + 1
    ensures site.projects == old(site.projects) && site.contacts == old(site.contacts) && site.subscribers == old(site.subscribers)
  {
    var _ := site.CreateClient(Some(name), None, None, None);
  }

  /** After three projects, two clients, one contact message and no subscriber, the dashboard shows 3/2/1/0. */
  method DashboardCountsRows() returns (counts: Option<Counts>)
    ensures counts == Some(Counts(3, 2, 1, 0))
  {
    var site := SignedInSite();
    AddProject(site, "Site Redesign", "Full revamp");
    AddProject(site, "Storefront", "New shop");
    AddProject(site, "Blog", "Content hub");
    AddClient(site, "Acme");
    AddClient(site, "Globex");
    var _ := site.Contact(Some("Ann Lee"), Some("ann@example.com"), None, None);
    counts := site.Dashboard();
  }

  /** A second subscription with the same email is refused and exactly one subscriber remains. */
  method SubscribeTwice(email: string) returns (first: Reply, second: Reply, rows: nat)
    requires email != "" && |email| <= EMAIL_MAX
    ensures first == Done(Some(Subscribed)) && second == Done(Some(AlreadySubscribedOrInvalid)) && rows == 1
  {
    var site := new Site(StandInScheme(), IgnoreCase);
    first := site.Subscribe(Some(email));
    second := site.Subscribe(Some(email));
    rows := |site.subscribers|;
  }

  /** Under a case-insensitive collation, an email differing only in letter case counts as already subscribed. */
  method SubscribeCaseVariant() returns (first: Reply, second: Reply, rows: nat)
    ensures first == Done(Some(Subscribed)) && second == Done(Some(AlreadySubscribedOrInvalid)) && rows == 1
  {
    var site := new Site(StandInScheme(), IgnoreCase);
    first := site.Subscribe(Some("a@x.io"));
    assert site.subscribers == map[1 := NewsletterSubscriber("a@x.io")];
    assert IgnoreCase("A@x.io") == IgnoreCase("a@x.io");
    second := site.Subscribe(Some("A@x.io"));
    rows := |site.subscribers|;
  }

  /** An email that fills its column, followed by any number of spaces, is stored without them. */
  method SubscribePaddedEmail(email: string, n: nat) returns (reply: Reply, stored: string)
    requires email != "" && |email| == EMAIL_MAX
    ensures reply == Done(Some(Subscribed)) && stored == email
  {
    var site := new Site(StandInScheme(), IgnoreCase);
    var padded := email + Spaces(n);
    assert padded[..EMAIL_MAX] == email;
    assert Storable(padded, EMAIL_MAX) by {
      forall i | EMAIL_MAX <= i < |padded| ensures padded[i] == ' ' {
        assert padded[i] == Spaces(n)[i - EMAIL_MAX];
      }
    }
    reply := site.Subscribe(Some(padded));
    stored := site.subscribers[1].email;
  }

  /** An email too long by a character that is not a space is refused and nothing is stored. */
  method SubscribeOverlongEmail(email: string) returns (reply: Reply, rows: nat)
    requires email != "" && !Storable(email, EMAIL_MAX)
    ensures reply == Rejected(ValueTooLong) && rows == 0
  {
    var site := new Site(StandInScheme(), IgnoreCase);
    reply := site.Subscribe(Some(email));
    rows := |site.subscribers|;
  }

  /** A project created without an image has none; once deleted, editing it is NotFound. */
  method CreateDeleteEdit() returns (image: Option<string>, deleted: Reply, edited: Reply)
    ensures image == None && deleted == Done(Some(ProjectDeleted)) && edited == NotFound
  {
    var site := SignedInSite();
    var _ := site.CreateProject(Some("Site Redesign"), Some("Full revamp"), None);
    image := site.projects[1].image;
    deleted := site.DeleteProject(1);
    edited := site.EditProject(1, Some("Site Redesign"), Some("Second pass"), None);
  }

  /** Editing a client without a new file keeps its stored image; with one, the image is replaced. */
  method EditClientImage() returns (kept: Option<string>, replaced: Option<string>)
    ensures kept == Some("logo.png") && replaced == Some("logo-v2.png")
  {
    var site := SignedInSite();
    var _ := site.CreateClient(Some("Acme"), Some("CTO"), Some("Long-time client"), Some(Upload("logo.png")));
    var _ := site.EditClient(1, Some("Acme Corp"), Some("CTO"), None, Some(Upload("")));
    kept := site.clients[1].image;
    var _ := site.EditClient(1, Some("Acme Corp"), Some("CTO"), None, Some(Upload("logo-v2.png")));
    replaced := site.clients[1].image;
  }

  /** An anonymous request to create a project is sent to the login page and inserts nothing. */
  method AnonymousCreate() returns (reply: Reply, rows: nat)
    ensures reply == RedirectToLogin && rows == 0
  {
    var site := new Site(StandInScheme(), IgnoreCase);
    reply := site.CreateProject(Some("Site Redesign"), Some("Full revamp"), None);
    rows := |site.projects|;
  }
}
