/**
 * The request handlers of the marketing site and its admin panel, as methods on one object
 * holding the five tables, their id counters and the browser session. A handler that the
 * login guard protects does nothing on an anonymous session but send the browser to the login
 * page. A handler whose new or edited row the database refuses (a NULL in a NOT NULL column,
 * an over-long string) leaves every table as it was: the transaction is rolled back.
 */
module App {
  import opened Wrappers
  import opened Models
  import opened Tables
  import opened Auth
  import opened Media

  /** The confirmation messages the handlers flash. */
  datatype Flash =
    | ContactReceived | Subscribed | AlreadySubscribedOrInvalid | InvalidCredentials
    | ProjectCreated | ProjectUpdated | ProjectDeleted
    | ClientCreated | ClientUpdated | ClientDeleted

  /** How a handler ends, short of the page it renders. */
  datatype Reply =
    | Done(flash: Option<Flash>)  // the handler ran to completion
    | RedirectToLogin             // the login guard turned an anonymous session away
    | NotFound                    // no row has the requested id (HTTP 404)
    | Rejected(fault: Fault)      // the database refused the row; nothing was written

  /** The outcome of seeding the default admin account. */
  datatype SeedOutcome = AlreadyExists | Created

  /** The row counts the admin dashboard shows. */
  datatype Counts = Counts(projects: nat, clients: nat, contacts: nat, subscribers: nat)

  /** Every table and counter of the store, as one value, to say what a handler leaves alone. */
  datatype Db = Db(
    admins: map<int, AdminUser>, projects: map<int, Project>, clients: map<int, Client>,
    contacts: map<int, ContactMessage>, subscribers: map<int, NewsletterSubscriber>,
    nextAdminId: int, nextProjectId: int, nextClientId: int, nextContactId: int, nextSubscriberId: int)

  const DEFAULT_ADMIN_USERNAME := "admin"
  const DEFAULT_ADMIN_PASSWORD := "admin123"

  /** Whether some subscriber's email equals the given one under the column collation. */
  function EmailTaken(subscribers: map<int, NewsletterSubscriber>, nextId: int, key: Collation, email: string): (taken: bool)
    requires IdsBelow(subscribers, nextId)
    ensures taken <==> exists id :: id in subscribers && key(subscribers[id].email) == key(email)
  {
    First(subscribers, nextId, (s: NewsletterSubscriber) => key(s.email) == key(email)).Some?
  }

  /**
   * A subscribe form is accepted when it carries a non-empty email that no subscriber has yet,
   * comparing addresses under the column collation.
   */
  function AcceptsEmail(subscribers: map<int, NewsletterSubscriber>, nextId: int, key: Collation, email: Option<string>): (ok: bool)
    requires IdsBelow(subscribers, nextId)
    ensures ok <==> email.Some? && email.value != ""
                    && forall id :: id in subscribers ==> key(subscribers[id].email) != key(email.value)
  {
    email.Some? && email.value != "" && !EmailTaken(subscribers, nextId, key, email.value)
  }

  /** Whether an admin user exists whose username equals the given one under the column collation. */
  function HasAdmin(admins: map<int, AdminUser>, nextId: int, key: Collation, username: string): (found: bool)
    requires IdsBelow(admins, nextId)
    ensures found <==> exists id :: id in admins && key(admins[id].username) == key(username)
  {
    First(admins, nextId, (u: AdminUser) => key(u.username) == key(username)).Some?
  }

  class Site {
    var admins: map<int, AdminUser>
    var projects: map<int, Project>
    var clients: map<int, Client>
    var contacts: map<int, ContactMessage>
    var subscribers: map<int, NewsletterSubscriber>
    var nextAdminId: int
    var nextProjectId: int
    var nextClientId: int
    var nextContactId: int
    var nextSubscriberId: int
    var session: Session
    const scheme: PasswordScheme
    const collation: Collation

    /** The store invariant: counters above every id, rows within their columns, unique keys, a session bound to a real user. */
    ghost predicate Valid()
      reads this
    {
      && Sound(scheme)
      && IdsBelow(admins, nextAdminId) && IdsBelow(projects, nextProjectId) && IdsBelow(clients, nextClientId)
      && IdsBelow(contacts, nextContactId) && IdsBelow(subscribers, nextSubscriberId)
      && AdminTable(collation, admins) && ProjectTable(projects) && ClientTable(clients)
      && ContactTable(contacts) && SubscriberTable(collation, subscribers)
      && (session.Authenticated? ==> session.userId in admins)
    }

    ghost function Data(): Db
      reads this
    {
      Db(admins, projects, clients, contacts, subscribers,
         nextAdminId, nextProjectId, nextClientId, nextContactId, nextSubscriberId)
    }

    /** Whether the login guard lets a request through. */
    predicate SignedIn()
      reads this
    {
      session.Authenticated?
    }

    /** A freshly created schema: every table empty, every counter at 1, nobody signed in. */
    constructor (scheme: PasswordScheme, collation: Collation)
      requires Sound(scheme)
      ensures Valid() && this.scheme == scheme && this.collation == collation && session == Anonymous
      ensures Data() == Db(map[], map[], map[], map[], map[], 1, 1, 1, 1, 1)
    {
      this.scheme := scheme;
      this.collation := collation;
      admins, projects, clients, contacts, subscribers := map[], map[], map[], map[], map[];
      nextAdminId, nextProjectId, nextClientId, nextContactId, nextSubscriberId := 1, 1, 1, 1, 1;
      session := Anonymous;
    }

    /**
     * Seeds the default admin account. If a user named "admin" (under the collation) exists nothing changes;
     * otherwise exactly one user "admin" with the hash of the default password is added.
     */
    method CreateAdmin() returns (outcome: SeedOutcome)
      requires Valid()
      modifies this
      ensures Valid() && session == old(session)
      ensures outcome == AlreadyExists <==>
        exists id :: id in old(admins) && collation(old(admins)[id].username) == collation(DEFAULT_ADMIN_USERNAME)
      ensures outcome == AlreadyExists ==> Data() == old(Data())
      ensures outcome == Created ==>
        Data() == old(Data()).(admins := old(admins)[old(nextAdminId) := AdminUser(DEFAULT_ADMIN_USERNAME, scheme.hash(DEFAULT_ADMIN_PASSWORD))],
                               nextAdminId := old(nextAdminId) + 1)
      ensures exists id :: id in admins && collation(admins[id].username) == collation(DEFAULT_ADMIN_USERNAME)
    {
      if HasAdmin(admins, nextAdminId, collation, DEFAULT_ADMIN_USERNAME) {
        return AlreadyExists;
      }
      var admin := AdminUser(DEFAULT_ADMIN_USERNAME, scheme.hash(DEFAULT_ADMIN_PASSWORD));
      admins := admins[nextAdminId := admin];
      assert admins[nextAdminId].username == DEFAULT_ADMIN_USERNAME;
      nextAdminId := nextAdminId + 1;
      outcome := Created;
    }

    /** Stores a contact form's values as a new contact message, unvalidated beyond the table's columns. */
    method Contact(fullName: Option<string>, email: Option<string>, mobile: Option<string>, city: Option<string>) returns (reply: Reply)
      requires Valid()
      modifies this
      ensures Valid() && session == old(session)
      ensures var row := NewContactMessage(fullName, email, mobile, city);
        && (row.Ok? ==> reply == Done(Some(ContactReceived))
                        && Data() == old(Data()).(contacts := old(contacts)[old(nextContactId) := row.value],
                                                  nextContactId := old(nextContactId) + 1))
        && (row.Err? ==> reply == Rejected(row.error) && Data() == old(Data()))
    {
      var row := NewContactMessage(fullName, email, mobile, city);
      if row.Err? {
        return Rejected(row.error);
      }
      contacts := contacts[nextContactId := row.value];
      nextContactId := nextContactId + 1;
      reply := Done(Some(ContactReceived));
    }

    /**
     * Adds a newsletter subscriber when the email is non-empty and not yet subscribed (under the collation);
     * otherwise changes nothing and reports one message for both failure causes. The unique index
     * refuses a stored email (trailing spaces past the column dropped) that equals an existing one.
     */
    method Subscribe(email: Option<string>) returns (reply: Reply)
      requires Valid()
      modifies this
      ensures Valid() && session == old(session)
      ensures !AcceptsEmail(old(subscribers), old(nextSubscriberId), collation, email) ==>
        reply == Done(Some(AlreadySubscribedOrInvalid)) && Data() == old(Data())
      ensures AcceptsEmail(old(subscribers), old(nextSubscriberId), collation, email) ==>
        var row := NewSubscriber(email.value);
        && (row.Ok? && !EmailTaken(old(subscribers), old(nextSubscriberId), collation, row.value.email) ==>
              reply == Done(Some(Subscribed))
              && Data() == old(Data()).(subscribers := old(subscribers)[old(nextSubscriberId) := row.value],
                                        nextSubscriberId := old(nextSubscriberId) + 1))
        && (row.Ok? && EmailTaken(old(subscribers), old(nextSubscriberId), collation, row.value.email) ==>
              reply == Rejected(DuplicateKey) && Data() == old(Data()))
        && (row.Err? ==> reply == Rejected(row.error) && Data() == old(Data()))
    {
      if !AcceptsEmail(subscribers, nextSubscriberId, collation, email) {
        return Done(Some(AlreadySubscribedOrInvalid));
      }
      var row := NewSubscriber(email.value);
      if row.Err? {
        return Rejected(row.error);
      }
      if EmailTaken(subscribers, nextSubscriberId, collation, row.value.email) {
        return Rejected(DuplicateKey);
      }
      subscribers := subscribers[nextSubscriberId := row.value];
      nextSubscriberId := nextSubscriberId + 1;
      reply := Done(Some(Subscribed));
    }

    /** Binds the session to the user the credentials authenticate; on bad credentials the session is left as it was. */
    method Login(username: Option<string>, password: Option<string>) returns (reply: Reply)
      requires Valid()
      modifies this
      ensures Valid() && Data() == old(Data())
      ensures var user := Authenticate(old(admins), old(nextAdminId), collation, scheme, username, password);
        && (user.Some? ==> session == Authenticated(user.value) && reply == Done(None))
        && (user.None? ==> session == old(session) && reply == Done(Some(InvalidCredentials)))
    {
      var user := Authenticate(admins, nextAdminId, collation, scheme, username, password);
      if user.None? {
        return Done(Some(InvalidCredentials));
      }
      session := Authenticated(user.value);
      reply := Done(None);
    }

    /** Ends the session; the guard sends an already anonymous session to the login page. */
    method Logout() returns (reply: Reply)
      requires Valid()
      modifies this
      ensures Valid() && Data() == old(Data()) && session == Anonymous
      ensures reply == if old(SignedIn()) then Done(None) else RedirectToLogin
    {
      if !SignedIn() {
        return RedirectToLogin;
      }
      session := Anonymous;
      reply := Done(None);
    }

    /** The dashboard's four row counts, read without changing anything; none on an anonymous session. */
    method Dashboard() returns (counts: Option<Counts>)
      ensures counts.Some? <==> SignedIn()
      ensures counts.Some? ==> counts.value == Counts(|projects|, |clients|, |contacts|, |subscribers|)
    {
      if !SignedIn() {
        return None;
      }
      counts := Some(Counts(|projects|, |clients|, |contacts|, |subscribers|));
    }

    /** Adds a project under a fresh id; its image is the uploaded filename, or none without an upload. */
    method CreateProject(name: Option<string>, description: Option<string>, image: Option<Upload>) returns (reply: Reply)
      requires Valid()
      modifies this
      ensures Valid() && session == old(session)
      ensures !old(SignedIn()) ==> reply == RedirectToLogin && Data() == old(Data())
      ensures old(SignedIn()) ==>
        var row := NewProject(SaveImage(image), name, description);
        && (row.Ok? ==> reply == Done(Some(ProjectCreated)) && old(nextProjectId) !in old(projects)
                        && Data() == old(Data()).(projects := old(projects)[old(nextProjectId) := row.value],
                                                  nextProjectId := old(nextProjectId) + 1))
        && (row.Err? ==> reply == Rejected(row.error) && Data() == old(Data()))
    {
      if !SignedIn() {
        return RedirectToLogin;
      }
      var row := NewProject(SaveImage(image), name, description);
      if row.Err? {
        return Rejected(row.error);
      }
      projects := projects[nextProjectId := row.value];
      nextProjectId := nextProjectId + 1;
      reply := Done(Some(ProjectCreated));
    }

    /**
     * Overwrites a project's name and description with the submitted values; its image changes
     * only when a file with a filename was uploaded. A missing id is NotFound and changes nothing.
     * The route matches only non-negative ids, so `id` is a `nat`.
     */
    method EditProject(id: nat, name: Option<string>, description: Option<string>, image: Option<Upload>) returns (reply: Reply)
      requires Valid()
      modifies this
      ensures Valid() && session == old(session)
      ensures !old(SignedIn()) ==> reply == RedirectToLogin && Data() == old(Data())
      ensures old(SignedIn()) && id !in old(projects) ==> reply == NotFound && Data() == old(Data())
      ensures old(SignedIn()) && id in old(projects) ==>
        var row := NewProject(EditedImage(old(projects)[id].image, image), name, description);
        && (row.Ok? ==> reply == Done(Some(ProjectUpdated)) && Data() == old(Data()).(projects := old(projects)[id := row.value]))
        && (row.Err? ==> reply == Rejected(row.error) && Data() == old(Data()))
    {
      if !SignedIn() {
        return RedirectToLogin;
      }
      if id !in projects {
        return NotFound;
      }
      var row := NewProject(EditedImage(projects[id].image, image), name, description);
      if row.Err? {
        return Rejected(row.error);
      }
      projects := projects[id := row.value];
      reply := Done(Some(ProjectUpdated));
    }

    /** Removes exactly the project with the given id; a missing id is NotFound and changes nothing. */
    method DeleteProject(id: nat) returns (reply: Reply)
      requires Valid()
      modifies this
      ensures Valid() && session == old(session)
      ensures !old(SignedIn()) ==> reply == RedirectToLogin && Data() == old(Data())
      ensures old(SignedIn()) && id !in old(projects) ==> reply == NotFound && Data() == old(Data())
      ensures old(SignedIn()) && id in old(projects) ==>
        reply == Done(Some(ProjectDeleted)) && Data() == old(Data()).(projects := old(projects) - {id})
    {
      if !SignedIn() {
        return RedirectToLogin;
      }
      if id !in projects {
        return NotFound;
      }
      projects := projects - {id};
      reply := Done(Some(ProjectDeleted));
    }

    /** Adds a client under a fresh id; its image is the uploaded filename, or none without an upload. */
    method CreateClient(name: Option<string>, designation: Option<string>, description: Option<string>, image: Option<Upload>)
      returns (reply: Reply)
      requires Valid()
      modifies this
      ensures Valid() && session == old(session)
      ensures !old(SignedIn()) ==> reply == RedirectToLogin && Data() == old(Data())
      ensures old(SignedIn()) ==>
        var row := NewClient(SaveImage(image), name, designation, description);
        && (row.Ok? ==> reply == Done(Some(ClientCreated)) && old(nextClientId) !in old(clients)
                        && Data() == old(Data()).(clients := old(clients)[old(nextClientId) := row.value],
                                                  nextClientId := old(nextClientId) + 1))
        && (row.Err? ==> reply == Rejected(row.error) && Data() == old(Data()))
    {
      if !SignedIn() {
        return RedirectToLogin;
      }
      var row := NewClient(SaveImage(image), name, designation, description);
      if row.Err? {
        return Rejected(row.error);
      }
      clients := clients[nextClientId := row.value];
      nextClientId := nextClientId + 1;
      reply := Done(Some(ClientCreated));
    }

    /**
     * Overwrites a client's name, designation and description with the submitted values; its
     * image changes only when a file with a filename was uploaded. A missing id is NotFound.
     */
    method EditClient(id: nat, name: Option<string>, designation: Option<string>, description: Option<string>, image: Option<Upload>)
      returns (reply: Reply)
      requires Valid()
      modifies this
      ensures Valid() && session == old(session)
      ensures !old(SignedIn()) ==> reply == RedirectToLogin && Data() == old(Data())
      ensures old(SignedIn()) && id !in old(clients) ==> reply == NotFound && Data() == old(Data())
      ensures old(SignedIn()) && id in old(clients) ==>
        var row := NewClient(EditedImage(old(clients)[id].image, image), name, designation, description);
        && (row.Ok? ==> reply == Done(Some(ClientUpdated)) && Data() == old(Data()).(clients := old(clients)[id := row.value]))
        && (row.Err? ==> reply == Rejected(row.error) && Data() == old(Data()))
    {
      if !SignedIn() {
        return RedirectToLogin;
      }
      if id !in clients {
        return NotFound;
      }
      var row := NewClient(EditedImage(clients[id].image, image), name, designation, description);
      if row.Err? {
        return Rejected(row.error);
      }
      clients := clients[id := row.value];
      reply := Done(Some(ClientUpdated));
    }

    /** Removes exactly the client with the given id; a missing id is NotFound and changes nothing. */
    method DeleteClient(id: nat) returns (reply: Reply)
      requires Valid()
      modifies this
      ensures Valid() && session == old(session)
      ensures !old(SignedIn()) ==> reply == RedirectToLogin && Data() == old(Data())
      ensures old(SignedIn()) && id !in old(clients) ==> reply == NotFound && Data() == old(Data())
      ensures old(SignedIn()) && id in old(clients) ==>
        reply == Done(Some(ClientDeleted)) && Data() == old(Data()).(clients := old(clients) - {id})
    {
      if !SignedIn() {
        return RedirectToLogin;
      }
      if id !in clients {
        return NotFound;
      }
      clients := clients - {id};
      reply := Done(Some(ClientDeleted));
    }
  }
}
