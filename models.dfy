/**
 * The five entities of the content store and their column constraints.
 *
 * Each table is a `map<int, Row>` keyed by the row's integer primary key, so a row value
 * holds only the remaining columns and ids are unique within a table by construction.
 * A nullable column is an `Option<string>`; a `String(n)` column holds at most n characters;
 * a `Text` column has no declared bound. A `String(n)` (VARCHAR) value longer than n is stored
 * as its first n characters when everything past them is spaces (the database drops the excess
 * trailing spaces with a warning, in every SQL mode); otherwise strict mode refuses the row.
 */
module Models {
  import opened Wrappers

  const USERNAME_MAX := 50
  const PASSWORD_HASH_MAX := 255
  const IMAGE_MAX := 255
  const NAME_MAX := 100
  const DESIGNATION_MAX := 100
  const FULL_NAME_MAX := 100
  const EMAIL_MAX := 100
  const MOBILE_MAX := 20
  const CITY_MAX := 100

  datatype AdminUser = AdminUser(username: string, passwordHash: string)
  datatype Project = Project(image: Option<string>, name: string, description: string)
  datatype Client = Client(image: Option<string>, name: string, designation: Option<string>, description: Option<string>)
  datatype ContactMessage = ContactMessage(fullName: string, email: string, mobile: Option<string>, city: Option<string>)
  datatype NewsletterSubscriber = NewsletterSubscriber(email: string)

  /**
   * The collation of the string columns, given as the key it compares values by: the database
   * takes two strings as equal, in a lookup and in a unique index, exactly when their keys are
   * equal. MySQL's default collations ignore letter case, so "Ann@x.io" and "ann@x.io" share a key.
   */
  type Collation = string -> string

  /** Why the database refuses to store a row. */
  datatype Fault =
    | NullInRequiredColumn  // a NOT NULL column was given no value (an integrity error)
    | ValueTooLong          // a String(n) column was given more than n characters, not all of the excess spaces (a data error)
    | DuplicateKey          // a unique index already holds a value equal under the collation (an integrity error)

  /** A nullable String(max) column's value is within its bound. */
  predicate Fits(v: Option<string>, max: nat)
  {
    v.None? || |v.value| <= max
  }

  /** `n` space characters. */
  function Spaces(n: nat): (s: string)
    ensures |s| == n && forall i :: 0 <= i < n ==> s[i] == ' '
  {
    seq(n, _ => ' ')
  }

  /** Whether a String(max) column takes `v`: every character past the first `max` is a space. */
  predicate Storable(v: string, max: nat)
  {
    forall i :: max <= i < |v| ==> v[i] == ' '
  }

  /** The value a String(max) column stores for a value it takes: the excess trailing spaces dropped. */
  function Stored(v: string, max: nat): (s: string)
    ensures |s| <= max && |s| <= |v| && s == v[..|s|]
    ensures |v| <= max ==> s == v
    ensures |v| > max ==> |s| == max
    ensures Storable(v, max) <==> v == s + Spaces(|v| - |s|)
  {
    if |v| <= max then v else v[..max]
  }

  /** Whether a nullable String(max) column takes `v`. */
  predicate Admits(v: Option<string>, max: nat)
  {
    v.None? || Storable(v.value, max)
  }

  /** The value a nullable String(max) column stores for `v`. */
  function StoredOption(v: Option<string>, max: nat): (s: Option<string>)
    ensures s.None? <==> v.None?
    ensures s.Some? ==> s.value == Stored(v.value, max)
    ensures Fits(s, max)
  {
    match v
    case None => None
    case Some(x) => Some(Stored(x, max))
  }

  predicate AdminUserFits(u: AdminUser)
  {
    |u.username| <= USERNAME_MAX && |u.passwordHash| <= PASSWORD_HASH_MAX
  }

  predicate ProjectFits(p: Project)
  {
    Fits(p.image, IMAGE_MAX) && |p.name| <= NAME_MAX
  }

  predicate ClientFits(c: Client)
  {
    Fits(c.image, IMAGE_MAX) && |c.name| <= NAME_MAX && Fits(c.designation, DESIGNATION_MAX)
  }

  predicate ContactMessageFits(m: ContactMessage)
  {
    |m.fullName| <= FULL_NAME_MAX && |m.email| <= EMAIL_MAX && Fits(m.mobile, MOBILE_MAX) && Fits(m.city, CITY_MAX)
  }

  predicate SubscriberFits(s: NewsletterSubscriber)
  {
    |s.email| <= EMAIL_MAX
  }

  /** The admin_users table: rows fit their columns and no two rows share a username under the collation. */
  predicate AdminTable(key: Collation, m: map<int, AdminUser>)
  {
    && (forall id :: id in m ==> AdminUserFits(m[id]))
    && (forall a, b :: a in m && b in m && key(m[a].username) == key(m[b].username) ==> a == b)
  }

  predicate ProjectTable(m: map<int, Project>)
  {
    forall id :: id in m ==> ProjectFits(m[id])
  }

  predicate ClientTable(m: map<int, Client>)
  {
    forall id :: id in m ==> ClientFits(m[id])
  }

  predicate ContactTable(m: map<int, ContactMessage>)
  {
    forall id :: id in m ==> ContactMessageFits(m[id])
  }

  /**
   * The newsletter_subscribers table: rows fit their columns, no two rows share an email under
   * the collation, and (because the only writer inserts non-empty addresses) no email is empty.
   */
  predicate SubscriberTable(key: Collation, m: map<int, NewsletterSubscriber>)
  {
    && (forall id :: id in m ==> SubscriberFits(m[id]) && m[id].email != "")
    && (forall a, b :: a in m && b in m && key(m[a].email) == key(m[b].email) ==> a == b)
  }

  /** The fault the database reports for a row, given whether a NOT NULL column is null and whether every bounded column fits; a null is reported first. */
  function FirstFault(anyNull: bool, allFit: bool): (f: Option<Fault>)
    ensures f.None? <==> !anyNull && allFit
    ensures anyNull ==> f == Some(NullInRequiredColumn)
    ensures !anyNull && !allFit ==> f == Some(ValueTooLong)
  {
    if anyNull then Some(NullInRequiredColumn)
    else if !allFit then Some(ValueTooLong)
    else None
  }

  /**
   * The projects row the database stores for submitted form values, or why it refuses it:
   * `name` and `description` are NOT NULL, `name` is String(100), `image` is a nullable String(255).
   */
  function NewProject(image: Option<string>, name: Option<string>, description: Option<string>): (r: Result<Project, Fault>)
    ensures r.Ok? <==> name.Some? && description.Some? && Storable(name.value, NAME_MAX) && Admits(image, IMAGE_MAX)
    ensures r.Ok? ==> r.value == Project(StoredOption(image, IMAGE_MAX), Stored(name.value, NAME_MAX), description.value)
    ensures r.Ok? ==> ProjectFits(r.value)
    ensures (name.None? || description.None?) ==> r == Err(NullInRequiredColumn)
  {
    match FirstFault(name.None? || description.None?, Admits(name, NAME_MAX) && Admits(image, IMAGE_MAX))
    case Some(f) => Err(f)
    case None => Ok(Project(StoredOption(image, IMAGE_MAX), Stored(name.value, NAME_MAX), description.value))
  }

  /**
   * The clients row for submitted values: only `name` is NOT NULL (String(100));
   * `image` String(255), `designation` String(100) and `description` Text are nullable.
   */
  function NewClient(image: Option<string>, name: Option<string>, designation: Option<string>, description: Option<string>): (r: Result<Client, Fault>)
    ensures r.Ok? <==> name.Some? && Storable(name.value, NAME_MAX) && Admits(image, IMAGE_MAX) && Admits(designation, DESIGNATION_MAX)
    ensures r.Ok? ==> r.value == Client(StoredOption(image, IMAGE_MAX), Stored(name.value, NAME_MAX),
                                        StoredOption(designation, DESIGNATION_MAX), description)
    ensures r.Ok? ==> ClientFits(r.value)
    ensures name.None? ==> r == Err(NullInRequiredColumn)
  {
    match FirstFault(name.None?, Admits(name, NAME_MAX) && Admits(image, IMAGE_MAX) && Admits(designation, DESIGNATION_MAX))
    case Some(f) => Err(f)
    case None => Ok(Client(StoredOption(image, IMAGE_MAX), Stored(name.value, NAME_MAX), StoredOption(designation, DESIGNATION_MAX), description))
  }

  /**
   * The contact_messages row for submitted values: `full_name` and `email` are NOT NULL String(100),
   * `mobile` a nullable String(20), `city` a nullable String(100).
   */
  function NewContactMessage(fullName: Option<string>, email: Option<string>, mobile: Option<string>, city: Option<string>): (r: Result<ContactMessage, Fault>)
    ensures r.Ok? <==> fullName.Some? && email.Some? && Storable(fullName.value, FULL_NAME_MAX) && Storable(email.value, EMAIL_MAX)
                       && Admits(mobile, MOBILE_MAX) && Admits(city, CITY_MAX)
    ensures r.Ok? ==> r.value == ContactMessage(Stored(fullName.value, FULL_NAME_MAX), Stored(email.value, EMAIL_MAX),
                                                StoredOption(mobile, MOBILE_MAX), StoredOption(city, CITY_MAX))
    ensures r.Ok? ==> ContactMessageFits(r.value)
    ensures (fullName.None? || email.None?) ==> r == Err(NullInRequiredColumn)
  {
    match FirstFault(fullName.None? || email.None?,
                     Admits(fullName, FULL_NAME_MAX) && Admits(email, EMAIL_MAX) && Admits(mobile, MOBILE_MAX) && Admits(city, CITY_MAX))
    case Some(f) => Err(f)
    case None => Ok(ContactMessage(Stored(fullName.value, FULL_NAME_MAX), Stored(email.value, EMAIL_MAX),
                                   StoredOption(mobile, MOBILE_MAX), StoredOption(city, CITY_MAX)))
  }

  /** The newsletter_subscribers row for an address: `email` is String(100). */
  function NewSubscriber(email: string): (r: Result<NewsletterSubscriber, Fault>)
    ensures r.Ok? <==> Storable(email, EMAIL_MAX)
    ensures r.Ok? ==> r.value.email == Stored(email, EMAIL_MAX) && SubscriberFits(r.value)
    ensures r.Err? ==> r.error == ValueTooLong
  {
    if Storable(email, EMAIL_MAX) then Ok(NewsletterSubscriber(Stored(email, EMAIL_MAX))) else Err(ValueTooLong)
  }
}
