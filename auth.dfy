/** Sessions and password checking for the admin panel. */
module Auth {
  import opened Wrappers
  import opened Models
  import opened Tables

  /** What a browser session is bound to: nobody, or the admin user with this id. */
  datatype Session = Anonymous | Authenticated(userId: int)

  /**
   * The password library, taken as given: `hash` turns a plaintext into a stored hash and
   * `check(storedHash, plaintext)` verifies a plaintext against one.
   */
  datatype PasswordScheme = PasswordScheme(hash: string -> string, check: (string, string) -> bool)

  /** What the model relies on of the library: a hash verifies against its own plaintext and fits its column. */
  ghost predicate Sound(scheme: PasswordScheme)
  {
    forall pw :: scheme.check(scheme.hash(pw), pw) && |scheme.hash(pw)| <= PASSWORD_HASH_MAX
  }

  /**
   * The user a login form authenticates: the admin user whose username equals the submitted one
   * under the column collation, provided the submitted password verifies against that user's
   * stored hash. A missing field fails.
   */
  function Authenticate(admins: map<int, AdminUser>, nextId: int, key: Collation, scheme: PasswordScheme,
                        username: Option<string>, password: Option<string>): (r: Option<int>)
    requires IdsBelow(admins, nextId) && AdminTable(key, admins)
    ensures r.Some? ==> username.Some? && password.Some? && r.value in admins
                        && key(admins[r.value].username) == key(username.value)
                        && scheme.check(admins[r.value].passwordHash, password.value)
    ensures (username.Some? && password.Some? &&
             exists id :: id in admins && key(admins[id].username) == key(username.value)
                          && scheme.check(admins[id].passwordHash, password.value)) ==> r.Some?
  {
    if username.None? || password.None? then None
    else
      match First(admins, nextId, (u: AdminUser) => key(u.username) == key(username.value))
      case None => None
      case Some(id) => if scheme.check(admins[id].passwordHash, password.value) then Some(id) else None
  }
}
