# Marketing-site content store, modelled in Dafny

This project models the backend of a small business marketing site. The public side has
projects and clients listings, a contact form and a newsletter signup. An admin panel behind a
login manages projects and clients, shows contact messages and subscribers, and has a
dashboard of row counts. A command-line seed creates the default admin account.

The model replaces the web framework and the relational database with one object, `App.Site`.
It holds:

- five tables, each a `map<int, Row>` keyed by the integer primary key: admin users, projects,
  clients, contact messages and newsletter subscribers;
- one id counter per table, starting at 1 and never going back, like MySQL's auto-increment,
  so a deleted id is not handed out again within one server run (MySQL 5.7 recomputes the
  counter from the largest id at a restart); the counters are unbounded here (see "Left out");
- the browser session, `Anonymous` or `Authenticated(userId)`.

Each request handler is a method on `Site`. Its contract states what it returns, how it changes
the tables and the session, and what it leaves as it was. Every method keeps the store invariant
`Site.Valid()`. That invariant says:

- every row fits its columns (`Models.AdminTable`, `ProjectTable`, `ClientTable`,
  `ContactTable`, `SubscriberTable`);
- usernames are unique, and subscriber emails are unique and non-empty, both under the collation;
- every id is below its table's counter;
- an authenticated session names an existing admin user.

What the database does on commit is modelled by the `Models.New*` functions. The connection
string in `config.py` selects MySQL. In its (default) strict mode, a NULL in a NOT NULL column
is an integrity error, and a `String(n)` value longer than n is a data error unless everything
past its first n characters is spaces. Those excess trailing spaces are dropped with a warning
in every SQL mode, and the row is stored (`Models.Stored`). On an error the transaction is
then rolled back. The handlers do not catch either error, so the request fails: the model's
`Reply.Rejected(fault)`, with every table unchanged.

The password library is a value `Auth.PasswordScheme(hash, check)`. The model relies only on
`Auth.Sound`: a hash verifies against its own plaintext and fits the 255-character column.
`Scenarios` holds request sequences on a fresh site, each proved from the handlers' contracts:

- seeding twice, then logging in;
- the 3/2/1/0 dashboard;
- a duplicate subscription, and one that differs only in letter case;
- an email padded with spaces past its column, and one too long by a non-space character;
- logging in with the username in another letter case;
- delete, then edit;
- keeping or replacing a client's image;
- an anonymous create.

Files: `wrappers.dfy` (Option, Result), `models.dfy`, `tables.dfy`, `auth.dfy`, `media.dfy`,
`app.dfy`, `scenarios.dfy`.

Facts about the source that the model follows:

- Usernames and subscriber emails stay unique because the handlers look before they insert
  (`app.py:33`, `app.py:84`). The lookup compares the submitted email, but the row holds the
  stored one, with excess trailing spaces dropped. When the collation does not ignore trailing
  spaces, the stored email can equal an existing one although the submitted one did not. The
  unique index at `models.py:38` then refuses the row (`Fault.DuplicateKey`). No other
  unique-constraint error can arise. Login's lookup
  (`app.py:100`) relies on that uniqueness: at most one user matches.
- Those lookups and the unique indexes compare strings under the columns' collation. MySQL's
  default collations ignore letter case. The model makes the collation a parameter of the site,
  `Models.Collation`: a key function, where two strings are equal to the database exactly when
  their keys are. `Scenarios` uses a case-ignoring key, and under it "ADMIN" signs in as "admin"
  and "A@x.io" counts as already subscribed when "a@x.io" is.
- A database error on commit is not turned into a user-facing message. It escapes the handler.
- `contact` (`app.py:63-75`) stores the form values unvalidated. A missing full name or email
  is refused by the NOT NULL columns.

## Model

| member | source | states |
|---|---|---|
| Models.Stored | models.py:16 | the value a String(n) column stores has at most n characters and is a prefix of the submitted value, equal to it when that fits; the submitted value is the stored one followed by spaces exactly when the column takes it (nothing but spaces past n) |
| Models.StoredOption | models.py:15 | a nullable String(n) column stores null for null and otherwise the stored form of the value, which fits the column |
| Models.NewProject | models.py:12-17 | a project row is stored exactly when name and description are present, and name (String(100)) and the optional image (String(255)) have nothing but spaces past their bounds; the row holds the submitted description and the stored forms of name and image; a missing required value is a NOT NULL fault |
| Models.NewClient | models.py:19-25 | a client row is stored exactly when name is present and name, image and designation have nothing but spaces past 100, 255 and 100 characters; designation and description may be null; the row holds the stored forms of the submitted values |
| Models.NewContactMessage | models.py:27-33 | a contact message is stored exactly when full name and email are present and full name, email, mobile and city have nothing but spaces past 100, 100, 20 and 100 characters; the row holds the stored forms of the submitted values |
| Models.NewSubscriber | models.py:35-38 | a subscriber row is stored exactly when the email has nothing but spaces past 100 characters, and then holds the stored email; any other email is a ValueTooLong fault |
| Models.AdminTable | models.py:6-10 | every admin row has a username of at most 50 characters and a password hash of at most 255, and no two rows have usernames equal under the collation |
| Models.ProjectTable | models.py:12-17 | every project row has a name of at most 100 characters and an image, when present, of at most 255 |
| Models.ClientTable | models.py:19-25 | every client row has a name of at most 100 characters, an image of at most 255 and a designation of at most 100 when present |
| Models.ContactTable | models.py:27-33 | every contact message has a full name and email of at most 100 characters, a mobile of at most 20 and a city of at most 100 when present |
| Models.SubscriberTable | models.py:35-38 | every subscriber email is non-empty with at most 100 characters, and no two are equal under the collation |
| Tables.FindFirst | app.py:84 | the result is the least id in the range whose row matches; none means no row in the range matches |
| Tables.First | app.py:100 | a whole-table query resolves to a matching row with no matching row of smaller id, and to none exactly when no row matches; on the unique columns it is queried on, at most one row matches, so which one `.first()` returns cannot be observed |
| Auth.Authenticate | app.py:98-101 | a login authenticates a user only if both fields are present, the user's username equals the submitted one under the collation and the password verifies against its hash; and it does authenticate whenever such a user exists |
| Media.SaveImage | app.py:132-139 | no filename when the file is missing or its filename is empty; otherwise exactly the client's filename |
| Media.EditedImage | app.py:173-176 | an edit takes the new upload's filename when one with a non-empty filename came, and keeps the current image otherwise |
| App.AcceptsEmail | app.py:83-84 | a subscription is accepted exactly when the email is present, non-empty and equal under the collation to no subscriber's email |
| App.EmailTaken | models.py:38 | true exactly when some subscriber's email equals the given one under the collation, as the unique index compares |
| App.HasAdmin | app.py:33 | true exactly when some admin user's username equals the given one under the collation |
| App.Site.Valid | models.py:6-38 | the store invariant every handler keeps: each table satisfies its table predicate, every id is below its table's counter, the password scheme is sound, and an authenticated session names an existing admin |
| App.Site.constructor | app.py:23-27 | a new schema has five empty tables, counters at 1, an anonymous session, and satisfies the store invariant |
| App.Site.CreateAdmin | app.py:29-40 | if a user "admin" (under the collation) exists nothing changes; otherwise exactly one user "admin" with the hash of "admin123" is added under a fresh id; afterwards a user "admin" exists and usernames stay unique |
| App.Site.Contact | app.py:60-77 | a contact message the columns admit is added under a fresh id and nothing else changes; otherwise the store is unchanged and the fault is reported |
| App.Site.Subscribe | app.py:81-91 | a missing or empty email, or one already subscribed under the collation, leaves the store unchanged and flashes the shared "already subscribed or invalid" message; any other email is Rejected(ValueTooLong) with nothing changed when it has a non-space character past 100, Rejected(DuplicateKey) with nothing changed when its stored form equals an existing email under the collation, and otherwise added as one subscriber under a fresh id in its stored form; emails stay unique |
| App.Site.Login | app.py:95-105 | the session becomes Authenticated(id) for the user the credentials authenticate; on bad credentials the session is left as it was and "Invalid credentials" is flashed; no table changes |
| App.Site.Logout | app.py:107-111 | the session ends Anonymous and no table changes; an anonymous request is redirected to login |
| App.Site.Dashboard | app.py:115-128 | on a signed-in session, the four counts equal the numbers of projects, clients, contact messages and subscribers; none on an anonymous one; nothing changes |
| App.Site.CreateProject | app.py:149-164 | on an anonymous session nothing changes; otherwise an admitted project is added under a fresh id, its image the uploaded filename or none, every existing row unchanged |
| App.Site.EditProject | app.py:166-180 | on an anonymous session nothing changes; a missing id is NotFound with nothing changed; otherwise, when the edited row fits its columns, name and description become the submitted values, the image changes only for an upload with a filename, and only that row changes; when it does not (a missing name or description is NULL in a NOT NULL column, or a value is too long) the request is Rejected with that fault and nothing changes |
| App.Site.DeleteProject | app.py:182-189 | a missing id is NotFound with nothing changed; otherwise exactly that project is removed and every other row and table is unchanged |
| App.Site.CreateClient | app.py:199-225 | on an anonymous session nothing changes; otherwise an admitted client is added under a fresh id, its image the uploaded filename or none, every existing row unchanged |
| App.Site.EditClient | app.py:228-248 | on an anonymous session nothing changes; a missing id is NotFound with nothing changed; otherwise, when the edited row fits its columns, name, designation and description become the submitted values, the image changes only for an upload with a filename, and only that row changes; when it does not (a missing name is NULL in a NOT NULL column, or a value is too long) the request is Rejected with that fault and nothing changes |
| App.Site.DeleteClient | app.py:250-257 | a missing id is NotFound with nothing changed; otherwise exactly that client is removed and every other row and table is unchanged |
| Scenarios.SeedTwiceThenLogin | app.py:29-40 | seeding twice creates one admin; the default credentials then sign in and a wrong password is refused |
| Scenarios.LoginIgnoresCase | app.py:100-102 | under a case-ignoring collation, "ADMIN" with the default password signs in as the seeded "admin" |
| Scenarios.SubscribeCaseVariant | app.py:84 | under a case-ignoring collation, an email differing only in case from a subscribed one is refused and one row remains |
| Scenarios.DashboardCountsRows | app.py:115-128 | after three projects, two clients, one contact message and no subscriber, the dashboard reports 3/2/1/0 |
| Scenarios.SubscribeTwice | app.py:81-91 | a second subscription with the same email is refused and exactly one subscriber row exists |
| Scenarios.SubscribePaddedEmail | app.py:84-88 | an email that fills its 100-character column, followed by any number of spaces, is subscribed and stored without the spaces |
| Scenarios.SubscribeOverlongEmail | app.py:84-88 | an email with a non-space character past 100 is refused as too long and nothing is stored |
| Scenarios.CreateDeleteEdit | app.py:182-189 | a project created without an image has none; after its deletion an edit of its id is NotFound |
| Scenarios.EditClientImage | app.py:236-239 | an edit without a new file keeps the client's image; an edit with a named file replaces it |
| Scenarios.AnonymousCreate | app.py:149-151 | an anonymous create request is redirected to login and inserts nothing |

## Left out

- Routing, templates, `flash` rendering and redirects are not modelled. A handler's outcome is
  the `App.Reply` value, and the flashed text is the `App.Flash` value.
- The login guard's own flash (flask-login's default "Please log in to access this page.",
  as `app.py:14-15` sets no other) is not modelled: `App.Reply.RedirectToLogin` carries no
  message.
- The GET branches of the form handlers are not modelled: they only render a form. The same
  goes for the public and admin listing pages (`index`, `public_projects`, `public_clients`,
  `admin_projects`, `admin_clients`, `admin_contacts`, `admin_subscribers`). Each renders a
  whole table and changes no state.
- `load_user` is not modelled. The session holds the user id, and the invariant says that id
  names an existing admin, which is what the loader would find.
- Password hashing is reduced to two functions fixed when the site is created. The bcrypt salt
  and cost factor are not modelled, so hashing is deterministic here. The model does not assume
  that a hash rejects every other password.
- Auth.Authenticate: a login form without a password, for an existing username, raises an error
  in the password library in the source. The model treats it as a failed login. Either way the
  session and the tables are unchanged.
- `save_image`'s filesystem effects are I/O and are not modelled: creating the upload
  directory, writing the file, overwriting a same-named file, and trusting the client's filename
  as a path. Only the returned name is modelled. The file is written even when the following
  commit is refused. A failed write is not modelled either: `file.save` (`app.py:138`) raises
  when, say, the filename names a subdirectory missing under the upload folder, and the request
  then fails before its commit with no row written, where the model stores the row.
- In the database, an insert that is rolled back may still use up an auto-increment id. In the
  model, a counter moves only on a successful insert. Within one server run, neither hands out
  an id twice.
- The id counters are unbounded `int`s here. The id columns are `db.Integer`, MySQL's signed
  32-bit `INT`: once a table's auto-increment reaches 2147483647, the next insert into it fails,
  while in the model every admitted insert succeeds.
- The columns' character set is not modelled. Strings are any sequences of characters. If the
  database's character set cannot hold a submitted character (latin1, the MySQL 5.7 default, and
  most non-Latin text), strict mode refuses the row. The model stores it.
- `Text` columns (project and client descriptions) are unbounded here. MySQL's 65,535-byte
  limit for them is not modelled.
- Which fault is reported when a row has both a NULL and an over-long value is modelled as the
  NULL first. A non-strict MySQL mode, which would also truncate non-space characters instead
  of refusing the row, is not modelled.
- No particular collation is fixed. The site takes the collation's key as a parameter.
  `Scenarios.IgnoreCase` stands in for one and folds only ASCII letters. MySQL's default
  collations also ignore accents, and some ignore trailing spaces. A real key would have to
  state each of those rules.
- Concurrent requests are not modelled, including two simultaneous inserts of the same username
  or email that only the database's unique index would separate. Each handler runs as one atomic step.
- `create-db` is modelled only on a fresh database (the constructor). On an existing one it
  changes nothing.
- CLI printing, `app.run`, and `config.py` (environment loading, secret key, connection string,
  upload folder) are not modelled.
