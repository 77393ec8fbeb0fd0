/** Users and the two ways the application finds them: the password login
    lookup (`MyUserDetailsService`) and the Google login that finds, links or
    creates the local user (`CustomOAuth2UserService`). */
module Users {
  import opened Base

  /** A `users` row. The id is null until the row is first saved. Besides the
      entity's declared columns, the OAuth flow reads and writes a Google id. */
  datatype User = User(
    id: Option<int>,
    username: Option<string>,
    email: Option<string>,
    password: Option<string>,
    googleId: Option<string>,
    registrationDate: Option<int>)

  /** The saved rows in insertion order, and the next identity value. */
  datatype UserStore = UserStore(rows: seq<User>, nextId: int)

  /** The columns declared `nullable = false`. */
  predicate ColumnsHold(u: User) {
    u.username.Some? && u.email.Some? && u.password.Some? && u.registrationDate.Some?
  }

  predicate StoredIds(st: UserStore) {
    && (forall i :: 0 <= i < |st.rows| ==> st.rows[i].id.Some? && st.rows[i].id.value < st.nextId)
    && (forall i, j :: 0 <= i < j < |st.rows| ==> st.rows[i].id != st.rows[j].id)
  }

  predicate UniqueUsernames(rows: seq<User>) {
    forall i, j :: 0 <= i < j < |rows| ==> rows[i].username != rows[j].username
  }

  predicate UniqueEmails(rows: seq<User>) {
    forall i, j :: 0 <= i < j < |rows| ==> rows[i].email != rows[j].email
  }

  /** No two rows share a Google id (rows without one are exempt). */
  predicate UniqueGoogleIds(rows: seq<User>) {
    forall i, j :: 0 <= i < j < |rows| && rows[i].googleId.Some? ==> rows[i].googleId != rows[j].googleId
  }

  /** The store the database and the login flow maintain: identities, the
      declared non-null and unique columns, and one row per Google id. */
  predicate Valid(st: UserStore) {
    && StoredIds(st)
    && (forall i :: 0 <= i < |st.rows| ==> ColumnsHold(st.rows[i]))
    && UniqueUsernames(st.rows)
    && UniqueEmails(st.rows)
    && UniqueGoogleIds(st.rows)
  }

  // ---------------------------------------------------------------- lookups

  /** `findByUsername`: the row with that username, if any. */
  function FindByUsername(st: UserStore, name: string): Option<nat> {
    FirstIndex(st.rows, (u: User) => u.username == Some(name))
  }

  /** `findByEmail`; a null argument looks for rows whose email is null. */
  function FindByEmail(st: UserStore, email: Option<string>): Option<nat> {
    FirstIndex(st.rows, (u: User) => u.email == email)
  }

  function FindByGoogleId(st: UserStore, googleId: string): Option<nat> {
    FirstIndex(st.rows, (u: User) => u.googleId == Some(googleId))
  }

  /** In a valid store a lookup finds the one row that matches. */
  lemma FindsTheOnlyUsername(st: UserStore, name: string, j: nat)
    requires Valid(st) && j < |st.rows| && st.rows[j].username == Some(name)
    ensures FindByUsername(st, name) == Some(j)
  {
    var i := FindByUsername(st, name).value;
    assert i <= j && st.rows[i].username == st.rows[j].username;
  }

  lemma FindsTheOnlyEmail(st: UserStore, email: string, j: nat)
    requires Valid(st) && j < |st.rows| && st.rows[j].email == Some(email)
    ensures FindByEmail(st, Some(email)) == Some(j)
  {
    var i := FindByEmail(st, Some(email)).value;
    assert i <= j && st.rows[i].email == st.rows[j].email;
  }

  lemma FindsTheOnlyGoogleId(st: UserStore, googleId: string, j: nat)
    requires Valid(st) && j < |st.rows| && st.rows[j].googleId == Some(googleId)
    ensures FindByGoogleId(st, googleId) == Some(j)
  {
    var i := FindByGoogleId(st, googleId).value;
    assert i <= j && st.rows[i].googleId == st.rows[j].googleId;
  }

  // ------------------------------------------------------------ user details

  /** Spring Security's `User`: username, password and authorities. */
  datatype UserDetails = UserDetails(username: string, password: string, authorities: seq<string>)

  datatype UserFault =
    | UsernameNotFound(message: string)
    | IllegalArgument
    | SaveFailed(message: string)
    | CommitFailed                    // a constraint broken by an update, raised when the transaction commits

  const NotFoundPrefix: string := "未找到用户: "
  const SaveFailedMessage: string := "保存或更新用户失败。"

  /** The `User` constructor: a null or empty username, or a null password,
      is refused. */
  function Details(u: User): (r: Result<UserDetails, UserFault>)
    ensures r.Ok? <==> u.username.Some? && u.username.value != "" && u.password.Some?
    ensures r.Ok? ==> r.value == UserDetails(u.username.value, u.password.value, [])
    ensures r.Err? ==> r.error == IllegalArgument
  {
    if u.username.None? || u.username.value == "" || u.password.None? then Err(IllegalArgument)
    else Ok(UserDetails(u.username.value, u.password.value, []))
  }

  /** `loadUserByUsername`: the row with that username, else the row with
      that email, else "not found"; the details are the stored user's. */
  function LoadUserByUsername(st: UserStore, name: string): (r: Result<UserDetails, UserFault>)
    ensures FindByUsername(st, name).Some? ==> r == Details(st.rows[FindByUsername(st, name).value])
    ensures FindByUsername(st, name).None? && FindByEmail(st, Some(name)).Some? ==>
      r == Details(st.rows[FindByEmail(st, Some(name)).value])
    ensures r == Err(UsernameNotFound(NotFoundPrefix + name)) <==>
      FindByUsername(st, name).None? && FindByEmail(st, Some(name)).None?
    ensures r.Ok? ==> r.value.authorities == []
  {
    match FindByUsername(st, name)
    case Some(i) => Details(st.rows[i])
    case None =>
      match FindByEmail(st, Some(name))
      case Some(i) => Details(st.rows[i])
      case None => Err(UsernameNotFound(NotFoundPrefix + name))
  }

  /** Logging in by email yields the stored username, not the text typed,
      and the stored password hash. */
  lemma EmailLoginGivesStoredName(st: UserStore, email: string, j: nat)
    requires Valid(st) && j < |st.rows| && st.rows[j].email == Some(email)
    requires forall i :: 0 <= i < |st.rows| ==> st.rows[i].username != Some(email)
    requires st.rows[j].username.value != ""
    ensures LoadUserByUsername(st, email) == Ok(UserDetails(st.rows[j].username.value, st.rows[j].password.value, []))
  {
    FindsTheOnlyEmail(st, email, j);
  }

  /** A username match wins over an email match on another row. */
  lemma UsernameBeforeEmail(st: UserStore, name: string, j: nat, k: nat)
    requires Valid(st) && j < |st.rows| && k < |st.rows| && j != k
    requires st.rows[j].username == Some(name) && st.rows[k].email == Some(name)
    ensures LoadUserByUsername(st, name) == Details(st.rows[j])
    ensures LoadUserByUsername(st, name) != Details(st.rows[k])
  {
    FindsTheOnlyUsername(st, name, j);
    assert st.rows[j].username != st.rows[k].username;
  }

  // ------------------------------------------------------------------- save

  /** Whether a row other than `except` already holds `u`'s username or email. */
  predicate Clashes(rows: seq<User>, u: User, except: Option<nat>) {
    exists j :: 0 <= j < |rows| && Some(j) != except && (rows[j].username == u.username || rows[j].email == u.email)
  }

  /** `save`: a new user (null id) is inserted with the next id; a stored
      one replaces its row. The non-null and unique columns are enforced.
      Identities come from the database, so an insert runs at once and its
      failure is caught and re-thrown with the save message; an update is
      only flushed when the transaction commits, after the method's own
      `try`, so its failure escapes without that message. */
  function Save(st: UserStore, u: User, at: Option<nat>): (r: Result<(User, UserStore), UserFault>)
    requires at.Some? ==> at.value < |st.rows|
    ensures r.Err? <==> !ColumnsHold(u) || Clashes(st.rows, u, at)
    ensures r.Err? && at.None? ==> r.error == SaveFailed(SaveFailedMessage)
    ensures r.Err? && at.Some? ==> r.error == CommitFailed
    ensures r.Ok? && at.None? ==>
      r.value.0 == u.(id := Some(st.nextId)) && r.value.1 == UserStore(st.rows + [r.value.0], st.nextId + 1)
    ensures r.Ok? && at.Some? ==>
      r.value.0 == u && r.value.1 == UserStore(st.rows[at.value := u], st.nextId)
  {
    if !ColumnsHold(u) || Clashes(st.rows, u, at) then
      if at.None? then Err(SaveFailed(SaveFailedMessage)) else Err(CommitFailed)
    else match at
      case None =>
        var saved := u.(id := Some(st.nextId));
        Ok((saved, UserStore(st.rows + [saved], st.nextId + 1)))
      case Some(i) => Ok((u, UserStore(st.rows[i := u], st.nextId)))
  }

  // ------------------------------------------------------------------ OAuth

  /** What the provider's user service returned: the subject (`getName`),
      the `email` and `name` attributes (either may be absent) and all
      attributes. */
  datatype ProviderUser = ProviderUser(subject: string, email: Option<string>, name: Option<string>, attributes: map<string, string>)

  /** `CustomOAuth2User`: the local user and the provider's attributes. */
  datatype CustomOAuth2User = CustomOAuth2User(user: User, attributes: map<string, string>) {
    /** `getName`: the user's Google id. */
    function Name(): Option<string> {
      user.googleId
    }

    /** `getAuthorities`: always empty. */
    function Authorities(): seq<string> {
      []
    }
  }

  /** The display name, or the email when the provider gave none. */
  function DisplayName(p: ProviderUser): Option<string> {
    if p.name.Some? then p.name else p.email
  }

  /** How a login went: matched by Google id, linked by email, or created. */
  datatype LoginBranch = Refreshed | Linked | Created

  function Branch(st: UserStore, p: ProviderUser): LoginBranch {
    if FindByGoogleId(st, p.subject).Some? then Refreshed
    else if FindByEmail(st, p.email).Some? then Linked
    else Created
  }

  /** `loadUser`: find by Google id and refresh email and name; else find by
      email and link the Google id; else create the user. Exactly one save;
      the method is transactional, so a failed save changes nothing. */
  function LoadUser(st: UserStore, p: ProviderUser, now: int): (r: Result<(CustomOAuth2User, UserStore), UserFault>)
    ensures r.Err? && Branch(st, p) == Created ==> r.error == SaveFailed(SaveFailedMessage)
    ensures r.Err? && Branch(st, p) != Created ==> r.error == CommitFailed
    ensures r.Ok? ==> r.value.0.Name() == Some(p.subject) && r.value.0.Authorities() == []
    ensures r.Ok? ==> r.value.0.attributes == p.attributes
    ensures r.Ok? ==> |r.value.1.rows| == |st.rows| + (if Branch(st, p) == Created then 1 else 0)
    ensures r.Ok? && Branch(st, p) == Refreshed ==>
      var i := FindByGoogleId(st, p.subject).value;
      && r.value.0.user == st.rows[i].(email := p.email, username := DisplayName(p))
      && r.value.1 == UserStore(st.rows[i := r.value.0.user], st.nextId)
    ensures r.Ok? && Branch(st, p) == Linked ==>
      var i := FindByEmail(st, p.email).value;
      && r.value.0.user == st.rows[i].(googleId := Some(p.subject))
      && r.value.1 == UserStore(st.rows[i := r.value.0.user], st.nextId)
    ensures r.Ok? && Branch(st, p) == Created ==>
      r.value.0.user == User(Some(st.nextId), DisplayName(p), p.email, Some(""), Some(p.subject), Some(now))
      && r.value.1.rows == st.rows + [r.value.0.user]
  {
    var saved :=
      match FindByGoogleId(st, p.subject)
      case Some(i) => Save(st, st.rows[i].(email := p.email, username := DisplayName(p)), Some(i))
      case None =>
        match FindByEmail(st, p.email)
        case Some(i) => Save(st, st.rows[i].(googleId := Some(p.subject)), Some(i))
        case None => Save(st, User(None, DisplayName(p), p.email, Some(""), Some(p.subject), Some(now)), None);
    match saved
    case Err(e) => Err(e)
    case Ok((u, st')) => Ok((CustomOAuth2User(u, p.attributes), st'))
  }

  /** A returning Google user whose new display name is another user's
      username: the refreshed row breaks the unique username, and the
      failure surfaces at commit, not as the save message. */
  lemma RenameClashFailsAtCommit(st: UserStore, p: ProviderUser, now: int, i: nat, j: nat)
    requires Valid(st) && i < |st.rows| && j < |st.rows| && i != j
    requires st.rows[i].googleId == Some(p.subject)
    requires st.rows[j].username == DisplayName(p)
    ensures LoadUser(st, p, now) == Err(CommitFailed)
  {
    FindsTheOnlyGoogleId(st, p.subject, i);
    var u := st.rows[i].(email := p.email, username := DisplayName(p));
    assert st.rows[j].username == u.username;
    assert Clashes(st.rows, u, Some(i));
  }

  /** Replacing a row by one that keeps its id and clashes with no other
      row keeps the store valid, provided no other row has its Google id. */
  lemma ReplaceKeepsValid(st: UserStore, i: nat, u: User)
    requires Valid(st) && i < |st.rows|
    requires u.id == st.rows[i].id && ColumnsHold(u) && !Clashes(st.rows, u, Some(i))
    requires u.googleId.Some? ==> forall j :: 0 <= j < |st.rows| && j != i ==> st.rows[j].googleId != u.googleId
    ensures Valid(UserStore(st.rows[i := u], st.nextId))
  {
    var rows := st.rows[i := u];
    forall a, b | 0 <= a < b < |rows|
      ensures rows[a].username != rows[b].username && rows[a].email != rows[b].email
    {
      if a == i {
        assert !(st.rows[b].username == u.username || st.rows[b].email == u.email);
      } else if b == i {
        assert !(st.rows[a].username == u.username || st.rows[a].email == u.email);
      }
    }
  }

  /** Appending a row with a fresh id that clashes with no row keeps the
      store valid, provided no row has its Google id. */
  lemma AppendKeepsValid(st: UserStore, u: User)
    requires Valid(st) && u.id == Some(st.nextId) && ColumnsHold(u) && !Clashes(st.rows, u, None)
    requires u.googleId.Some? ==> forall j :: 0 <= j < |st.rows| ==> st.rows[j].googleId != u.googleId
    ensures Valid(UserStore(st.rows + [u], st.nextId + 1))
  {
    var rows := st.rows + [u];
    forall a, b | 0 <= a < b < |rows|
      ensures rows[a].username != rows[b].username && rows[a].email != rows[b].email
    {
      if b == |st.rows| {
        assert !(st.rows[a].username == u.username || st.rows[a].email == u.email);
      }
    }
  }

  /** A successful login keeps the store valid: in particular it never
      gives a second row the same Google id. */
  lemma LoadUserKeepsValid(st: UserStore, p: ProviderUser, now: int)
    requires Valid(st) && LoadUser(st, p, now).Ok?
    ensures Valid(LoadUser(st, p, now).value.1)
  {
    match FindByGoogleId(st, p.subject)
    case Some(i) =>
      ReplaceKeepsValid(st, i, st.rows[i].(email := p.email, username := DisplayName(p)));
    case None =>
      match FindByEmail(st, p.email)
      case Some(i) =>
        ReplaceKeepsValid(st, i, st.rows[i].(googleId := Some(p.subject)));
      case None =>
        AppendKeepsValid(st, User(Some(st.nextId), DisplayName(p), p.email, Some(""), Some(p.subject), Some(now)));
  }

  /** After a successful login the Google id leads to the returned user, so
      the next login by the same account takes the refresh branch. */
  lemma NextLoginRefreshes(st: UserStore, p: ProviderUser, now: int)
    requires Valid(st) && LoadUser(st, p, now).Ok?
    ensures var (principal, st') := LoadUser(st, p, now).value;
      && FindByGoogleId(st', p.subject).Some?
      && st'.rows[FindByGoogleId(st', p.subject).value] == principal.user
      && Branch(st', p) == Refreshed
  {
    LoadUserKeepsValid(st, p, now);
    var (principal, st') := LoadUser(st, p, now).value;
    var j: nat :=
      match FindByGoogleId(st, p.subject)
      case Some(i) => i
      case None => (match FindByEmail(st, p.email) case Some(i) => i case None => |st.rows|);
    assert j < |st'.rows| && st'.rows[j] == principal.user;
    FindsTheOnlyGoogleId(st', p.subject, j);
  }

  /** A first Google login whose email, display name and subject are all
      new creates the local user. */
  lemma FirstLoginCreates(st: UserStore, p: ProviderUser, now: int)
    requires Valid(st) && p.email.Some?
    requires forall j :: 0 <= j < |st.rows| ==>
      st.rows[j].googleId != Some(p.subject) && st.rows[j].email != p.email && st.rows[j].username != DisplayName(p)
    ensures Branch(st, p) == Created
    ensures LoadUser(st, p, now).Ok?
    ensures LoadUser(st, p, now).value.1.rows == st.rows + [LoadUser(st, p, now).value.0.user]
  {
    var u := User(None, DisplayName(p), p.email, Some(""), Some(p.subject), Some(now));
    assert !Clashes(st.rows, u, None);
  }

  /** A returning Google user is refreshed in place when the new email and
      display name clash with no other row. */
  lemma ReturningLoginRefreshes(st: UserStore, p: ProviderUser, now: int, i: nat)
    requires Valid(st) && i < |st.rows| && p.email.Some?
    requires st.rows[i].googleId == Some(p.subject)
    requires forall j :: 0 <= j < |st.rows| && j != i ==>
      st.rows[j].email != p.email && st.rows[j].username != DisplayName(p)
    ensures LoadUser(st, p, now).Ok?
    ensures var (principal, st') := LoadUser(st, p, now).value;
      && principal.user == st.rows[i].(email := p.email, username := DisplayName(p))
      && st'.rows == st.rows[i := principal.user]
  {
    FindsTheOnlyGoogleId(st, p.subject, i);
    var u := st.rows[i].(email := p.email, username := DisplayName(p));
    assert !Clashes(st.rows, u, Some(i));
  }

  /** In a valid store, linking a Google account to the user with the same
      email always succeeds: only the Google id changes. */
  lemma LinkingSucceeds(st: UserStore, p: ProviderUser, now: int, i: nat)
    requires Valid(st) && i < |st.rows| && st.rows[i].email == p.email
    requires forall j :: 0 <= j < |st.rows| ==> st.rows[j].googleId != Some(p.subject)
    ensures Branch(st, p) == Linked
    ensures LoadUser(st, p, now).Ok?
    ensures var (principal, st') := LoadUser(st, p, now).value;
      && principal.user == st.rows[i].(googleId := Some(p.subject))
      && st'.rows == st.rows[i := principal.user]
  {
    FindsTheOnlyEmail(st, p.email.value, i);
    var u := st.rows[i].(googleId := Some(p.subject));
    assert !Clashes(st.rows, u, Some(i)) by {
      forall j | 0 <= j < |st.rows| && j != i
        ensures !(st.rows[j].username == u.username || st.rows[j].email == u.email)
      {
        if j < i {
          assert st.rows[j].username != st.rows[i].username && st.rows[j].email != st.rows[i].email;
        } else {
          assert st.rows[i].username != st.rows[j].username && st.rows[i].email != st.rows[j].email;
        }
      }
    }
  }
}
