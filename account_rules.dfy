/** The account rules of `UserService` as functions on the stores they touch:
    the user table (`UserMapper`, with its lookups by id, name and email) and
    the Redis entries for cached users and login tickets.

    Each operation maps the stores before the call to a `Reply`: the stores
    after the call and what the Java call returns or throws.  The class in
    module `UserService` performs the same operations in place. */
module AccountRules {
  import opened Common

  datatype User = User(
    id: int,
    username: string,
    password: string,
    salt: string,
    email: string,
    userType: int,
    status: int,
    activationCode: string,
    headerUrl: string,
    createTime: int)

  datatype LoginTicket = LoginTicket(userId: int, ticket: string, status: int, expired: int)

  /** The fields of the `User` argument of `register` that it reads; it
      overwrites the others. */
  datatype UserForm = UserForm(username: string, password: string, email: string)

  datatype Accounts = Accounts(
    users: map<int, User>,             // the user table, by id
    idByName: map<string, int>,        // the table's lookup by username
    idByEmail: map<string, int>,       // the table's lookup by email
    nextId: int,                       // the key the next insert generates
    userCache: map<int, User>,         // Redis: the cached user under "user:<id>"
    tickets: map<string, LoginTicket>) // Redis: the ticket under "ticket:<ticket>"

  /** The stores after a call and what the call gave back. */
  datatype Reply<+T> = Reply(state: Accounts, result: Outcome<T>)

  /** A result map of `register`, `login` or `updatePassword`. */
  type ErrorMap = map<string, string>

  datatype ActivationResult = ActivationSuccess | ActivationRepeat | ActivationFailure

  /** The role strings `AUTHORITY_USER`, `AUTHORITY_ADMIN`, `AUTHORITY_MODERATOR`. */
  datatype Authority = AuthorityUser | AuthorityAdmin | AuthorityModerator

  /** A Java `int`. */
  newtype Int32 = x: int | -0x8000_0000 <= x < 0x8000_0000

  const USERNAME_MSG := "usernameMsg"
  const PASSWORD_MSG := "passwordMsg"
  const EMAIL_MSG := "emailMsg"
  const TICKET := "ticket"

  const USERNAME_BLANK := "username cannot be blank"
  const PASSWORD_BLANK := "password cannot be blank"
  const EMAIL_BLANK := "email cannot be blank"
  const USERNAME_TAKEN := "this username has been registered"
  const EMAIL_TAKEN := "this email has been registered"
  const ACCOUNT_BLANK := "the account cannot be blank"
  const LOGIN_PASSWORD_BLANK := "the password cannot be blank"
  const ACCOUNT_MISSING := "the account does not exist"
  const ACCOUNT_INACTIVE := "the account is not activated"
  const PASSWORD_WRONG := "the password is incorrect"
  const PASSWORD_INCORRECT := "password is incorrect"

  /** `Character.isWhitespace`: the ASCII controls 9-13 and 28-31 and the
      Unicode space, line and paragraph separators other than the
      non-breaking ones. */
  predicate IsWhitespace(c: char): (r: bool)
    ensures c == ' ' || c == '\t' || c == '\n' || c == '\r' ==> r
    // the non-breaking spaces are not whitespace
    ensures c == '\U{00A0}' || c == '\U{2007}' || c == '\U{202F}' ==> !r
    ensures ('0' <= c <= '9') || ('a' <= c <= 'z') || ('A' <= c <= 'Z') ==> !r
    ensures c as int > 0x3000 ==> !r
  {
    var n := c as int;
    (9 <= n <= 13) || (28 <= n <= 31) || n == 0x20 || n == 0x1680 ||
    (0x2000 <= n <= 0x2006) || (0x2008 <= n <= 0x200A) ||
    n == 0x2028 || n == 0x2029 || n == 0x205F || n == 0x3000
  }

  /** `StringUtils.isBlank`: empty or only whitespace. */
  predicate IsBlank(s: string): (r: bool)
    ensures s == [] ==> r
    ensures (forall i :: 0 <= i < |s| ==> s[i] == ' ' || s[i] == '\t') ==> r
    ensures (exists i :: 0 <= i < |s| && !IsWhitespace(s[i])) ==> !r
  {
    forall i :: 0 <= i < |s| ==> IsWhitespace(s[i])
  }

  /** Blankness is decided character by character: a string made of two parts
      is blank exactly when both parts are. */
  lemma BlankConcat(s: string, t: string)
    ensures IsBlank(s + t) <==> IsBlank(s) && IsBlank(t)
  {
    if IsBlank(s + t) {
      forall i | 0 <= i < |s|
        ensures IsWhitespace(s[i])
      {
        assert (s + t)[i] == s[i];
      }
      forall j | 0 <= j < |t|
        ensures IsWhitespace(t[j])
      {
        assert (s + t)[|s| + j] == t[j];
      }
    }
  }

  // ---------------------------------------------------------------- the table

  function SelectById(a: Accounts, id: int): Option<User> {
    Lookup(a.users, id)
  }

  function SelectByName(a: Accounts, name: string): Option<User> {
    if name in a.idByName && a.idByName[name] in a.users then Some(a.users[a.idByName[name]]) else None
  }

  function SelectByEmail(a: Accounts, email: string): Option<User> {
    if email in a.idByEmail && a.idByEmail[email] in a.users then Some(a.users[a.idByEmail[email]]) else None
  }

  /** The table and its lookups agree, and every id is below the next key. */
  ghost predicate Valid(a: Accounts) {
    && (forall n :: n in a.idByName ==> a.idByName[n] in a.users && a.users[a.idByName[n]].username == n)
    && (forall m :: m in a.idByEmail ==> a.idByEmail[m] in a.users && a.users[a.idByEmail[m]].email == m)
    && (forall id :: id in a.users ==>
          && a.users[id].id == id && id < a.nextId
          && a.users[id].username in a.idByName && a.idByName[a.users[id].username] == id
          && a.users[id].email in a.idByEmail && a.idByEmail[a.users[id].email] == id)
  }

  /** Every cached user is the stored record of that id. */
  ghost predicate CacheCoherent(a: Accounts) {
    forall id :: id in a.userCache ==> id in a.users && a.userCache[id] == a.users[id]
  }

  /** `insertUser`: the record gets the next generated key. */
  function InsertUser(a: Accounts, u: User): (b: Accounts)
    requires u.id == a.nextId
    ensures b.users == a.users[u.id := u] && b.nextId == a.nextId + 1
    ensures b.idByName == a.idByName[u.username := u.id] && b.idByEmail == a.idByEmail[u.email := u.id]
    ensures SelectById(b, u.id) == Some(u) && SelectByName(b, u.username) == Some(u)
    ensures SelectByEmail(b, u.email) == Some(u)
    ensures b.userCache == a.userCache && b.tickets == a.tickets
  {
    a.(users := a.users[u.id := u],
       idByName := a.idByName[u.username := u.id],
       idByEmail := a.idByEmail[u.email := u.id],
       nextId := a.nextId + 1)
  }

  /** `updateStatus` and `updatePassword` of the mapper: replace the record of
      an existing id. */
  function UpdateUser(a: Accounts, id: int, u: User): (b: Accounts)
    requires id in a.users
    ensures b.users == a.users[id := u] && b.users.Keys == a.users.Keys
    ensures b.idByName == a.idByName && b.idByEmail == a.idByEmail
    ensures b.nextId == a.nextId && b.userCache == a.userCache && b.tickets == a.tickets
  {
    a.(users := a.users[id := u])
  }

  // ---------------------------------------------------------------- the cache

  /** `getCache`. */
  function GetCache(a: Accounts, id: int): (r: Option<User>)
    ensures r.Some? <==> id in a.userCache
    ensures r.Some? ==> r.value == a.userCache[id]
  {
    Lookup(a.userCache, id)
  }

  /** `initCache`: load the record and cache it.  A missing record is cached
      as null, which reads back as a miss: the model leaves the cache as it is. */
  function InitCache(a: Accounts, id: int): (r: Reply<Option<User>>)
    ensures r.result == Returned(SelectById(a, id))
    ensures r.state.userCache == if id in a.users then a.userCache[id := a.users[id]] else a.userCache
    ensures r.state == a.(userCache := r.state.userCache)
  {
    match SelectById(a, id)
    case Some(u) => Reply(a.(userCache := a.userCache[id := u]), Returned(Some(u)))
    case None => Reply(a, Returned(None))
  }

  /** `clearCache`. */
  function ClearCache(a: Accounts, id: int): (b: Accounts)
    ensures b.userCache.Keys == a.userCache.Keys - {id}
    ensures forall k :: k in b.userCache ==> b.userCache[k] == a.userCache[k]
    ensures b == a.(userCache := b.userCache)
  {
    a.(userCache := a.userCache - {id})
  }

  /** `findUserById`: the cached user if there is one, otherwise the stored
      record, which is then cached. */
  function FindUserById(a: Accounts, id: int): (r: Reply<Option<User>>)
    ensures id in a.userCache ==> r == Reply(a, Returned(Some(a.userCache[id])))
    ensures id !in a.userCache ==> r == InitCache(a, id)
  {
    match GetCache(a, id)
    case Some(u) => Reply(a, Returned(Some(u)))
    case None => InitCache(a, id)
  }

  // ---------------------------------------------------------------- register

  /** `register` passes all of its checks. */
  predicate RegistrationAccepted(a: Accounts, u: UserForm) {
    && !IsBlank(u.username) && !IsBlank(u.password) && !IsBlank(u.email)
    && SelectByName(a, u.username).None? && SelectByEmail(a, u.email).None?
  }

  /** The record `register` inserts; `salt` and `activationCode` stand for the
      two generated UUID strings (the salt is the first five characters of
      one) and `headerUrl` for the randomly numbered avatar URL. */
  function NewUser(id: int, u: UserForm, md5: string -> string, salt: string, activationCode: string,
                   headerUrl: string, now: int): (n: User)
    ensures n.id == id && n.username == u.username && n.email == u.email
    ensures n.salt == salt && n.password == md5(u.password + salt)
    ensures n.userType == 0 && n.status == 0 && n.activationCode == activationCode
  {
    User(id, u.username, md5(u.password + salt), salt, u.email, 0, 0, activationCode, headerUrl, now)
  }

  /** `register`: rejects a null user, checks the name, password and email for
      blanks and then the name and email for duplicates, in that order, and
      otherwise inserts the new record. */
  function Register(a: Accounts, md5: string -> string, user: Option<UserForm>, salt: string,
                    activationCode: string, headerUrl: string, now: int): (r: Reply<ErrorMap>)
    ensures user.None? <==> r == Reply(a, Threw(IllegalArgument))
    ensures user.Some? ==> r.result.Returned?
    // a rejection is one message and changes nothing
    ensures r.result.Returned? && r.result.value != map[] ==> r.state == a && |r.result.value| == 1
    // the empty map means acceptance, and acceptance inserts exactly the new record
    ensures r.result == Returned(map[]) <==> user.Some? && RegistrationAccepted(a, user.value)
    ensures r.result == Returned(map[]) ==>
              r.state == InsertUser(a, NewUser(a.nextId, user.value, md5, salt, activationCode, headerUrl, now))
  {
    if user.None? then Reply(a, Threw(IllegalArgument))
    else
      var u := user.value;
      if IsBlank(u.username) then Reply(a, Returned(map[USERNAME_MSG := USERNAME_BLANK]))
      else if IsBlank(u.password) then Reply(a, Returned(map[PASSWORD_MSG := PASSWORD_BLANK]))
      else if IsBlank(u.email) then Reply(a, Returned(map[EMAIL_MSG := EMAIL_BLANK]))
      else if SelectByName(a, u.username).Some? then Reply(a, Returned(map[USERNAME_MSG := USERNAME_TAKEN]))
      else if SelectByEmail(a, u.email).Some? then Reply(a, Returned(map[EMAIL_MSG := EMAIL_TAKEN]))
      else
        Reply(InsertUser(a, NewUser(a.nextId, u, md5, salt, activationCode, headerUrl, now)), Returned(map[]))
  }

  // ---------------------------------------------------------------- activation

  /** `activation`: a repeat for an active account, success when the code
      matches (the account becomes active and its cache entry goes), failure
      otherwise.  An unknown id is a null user. */
  function Activation(a: Accounts, userId: int, code: string): (r: Reply<ActivationResult>)
    ensures userId !in a.users <==> r == Reply(a, Threw(NullPointer))
    ensures r.result != Returned(ActivationSuccess) ==> r.state == a
    ensures userId in a.users ==> r.result.Returned?
    ensures userId in a.users && a.users[userId].status != 1 && a.users[userId].activationCode != code ==>
              r == Reply(a, Returned(ActivationFailure))
    ensures userId in a.users ==>
              (r.result == Returned(ActivationRepeat) <==> a.users[userId].status == 1)
    ensures userId in a.users ==>
              (r.result == Returned(ActivationSuccess) <==>
                 a.users[userId].status != 1 && a.users[userId].activationCode == code)
    ensures r.result == Returned(ActivationSuccess) ==>
              r.state == ClearCache(UpdateUser(a, userId, a.users[userId].(status := 1)), userId)
  {
    match SelectById(a, userId)
    case None => Reply(a, Threw(NullPointer))
    case Some(u) =>
      if u.status == 1 then Reply(a, Returned(ActivationRepeat))
      else if u.activationCode == code then
        Reply(ClearCache(UpdateUser(a, userId, u.(status := 1)), userId), Returned(ActivationSuccess))
      else Reply(a, Returned(ActivationFailure))
  }

  // ---------------------------------------------------------------- login and logout

  /** A Java `int` result of an `int` computation: wrapped to 32 bits. */
  function Wrap32(x: int): (r: Int32)
    ensures (r as int - x) % 0x1_0000_0000 == 0
  {
    (((x + 0x8000_0000) % 0x1_0000_0000) - 0x8000_0000) as Int32
  }

  /** The ticket expiry as the code computes it: `1000 * expiredSeconds` is an
      `int` product, wrapped to 32 bits before it is added to the clock. */
  function ExpiryAsWritten(now: int, expiredSeconds: Int32): (r: int)
    ensures -0x8000_0000 <= r - now < 0x8000_0000
    ensures (r - now - 1000 * expiredSeconds as int) % 0x1_0000_0000 == 0
  {
    now + Wrap32(1000 * expiredSeconds as int) as int
  }

  /** The evidently intended expiry: `expiredSeconds` seconds after `now`. */
  function Expiry(now: int, expiredSeconds: Int32): (r: int)
    ensures r - now == 1000 * expiredSeconds as int
    ensures expiredSeconds > 0 ==> r > now
  {
    now + 1000 * expiredSeconds as int
  }

  /** `login` passes all of its checks. */
  predicate LoginAccepted(a: Accounts, md5: string -> string, username: string, password: string) {
    && !IsBlank(username) && !IsBlank(password)
    && SelectByName(a, username).Some?
    && SelectByName(a, username).value.status != 0
    && SelectByName(a, username).value.password == md5(password + SelectByName(a, username).value.salt)
  }

  /** `login`: checks, in order, a blank name, a blank password, an unknown
      account, an inactive account and a wrong password; otherwise stores a new
      ticket (named `ticket`, a generated UUID) and returns it. */
  function Login(a: Accounts, md5: string -> string, username: string, password: string,
                 expiredSeconds: Int32, ticket: string, now: int): (r: Reply<ErrorMap>)
    ensures r.result.Returned?
    ensures TICKET in r.result.value <==> LoginAccepted(a, md5, username, password)
    ensures !LoginAccepted(a, md5, username, password) ==>
              && r.state == a && |r.result.value| == 1
              && r.result.value.Keys <= {USERNAME_MSG, PASSWORD_MSG}
    ensures LoginAccepted(a, md5, username, password) ==>
              && r.result.value == map[TICKET := ticket]
              && r.state == a.(tickets := a.tickets[ticket :=
                 LoginTicket(SelectByName(a, username).value.id, ticket, 0, Expiry(now, expiredSeconds))])
  {
    if IsBlank(username) then Reply(a, Returned(map[USERNAME_MSG := ACCOUNT_BLANK]))
    else if IsBlank(password) then Reply(a, Returned(map[PASSWORD_MSG := LOGIN_PASSWORD_BLANK]))
    else match SelectByName(a, username)
      case None => Reply(a, Returned(map[USERNAME_MSG := ACCOUNT_MISSING]))
      case Some(u) =>
        if u.status == 0 then Reply(a, Returned(map[USERNAME_MSG := ACCOUNT_INACTIVE]))
        else if u.password != md5(password + u.salt) then Reply(a, Returned(map[PASSWORD_MSG := PASSWORD_WRONG]))
        else
          var t := LoginTicket(u.id, ticket, 0, Expiry(now, expiredSeconds));
          Reply(a.(tickets := a.tickets[ticket := t]), Returned(map[TICKET := ticket]))
  }

  /** `logout`: the stored ticket becomes invalid (status 1); a ticket that is
      not stored is a null one. */
  function Logout(a: Accounts, ticket: string): (r: Reply<()>)
    ensures ticket !in a.tickets <==> r == Reply(a, Threw(NullPointer))
    ensures ticket in a.tickets ==> r.result == Returned(())
    ensures r.state.tickets.Keys == a.tickets.Keys
    ensures ticket in a.tickets ==> r.state.tickets[ticket] == a.tickets[ticket].(status := 1)
    ensures forall t :: t in a.tickets && t != ticket ==> r.state.tickets[t] == a.tickets[t]
    ensures r.state == a.(tickets := r.state.tickets)
  {
    if ticket !in a.tickets then Reply(a, Threw(NullPointer))
    else Reply(a.(tickets := a.tickets[ticket := a.tickets[ticket].(status := 1)]), Returned(()))
  }

  // ---------------------------------------------------------------- password

  /** `updatePassword` passes its check. */
  predicate PasswordChangeAccepted(a: Accounts, md5: string -> string, userId: int, oldPassword: string,
                                   newPassword: string)
    requires userId in a.users
  {
    var oldHash := md5(oldPassword + a.users[userId].salt);
    !IsBlank(oldHash) && !IsBlank(newPassword) && a.users[userId].password == oldHash
  }

  /** `updatePassword`: a wrong old password or a blank new one is refused
      with one message; otherwise the new salted hash is stored and the cache
      entry goes.  An unknown id is a null user. */
  function UpdatePassword(a: Accounts, md5: string -> string, userId: int, oldPassword: string,
                          newPassword: string): (r: Reply<ErrorMap>)
    ensures userId !in a.users <==> r == Reply(a, Threw(NullPointer))
    ensures userId in a.users && !PasswordChangeAccepted(a, md5, userId, oldPassword, newPassword) ==>
              r == Reply(a, Returned(map[PASSWORD_MSG := PASSWORD_INCORRECT]))
    ensures userId in a.users && PasswordChangeAccepted(a, md5, userId, oldPassword, newPassword) ==>
              && r.result == Returned(map[])
              && r.state == ClearCache(UpdateUser(a, userId, a.users[userId].(password :=
                           md5(newPassword + a.users[userId].salt))), userId)
  {
    match SelectById(a, userId)
    case None => Reply(a, Threw(NullPointer))
    case Some(u) =>
      var oldHash := md5(oldPassword + u.salt);
      if IsBlank(oldHash) || IsBlank(newPassword) || u.password != oldHash then
        Reply(a, Returned(map[PASSWORD_MSG := PASSWORD_INCORRECT]))
      else
        Reply(ClearCache(UpdateUser(a, userId, u.(password := md5(newPassword + u.salt))), userId), Returned(map[]))
  }

  // ---------------------------------------------------------------- authorities

  /** The role of a user type: 1 is an administrator, 2 a moderator, any other
      type an ordinary user. */
  function AuthorityOf(userType: int): (r: Authority)
    ensures r == AuthorityAdmin <==> userType == 1
    ensures r == AuthorityModerator <==> userType == 2
    ensures r == AuthorityUser <==> userType != 1 && userType != 2
  {
    match userType
    case 1 => AuthorityAdmin
    case 2 => AuthorityModerator
    case _ => AuthorityUser
  }

  /** `getAuthorities`: one authority, the role of the user found by
      `findUserById`.  For an unknown id the authority's `getAuthority`
      throws on the null user. */
  function GetAuthorities(a: Accounts, userId: int): (r: Reply<seq<Outcome<Authority>>>)
    ensures r.state == FindUserById(a, userId).state
    ensures r.result.Returned? && |r.result.value| == 1
    ensures FindUserById(a, userId).result == Returned(None) ==> r.result.value[0] == Threw(NullPointer)
    ensures forall u: User :: FindUserById(a, userId).result == Returned(Some(u)) ==>
              r.result.value[0] == Returned(AuthorityOf(u.userType))
  {
    var found := FindUserById(a, userId);
    match found.result
    case Returned(Some(u)) => Reply(found.state, Returned([Returned(AuthorityOf(u.userType))]))
    case _ => Reply(found.state, Returned([Threw(NullPointer)]))
  }
}
