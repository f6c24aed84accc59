/** Properties of the account rules that relate several calls: the stores stay
    consistent, the cache never disagrees with the table, and the operations
    fit together (a registered account can be activated and then log in; a
    ticket that logs in can log out; a changed password is the one that
    works). */
module AccountProperties {
  import opened Common
  import opened AccountRules

  /** The order of `register`'s checks: each failure is the first failing
      check's one message, and nothing is stored. */
  lemma RegisterChecksInOrder(a: Accounts, md5: string -> string, u: UserForm, salt: string,
                              activationCode: string, headerUrl: string, now: int)
    ensures var r := Register(a, md5, Some(u), salt, activationCode, headerUrl, now);
      && (IsBlank(u.username) ==> r == Reply(a, Returned(map[USERNAME_MSG := USERNAME_BLANK])))
      && (!IsBlank(u.username) && IsBlank(u.password) ==>
            r == Reply(a, Returned(map[PASSWORD_MSG := PASSWORD_BLANK])))
      && (!IsBlank(u.username) && !IsBlank(u.password) && IsBlank(u.email) ==>
            r == Reply(a, Returned(map[EMAIL_MSG := EMAIL_BLANK])))
      && (!IsBlank(u.username) && !IsBlank(u.password) && !IsBlank(u.email) &&
          SelectByName(a, u.username).Some? ==>
            r == Reply(a, Returned(map[USERNAME_MSG := USERNAME_TAKEN])))
      && (!IsBlank(u.username) && !IsBlank(u.password) && !IsBlank(u.email) &&
          SelectByName(a, u.username).None? && SelectByEmail(a, u.email).Some? ==>
            r == Reply(a, Returned(map[EMAIL_MSG := EMAIL_TAKEN])))
  {
  }

  /** The order of `login`'s checks. */
  lemma LoginChecksInOrder(a: Accounts, md5: string -> string, username: string, password: string,
                           expiredSeconds: Int32, ticket: string, now: int)
    ensures var r := Login(a, md5, username, password, expiredSeconds, ticket, now);
      && (IsBlank(username) ==> r == Reply(a, Returned(map[USERNAME_MSG := ACCOUNT_BLANK])))
      && (!IsBlank(username) && IsBlank(password) ==>
            r == Reply(a, Returned(map[PASSWORD_MSG := LOGIN_PASSWORD_BLANK])))
      && (!IsBlank(username) && !IsBlank(password) && SelectByName(a, username).None? ==>
            r == Reply(a, Returned(map[USERNAME_MSG := ACCOUNT_MISSING])))
      && (!IsBlank(username) && !IsBlank(password) && SelectByName(a, username).Some? &&
          SelectByName(a, username).value.status == 0 ==>
            r == Reply(a, Returned(map[USERNAME_MSG := ACCOUNT_INACTIVE])))
      && (!IsBlank(username) && !IsBlank(password) && SelectByName(a, username).Some? &&
          SelectByName(a, username).value.status != 0 &&
          SelectByName(a, username).value.password != md5(password + SelectByName(a, username).value.salt) ==>
            r == Reply(a, Returned(map[PASSWORD_MSG := PASSWORD_WRONG])))
  {
  }

  /** `register` keeps the table consistent with its lookups and the cache
      coherent with the table. */
  lemma RegisterKeepsInvariants(a: Accounts, md5: string -> string, user: Option<UserForm>, salt: string,
                                activationCode: string, headerUrl: string, now: int)
    requires Valid(a) && CacheCoherent(a)
    ensures Valid(Register(a, md5, user, salt, activationCode, headerUrl, now).state)
    ensures CacheCoherent(Register(a, md5, user, salt, activationCode, headerUrl, now).state)
  {
    var r := Register(a, md5, user, salt, activationCode, headerUrl, now);
    if r.result == Returned(map[]) {
      var u := user.value;
      var n := NewUser(a.nextId, u, md5, salt, activationCode, headerUrl, now);
      var b := r.state;
      assert b == InsertUser(a, n);
      assert a.nextId !in a.users;
      assert u.username !in a.idByName;
      assert u.email !in a.idByEmail;
      forall id | id in b.users
        ensures b.users[id].id == id && id < b.nextId
        ensures b.users[id].username in b.idByName && b.idByName[b.users[id].username] == id
        ensures b.users[id].email in b.idByEmail && b.idByEmail[b.users[id].email] == id
      {
        if id != n.id {
          assert a.users[id].username != u.username;
          assert a.users[id].email != u.email;
        }
      }
    }
  }

  /** `activation` keeps both invariants. */
  lemma ActivationKeepsInvariants(a: Accounts, userId: int, code: string)
    requires Valid(a) && CacheCoherent(a)
    ensures Valid(Activation(a, userId, code).state) && CacheCoherent(Activation(a, userId, code).state)
  {
  }

  /** `updatePassword` keeps both invariants. */
  lemma UpdatePasswordKeepsInvariants(a: Accounts, md5: string -> string, userId: int, oldPassword: string,
                                      newPassword: string)
    requires Valid(a) && CacheCoherent(a)
    ensures Valid(UpdatePassword(a, md5, userId, oldPassword, newPassword).state)
    ensures CacheCoherent(UpdatePassword(a, md5, userId, oldPassword, newPassword).state)
  {
  }

  /** `login` keeps both invariants: it only adds a ticket. */
  lemma LoginKeepsInvariants(a: Accounts, md5: string -> string, username: string, password: string,
                             expiredSeconds: Int32, ticket: string, now: int)
    requires Valid(a) && CacheCoherent(a)
    ensures var b := Login(a, md5, username, password, expiredSeconds, ticket, now).state;
            Valid(b) && CacheCoherent(b)
  {
    var b := Login(a, md5, username, password, expiredSeconds, ticket, now).state;
    assert b == a.(tickets := b.tickets);
  }

  /** `logout` keeps both invariants. */
  lemma LogoutKeepsInvariants(a: Accounts, ticket: string)
    requires Valid(a) && CacheCoherent(a)
    ensures Valid(Logout(a, ticket).state) && CacheCoherent(Logout(a, ticket).state)
  {
    var b := Logout(a, ticket).state;
    assert b == a.(tickets := b.tickets);
  }

  /** `findUserById` keeps both invariants: it caches only the stored record. */
  lemma FindUserKeepsInvariants(a: Accounts, userId: int)
    requires Valid(a) && CacheCoherent(a)
    ensures Valid(FindUserById(a, userId).state) && CacheCoherent(FindUserById(a, userId).state)
  {
  }

  /** With a coherent cache, `findUserById` gives exactly the stored record (or
      null), whether or not it was cached. */
  lemma FindUserReturnsStoredRecord(a: Accounts, userId: int)
    requires CacheCoherent(a)
    ensures FindUserById(a, userId).result == Returned(SelectById(a, userId))
    ensures userId in a.users ==> userId in FindUserById(a, userId).state.userCache
  {
  }

  /** With a coherent cache, `getAuthorities` grants the role of the stored
      user type. */
  lemma AuthorityOfStoredUser(a: Accounts, userId: int)
    requires CacheCoherent(a) && userId in a.users
    ensures GetAuthorities(a, userId).result == Returned([Returned(AuthorityOf(a.users[userId].userType))])
  {
    FindUserReturnsStoredRecord(a, userId);
  }

  /** A new account cannot log in before it is activated. */
  lemma LoginBeforeActivationRefused(a: Accounts, md5: string -> string, u: UserForm, salt: string,
                                     activationCode: string, headerUrl: string, now: int,
                                     expiredSeconds: Int32, ticket: string, later: int)
    requires Register(a, md5, Some(u), salt, activationCode, headerUrl, now).result == Returned(map[])
    ensures var b := Register(a, md5, Some(u), salt, activationCode, headerUrl, now).state;
            Login(b, md5, u.username, u.password, expiredSeconds, ticket, later) ==
              Reply(b, Returned(map[USERNAME_MSG := ACCOUNT_INACTIVE]))
  {
  }

  /** A registered account is activated by its code, a second activation is a
      repeat, and the activated account logs in with the password it was
      registered with. */
  lemma RegisterActivateLogin(a: Accounts, md5: string -> string, u: UserForm, salt: string,
                              activationCode: string, headerUrl: string, now: int,
                              expiredSeconds: Int32, ticket: string, later: int)
    requires Register(a, md5, Some(u), salt, activationCode, headerUrl, now).result == Returned(map[])
    ensures var b := Register(a, md5, Some(u), salt, activationCode, headerUrl, now).state;
            var c := Activation(b, a.nextId, activationCode);
            && c.result == Returned(ActivationSuccess)
            && Activation(c.state, a.nextId, activationCode) == Reply(c.state, Returned(ActivationRepeat))
            && Login(c.state, md5, u.username, u.password, expiredSeconds, ticket, later).result ==
                 Returned(map[TICKET := ticket])
  {
    var b := Register(a, md5, Some(u), salt, activationCode, headerUrl, now).state;
    var c := Activation(b, a.nextId, activationCode);
    assert SelectByName(c.state, u.username).Some?;
    assert LoginAccepted(c.state, md5, u.username, u.password);
  }

  /** A ticket that logs in and then logs out is stored invalid, for the same
      user and with the same expiry. */
  lemma LoginThenLogout(a: Accounts, md5: string -> string, username: string, password: string,
                        expiredSeconds: Int32, ticket: string, now: int)
    requires LoginAccepted(a, md5, username, password)
    ensures var b := Login(a, md5, username, password, expiredSeconds, ticket, now).state;
            var c := Logout(b, ticket);
            && c.result == Returned(())
            && c.state.tickets[ticket] == LoginTicket(SelectByName(a, username).value.id, ticket, 1,
                                                      Expiry(now, expiredSeconds))
            && c.state.users == a.users
  {
  }

  /** After a password change the new password logs in, and a non-blank old
      one is refused as wrong unless it hashes to the same value. */
  lemma ChangedPasswordLogsIn(a: Accounts, md5: string -> string, userId: int, oldPassword: string,
                              newPassword: string, expiredSeconds: Int32, ticket: string, now: int)
    requires Valid(a) && userId in a.users && a.users[userId].status != 0
    requires !IsBlank(a.users[userId].username)
    requires PasswordChangeAccepted(a, md5, userId, oldPassword, newPassword)
    ensures var b := UpdatePassword(a, md5, userId, oldPassword, newPassword).state;
            var name := a.users[userId].username;
            var salt := a.users[userId].salt;
            && Login(b, md5, name, newPassword, expiredSeconds, ticket, now).result ==
                 Returned(map[TICKET := ticket])
            && (!IsBlank(oldPassword) && md5(oldPassword + salt) != md5(newPassword + salt) ==>
                  Login(b, md5, name, oldPassword, expiredSeconds, ticket, now).result ==
                    Returned(map[PASSWORD_MSG := PASSWORD_WRONG]))
  {
    var u := a.users[userId];
    var changed := u.(password := md5(newPassword + u.salt));
    var b := UpdatePassword(a, md5, userId, oldPassword, newPassword).state;
    assert b == ClearCache(UpdateUser(a, userId, changed), userId);
    assert a.idByName[u.username] == userId;
    assert SelectByName(b, u.username) == Some(changed);
    assert LoginAccepted(b, md5, u.username, newPassword);
  }

  /** The expiry the code computes: for 2147484 seconds the 32-bit product
      wraps to a negative number and the ticket expires before it is issued. */
  lemma ExpiryOverflowExample(now: int)
    ensures ExpiryAsWritten(now, 2147484) < now
    ensures Expiry(now, 2147484) > now
  {
    assert Wrap32(2147484000) == -2147483296;
  }

  /** The code's expiry is the intended one exactly when the product
      `1000 * expiredSeconds` fits in an `int`. */
  lemma ExpiryAsWrittenAgreesIffNoOverflow(now: int, expiredSeconds: Int32)
    ensures ExpiryAsWritten(now, expiredSeconds) == Expiry(now, expiredSeconds) <==>
            -0x8000_0000 <= 1000 * expiredSeconds as int < 0x8000_0000
  {
    var x := 1000 * expiredSeconds as int;
    if -0x8000_0000 <= x < 0x8000_0000 {
      assert (x + 0x8000_0000) % 0x1_0000_0000 == x + 0x8000_0000;
    }
  }
}
