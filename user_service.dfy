/** `UserService` as an object: the user table and the Redis entries are
    fields that its methods update in place.  Each method is proved to do what
    the function of the same name in `AccountRules` says. */
module UserService {
  import opened Common
  import opened AccountRules

  class UserService {
    /** `CommunityUtil.md5`. */
    const md5: string -> string

    var users: map<int, User>
    var idByName: map<string, int>
    var idByEmail: map<string, int>
    var nextId: int
    var userCache: map<int, User>
    var tickets: map<string, LoginTicket>

    function State(): Accounts
      reads this
    {
      Accounts(users, idByName, idByEmail, nextId, userCache, tickets)
    }

    constructor (md5: string -> string, initial: Accounts)
      ensures this.md5 == md5 && State() == initial
    {
      this.md5 := md5;
      users := initial.users;
      idByName := initial.idByName;
      idByEmail := initial.idByEmail;
      nextId := initial.nextId;
      userCache := initial.userCache;
      tickets := initial.tickets;
    }

    method GetCache(userId: int) returns (user: Option<User>)
      ensures user == AccountRules.GetCache(State(), userId)
    {
      user := if userId in userCache then Some(userCache[userId]) else None;
    }

    method InitCache(userId: int) returns (user: Option<User>)
      modifies this
      ensures Reply(State(), Returned(user)) == AccountRules.InitCache(old(State()), userId)
    {
      user := SelectById(State(), userId);
      if user.Some? {
        userCache := userCache[userId := user.value];
      }
    }

    method ClearCache(userId: int)
      modifies this
      ensures State() == AccountRules.ClearCache(old(State()), userId)
    {
      userCache := userCache - {userId};
    }

    method FindUserById(userId: int) returns (user: Option<User>)
      modifies this
      ensures Reply(State(), Returned(user)) == AccountRules.FindUserById(old(State()), userId)
    {
      user := GetCache(userId);
      if user.None? {
        user := InitCache(userId);
      }
    }

    method Register(user: Option<UserForm>, salt: string, activationCode: string, headerUrl: string, now: int)
      returns (result: Outcome<ErrorMap>)
      modifies this
      ensures Reply(State(), result) ==
              AccountRules.Register(old(State()), md5, user, salt, activationCode, headerUrl, now)
    {
      var errors: ErrorMap := map[];
      if user.None? {
        return Threw(IllegalArgument);
      }
      var form := user.value;
      if IsBlank(form.username) {
        errors := errors[USERNAME_MSG := USERNAME_BLANK];
        return Returned(errors);
      }
      if IsBlank(form.password) {
        errors := errors[PASSWORD_MSG := PASSWORD_BLANK];
        return Returned(errors);
      }
      if IsBlank(form.email) {
        errors := errors[EMAIL_MSG := EMAIL_BLANK];
        return Returned(errors);
      }
      var existing := SelectByName(State(), form.username);
      if existing.Some? {
        errors := errors[USERNAME_MSG := USERNAME_TAKEN];
        return Returned(errors);
      }
      existing := SelectByEmail(State(), form.email);
      if existing.Some? {
        errors := errors[EMAIL_MSG := EMAIL_TAKEN];
        return Returned(errors);
      }
      var created := NewUser(nextId, form, md5, salt, activationCode, headerUrl, now);
      users := users[created.id := created];
      idByName := idByName[created.username := created.id];
      idByEmail := idByEmail[created.email := created.id];
      nextId := nextId + 1;
      return Returned(errors);
    }

    method Activation(userId: int, code: string) returns (result: Outcome<ActivationResult>)
      modifies this
      ensures Reply(State(), result) == AccountRules.Activation(old(State()), userId, code)
    {
      var user := SelectById(State(), userId);
      if user.None? {
        return Threw(NullPointer);
      }
      if user.value.status == 1 {
        return Returned(ActivationRepeat);
      } else if user.value.activationCode == code {
        users := users[userId := user.value.(status := 1)];
        ClearCache(userId);
        return Returned(ActivationSuccess);
      } else {
        return Returned(ActivationFailure);
      }
    }

    method Login(username: string, password: string, expiredSeconds: Int32, ticket: string, now: int)
      returns (result: Outcome<ErrorMap>)
      modifies this
      ensures Reply(State(), result) ==
              AccountRules.Login(old(State()), md5, username, password, expiredSeconds, ticket, now)
    {
      var answer: ErrorMap := map[];
      if IsBlank(username) {
        answer := answer[USERNAME_MSG := ACCOUNT_BLANK];
        return Returned(answer);
      }
      if IsBlank(password) {
        answer := answer[PASSWORD_MSG := LOGIN_PASSWORD_BLANK];
        return Returned(answer);
      }
      var user := SelectByName(State(), username);
      if user.None? {
        answer := answer[USERNAME_MSG := ACCOUNT_MISSING];
        return Returned(answer);
      }
      if user.value.status == 0 {
        answer := answer[USERNAME_MSG := ACCOUNT_INACTIVE];
        return Returned(answer);
      }
      var hashed := md5(password + user.value.salt);
      if user.value.password != hashed {
        answer := answer[PASSWORD_MSG := PASSWORD_WRONG];
        return Returned(answer);
      }
      var issued := LoginTicket(user.value.id, ticket, 0, Expiry(now, expiredSeconds));
      tickets := tickets[ticket := issued];
      answer := answer[TICKET := ticket];
      return Returned(answer);
    }

    method Logout(ticket: string) returns (result: Outcome<()>)
      modifies this
      ensures Reply(State(), result) == AccountRules.Logout(old(State()), ticket)
    {
      if ticket !in tickets {
        return Threw(NullPointer);
      }
      var stored := tickets[ticket];
      stored := stored.(status := 1);
      tickets := tickets[ticket := stored];
      return Returned(());
    }

    method UpdatePassword(userId: int, oldPassword: string, newPassword: string) returns (result: Outcome<ErrorMap>)
      modifies this
      ensures Reply(State(), result) ==
              AccountRules.UpdatePassword(old(State()), md5, userId, oldPassword, newPassword)
    {
      var errors: ErrorMap := map[];
      var user := SelectById(State(), userId);
      if user.None? {
        return Threw(NullPointer);
      }
      var oldHash := md5(oldPassword + user.value.salt);
      if IsBlank(oldHash) || IsBlank(newPassword) || user.value.password != oldHash {
        errors := errors[PASSWORD_MSG := PASSWORD_INCORRECT];
        return Returned(errors);
      }
      var newHash := md5(newPassword + user.value.salt);
      users := users[userId := user.value.(password := newHash)];
      ClearCache(userId);
      return Returned(errors);
    }

    method GetAuthorities(userId: int) returns (authorities: seq<Outcome<Authority>>)
      modifies this
      ensures Reply(State(), Returned(authorities)) == AccountRules.GetAuthorities(old(State()), userId)
    {
      var user := FindUserById(userId);
      if user.Some? {
        authorities := [Returned(AuthorityOf(user.value.userType))];
      } else {
        authorities := [Threw(NullPointer)];
      }
    }
  }
}
