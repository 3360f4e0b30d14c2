/** The account API of the backend: password rules, the Bearer token check,
    and registration, login and password change over the user table. The
    database is a map held by `UserStore`; bcrypt and JWT are parameters. */
module Accounts {
  import opened Wire
  import Text

  // ---------------------------------------------------------------------
  // Password rules
  // ---------------------------------------------------------------------

  const MinPasswordLength: nat := 6
  const PasswordTooShort: string := "Password must be at least 6 characters long"
  const PasswordTooWeak: string := "Password must contain at least one letter and one number"

  predicate IsAsciiLetter(c: char) {
    ('A' <= c <= 'Z') || ('a' <= c <= 'z')
  }

  predicate IsDigit(c: char) {
    '0' <= c <= '9'
  }

  /** The password pattern `^(?=.*[A-Za-z])(?=.*\d).+$` under `re.match`.
      `.` stops at a newline, so both look-aheads only see the first line;
      `.+$` needs that line to be non-empty and to run to the end of the
      string or to a single final newline. */
  predicate MatchesPasswordPattern(p: string)
    ensures MatchesPasswordPattern(p) ==>
      && (exists k :: 0 <= k < |p| && IsAsciiLetter(p[k]))
      && (exists k :: 0 <= k < |p| && IsDigit(p[k]))
    ensures MatchesPasswordPattern(p) ==> forall k :: 0 <= k < |p| - 1 ==> p[k] != '\n'
  {
    var line := Text.FirstField(p, '\n');
    && (exists k :: 0 <= k < |line| && IsAsciiLetter(line[k]))
    && (exists k :: 0 <= k < |line| && IsDigit(line[k]))
    && (p == line || p == line + "\n")
  }

  /** For a password without newlines the pattern means exactly "has an
      ASCII letter and a digit". */
  lemma PatternWithoutNewline(p: string)
    requires '\n' !in p
    ensures MatchesPasswordPattern(p) <==>
      (exists k :: 0 <= k < |p| && IsAsciiLetter(p[k])) && (exists k :: 0 <= k < |p| && IsDigit(p[k]))
  {
    var line := Text.FirstField(p, '\n');
    assert line == p;
  }

  /** A newline ends what the pattern looks at: a letter and a digit after
      it do not count. */
  lemma PatternStopsAtNewline()
    ensures !MatchesPasswordPattern("abc\n123")
  {
    var p := "abc\n123";
    var line := Text.FirstField(p, '\n');
    assert p[3] == '\n';
    assert line == "abc";
    assert !IsDigit(line[0]) && !IsDigit(line[1]) && !IsDigit(line[2]);
  }

  /** `validate_password`: the length message, then the pattern message, each
      present exactly when its rule fails. */
  function ValidatePassword(p: string): (errs: seq<string>)
    ensures PasswordTooShort in errs <==> |p| < MinPasswordLength
    ensures PasswordTooWeak in errs <==> !MatchesPasswordPattern(p)
    ensures forall e :: e in errs ==> e == PasswordTooShort || e == PasswordTooWeak
    ensures |errs| <= 2 && (|errs| == 2 ==> errs == [PasswordTooShort, PasswordTooWeak])
    ensures errs == [] <==> |p| >= MinPasswordLength && MatchesPasswordPattern(p)
  {
    (if |p| < MinPasswordLength then [PasswordTooShort] else [])
    + (if !MatchesPasswordPattern(p) then [PasswordTooWeak] else [])
  }

  // ---------------------------------------------------------------------
  // Request fields and the token check
  // ---------------------------------------------------------------------

  /** A form field is given when it is present and not empty. */
  predicate Given(v: Option<string>) {
    v.Some? && v.value != ""
  }

  const BearerPrefix: string := "Bearer "

  /** The token of an `Authorization` header: what follows the `Bearer `
      prefix, when the header has that prefix and something follows it. */
  function BearerToken(header: Option<string>): (t: Option<string>)
    ensures t.Some? <==> header.Some? && Text.StartsWith(header.value, BearerPrefix) && |header.value| > |BearerPrefix|
    ensures t.Some? ==> t.value != "" && header.value == BearerPrefix + t.value
  {
    if Given(header) && Text.StartsWith(header.value, BearerPrefix) && header.value[|BearerPrefix|..] != "" then
      assert header.value == header.value[..|BearerPrefix|] + header.value[|BearerPrefix|..];
      Some(header.value[|BearerPrefix|..])
    else None
  }

  /** Any non-empty token sent as `Bearer <token>` is read back. */
  lemma {:induction false} BearerRoundTrip(token: string)
    requires token != ""
    ensures BearerToken(Some(BearerPrefix + token)) == Some(token)
  {
    var h := BearerPrefix + token;
    assert h[..|BearerPrefix|] == BearerPrefix;
    assert h[|BearerPrefix|..] == token;
  }

  /** What `jwt.decode` makes of a token: its two claims, an expired
      signature, an invalid token, or a valid token without the claims. */
  datatype Decoded =
    | Claims(userId: int, userName: string)
    | ExpiredSignature
    | InvalidToken
    | MissingClaim

  const TokenMissing: string := "Authentication token is missing"
  const TokenExpired: string := "Authentication token has expired"
  const TokenInvalid: string := "Invalid authentication token"

  datatype Auth = Authenticated(userId: int, userName: string) | Refused(reply: Response)

  /** The `token_required` check in front of a protected view. A token whose
      claims are missing raises `KeyError`, which nothing catches. */
  function Authenticate(header: Option<string>, decode: string -> Decoded): (a: Auth)
    ensures BearerToken(header).None? ==> a == Refused(Reply(401, map["error" := Str(TokenMissing)]))
    ensures BearerToken(header).Some? ==>
      match decode(BearerToken(header).value)
      case Claims(id, name) => a == Authenticated(id, name)
      case ExpiredSignature => a == Refused(Reply(401, map["error" := Str(TokenExpired)]))
      case InvalidToken => a == Refused(Reply(401, map["error" := Str(TokenInvalid)]))
      case MissingClaim => a == Refused(UnhandledError)
    ensures a.Authenticated? ==> BearerToken(header).Some?
  {
    match BearerToken(header)
    case None => Refused(Reply(401, map["error" := Str(TokenMissing)]))
    case Some(token) =>
      match decode(token)
      case Claims(id, name) => Authenticated(id, name)
      case ExpiredSignature => Refused(Reply(401, map["error" := Str(TokenExpired)]))
      case InvalidToken => Refused(Reply(401, map["error" := Str(TokenInvalid)]))
      case MissingClaim => Refused(UnhandledError)
  }

  // ---------------------------------------------------------------------
  // Field validation
  // ---------------------------------------------------------------------

  const UsernameRequired: string := "Username is required"
  const UsernameTooShort: string := "Username must be at least 3 characters long"
  const PasswordRequired: string := "Password is required"
  const CurrentRequired: string := "Current password is required"
  const NewRequired: string := "New password is required"
  const PasswordsDiffer: string := "Passwords do not match"

  /** The error value of a password field that was given. */
  function PasswordFieldError(p: string): Json {
    Strs(ValidatePassword(p))
  }

  /** The field errors of a registration request. */
  function RegisterErrors(userName: Option<string>, userPass: Option<string>): (errs: map<string, Json>)
    ensures errs.Keys <= {"user_name", "user_pass"}
    ensures "user_name" in errs <==> !Given(userName) || |userName.value| < 3
    ensures !Given(userName) ==> errs["user_name"] == Str(UsernameRequired)
    ensures Given(userName) && |userName.value| < 3 ==> errs["user_name"] == Str(UsernameTooShort)
    ensures "user_pass" in errs <==> !Given(userPass) || ValidatePassword(userPass.value) != []
    ensures !Given(userPass) ==> errs["user_pass"] == Str(PasswordRequired)
    ensures Given(userPass) && "user_pass" in errs ==> errs["user_pass"] == PasswordFieldError(userPass.value)
  {
    var nameErr: map<string, Json> :=
      if !Given(userName) then map["user_name" := Str(UsernameRequired)]
      else if |userName.value| < 3 then map["user_name" := Str(UsernameTooShort)]
      else map[];
    var passErr: map<string, Json> :=
      if !Given(userPass) then map["user_pass" := Str(PasswordRequired)]
      else if ValidatePassword(userPass.value) != [] then map["user_pass" := PasswordFieldError(userPass.value)]
      else map[];
    nameErr + passErr
  }

  /** The field errors of a login request: only presence is checked. */
  function LoginErrors(userName: Option<string>, userPass: Option<string>): (errs: map<string, Json>)
    ensures errs.Keys <= {"user_name", "user_pass"}
    ensures "user_name" in errs <==> !Given(userName)
    ensures "user_pass" in errs <==> !Given(userPass)
    ensures forall f :: f in errs ==> errs[f] == Str(if f == "user_name" then UsernameRequired else PasswordRequired)
  {
    (if !Given(userName) then map["user_name" := Str(UsernameRequired)] else map[])
    + (if !Given(userPass) then map["user_pass" := Str(PasswordRequired)] else map[])
  }

  /** The field errors of a password change. The confirmation is compared
      with the new password whatever else is wrong. */
  function ChangePasswordErrors(current: Option<string>, newPass: Option<string>, confirm: Option<string>): (errs: map<string, Json>)
    ensures errs.Keys <= {"current_password", "new_password", "confirm_password"}
    ensures "current_password" in errs <==> !Given(current)
    ensures !Given(current) ==> errs["current_password"] == Str(CurrentRequired)
    ensures "new_password" in errs <==> !Given(newPass) || ValidatePassword(newPass.value) != []
    ensures !Given(newPass) ==> errs["new_password"] == Str(NewRequired)
    ensures Given(newPass) && "new_password" in errs ==> errs["new_password"] == PasswordFieldError(newPass.value)
    ensures "confirm_password" in errs <==> newPass != confirm
    ensures newPass != confirm ==> errs["confirm_password"] == Str(PasswordsDiffer)
  {
    var currentErr: map<string, Json> :=
      if !Given(current) then map["current_password" := Str(CurrentRequired)] else map[];
    var newErr: map<string, Json> :=
      if !Given(newPass) then map["new_password" := Str(NewRequired)]
      else if ValidatePassword(newPass.value) != [] then map["new_password" := PasswordFieldError(newPass.value)]
      else map[];
    var confirmErr: map<string, Json> :=
      if newPass != confirm then map["confirm_password" := Str(PasswordsDiffer)] else map[];
    currentErr + newErr + confirmErr
  }

  /** A registration that passes validation has a username of at least three
      characters and a password that satisfies both rules. */
  lemma RegisterAcceptsOnlyStrongPasswords(userName: Option<string>, userPass: Option<string>)
    requires RegisterErrors(userName, userPass) == map[]
    ensures userName.Some? && |userName.value| >= 3
    ensures userPass.Some? && |userPass.value| >= MinPasswordLength && MatchesPasswordPattern(userPass.value)
  {
    assert "user_name" !in RegisterErrors(userName, userPass);
    assert "user_pass" !in RegisterErrors(userName, userPass);
  }

  // ---------------------------------------------------------------------
  // The user table
  // ---------------------------------------------------------------------

  /** A row of the user table: its serial id and its bcrypt hash. */
  datatype Account = Account(id: nat, passHash: string)

  const DbUnavailable: string := "Database connection failed. Please try again later."
  const UsernameTaken: string := "Username already exists. Please choose a different username."
  const BadCredentials: string := "Invalid username or password"
  const UserNotFound: string := "User not found"
  const CurrentIncorrect: string := "Current password is incorrect"

  function UserJson(id: nat, name: string): Json {
    Obj(map["id" := Num(id), "username" := Str(name)])
  }

  function SignedIn(message: string, id: nat, name: string, token: string): map<string, Json> {
    map["message" := Str(message), "user" := UserJson(id, name), "token" := Str(token)]
  }

  /** The user table, keyed by user name (the name is unique). Ids come from
      a serial counter. */
  class UserStore {
    var users: map<string, Account>
    var nextId: nat

    /** Ids are unique and below the counter. */
    ghost predicate Valid()
      reads this
    {
      && (forall a, b :: a in users && b in users && users[a].id == users[b].id ==> a == b)
      && (forall a :: a in users ==> users[a].id < nextId)
    }

    constructor ()
      ensures Valid() && users == map[] && nextId == 1
    {
      users := map[];
      nextId := 1;
    }

    /** `UserRegister.post`. `connected` says whether the database could be
        reached, `hash` is the bcrypt hash of the password, `token` the JWT
        issued for the new user. */
    method Register(connected: bool, userName: Option<string>, userPass: Option<string>,
                    hash: string, token: string) returns (r: Response)
      requires Valid()
      modifies this
      ensures Valid()
      ensures !connected ==> r == Reply(500, map["error" := Str(DbUnavailable)]) && unchanged(this)
      ensures connected && RegisterErrors(userName, userPass) != map[] ==>
        r == Reply(400, map["errors" := Obj(RegisterErrors(userName, userPass))]) && unchanged(this)
      ensures connected && RegisterErrors(userName, userPass) == map[] && userName.value in old(users) ==>
        r == Reply(409, map["errors" := Obj(map["user_name" := Str(UsernameTaken)])]) && unchanged(this)
      ensures connected && RegisterErrors(userName, userPass) == map[] && userName.value !in old(users) ==>
        && users == old(users)[userName.value := Account(old(nextId), hash)]
        && nextId == old(nextId) + 1
        && r == Reply(201, SignedIn("User registered successfully", old(nextId), userName.value, token))
    {
      if !connected {
        return Reply(500, map["error" := Str(DbUnavailable)]);
      }
      var errs := RegisterErrors(userName, userPass);
      if errs != map[] {
        return Reply(400, map["errors" := Obj(errs)]);
      }
      RegisterAcceptsOnlyStrongPasswords(userName, userPass);
      var name := userName.value;
      if name in users {
        return Reply(409, map["errors" := Obj(map["user_name" := Str(UsernameTaken)])]);
      }
      var id := nextId;
      users := users[name := Account(id, hash)];
      nextId := nextId + 1;
      r := Reply(201, SignedIn("User registered successfully", id, name, token));
    }

    /** `UserLogin.post`. `check` is `bcrypt.checkpw`. An unknown name and a
        wrong password get the same reply. */
    method Login(connected: bool, userName: Option<string>, userPass: Option<string>,
                 check: (string, string) -> bool, token: string) returns (r: Response)
      ensures !connected ==> r == Reply(500, map["error" := Str(DbUnavailable)])
      ensures connected && LoginErrors(userName, userPass) != map[] ==>
        r == Reply(400, map["errors" := Obj(LoginErrors(userName, userPass))])
      ensures connected && LoginErrors(userName, userPass) == map[] ==>
        var name := userName.value;
        if name in users && check(userPass.value, users[name].passHash) then
          r == Reply(200, SignedIn("Login successful", users[name].id, name, token))
        else
          r == Reply(401, map["error" := Str(BadCredentials)])
      ensures r.Reply? && r.code == 200 ==>
        && Given(userName) && Given(userPass)
        && userName.value in users && check(userPass.value, users[userName.value].passHash)
    {
      if !connected {
        return Reply(500, map["error" := Str(DbUnavailable)]);
      }
      var errs := LoginErrors(userName, userPass);
      if errs != map[] {
        return Reply(400, map["errors" := Obj(errs)]);
      }
      assert "user_name" !in errs && "user_pass" !in errs;
      var name := userName.value;
      if name !in users {
        return Reply(401, map["error" := Str(BadCredentials)]);
      }
      var row := users[name];
      if !check(userPass.value, row.passHash) {
        return Reply(401, map["error" := Str(BadCredentials)]);
      }
      r := Reply(200, SignedIn("Login successful", row.id, name, token));
    }

    /** The name whose row has the given id, if any. */
    function NameOf(id: int): (n: Option<string>)
      reads this
      requires Valid()
      ensures n.Some? <==> exists a :: a in users && users[a].id == id
      ensures n.Some? ==> n.value in users && users[n.value].id == id
    {
      if exists a :: a in users && users[a].id == id then
        var a :| a in users && users[a].id == id; Some(a)
      else None
    }

    /** `ChangePassword.post` behind `token_required`. `hash` is the bcrypt
        hash of the new password; only the caller's own row changes. */
    method ChangePassword(header: Option<string>, decode: string -> Decoded, connected: bool,
                          current: Option<string>, newPass: Option<string>, confirm: Option<string>,
                          check: (string, string) -> bool, hash: string) returns (r: Response)
      requires Valid()
      modifies this
      ensures Valid()
      ensures nextId == old(nextId) && users.Keys == old(users).Keys
      ensures Authenticate(header, decode).Refused? ==>
        r == Authenticate(header, decode).reply && unchanged(this)
      ensures Authenticate(header, decode).Authenticated? && !connected ==>
        r == Reply(500, map["error" := Str(DbUnavailable)]) && unchanged(this)
      ensures Authenticate(header, decode).Authenticated? && connected && ChangePasswordErrors(current, newPass, confirm) != map[] ==>
        r == Reply(400, map["errors" := Obj(ChangePasswordErrors(current, newPass, confirm))]) && unchanged(this)
      ensures Authenticate(header, decode).Authenticated? && connected && ChangePasswordErrors(current, newPass, confirm) == map[] ==>
        var uid := Authenticate(header, decode).userId;
        match old(NameOf(uid))
        case None => r == Reply(404, map["error" := Str(UserNotFound)]) && unchanged(this)
        case Some(name) =>
          if !check(current.value, old(users)[name].passHash) then
            r == Reply(400, map["errors" := Obj(map["current_password" := Str(CurrentIncorrect)])]) && unchanged(this)
          else
            && r == Reply(200, map["message" := Str("Password changed successfully")])
            && users == old(users)[name := Account(uid, hash)]
    {
      var auth := Authenticate(header, decode);
      if auth.Refused? {
        return auth.reply;
      }
      if !connected {
        return Reply(500, map["error" := Str(DbUnavailable)]);
      }
      var errs := ChangePasswordErrors(current, newPass, confirm);
      if errs != map[] {
        return Reply(400, map["errors" := Obj(errs)]);
      }
      assert "current_password" !in errs;
      var found := NameOf(auth.userId);
      if found.None? {
        return Reply(404, map["error" := Str(UserNotFound)]);
      }
      var name := found.value;
      if !check(current.value, users[name].passHash) {
        return Reply(400, map["errors" := Obj(map["current_password" := Str(CurrentIncorrect)])]);
      }
      users := users[name := Account(users[name].id, hash)];
      r := Reply(200, map["message" := Str("Password changed successfully")]);
    }
  }
}
