/** The login / registration dialog: its form fields, the errors it shows,
    and how it reads the server's answer. */
module AuthForm {
  import opened Wire
  import Session
  import Accounts

  datatype Mode = Login | Register

  const PasswordsDiffer: string := "Passwords do not match"
  const Unexpected: string := "An unexpected error occurred"
  const NetworkMessage: string := "Network error. Please check your connection and try again."

  // ---------------------------------------------------------------------
  // JavaScript string conversion
  // ---------------------------------------------------------------------

  function DigitChar(d: nat): char
    requires d < 10
  {
    "0123456789"[d]
  }

  /** The decimal digits of `n`. */
  function Digits(n: nat): (s: string)
    ensures s != [] && forall k :: 0 <= k < |s| ==> '0' <= s[k] <= '9'
  {
    if n < 10 then [DigitChar(n)] else Digits(n / 10) + [DigitChar(n % 10)]
  }

  /** The number a string of decimal digits denotes. */
  function DigitsValue(s: string): nat
    requires forall k :: 0 <= k < |s| ==> '0' <= s[k] <= '9'
  {
    if s == [] then 0 else 10 * DigitsValue(s[..|s| - 1]) + (s[|s| - 1] - '0') as nat
  }

  /** `Digits(n)` denotes `n`, without leading zeros. */
  lemma {:induction false} DigitsRoundTrip(n: nat)
    ensures DigitsValue(Digits(n)) == n
    ensures Digits(n)[0] == '0' ==> n == 0
  {
    var s := Digits(n);
    if n >= 10 {
      DigitsRoundTrip(n / 10);
      assert s[..|s| - 1] == Digits(n / 10);
    }
  }

  /** `String(v)` for a value of a parsed JSON body, `undefined` included:
      what `localStorage.setItem` stores. Array elements are joined with
      commas, a null element giving the empty string. */
  function JsString(v: Option<Json>): (s: string)
    ensures v.Some? && v.value.Str? ==> s == v.value.s
    ensures v.None? ==> s == "undefined"
  {
    match v
    case None => "undefined"
    case Some(j) => ValueString(j)
  }

  function ValueString(j: Json): string
    decreases j, 1
  {
    match j
    case Null => "null"
    case Bool(b) => if b then "true" else "false"
    case Num(n) => if n < 0 then "-" + Digits(-n) else Digits(n)
    case Str(s) => s
    case Arr(items) => JoinItems(j, items)
    case Obj(_) => "[object Object]"
  }

  function JoinItems(whole: Json, items: seq<Json>): string
    requires forall k :: 0 <= k < |items| ==> items[k] < whole
    decreases whole, 0, |items|
  {
    if items == [] then ""
    else
      var first := if items[0].Null? then "" else ValueString(items[0]);
      if |items| == 1 then first else first + "," + JoinItems(whole, items[1..])
  }

  // ---------------------------------------------------------------------
  // Field errors
  // ---------------------------------------------------------------------

  /** `renderFieldError(field)`: nothing for a falsy error, the elements of an
      array, or the single value otherwise. */
  function FieldMessages(errors: Json, field: string): (r: Option<seq<Json>>)
    ensures r.None? <==> !TruthyOpt(Member(errors, field))
    ensures r.Some? && errors.fields[field].Arr? ==> r.value == errors.fields[field].items
    ensures r.Some? && !errors.fields[field].Arr? ==> r.value == [errors.fields[field]]
  {
    var e := Member(errors, field);
    if !TruthyOpt(e) then None
    else if e.value.Arr? then Some(e.value.items)
    else Some([e.value])
  }

  /** A string error shows as that one message, a list of strings as its
      messages in order: the two shapes the backend sends. */
  lemma FieldMessagesOfBackendErrors(field: string, message: string, messages: seq<string>)
    ensures message != "" ==> FieldMessages(Obj(map[field := Str(message)]), field) == Some([Str(message)])
    ensures FieldMessages(Obj(map[field := Strs(messages)]), field) == Some(Strs(messages).items)
    ensures FieldMessages(Obj(map[]), field).None?
  {
  }

  // ---------------------------------------------------------------------
  // Submission
  // ---------------------------------------------------------------------

  /** The token and user name a successful submission hands to the session. */
  datatype Credentials = Credentials(token: string, username: string)

  /** The user name to keep: `data.user?.username`, or what was typed when
      that is falsy. */
  function ChosenUsername(data: Json, typed: string): (r: string)
    ensures Member(data, "user").None? ==> r == typed
    ensures var u := OptionalMember(Member(data, "user"), "username");
      u.Some? && u.value.Str? && u.value.s != "" ==> r == u.value.s
    ensures var u := OptionalMember(Member(data, "user"), "username");
      !TruthyOpt(u) ==> r == typed
  {
    var u := OptionalMember(Member(data, "user"), "username");
    if TruthyOpt(u) then JsString(u) else typed
  }

  /** How the dialog's errors read a failed answer. */
  datatype FailureView =
    | FieldErrors(errors: Json)
    | General(message: Json)
    | Thrown

  /** The error branch of `handleSubmit`. Reading a property of a null body
      throws, which ends in the network message like any other exception. */
  function ClassifyFailure(data: Json): (f: FailureView)
    ensures f.Thrown? <==> data.Null?
    ensures f.FieldErrors? <==> !data.Null? && TruthyOpt(Member(data, "errors"))
    ensures f.FieldErrors? ==> f.errors == data.fields["errors"]
    ensures f.General? ==> !TruthyOpt(Member(data, "errors"))
    ensures f.General? && TruthyOpt(Member(data, "error")) ==> f.message == data.fields["error"]
    ensures f.General? && !TruthyOpt(Member(data, "error")) ==> f.message == Str(Unexpected)
  {
    if data.Null? then Thrown
    else if TruthyOpt(Member(data, "errors")) then FieldErrors(data.fields["errors"])
    else if TruthyOpt(Member(data, "error")) then General(data.fields["error"])
    else General(Str(Unexpected))
  }

  /** The backend's rejections land where the dialog expects them: a
      registration with field errors fills the field errors, and each
      password rule that failed shows as one message under the password; a
      failed login shows its message as the general error. */
  lemma {:induction false} BackendRejectionsAreShown(userName: Option<string>, userPass: Option<string>)
    requires Accounts.RegisterErrors(userName, userPass) != map[]
    ensures var errs := Accounts.RegisterErrors(userName, userPass);
      ClassifyFailure(Obj(map["errors" := Obj(errs)])) == FieldErrors(Obj(errs))
    ensures var errs := Accounts.RegisterErrors(userName, userPass);
      Accounts.Given(userPass) && "user_pass" in errs ==>
        FieldMessages(Obj(errs), "user_pass") == Some(Strs(Accounts.ValidatePassword(userPass.value)).items)
    ensures ClassifyFailure(Obj(map["error" := Str(Accounts.BadCredentials)])) == General(Str(Accounts.BadCredentials))
  {
    var errs := Accounts.RegisterErrors(userName, userPass);
    assert Truthy(Obj(errs));
    if Accounts.Given(userPass) && "user_pass" in errs {
      assert errs["user_pass"] == Strs(Accounts.ValidatePassword(userPass.value));
    }
    assert Accounts.BadCredentials != "";
  }

  /** The dialog's state. `errors` is the field error object, `generalError`
      the banner (the value the server sent, usually a string). */
  class AuthModal {
    var username: string
    var password: string
    var confirmPassword: string
    var errors: Json
    var generalError: Json
    var isLoading: bool
    const storage: Session.LocalStorage

    constructor (storage: Session.LocalStorage)
      ensures this.storage == storage
      ensures username == "" && password == "" && confirmPassword == ""
      ensures errors == Obj(map[]) && generalError == Str("") && !isLoading
    {
      this.storage := storage;
      username := "";
      password := "";
      confirmPassword := "";
      errors := Obj(map[]);
      generalError := Str("");
      isLoading := false;
    }

    /** `clearErrors`. */
    method ClearErrors()
      modifies this
      ensures errors == Obj(map[]) && generalError == Str("")
      ensures username == old(username) && password == old(password) && confirmPassword == old(confirmPassword)
      ensures isLoading == old(isLoading)
    {
      errors := Obj(map[]);
      generalError := Str("");
    }

    /** `resetForm`: empty fields and no errors. */
    method ResetForm()
      modifies this
      ensures username == "" && password == "" && confirmPassword == ""
      ensures errors == Obj(map[]) && generalError == Str("")
      ensures isLoading == old(isLoading)
    {
      username := "";
      password := "";
      confirmPassword := "";
      ClearErrors();
    }

    /** `handleSubmit`. `outcome` is how the POST to the login or register
        endpoint ends; its body is `None` when it is not JSON. On success the
        credentials passed to `onSuccess` are returned. */
    method Submit(mode: Mode, outcome: Session.HttpOutcome<Option<Json>>) returns (signedIn: Option<Credentials>)
      modifies this, storage
      ensures !isLoading
      // The confirmation check comes first and sends nothing.
      ensures mode == Register && old(password) != old(confirmPassword) ==>
        && errors == Obj(map["confirm_password" := Str(PasswordsDiffer)]) && generalError == Str("")
        && signedIn.None? && unchanged(storage)
        && username == old(username) && password == old(password) && confirmPassword == old(confirmPassword)
      ensures !(mode == Register && old(password) != old(confirmPassword)) ==>
        match outcome
        case NetworkFailure =>
          && generalError == Str(NetworkMessage) && errors == Obj(map[]) && signedIn.None? && unchanged(storage)
        case Answered(ok, body) =>
          if body.None? || body.value.Null? then
            && generalError == Str(NetworkMessage) && errors == Obj(map[]) && signedIn.None? && unchanged(storage)
          else if !ok then
            && signedIn.None? && unchanged(storage)
            && match ClassifyFailure(body.value)
               case FieldErrors(e) => errors == e && generalError == Str("")
               case General(m) => errors == Obj(map[]) && generalError == m
               case Thrown => false
          else
            var cred := Credentials(JsString(Member(body.value, "token")), ChosenUsername(body.value, old(username)));
            && signedIn == Some(cred)
            && storage.items == old(storage.items)[Session.TokenKey := cred.token][Session.UsernameKey := cred.username]
            && errors == Obj(map[]) && generalError == Str("")
      // The fields are kept unless the submission succeeded.
      ensures signedIn.Some? ==> username == "" && password == "" && confirmPassword == ""
      ensures signedIn.None? ==> username == old(username) && password == old(password) && confirmPassword == old(confirmPassword)
    {
      ClearErrors();
      isLoading := true;
      if mode == Register && password != confirmPassword {
        errors := Obj(map["confirm_password" := Str(PasswordsDiffer)]);
        isLoading := false;
        return None;
      }
      signedIn := None;
      match outcome {
        case NetworkFailure =>
          generalError := Str(NetworkMessage);
        case Answered(ok, body) =>
          if body.None? || body.value.Null? {
            generalError := Str(NetworkMessage);
          } else if !ok {
            match ClassifyFailure(body.value) {
              case FieldErrors(e) => errors := e;
              case General(m) => generalError := m;
            }
          } else {
            var data := body.value;
            var token := JsString(Member(data, "token"));
            storage.SetItem(Session.TokenKey, token);
            var name := ChosenUsername(data, username);
            storage.SetItem(Session.UsernameKey, name);
            signedIn := Some(Credentials(token, name));
            username := "";
            password := "";
            confirmPassword := "";
          }
      }
      isLoading := false;
    }
  }

  /** A successful submission followed by the `onSuccess` login leaves the
      session signed in with exactly what the dialog stored. */
  method SubmitAndLogin(form: AuthModal, session: Session.SessionStore, mode: Mode,
                        outcome: Session.HttpOutcome<Option<Json>>) returns (signedIn: Option<Credentials>)
    requires session.Valid() && session.storage == form.storage
    modifies form, session, session.storage
    ensures session.Valid()
    ensures signedIn.Some? ==>
      && session.isAuthenticated
      && session.token == signedIn.value.token && session.username == signedIn.value.username
      && session.storage.items[Session.TokenKey] == signedIn.value.token
      && session.storage.items[Session.UsernameKey] == signedIn.value.username
  {
    signedIn := form.Submit(mode, outcome);
    if signedIn.None? {
      // The dialog touched the shared storage only on success.
      return;
    }
    session.Login(signedIn.value.token, signedIn.value.username);
  }
}
