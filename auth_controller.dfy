/**
 * backend/controllers/authController.js: the `login` decision tree and
 * `getCurrentUser`. The password comparison and token signing are
 * parameters; the lookup is `User.findOne({ email })` over the user map.
 */
module AuthController {

  import opened Wrappers
  import opened Http
  import opened UserModel
  import opened Db
  import Text

  const MsgProvide := "Please provide email and password"
  const MsgIncorrect := "Incorrect email or password"
  const MsgUserNotFound := "User not found"
  const MsgSomethingWrong := "Something went wrong! Please try again later."
  const BootstrapEmail := "admin@gmail.com"
  const BootstrapPassword := "admin"

  datatype LoginData = LoginData(token: string, user: SessionUser)

  /**
   * `sent` is the response the client receives; `discarded` lists, in order,
   * the responses the handler goes on to attempt after one was already sent.
   * Each such attempt throws because the headers are out: the first throw is
   * caught and answered again with 500, and that second attempt throws out of
   * the catch block, so the handler's promise rejects. The client sees none
   * of them.
   */
  datatype LoginOutcome = LoginOutcome(sent: Reply<LoginData>, discarded: seq<Reply<LoginData>>)

  /** The synthetic user of the first-login branch; the email literal carries a trailing colon. */
  const BootstrapAdmin := SessionUser(None, Some("Admin"), "admin@gmail.com:", None, Admin, [])

  /** The bootstrap branch's condition: the literal credentials and no stored user for that email. */
  predicate IsBootstrap(users: map<Id, User>, bound: nat, email: string, password: string) {
    email == BootstrapEmail && password == BootstrapPassword
    && FindEmailFrom(users, NormalizeEmail(email), 0, bound).None?
  }

  /** `login`'s credential check and success response, reached in every branch that passes the input check. */
  function CredentialReply(
    users: map<Id, User>, bound: nat, email: string, password: string,
    compare: (string, string) -> bool, sign: SessionUser -> string): (r: Reply<LoginData>)
    requires EmailsUnique(users)
    ensures r.Fail? ==> r == Fail(401, MsgIncorrect)
    ensures r.Success? <==>
      exists k :: k in users && k < bound && users[k].email == NormalizeEmail(email) && compare(password, users[k].password)
    ensures r.Success? ==>
      exists k :: k in users && users[k].email == NormalizeEmail(email)
        && r == Success(200, LoginData(sign(SelectDefault(k, users[k])), StripPassword(SelectDefault(k, users[k]))))
  {
    var found := FindEmailFrom(users, NormalizeEmail(email), 0, bound);
    if found.None? || !compare(password, users[found.value].password) then
      Fail(401, MsgIncorrect)
    else
      var u := SelectDefault(found.value, users[found.value]);
      Success(200, LoginData(sign(u), StripPassword(u)))
  }

  function Login(
    users: map<Id, User>, bound: nat, email: Option<string>, password: Option<string>,
    compare: (string, string) -> bool, sign: SessionUser -> string): (out: LoginOutcome)
    requires forall k :: k in users ==> k < bound
    requires EmailsUnique(users)
    ensures !Truthy(email) || !Truthy(password) ==> out == LoginOutcome(Fail(400, MsgProvide), [])
    ensures out.discarded != [] <==> Truthy(email) && Truthy(password) && IsBootstrap(users, bound, email.value, password.value)
    ensures out.discarded != [] ==>
      out.sent == Success(200, LoginData(sign(BootstrapAdmin), BootstrapAdmin))
      && out.discarded == [Fail(401, MsgIncorrect), Fail(500, MsgSomethingWrong)]
    ensures Truthy(email) && Truthy(password) && out.discarded == [] ==>
      out.sent == CredentialReply(users, bound, email.value, password.value, compare, sign)
  {
    if !Truthy(email) || !Truthy(password) then LoginOutcome(Fail(400, MsgProvide), [])
    else
      var main := CredentialReply(users, bound, email.value, password.value, compare, sign);
      if IsBootstrap(users, bound, email.value, password.value) then
        assert main.Fail?;
        LoginOutcome(Success(200, LoginData(sign(BootstrapAdmin), BootstrapAdmin)), [main, Fail(500, MsgSomethingWrong)])
      else LoginOutcome(main, [])
  }

  /** An unknown email and a wrong password for a known one produce the same response. */
  lemma NoAccountEnumeration(
    users: map<Id, User>, bound: nat, email: string, password: string, k: Id,
    compare: (string, string) -> bool, sign: SessionUser -> string)
    requires forall j :: j in users ==> j < bound
    requires EmailsUnique(users)
    requires email != "" && password != ""
    requires !(email == BootstrapEmail && password == BootstrapPassword)
    requires k in users && users[k].email == NormalizeEmail(email) && !compare(password, users[k].password)
    ensures Login(users, bound, Some(email), Some(password), compare, sign).sent
      == Login(users - {k}, bound, Some(email), Some(password), compare, sign).sent
      == Fail(401, MsgIncorrect)
  {
    var without := users - {k};
    var e := NormalizeEmail(email);
    assert !IsBootstrap(users, bound, email, password) && !IsBootstrap(without, bound, email, password);
    assert forall j :: j in without ==> users[j].email != e;
    var r1 := CredentialReply(users, bound, email, password, compare, sign);
    var r2 := CredentialReply(without, bound, email, password, compare, sign);
    assert r1.Fail?;
    assert r2.Fail?;
    assert EmailsUnique(without);
    assert Login(users, bound, Some(email), Some(password), compare, sign) == LoginOutcome(r1, []);
    assert Login(without, bound, Some(email), Some(password), compare, sign) == LoginOutcome(r2, []);
  }

  /** The bootstrap address is stored as written: it has no outer space and no capitals. */
  lemma BootstrapEmailIsNormal(email: string)
    requires email == BootstrapEmail
    ensures NormalizeEmail(email) == email
  {
    assert Text.IsTrimmed(email);
    assert forall i :: 0 <= i < |email| ==> !Text.IsUpperAscii(email[i]);
  }

  /**
   * With the literal bootstrap credentials the response does tell accounts
   * apart: without a stored user of that email the answer is the bootstrap
   * 200, with one whose hash does not match it is 401.
   */
  lemma BootstrapRevealsAccount(
    users: map<Id, User>, bound: nat, k: Id, email: string, password: string,
    compare: (string, string) -> bool, sign: SessionUser -> string)
    requires forall j :: j in users ==> j < bound
    requires EmailsUnique(users)
    requires email == BootstrapEmail && password == BootstrapPassword
    requires k in users && users[k].email == email && !compare(password, users[k].password)
    ensures Login(users, bound, Some(email), Some(password), compare, sign).sent == Fail(401, MsgIncorrect)
    ensures Login(users - {k}, bound, Some(email), Some(password), compare, sign).sent
      == Success(200, LoginData(sign(BootstrapAdmin), BootstrapAdmin))
  {
    var without := users - {k};
    assert forall j :: j in without ==> without[j].email != email;
    BootstrapStoredGets401(users, bound, k, email, password, compare, sign);
    BootstrapUnknownGets200(without, bound, email, password, compare, sign);
  }

  /** The bootstrap credentials against a stored account whose hash does not match: 401. */
  lemma BootstrapStoredGets401(
    users: map<Id, User>, bound: nat, k: Id, email: string, password: string,
    compare: (string, string) -> bool, sign: SessionUser -> string)
    requires forall j :: j in users ==> j < bound
    requires EmailsUnique(users)
    requires email == BootstrapEmail && password == BootstrapPassword
    requires k in users && users[k].email == email && !compare(password, users[k].password)
    ensures Login(users, bound, Some(email), Some(password), compare, sign).sent == Fail(401, MsgIncorrect)
  {
    BootstrapEmailIsNormal(email);
    assert FindEmailFrom(users, NormalizeEmail(email), 0, bound) == Some(k);
  }

  /** The bootstrap credentials with no stored account of that email: the bootstrap 200. */
  lemma BootstrapUnknownGets200(
    users: map<Id, User>, bound: nat, email: string, password: string,
    compare: (string, string) -> bool, sign: SessionUser -> string)
    requires forall j :: j in users ==> j < bound
    requires EmailsUnique(users)
    requires email == BootstrapEmail && password == BootstrapPassword
    requires forall j :: j in users ==> users[j].email != email
    ensures Login(users, bound, Some(email), Some(password), compare, sign).sent
      == Success(200, LoginData(sign(BootstrapAdmin), BootstrapAdmin))
  {
    BootstrapEmailIsNormal(email);
    assert FindEmailFrom(users, NormalizeEmail(email), 0, bound).None?;
  }

  /** On success the token is signed over the stored user as selected, password hash included. */
  lemma TokenCarriesStoredRecord(
    users: map<Id, User>, bound: nat, email: string, password: string,
    compare: (string, string) -> bool, sign: SessionUser -> string)
    requires forall j :: j in users ==> j < bound
    requires EmailsUnique(users)
    requires email != "" && password != ""
    requires Login(users, bound, Some(email), Some(password), compare, sign).sent.Success?
    requires !IsBootstrap(users, bound, email, password)
    ensures exists k :: (
      && k in users && users[k].email == NormalizeEmail(email)
      && Login(users, bound, Some(email), Some(password), compare, sign).sent.data
         == LoginData(sign(SelectDefault(k, users[k])), StripPassword(SelectDefault(k, users[k])))
      && SelectDefault(k, users[k]).password == Some(users[k].password)
      && Login(users, bound, Some(email), Some(password), compare, sign).sent.data.user.password.None?)
  {
  }

  /** `getCurrentUser`: 404 without a user on the request, otherwise that user with the password cleared. */
  function GetCurrentUser(user: Option<SessionUser>): (r: Reply<SessionUser>)
    ensures user.None? ==> r == Fail(404, MsgUserNotFound)
    ensures user.Some? ==>
      r.Success? && r.code == 200 && r.data.password.None?
      && r.data.(password := user.value.password) == user.value
  {
    if user.None? then Fail(404, MsgUserNotFound) else Success(200, StripPassword(user.value))
  }
}
