/**
 * Registration and login over the users collection. The collection is a map
 * from username to the stored document; bcrypt is outside the model: the
 * digest of a new password is an input, and `checkpw` is a predicate given
 * by the caller, as is the JWT encoder.
 */
module Accounts {
  import opened Wrappers
  import opened Http
  import opened UserInput
  import opened Tokens

  /** A document of the users collection. */
  datatype UserRecord = UserRecord(username: string, hashedPassword: string, createdAt: int, lastLogin: Option<int>)

  type Users = map<string, UserRecord>

  /** Each document is filed under its own username, and that username passed validation. */
  predicate WellFormed(users: Users)
  {
    forall u :: u in users ==> users[u].username == u && UsernameError(u).None?
  }

  const AlreadyRegistered := Detail(400, "Username already registered.")
  const InvalidLogin := Detail(401, "Invalid username or password.")
  const RegisteredMessage := Ok(map["message" := JStr("User registered successfully")])

  /** FastAPI's 422 for a body pydantic refused: the message of each failing field. */
  function ValidationFailed(errors: seq<FieldError>): Response
  {
    Response(422, map["detail" := JArr(seq(|errors|, i requires 0 <= i < |errors| => JStr(ErrorText(errors[i]))))], map[])
  }

  function LoginSucceeded(token: string): Response
  {
    Ok(map["access_token" := JStr(token), "token_type" := JStr("bearer")])
  }

  /** The claims a login signs: the subject and the 30-minute expiry. */
  function LoginClaims(username: string, now: int): Claims
  {
    CreateAccessToken(map["sub" := JStr(username)], Some(AccessTokenLifetime), now)
  }

  /** A response together with the collection after the request. */
  datatype Step = Step(response: Response, users: Users)

  /**
   * `register_user`: validate the body, refuse a taken username, otherwise
   * insert a document with the digest, the creation time and no last login.
   */
  function Register(users: Users, username: string, password: string, hashed: string, now: int): Step
  {
    match ValidateUserIn(username, password)
    case Failure(errors) => Step(ValidationFailed(errors), users)
    case Success(user) =>
      if user.username in users then Step(AlreadyRegistered, users)
      else Step(RegisteredMessage, users[user.username := UserRecord(user.username, hashed, now, None)])
  }

  /**
   * `login_user`: validate the body, refuse an unknown user or a wrong
   * password with one and the same 401, otherwise record the login time and
   * hand out a signed token.
   */
  function Login(users: Users, username: string, password: string,
                 checkpw: (string, string) -> bool, encode: Claims -> string, now: int): Step
  {
    match ValidateUserIn(username, password)
    case Failure(errors) => Step(ValidationFailed(errors), users)
    case Success(user) =>
      if user.username !in users || !checkpw(user.password, users[user.username].hashedPassword) then
        Step(InvalidLogin, users)
      else
        Step(LoginSucceeded(encode(LoginClaims(user.username, now))),
             users[user.username := users[user.username].(lastLogin := Some(now))])
  }

  /**
   * Registration succeeds exactly for a valid body with a free username, and
   * then adds exactly one document, with no last login; otherwise nothing
   * changes. An invalid body is the 422 listing the failing fields. The collection stays well formed.
   */
  lemma RegisterOutcome(users: Users, username: string, password: string, hashed: string, now: int)
    requires WellFormed(users)
    ensures var step := Register(users, username, password, hashed, now);
      && WellFormed(step.users)
      && (step.response == RegisteredMessage <==> ValidateUserIn(username, password).Success? && username !in users)
      && (step.response == AlreadyRegistered <==> ValidateUserIn(username, password).Success? && username in users)
      && (step.response == RegisteredMessage ==>
            step.users == users[username := UserRecord(username, hashed, now, None)] && |step.users| == |users| + 1)
      && (step.response != RegisteredMessage ==> step.users == users)
      && (ValidateUserIn(username, password).Failure? ==>
            step.response == ValidationFailed(ValidateUserIn(username, password).error))
  {
    var step := Register(users, username, password, hashed, now);
    if step.response == RegisteredMessage {
      UsernameOfValidBody(username, password);
      assert username !in users;
      assert step.users.Keys == users.Keys + {username};
    }
  }

  lemma UsernameOfValidBody(username: string, password: string)
    requires ValidateUserIn(username, password).Success?
    ensures UsernameError(username).None? && PasswordError(password).None?
  {
    ValidationRule(username, password);
  }

  /** Registering a username twice: the second attempt is refused and changes nothing. */
  lemma RegisterTwice(users: Users, username: string, password: string, password2: string,
                      hashed: string, hashed2: string, now: int, now2: int)
    requires ValidateUserIn(username, password).Success?
    ensures var first := Register(users, username, password, hashed, now);
      var second := Register(first.users, username, password2, hashed2, now2);
      ValidateUserIn(username, password2).Success? ==> second == Step(AlreadyRegistered, first.users)
  {
  }

  /**
   * No user enumeration: an unknown username and a wrong password give the
   * identical 401, and neither changes the collection.
   */
  lemma LoginFailuresIdentical(users: Users, checkpw: (string, string) -> bool, encode: Claims -> string, now: int,
                               unknown: string, p1: string, known: string, p2: string)
    requires ValidateUserIn(unknown, p1).Success? && unknown !in users
    requires ValidateUserIn(known, p2).Success? && known in users && !checkpw(p2, users[known].hashedPassword)
    ensures Login(users, unknown, p1, checkpw, encode, now) == Step(InvalidLogin, users)
    ensures Login(users, known, p2, checkpw, encode, now) == Step(InvalidLogin, users)
  {
  }

  /**
   * A successful login changes only that user's last login, to now, and
   * returns a bearer token whose claims carry the username as subject and
   * expire thirty minutes later.
   */
  lemma LoginSuccess(users: Users, username: string, password: string,
                     checkpw: (string, string) -> bool, encode: Claims -> string, now: int)
    requires WellFormed(users)
    requires ValidateUserIn(username, password).Success? && username in users
    requires checkpw(password, users[username].hashedPassword)
    ensures var step := Login(users, username, password, checkpw, encode, now);
      && step.response.status == 200
      && step.response.body["token_type"] == JStr("bearer")
      && step.response.body["access_token"] == JStr(encode(LoginClaims(username, now)))
      && LoginClaims(username, now)["sub"] == JStr(username)
      && LoginClaims(username, now)["exp"] == JNum(now + AccessTokenLifetime)
      && step.users.Keys == users.Keys
      && step.users[username] == users[username].(lastLogin := Some(now))
      && (forall u :: u in users && u != username ==> step.users[u] == users[u])
      && WellFormed(step.users)
  {
  }

  /**
   * End to end: after a successful registration, logging in with a password
   * that matches the stored digest succeeds, and the token it returns
   * verifies to the username until it expires.
   */
  lemma RegisterThenLogin(users: Users, username: string, password: string, hashed: string,
                          checkpw: (string, string) -> bool, encode: Claims -> string,
                          registered: int, loggedIn: int, later: int)
    requires WellFormed(users)
    requires Register(users, username, password, hashed, registered).response == RegisteredMessage
    requires checkpw(password, hashed)
    ensures var afterRegister := Register(users, username, password, hashed, registered).users;
      var login := Login(afterRegister, username, password, checkpw, encode, loggedIn);
      && login.response == LoginSucceeded(encode(LoginClaims(username, loggedIn)))
      && login.users[username].lastLogin == Some(loggedIn)
      && (VerifyToken(DecodeVerified(LoginClaims(username, loggedIn), later)).Success? <==>
            later <= loggedIn + AccessTokenLifetime)
  {
    RegisterOutcome(users, username, password, hashed, registered);
    IssueThenVerify(username, loggedIn, later);
  }

  /** The users collection of the auth service. */
  class UserStore {
    var users: Users

    ghost predicate Valid()
      reads this
    {
      WellFormed(users)
    }

    constructor ()
      ensures Valid() && users == map[]
    {
      users := map[];
    }

    /** `register_user`: `find_one`, then `insert_one` when the name is free. */
    method RegisterUser(username: string, password: string, hashed: string, now: int) returns (response: Response)
      requires Valid()
      modifies this
      ensures Valid()
      ensures Step(response, users) == Register(old(users), username, password, hashed, now)
    {
      RegisterOutcome(users, username, password, hashed, now);
      var body := ValidateUserIn(username, password);
      if body.Failure? {
        return ValidationFailed(body.error);
      }
      if username in users {
        return AlreadyRegistered;
      }
      users := users[username := UserRecord(username, hashed, now, None)];
      response := RegisteredMessage;
    }

    /** `login_user`: `find_one`, `checkpw`, then `update_one` of `last_login` on success. */
    method LoginUser(username: string, password: string, checkpw: (string, string) -> bool,
                     encode: Claims -> string, now: int) returns (response: Response)
      requires Valid()
      modifies this
      ensures Valid()
      ensures Step(response, users) == Login(old(users), username, password, checkpw, encode, now)
    {
      var body := ValidateUserIn(username, password);
      if body.Failure? {
        return ValidationFailed(body.error);
      }
      if username !in users || !checkpw(password, users[username].hashedPassword) {
        return InvalidLogin;
      }
      LoginSuccess(users, username, password, checkpw, encode, now);
      users := users[username := users[username].(lastLogin := Some(now))];
      var token := encode(LoginClaims(username, now));
      response := LoginSucceeded(token);
    }
  }
}
