/**
 * The account actions: register, log in, re-authenticate, and the token
 * minting that log-in ends with.
 */
module Auth {
  import opened Wrappers
  import opened Http
  import opened Data
  import opened Jwt
  import opened Authorization
  import BCrypt

  const UsernameExists: string := "Username already exists."
  const UserRegistered: string := "User registered successfully."
  const InvalidCredentials: string := "Invalid username or password."

  const IssuerSetting: string := "Jwt:Issuer"
  const AudienceSetting: string := "Jwt:Audience"

  /** The body of a log-in or re-authentication request. */
  datatype LoginRequest = LoginRequest(username: string, password: string)

  /** The role Register stores: the supplied one, or "User" when it is null or empty. */
  function StoredRole(role: Option<string>): (r: string)
    ensures r != ""
    ensures role.Some? && role.value != "" ==> r == role.value
    ensures role.None? || role.value == "" ==> r == UserRole
  {
    if role.None? || role.value == "" then UserRole else role.value
  }

  /** The credentials name a stored account and the password verifies against its hash. */
  predicate Authentic(users: map<string, User>, login: LoginRequest)
  {
    login.username in users && BCrypt.Verify(login.password, users[login.username].passwordHash)
  }

  /** A signing key the minting accepts: present and at least 32 bytes once UTF-8 encoded. */
  predicate KeyAccepted(jwtKey: Option<string>)
  {
    jwtKey.Some? && Utf8Length(jwtKey.value) >= MinKeyBytes
  }

  class AuthController {
    const context: DbContext
    /** The application's configuration settings (`Jwt:Issuer`, `Jwt:Audience`, ...). */
    const config: map<string, string>

    constructor (context: DbContext, config: map<string, string>)
      ensures this.context == context && this.config == config
    {
      this.context := context;
      this.config := config;
    }

    /** A configuration lookup; a missing setting reads as null. */
    function Setting(key: string): Option<string>
    {
      if key in config then Some(config[key]) else None
    }

    /**
     * Create an account. A taken username is refused and nothing changes;
     * otherwise exactly one account is added, holding the hash of the
     * submitted password and the role StoredRole picks.
     */
    method Register(user: User, salt: BCrypt.Salt) returns (r: Response<string>)
      requires context.UsersValid()
      modifies context
      ensures context.UsersValid()
      ensures context.passengers == old(context.passengers)
      ensures user.username in old(context.users) ==>
        r == BadRequest(UsernameExists) && context.users == old(context.users)
      ensures user.username !in old(context.users) ==>
        && r == Ok(UserRegistered)
        && context.users ==
           old(context.users)[user.username := User(user.username, BCrypt.HashPassword(user.passwordHash, salt), Some(StoredRole(user.role)))]
      ensures r.Ok? ==>
        && |context.users| == |old(context.users)| + 1
        && BCrypt.Verify(user.passwordHash, context.users[user.username].passwordHash)
        && context.users[user.username].passwordHash != user.passwordHash
    {
      if user.username in context.users {
        return BadRequest(UsernameExists);
      }
      var stored := user;
      var hashedPassword := BCrypt.HashPassword(stored.passwordHash, salt);
      stored := stored.(passwordHash := hashedPassword);
      stored := stored.(role := Some(StoredRole(stored.role)));
      context.users := context.users[user.username := stored];
      r := Ok(UserRegistered);
    }

    /**
     * Log in. An unknown username and a wrong password give the same
     * response; valid credentials give a token for the stored account, or
     * the minting fault when the signing key is missing or too short.
     * The Users table is only read.
     */
    method Login(login: LoginRequest, jwtKey: Option<string>, now: int) returns (r: Response<Token>)
      requires context.UsersValid()
      ensures r == BadRequest(InvalidCredentials) <==> !Authentic(context.users, login)
      ensures r.Ok? <==> Authentic(context.users, login) && KeyAccepted(jwtKey)
      ensures r.Ok? || r.ServerError? || r == BadRequest(InvalidCredentials)
      ensures r.Ok? ==>
        && r.body.name == login.username
        && Some(r.body.role) == context.users[login.username].role
        && r.body.issuer == Setting(IssuerSetting)
        && r.body.audience == Setting(AudienceSetting)
        && r.body.expires == now + TokenLifetime
      ensures r.ServerError? ==> r.fault == (if jwtKey.None? then JwtKeyMissing else JwtKeyTooShort)
    {
      if login.username !in context.users {
        return BadRequest(InvalidCredentials);
      }
      var user := context.users[login.username];
      var valid := BCrypt.Verify(login.password, user.passwordHash);
      if !valid {
        return BadRequest(InvalidCredentials);
      }
      var token := GenerateJwtToken(user, jwtKey, now);
      if token.Failure? {
        return ServerError(token.error);
      }
      r := Ok(token.value);
    }

    /**
     * Confirm the caller's password before a sensitive action. Succeeds only
     * for a named caller whose stored account has role "Admin" and whose
     * password verifies; the username in the request body is ignored.
     */
    method ReAuthenticate(caller: Principal, request: LoginRequest) returns (r: Response<bool>)
      requires Decide(Some(caller), Reauthenticate) == Allow
      ensures r == Ok(true) <==>
        && caller.name.Some? && caller.name.value != ""
        && caller.name.value in context.users
        && context.users[caller.name.value].role == Some(AdminRole)
        && BCrypt.Verify(request.password, context.users[caller.name.value].passwordHash)
      ensures r != Ok(true) ==> r == Unauthorized
    {
      if caller.name.None? || caller.name.value == "" {
        return Unauthorized;
      }
      var username := caller.name.value;
      if !(username in context.users && context.users[username].role == Some(AdminRole)) {
        return Unauthorized;
      }
      var user := context.users[username];
      var valid := BCrypt.Verify(request.password, user.passwordHash);
      if !valid {
        return Unauthorized;
      }
      r := Ok(true);
    }

    /**
     * Mint a token for an account. The claims are built first, so a null
     * role fails before the key is looked at; then the key must be present
     * and at least 32 bytes. A minted token names the account, carries its
     * role and the configured issuer and audience, and expires 20 minutes
     * after `now`.
     */
    function GenerateJwtToken(user: User, jwtKey: Option<string>, now: int): (r: Result<Token, Fault>)
      ensures r.Success? <==> user.role.Some? && KeyAccepted(jwtKey)
      ensures r.Failure? ==>
        r.error == (if user.role.None? then NullClaimValue else if jwtKey.None? then JwtKeyMissing else JwtKeyTooShort)
      ensures r.Success? ==>
        && r.value.name == user.username
        && Some(r.value.role) == user.role
        && r.value.issuer == Setting(IssuerSetting)
        && r.value.audience == Setting(AudienceSetting)
        && r.value.expires == now + TokenLifetime
    {
      if user.role.None? then Failure(NullClaimValue)
      else if jwtKey.None? then Failure(JwtKeyMissing)
      else if Utf8Length(jwtKey.value) < MinKeyBytes then Failure(JwtKeyTooShort)
      else Success(Token(user.username, user.role.value, Setting(IssuerSetting), Setting(AudienceSetting), now + TokenLifetime))
    }
  }
}
