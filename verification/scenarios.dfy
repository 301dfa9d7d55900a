/**
 * Clients of the controllers: sequences of actions run against one database
 * context, with what their contracts let a caller conclude.
 */
module Scenarios {
  import opened Wrappers
  import opened Http
  import opened Data
  import opened Jwt
  import opened Authorization
  import opened Auth
  import opened Passengers
  import BCrypt

  /**
   * Register a fresh username, then log in with the same password: the log-in
   * succeeds and its token names the account and carries the role Register
   * stored. The role is the one the request asked for, so a self-registered
   * "Admin" receives an Admin token.
   */
  method RegisterThenLogin(auth: AuthController, user: User, salt: BCrypt.Salt, jwtKey: string, now: int)
    returns (registered: Response<string>, login: Response<Token>)
    requires auth.context.UsersValid()
    requires user.username !in auth.context.users
    requires Utf8Length(jwtKey) >= MinKeyBytes
    modifies auth.context
    ensures auth.context.UsersValid()
    ensures registered == Ok(UserRegistered)
    ensures user.username in auth.context.users
    ensures auth.context.users[user.username].role == Some(StoredRole(user.role))
    ensures BCrypt.Verify(user.passwordHash, auth.context.users[user.username].passwordHash)
    ensures login.Ok?
    ensures login.body.name == user.username && login.body.role == StoredRole(user.role)
    ensures login.body.expires == now + TokenLifetime
    ensures user.role == Some(AdminRole) ==> Decide(Some(PrincipalOf(login.body)), DeletePassenger) == Allow
  {
    registered := auth.Register(user, salt);
    login := auth.Login(LoginRequest(user.username, user.passwordHash), Some(jwtKey), now);
  }

  /**
   * Register, then log in with a different password: the log-in fails with
   * the same message an unknown username gets.
   */
  method RegisterThenWrongPassword(auth: AuthController, user: User, salt: BCrypt.Salt, password: string, jwtKey: Option<string>, now: int)
    returns (login: Response<Token>)
    requires auth.context.UsersValid()
    requires user.username !in auth.context.users
    requires password != user.passwordHash
    modifies auth.context
    ensures login == BadRequest(InvalidCredentials)
  {
    var _ := auth.Register(user, salt);
    BCrypt.VerifyOnlyHashedPassword(user.passwordHash, password, salt);
    login := auth.Login(LoginRequest(user.username, password), jwtKey, now);
  }

  /**
   * An account registered as "Admin" logs in; with the resulting identity,
   * re-authentication accepts the account's password and refuses any other.
   */
  method AdminReauthentication(auth: AuthController, admin: User, salt: BCrypt.Salt, jwtKey: string, now: int, wrong: string)
    returns (accepted: Response<bool>, refused: Response<bool>)
    requires auth.context.UsersValid()
    requires admin.username !in auth.context.users && admin.username != ""
    requires admin.role == Some(AdminRole)
    requires Utf8Length(jwtKey) >= MinKeyBytes
    requires wrong != admin.passwordHash
    modifies auth.context
    ensures accepted == Ok(true)
    ensures refused == Unauthorized
  {
    var _, login := RegisterThenLogin(auth, admin, salt, jwtKey, now);
    var caller := PrincipalOf(login.body);
    accepted := auth.ReAuthenticate(caller, LoginRequest(admin.username, admin.passwordHash));
    BCrypt.VerifyOnlyHashedPassword(admin.passwordHash, wrong, salt);
    refused := auth.ReAuthenticate(caller, LoginRequest(admin.username, wrong));
  }

  /** Create a passenger, then read it back: Get returns exactly what Create stored. */
  method CreateThenGet(admin: Principal, passengers: PassengersController, p: Passenger)
    returns (created: Response<Passenger>, fetched: Response<Passenger>)
    requires passengers.context.PassengersValid()
    requires AdminRole in admin.roles
    requires p.passengerId !in passengers.context.passengers
    modifies passengers.context
    ensures created == Ok(p) && fetched == Ok(p)
  {
    created := passengers.Create(admin, p, true);
    fetched := passengers.Get(admin, p.passengerId);
  }

  /** Delete a stored passenger, then read it: Get answers NotFound, and a second Delete too. */
  method DeleteThenGet(admin: Principal, passengers: PassengersController, id: int)
    returns (deleted: Response<()>, fetched: Response<Passenger>, again: Response<()>)
    requires passengers.context.PassengersValid()
    requires AdminRole in admin.roles
    requires id in passengers.context.passengers
    modifies passengers.context
    ensures deleted == Ok(()) && fetched == NotFound && again == NotFound
  {
    deleted := passengers.Delete(admin, id);
    fetched := passengers.Get(admin, id);
    again := passengers.Delete(admin, id);
  }
}
