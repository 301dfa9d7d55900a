# Passenger entry backend: accounts, tokens and role-gated passenger records

This project models the decision logic of a small REST backend that records
border-entry passengers. Two controllers hold that logic:

- The account controller registers users with a bcrypt-hashed password and a
  role that defaults to `User`. It logs users in and mints a signed token that
  lasts 20 minutes and carries the user's name and role. It also
  re-authenticates an administrator by checking their password again.
- The passengers controller offers create, read, update and delete on the
  Passengers table. Reads are open to `Admin` and `User`; writes are for
  `Admin` only.

The database context (`MyDbContext`) is a class, `Data.DbContext`, holding two
tables as maps: Users keyed by username and Passengers keyed by PassengerId.
`Register`, `Create`, `Update` and `Delete` are methods that change these
maps. Each one states the whole new table: on failure the table is unchanged;
on success exactly one key changes. `Login`, `ReAuthenticate`, `Get` and
`GetAll` only read the tables. Their contracts state each outcome as an
if-and-only-if over the stored rows.

Inputs that come from outside become parameters:

- the bcrypt salt, which the library draws at random;
- the `JWT_KEY` environment variable;
- the current time, in seconds;
- the framework's verdict on model validation (`ModelState.IsValid`);
- the authenticated caller (`Principal`).

The framework applies `[Authorize]` and `[Authorize(Roles = ...)]` before an
action runs. In the model, each action has a precondition
`Decide(Some(caller), action) == Allow`, and `Authorization.Decide` states the
policy.

The model keeps the following behaviour of the code, which a reader might not expect:

- **Re-authentication is not enforced.** In the code, `Create`, `Update` and `Delete`
  check only the role. The re-authentication endpoint stands alone and
  returns `Ok(true)`; nothing on the server consumes that answer.
- **The signing key is checked at each log-in, not at start-up.** A missing
  or short key makes that log-in fail with an exception, which becomes a
  server error.
- **Roles are not limited to `User` and `Admin`.** `Register` stores whatever
  non-empty role the request carries. So anyone can register as `Admin`, log
  in, and pass the write gate (`Scenarios.RegisterThenLogin` proves this).
- **Empty usernames are accepted.** `Register` does not check for them.

## Model

| member | source | states |
|---|---|---|
| `Data.DbContext.constructor` | MyDbContext.cs:11-13 | The context starts with both tables empty, and both table invariants hold (every row is stored under its own key, every stored password is a bcrypt hash, every stored role is non-empty). |
| `BCrypt.HashPassword` | Controllers/AuthController.cs:33-34 | The stored hash is well formed and embeds the salt. The password it was made from always verifies against it. It never equals the raw password. |
| `BCrypt.VerifyOnlyHashedPassword` | Controllers/AuthController.cs:60 | A hash accepts the password it was made from and no other password. |
| `BCrypt.SaltedHashesDiffer` | Controllers/AuthController.cs:33 | The same password hashed under two different salts gives two different hashes (self-salting). |
| `Jwt.Utf8Length` | Controllers/AuthController.cs:104 | The UTF-8 byte length of the key is at least its character count and at most four times it. |
| `Jwt.Utf8LengthAppend` | Controllers/AuthController.cs:104 | The UTF-8 length of a concatenation is the sum of the lengths of its parts. |
| `Jwt.AsciiLength` | Controllers/AuthController.cs:104 | A string's UTF-8 length equals its character count exactly when every character is ASCII. |
| `Jwt.AsciiKeyBytes` | Controllers/AuthController.cs:104-106 | For an ASCII key, the 32-byte minimum is the same as a 32-character minimum. For example, a 16-character key is refused. |
| `Authorization.Decide` | Controllers/PassengerController.cs:8-66 | An unauthenticated request is challenged (401), whatever the action. An authenticated caller is allowed exactly when it holds `Admin`, or when it holds `User` and the action is a read (GetAll, Get). Every other caller is forbidden (403). |
| `Auth.StoredRole` | Controllers/AuthController.cs:35 | The stored role is never empty. A supplied non-empty role is kept unchanged. A null or empty role becomes `"User"`. |
| `Auth.AuthController.constructor` | Controllers/AuthController.cs:18-22 | The controller keeps the context and the configuration it is given. |
| `Auth.AuthController.Register` | Controllers/AuthController.cs:25-42 | A taken username gives BadRequest("Username already exists.") and leaves Users unchanged. Otherwise it returns Ok("User registered successfully.") and adds exactly one account under that username, with all other accounts unchanged. The new account holds `HashPassword(submitted password)`, which verifies the password and is not the raw string, and the role `StoredRole` picks. Passengers is unchanged, and the Users invariant is preserved. |
| `Auth.AuthController.Login` | Controllers/AuthController.cs:50-71 | BadRequest("Invalid username or password.") is returned exactly when the username is unknown or the password does not verify; the two cases give the same response. Ok is returned exactly when the credentials verify and the key is present and at least 32 bytes. The token's Name is the username and its Role is the stored role; it carries the configured issuer and audience and expires 20 minutes after `now`. Otherwise the result is the key fault: missing or too short. Users is never modified. |
| `Auth.AuthController.ReAuthenticate` | Controllers/AuthController.cs:73-90 | Ok(true) is returned exactly when the caller's name is present and non-empty, a stored account with that name has role `"Admin"`, and the submitted password verifies against its hash. Otherwise the result is Unauthorized. Users is never modified. The username in the request body plays no part. |
| `Auth.AuthController.GenerateJwtToken` | Controllers/AuthController.cs:93-121 | Minting succeeds exactly when the account has a role and the key is present with a UTF-8 length of at least 32 bytes. Failures are checked in source order: a null claim first, then a missing key, then a short key. A minted token carries Name = username, Role = stored role, the configured issuer and audience, and an expiry 20 minutes after issue. |
| `Passengers.PassengersController.constructor` | Controllers/PassengerController.cs:13-16 | The controller keeps the context it is given. |
| `Passengers.PassengersController.GetAll` | Controllers/PassengerController.cs:19-24 | Always Ok. The list has one entry per stored passenger: every entry is the stored row for its id, every stored row appears, and no id repeats. The table is not modified. |
| `Passengers.PassengersController.Get` | Controllers/PassengerController.cs:26-34 | The result is Ok exactly when the id is stored, and then it is exactly the stored row. Otherwise it is NotFound. The table is not modified. |
| `Passengers.PassengersController.Create` | Controllers/PassengerController.cs:37-49 | An invalid model gives the BadRequest(ModelState) response and leaves the table unchanged. A key that is already stored makes the save fail, and the table is unchanged. Otherwise the row is added under its key, no other row changes, and the Passengers invariant is preserved. |
| `Passengers.PassengersController.Update` | Controllers/PassengerController.cs:52-62 | The row stored and returned is the body with PassengerId forced to `id`, whatever id the body carried. It replaces only the row with key `id`. If `id` is not stored, the save fails and the table is unchanged. |
| `Passengers.PassengersController.Delete` | Controllers/PassengerController.cs:65-77 | An absent id gives NotFound and leaves the table unchanged. A present id gives Ok() and removes exactly that row; every other row is unchanged. |
| `Scenarios.RegisterThenLogin` | Controllers/AuthController.cs:25-71 | Registering a fresh username and then logging in with the same password succeeds. The token names the account, carries the registered role and expires 20 minutes later. A self-registered `"Admin"` passes the gate for deleting passengers. |
| `Scenarios.RegisterThenWrongPassword` | Controllers/AuthController.cs:25-65 | After registration, logging in with any other password gives the same failure message an unknown username gets. |
| `Scenarios.AdminReauthentication` | Controllers/AuthController.cs:25-90 | An account registered as `"Admin"` logs in. With the identity its token yields, re-authentication accepts the account's password and refuses every other password. |
| `Scenarios.CreateThenGet` | Controllers/PassengerController.cs:26-49 | Get returns exactly the row that Create stored. |
| `Scenarios.DeleteThenGet` | Controllers/PassengerController.cs:26-77 | After a Delete, Get on that id gives NotFound, and a second Delete gives NotFound too. |

## Left out

- BCrypt internals are not modelled: the key derivation, its cost, the constant-time comparison and the 72-byte truncation of passwords. `BCrypt.Digest` is an idealised stand-in that never collides, so `Verify` accepts exactly the hashed password. It says nothing about one-wayness.
- BCrypt.Net throws an exception when `Verify` is given a malformed hash. The model's `Verify` returns false instead. That case cannot arise, because `DbContext.UsersValid` keeps every stored hash well formed.
- Token encoding and signing (the JWT serialisation and the HMAC-SHA-256 signature) are not modelled. A token is the record of its claims and expiry.
- Token validation (Program.cs:31-45) is not modelled: signature, issuer, audience and lifetime checks. Validation reads the key from the `Jwt:Key` setting, while minting reads the `JWT_KEY` environment variable; that mismatch is outside the model. `Authorization.PrincipalOf` gives the identity a token yields once it has been validated.
- Hosting setup in Program.cs is not modelled: CORS, dependency injection and middleware order.
- Persistence is replaced by in-memory maps: EF Core, MySQL, asynchronous calls and `SaveChangesAsync`. The model compares strings exactly; the database collation, which may compare usernames without regard to case, is not modelled. Configuration keys are also looked up exactly, although .NET configuration ignores their case.
- The check-then-insert race in `Register` is a concurrency issue and is not modelled; requests run one at a time.
- Serilog logging is a side effect and is not modelled.
- Model validation is the `modelValid` parameter of `Create`, because the Passenger entity's validation attributes are not part of this model. The framework's automatic 400 for an invalid `Update` body, raised before the action runs, is not modelled.
- Store-generated passenger keys are not modelled. If PassengerId is generated by the database, EF Core inserts a body whose PassengerId is 0 under a new generated key, for both `Create` and `Update`. The model treats 0 like any other key.
- The User entity is updated in place by `Register` and then added to the table. The model copies it as a value, so aliasing between the request object and the tracked entity is not captured.
- Null usernames and passwords in request bodies are not modelled (they are strings here). A null role is modelled.
- Time is an integer number of seconds passed in as `now`; the wall clock is not read.
- Keys are Unicode scalar sequences. Lone UTF-16 surrogates, which .NET encodes as three replacement bytes, cannot be expressed.
- Row order is not modelled: the database returns the Passengers table without an ORDER BY, so the list GetAll returns has no specified order.
