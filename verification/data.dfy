/**
 * The database context: the Users and Passengers tables, as in-memory maps
 * keyed by username and by PassengerId.
 */
module Data {
  import opened Wrappers
  import BCrypt

  /**
   * An account row. In Register's request body `passwordHash` carries the
   * raw password and `role` may be null; Register replaces both before storing.
   */
  datatype User = User(username: string, passwordHash: string, role: Option<string>)

  /** A passenger row. Only the key and the name matter to the controller; the other columns are opaque. */
  datatype Passenger = Passenger(passengerId: int, fullName: string, details: string)

  class DbContext {
    var users: map<string, User>
    var passengers: map<int, Passenger>

    /**
     * Every stored account sits under its own username, holds a bcrypt hash
     * (never a raw password) and has a non-empty role.
     */
    ghost predicate UsersValid()
      reads this
    {
      forall name | name in users ::
        && users[name].username == name
        && BCrypt.WellFormed(users[name].passwordHash)
        && users[name].role.Some?
        && users[name].role.value != ""
    }

    /** Every stored passenger sits under its own PassengerId. */
    ghost predicate PassengersValid()
      reads this
    {
      forall id | id in passengers :: passengers[id].passengerId == id
    }

    ghost predicate Valid()
      reads this
    {
      UsersValid() && PassengersValid()
    }

    constructor ()
      ensures Valid()
      ensures users == map[] && passengers == map[]
    {
      users := map[];
      passengers := map[];
    }
  }
}
