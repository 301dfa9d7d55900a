/**
 * The passenger actions: role-gated reads and writes on the Passengers table.
 * Every action needs an authenticated caller; the framework has already
 * applied the gate when an action runs, which each `requires Decide(...)`
 * states.
 */
module Passengers {
  import opened Wrappers
  import opened Http
  import opened Data
  import opened Authorization

  class PassengersController {
    const context: DbContext

    constructor (context: DbContext)
      ensures this.context == context
    {
      this.context := context;
    }

    /**
     * List every stored passenger, each exactly once, in no particular
     * order. The table is only read.
     */
    method GetAll(caller: Principal) returns (r: Response<seq<Passenger>>)
      requires context.PassengersValid()
      requires Decide(Some(caller), ListPassengers) == Allow
      ensures r.Ok?
      ensures |r.body| == |context.passengers|
      ensures forall i | 0 <= i < |r.body| ::
        r.body[i].passengerId in context.passengers && context.passengers[r.body[i].passengerId] == r.body[i]
      ensures forall id | id in context.passengers :: context.passengers[id] in r.body
      ensures forall i, j | 0 <= i < j < |r.body| :: r.body[i].passengerId != r.body[j].passengerId
    {
      var table := context.passengers;
      var rows: seq<Passenger> := [];
      var pending := table.Keys;
      while |pending| > 0
        invariant forall k | k in table :: table[k].passengerId == k
        invariant pending <= table.Keys
        invariant |rows| + |pending| == |table.Keys|
        invariant forall i | 0 <= i < |rows| ::
          rows[i].passengerId in table && rows[i].passengerId !in pending && table[rows[i].passengerId] == rows[i]
        invariant forall id | id in table && id !in pending :: table[id] in rows
        invariant forall i, j | 0 <= i < j < |rows| :: rows[i].passengerId != rows[j].passengerId
      {
        var id :| id in pending;
        rows := rows + [table[id]];
        pending := pending - {id};
      }
      r := Ok(rows);
    }

    /** Fetch one passenger: exactly the stored row, or NotFound when no row has that id. */
    method Get(caller: Principal, id: int) returns (r: Response<Passenger>)
      requires context.PassengersValid()
      requires Decide(Some(caller), GetPassenger) == Allow
      ensures r.Ok? || r.NotFound?
      ensures r.Ok? <==> id in context.passengers
      ensures r.Ok? ==> r.body == context.passengers[id] && r.body.passengerId == id
    {
      if id !in context.passengers {
        return NotFound;
      }
      r := Ok(context.passengers[id]);
    }

    /**
     * Add a passenger. An invalid body is refused and nothing changes; a key
     * already stored makes the save fail and nothing changes; otherwise the
     * row is added under its own key and no other row changes.
     */
    method Create(caller: Principal, passenger: Passenger, modelValid: bool) returns (r: Response<Passenger>)
      requires context.PassengersValid()
      requires Decide(Some(caller), CreatePassenger) == Allow
      modifies context
      ensures context.PassengersValid()
      ensures context.users == old(context.users)
      ensures !modelValid ==> r == InvalidModel && context.passengers == old(context.passengers)
      ensures modelValid && passenger.passengerId in old(context.passengers) ==>
        r == ServerError(DuplicateKey) && context.passengers == old(context.passengers)
      ensures modelValid && passenger.passengerId !in old(context.passengers) ==>
        r == Ok(passenger) && context.passengers == old(context.passengers)[passenger.passengerId := passenger]
    {
      if !modelValid {
        return InvalidModel;
      }
      if passenger.passengerId in context.passengers {
        return ServerError(DuplicateKey);
      }
      context.passengers := context.passengers[passenger.passengerId := passenger];
      r := Ok(passenger);
    }

    /**
     * Replace the row with key `id` by the body, whose PassengerId is forced
     * to `id` whatever it carried. Updating a key that is not stored makes
     * the save fail and nothing changes. No other row changes.
     */
    method Update(caller: Principal, id: int, passenger: Passenger) returns (r: Response<Passenger>)
      requires context.PassengersValid()
      requires Decide(Some(caller), UpdatePassenger) == Allow
      modifies context
      ensures context.PassengersValid()
      ensures context.users == old(context.users)
      ensures id in old(context.passengers) ==>
        && r == Ok(passenger.(passengerId := id))
        && context.passengers == old(context.passengers)[id := passenger.(passengerId := id)]
      ensures id !in old(context.passengers) ==>
        r == ServerError(ConcurrencyConflict) && context.passengers == old(context.passengers)
      ensures r.Ok? ==> r.body.passengerId == id && r.body.fullName == passenger.fullName && r.body.details == passenger.details
    {
      var updated := passenger.(passengerId := id);
      if id !in context.passengers {
        return ServerError(ConcurrencyConflict);
      }
      context.passengers := context.passengers[id := updated];
      r := Ok(updated);
    }

    /**
     * Remove the row with key `id`: NotFound and nothing changes when it is
     * absent; otherwise exactly that row goes and every other row stays.
     */
    method Delete(caller: Principal, id: int) returns (r: Response<()>)
      requires context.PassengersValid()
      requires Decide(Some(caller), DeletePassenger) == Allow
      modifies context
      ensures context.PassengersValid()
      ensures context.users == old(context.users)
      ensures id !in old(context.passengers) ==> r == NotFound && context.passengers == old(context.passengers)
      ensures id in old(context.passengers) ==> r == Ok(()) && context.passengers == old(context.passengers) - {id}
      ensures forall k | k != id && k in old(context.passengers) ::
        k in context.passengers && context.passengers[k] == old(context.passengers)[k]
    {
      if id !in context.passengers {
        return NotFound;
      }
      context.passengers := context.passengers - {id};
      r := Ok(());
    }
  }
}
