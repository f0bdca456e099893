/**
 * The user and dialog-state store (storage.py over the `users` and
 * `dialog_state` tables of db.py). Both tables have a unique `tg_id`
 * column, so each is a map keyed by the Telegram id. A dialog state's
 * payload is JSON text; encoding and decoding are taken as an exact round
 * trip, so the stored column is modelled by what decoding it gives.
 */
module Storage {
  import opened Wrappers
  import opened PyStr
  import opened JsonValues

  /** The dialog payload: a JSON object. */
  type Payload = map<string, Json>

  /**
   * The `payload` column: text that decodes to an object, an empty or NULL
   * column (read as "{}"), or text that does not decode.
   */
  datatype StoredPayload = Encoded(value: Payload) | Blank | Unparsable

  /** A row of `users`. */
  datatype User = User(tgId: int, name: Option<string>, phone: Option<string>)

  /** A row of `dialog_state`. */
  datatype DialogState = DialogState(tgId: int, step: string, payload: StoredPayload)

  /** The step of a user with no dialog state. */
  const Idle := "idle"

  /** Every row is stored under its own `tg_id`: one row per id. */
  predicate KeyedUsers(users: map<int, User>) {
    forall id :: id in users ==> users[id].tgId == id
  }

  predicate KeyedStates(states: map<int, DialogState>) {
    forall id :: id in states ==> states[id].tgId == id
  }

  /**
   * The users table after `upsert_user(tg_id, name)`: an unknown id gets a
   * new row with the given name; a known one gets the name only when the new
   * name is non-empty and the stored one is empty or missing.
   */
  function Upserted(users: map<int, User>, tgId: int, name: Option<string>): (r: map<int, User>)
    ensures r.Keys == users.Keys + {tgId}
    ensures KeyedUsers(users) ==> KeyedUsers(r)
    ensures forall id :: id in users && id != tgId ==> r[id] == users[id]
    ensures tgId !in users ==> r[tgId] == User(tgId, name, None)
    ensures tgId in users ==> r[tgId] == users[tgId].(name := r[tgId].name)
    ensures tgId in users && Truthy(users[tgId].name) ==> r[tgId] == users[tgId]
    ensures tgId in users && r[tgId].name != users[tgId].name ==>
      Truthy(name) && !Truthy(users[tgId].name) && r[tgId].name == name
    ensures tgId in users && Truthy(name) && !Truthy(users[tgId].name) ==> r[tgId].name == name
  {
    if tgId !in users then users[tgId := User(tgId, name, None)]
    else if Truthy(name) && !Truthy(users[tgId].name) then users[tgId := users[tgId].(name := name)]
    else users
  }

  /** Upserting twice with the same arguments is the same as upserting once. */
  lemma UpsertIdempotent(users: map<int, User>, tgId: int, name: Option<string>)
    ensures Upserted(Upserted(users, tgId, name), tgId, name) == Upserted(users, tgId, name)
  {
  }

  /** The users table after a series of `upsert_user` calls, in order. */
  function UpsertAll(users: map<int, User>, calls: seq<(int, Option<string>)>): map<int, User>
    decreases |calls|
  {
    if calls == [] then users
    else UpsertAll(Upserted(users, calls[0].0, calls[0].1), calls[1..])
  }

  /** Once a user has a non-empty name, no series of upserts changes that user's row. */
  lemma {:induction false} NamedUserIsStable(users: map<int, User>, calls: seq<(int, Option<string>)>, tgId: int)
    requires tgId in users && Truthy(users[tgId].name)
    ensures tgId in UpsertAll(users, calls) && UpsertAll(users, calls)[tgId] == users[tgId]
    decreases |calls|
  {
    if calls != [] {
      NamedUserIsStable(Upserted(users, calls[0].0, calls[0].1), calls[1..], tgId);
    }
  }

  /** The ids a series of upsert calls names. */
  function CalledIds(calls: seq<(int, Option<string>)>): (r: set<int>)
    ensures forall i :: 0 <= i < |calls| ==> calls[i].0 in r
    ensures forall id :: id in r ==> exists i :: 0 <= i < |calls| && calls[i].0 == id
    decreases |calls|
  {
    if calls == [] then {}
    else
      var rest := CalledIds(calls[1..]);
      assert forall i :: 1 <= i < |calls| ==> calls[i] == calls[1..][i - 1];
      {calls[0].0} + rest
  }

  /** A series of upserts keeps every row it has, adds one per new id, and keeps one row per id. */
  lemma {:induction false} UpsertAllKeys(users: map<int, User>, calls: seq<(int, Option<string>)>)
    ensures UpsertAll(users, calls).Keys == users.Keys + CalledIds(calls)
    ensures KeyedUsers(users) ==> KeyedUsers(UpsertAll(users, calls))
    decreases |calls|
  {
    if calls != [] {
      UpsertAllKeys(Upserted(users, calls[0].0, calls[0].1), calls[1..]);
    }
  }

  /**
   * What `get_state(tg_id)` returns: ("idle", {}) for an unknown id,
   * otherwise the stored step with the decoded payload, {} when the
   * column is empty or does not decode.
   */
  function StateOf(states: map<int, DialogState>, tgId: int): (r: (string, Payload))
    ensures tgId !in states ==> r == (Idle, map[])
    ensures tgId in states ==> r.0 == states[tgId].step
    ensures tgId in states && states[tgId].payload.Encoded? ==> r.1 == states[tgId].payload.value
    ensures tgId in states && !states[tgId].payload.Encoded? ==> r.1 == map[]
  {
    if tgId !in states then (Idle, map[])
    else
      var st := states[tgId];
      match st.payload
      case Encoded(p) => (st.step, p)
      case _ => (st.step, map[])
  }

  /** `set_state` is an upsert: reading back gives what was written, and no other id moves. */
  lemma SetThenGet(states: map<int, DialogState>, tgId: int, step: string, payload: Payload, other: int)
    ensures StateOf(states[tgId := DialogState(tgId, step, Encoded(payload))], tgId) == (step, payload)
    ensures other != tgId ==>
      StateOf(states[tgId := DialogState(tgId, step, Encoded(payload))], other) == StateOf(states, other)
  {
  }

  /** The two tables, held in memory. */
  class Store {
    var users: map<int, User>
    var states: map<int, DialogState>

    /** At most one user row and one dialog-state row per `tg_id`. */
    ghost predicate Valid()
      reads this
    {
      KeyedUsers(users) && KeyedStates(states)
    }

    constructor ()
      ensures Valid() && users == map[] && states == map[]
    {
      users := map[];
      states := map[];
    }

    /** `upsert_user(tg_id, name)` */
    method UpsertUser(tgId: int, name: Option<string> := None)
      requires Valid()
      modifies this
      ensures Valid()
      ensures users == Upserted(old(users), tgId, name)
      ensures states == old(states)
    {
      if tgId !in users {
        users := users[tgId := User(tgId, name, None)];
      } else {
        var user := users[tgId];
        if Truthy(name) && !Truthy(user.name) {
          users := users[tgId := user.(name := name)];
        }
      }
    }

    /** `get_state(tg_id)` */
    method GetState(tgId: int) returns (step: string, payload: Payload)
      ensures (step, payload) == StateOf(states, tgId)
      ensures tgId !in states ==> step == Idle && payload == map[]
    {
      if tgId !in states {
        return Idle, map[];
      }
      var st := states[tgId];
      step := st.step;
      if st.payload.Encoded? {
        payload := st.payload.value;
      } else {
        payload := map[];
      }
    }

    /** `set_state(tg_id, step, payload)`: creates the row or overwrites step and payload. */
    method SetState(tgId: int, step: string, payload: Payload)
      requires Valid()
      modifies this
      ensures Valid()
      ensures states == old(states)[tgId := DialogState(tgId, step, Encoded(payload))]
      ensures users == old(users)
      ensures StateOf(states, tgId) == (step, payload)
      ensures forall id :: id != tgId ==> StateOf(states, id) == StateOf(old(states), id)
    {
      if tgId !in states {
        states := states[tgId := DialogState(tgId, step, Encoded(payload))];
      } else {
        var st := states[tgId];
        states := states[tgId := st.(step := step, payload := Encoded(payload))];
      }
    }

    /** `reset_state(tg_id)`: back to ("idle", {}). */
    method ResetState(tgId: int)
      requires Valid()
      modifies this
      ensures Valid()
      ensures states == old(states)[tgId := DialogState(tgId, Idle, Encoded(map[]))]
      ensures users == old(users)
      ensures StateOf(states, tgId) == (Idle, map[])
    {
      SetState(tgId, Idle, map[]);
    }
  }
}
