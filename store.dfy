/** The user store behind `load_user_data` / `save_user_data`: one mapping
    from user id to `{name, level}`, read and written as a whole. */
module UserStore {

  /** One stored user.  `level` is a string: the direct choice is stored as
      typed, without checking that it names a tier. */
  datatype Record = Record(name: string, level: string)

  /** The mapping after `users[id] = rec`: `id` now holds `rec` and every
      other id keeps what it had (last write wins, nothing is deleted). */
  function Upsert(users: map<string, Record>, id: string, rec: Record): (r: map<string, Record>)
    ensures id in r && r[id] == rec
    ensures r.Keys == users.Keys + {id}
    ensures forall k :: k in users && k != id ==> r[k] == users[k]
  {
    users[id := rec]
  }

  /** Writing the same id twice keeps only the second record. */
  lemma UpsertLastWriteWins(users: map<string, Record>, id: string, first: Record, second: Record)
    ensures Upsert(Upsert(users, id, first), id, second) == Upsert(users, id, second)
  {
  }

  /** Writes for two different ids do not interfere, whatever their order. */
  lemma UpsertCommutes(users: map<string, Record>, a: string, ra: Record, b: string, rb: Record)
    requires a != b
    ensures Upsert(Upsert(users, a, ra), b, rb) == Upsert(Upsert(users, b, rb), a, ra)
  {
  }

  /** The durable store.  Its `users` field is the content of the data file;
      a store that was never written holds the empty mapping. */
  class LevelStore {
    var users: map<string, Record>

    /** The store when no data file exists yet. */
    constructor Empty()
      ensures users == map[]
    {
      users := map[];
    }

    /** `load_user_data()`: the whole mapping. */
    method Load() returns (m: map<string, Record>)
      ensures m == users
    {
      m := users;
    }

    /** `save_user_data(data)`: replaces the whole mapping. */
    method Save(m: map<string, Record>)
      modifies this
      ensures users == m
    {
      users := m;
    }

    /** The read-modify-write both level handlers perform: load, set one
        key, save. */
    method Put(id: string, rec: Record)
      modifies this
      ensures users == Upsert(old(users), id, rec)
    {
      var m := Load();
      m := m[id := rec];
      Save(m);
    }
  }
}
