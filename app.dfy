/**
 * The application shell's list state: the passengers add / scan append to,
 * the per-user copy kept in the browser's storage, and logout.
 */
module App {
  import opened Wrappers
  import opened Records

  /** What `localStorage` holds under a key: a list written by the page, or text that does not parse. */
  datatype Stored = Saved(passengers: seq<Passenger>) | Unreadable

  /** `pmr-passengers-${uid}`. */
  function StorageKey(uid: string): string { "pmr-passengers-" + uid }

  lemma StorageKeysDistinct(u: string, v: string)
    ensures StorageKey(u) == StorageKey(v) <==> u == v
  {
    if StorageKey(u) == StorageKey(v) {
      assert u == StorageKey(u)[15..] == StorageKey(v)[15..] == v;
    }
  }

  /** The load effect: the stored list replaces the state only if it exists and parses. */
  function Loaded(storage: map<string, Stored>, user: Option<string>, current: seq<Passenger>): (r: seq<Passenger>)
    ensures user.None? ==> r == current
    ensures user.Some? && StorageKey(user.value) in storage && storage[StorageKey(user.value)].Saved? ==>
      r == storage[StorageKey(user.value)].passengers
    ensures user.Some? && (StorageKey(user.value) !in storage || storage[StorageKey(user.value)].Unreadable?) ==>
      r == current
  {
    if user.Some? && StorageKey(user.value) in storage && storage[StorageKey(user.value)].Saved?
    then storage[StorageKey(user.value)].passengers
    else current
  }

  /** The save effect: written only with a user and a non-empty list. */
  function Persisted(storage: map<string, Stored>, user: Option<string>, ps: seq<Passenger>): (r: map<string, Stored>)
    ensures user.None? || ps == [] ==> r == storage
    ensures user.Some? && ps != [] ==> r == storage[StorageKey(user.value) := Saved(ps)]
    ensures forall k :: k in storage ==> k in r
    ensures forall k :: k in r && (user.None? || k != StorageKey(user.value)) ==> k in storage && r[k] == storage[k]
  {
    if user.Some? && |ps| > 0 then storage[StorageKey(user.value) := Saved(ps)] else storage
  }

  /** Saving and then loading for the same user gives back the list that was saved. */
  lemma SaveThenLoad(storage: map<string, Stored>, uid: string, ps: seq<Passenger>, other: seq<Passenger>)
    requires ps != []
    ensures Loaded(Persisted(storage, Some(uid), ps), Some(uid), other) == ps
  {
  }

  /** Emptying the list never overwrites the stored copy, so the next load brings it back. */
  lemma EmptyListKeepsStoredCopy(storage: map<string, Stored>, uid: string, ps: seq<Passenger>)
    requires StorageKey(uid) in storage && storage[StorageKey(uid)] == Saved(ps)
    ensures Persisted(storage, Some(uid), []) == storage
    ensures Loaded(Persisted(storage, Some(uid), []), Some(uid), []) == ps
  {
  }

  /** `addedAt: newPassenger.addedAt || <now>`. */
  function AddedAtOr(p: Passenger, now: string): string { if p.addedAt != "" then p.addedAt else now }

  /**
   * `handleScan`'s two records: a fresh-id copy, then a copy keeping the incoming
   * id. The clock is read twice, first for the copy keeping the id (`nowFirst`),
   * then for the fresh-id copy (`nowSecond`).
   */
  function ScanRecords(incoming: Passenger, freshId: string, nowFirst: string, nowSecond: string): (r: seq<Passenger>)
    ensures |r| == 2
    ensures r[0].id == freshId && r[1].id == incoming.id
    ensures incoming.addedAt != "" ==> r[0].addedAt == incoming.addedAt && r[1].addedAt == incoming.addedAt
    ensures incoming.addedAt == "" ==> r[0].addedAt == nowSecond && r[1].addedAt == nowFirst
    ensures incoming.addedAt != "" || nowFirst == nowSecond ==> r[0] == r[1].(id := freshId)
    ensures r[0].(id := incoming.id, addedAt := incoming.addedAt) == incoming
    ensures r[1].(addedAt := incoming.addedAt) == incoming
  {
    var withTime := incoming.(addedAt := AddedAtOr(incoming, nowFirst));
    var withConsistentId := incoming.(id := freshId, addedAt := AddedAtOr(incoming, nowSecond));
    [withConsistentId, withTime]
  }

  /** `handleAddPassenger`'s record: the entered data with a fresh id and the current time. */
  function AddedRecord(data: Passenger, freshId: string, now: string): (r: Passenger)
    ensures r.id == freshId && r.addedAt == now
    ensures r.(id := data.id, addedAt := data.addedAt) == data
  {
    data.(id := freshId, addedAt := now)
  }

  class AppState {
    var user: Option<string>
    var passengers: seq<Passenger>
    var storage: map<string, Stored>

    constructor(storage: map<string, Stored>)
      ensures this.user.None? && this.passengers == [] && this.storage == storage
    {
      this.user := None;
      this.passengers := [];
      this.storage := storage;
    }

    /** The auth listener sets the user; the load effect keyed on it follows. */
    method SetUser(u: Option<string>)
      modifies this
      ensures user == u && storage == old(storage)
      ensures passengers == Loaded(storage, u, old(passengers))
    {
      user := u;
      passengers := Loaded(storage, user, passengers);
    }

    /** The save effect that follows every change of the list or the user. */
    method PersistEffect()
      modifies this
      ensures user == old(user) && passengers == old(passengers)
      ensures storage == Persisted(old(storage), user, passengers)
    {
      if user.Some? && |passengers| > 0 {
        storage := storage[StorageKey(user.value) := Saved(passengers)];
      }
    }

    method HandleScan(incoming: Passenger, freshId: string, nowFirst: string, nowSecond: string)
      modifies this
      ensures user == old(user) && storage == old(storage)
      ensures passengers == old(passengers) + ScanRecords(incoming, freshId, nowFirst, nowSecond)
    {
      var withTime := incoming.(addedAt := AddedAtOr(incoming, nowFirst));
      var withConsistentId := incoming.(id := freshId, addedAt := AddedAtOr(incoming, nowSecond));
      passengers := passengers + [withConsistentId, withTime];
    }

    method HandleAddPassenger(data: Passenger, freshId: string, now: string)
      modifies this
      ensures user == old(user) && storage == old(storage)
      ensures passengers == old(passengers) + [AddedRecord(data, freshId, now)]
    {
      passengers := passengers + [data.(id := freshId, addedAt := now)];
    }

    /** After a successful sign-out the list is emptied; storage is only read. */
    method HandleLogout(signedOut: bool)
      modifies this
      ensures user == old(user) && storage == old(storage)
      ensures passengers == if signedOut then [] else old(passengers)
    {
      if signedOut {
        passengers := [];
      }
    }
  }
}
