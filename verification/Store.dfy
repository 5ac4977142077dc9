/** Vectors of keyed records, as Control holds them in memory. */
module KeyedRows {
  datatype Row<+K, +V> = Row(key: K, value: V)

  predicate UniqueKeys<K(==), V>(rows: seq<Row<K, V>>) {
    forall i, j | 0 <= i < j < |rows| :: rows[i].key != rows[j].key
  }

  /** The table a vector of records denotes. */
  function Index<K, V>(rows: seq<Row<K, V>>): map<K, V> {
    if rows == [] then map[]
    else Index(rows[..|rows| - 1])[rows[|rows| - 1].key := rows[|rows| - 1].value]
  }

  lemma {:induction false} IndexRows<K, V>(rows: seq<Row<K, V>>)
    requires UniqueKeys(rows)
    ensures forall i | 0 <= i < |rows| :: rows[i].key in Index(rows) && Index(rows)[rows[i].key] == rows[i].value
    ensures forall k | k in Index(rows) :: exists i :: 0 <= i < |rows| && rows[i].key == k
  {
    if rows != [] {
      var init := rows[..|rows| - 1];
      IndexRows(init);
      forall i | 0 <= i < |rows|
        ensures rows[i].key in Index(rows) && Index(rows)[rows[i].key] == rows[i].value
      {
        if i < |init| { assert init[i] == rows[i]; }
      }
      forall k | k in Index(rows) ensures exists i :: 0 <= i < |rows| && rows[i].key == k {
        if k in Index(init) {
          var i :| 0 <= i < |init| && init[i].key == k;
          assert rows[i].key == k;
        } else {
          assert rows[|rows| - 1].key == k;
        }
      }
    }
  }

  /** Overwriting one record of a vector overwrites its row of the table. */
  lemma {:induction false} ReplaceIndex<K, V>(rows: seq<Row<K, V>>, i: nat, value: V)
    requires UniqueKeys(rows) && i < |rows|
    ensures Index(rows[i := Row(rows[i].key, value)]) == Index(rows)[rows[i].key := value]
  {
    var init, next := rows[..|rows| - 1], rows[i := Row(rows[i].key, value)];
    if i == |rows| - 1 {
      assert next[..|rows| - 1] == init;
    } else {
      assert next[..|rows| - 1] == init[i := Row(init[i].key, value)];
      ReplaceIndex(init, i, value);
    }
  }

  lemma AppendIndex<K, V>(rows: seq<Row<K, V>>, row: Row<K, V>)
    ensures Index(rows + [row]) == Index(rows)[row.key := row.value]
  {
    assert (rows + [row])[..|rows|] == rows;
  }

  /** `upsert_record`: replace the first match in place, or append. */
  method Upsert<K(==), V>(rows: seq<Row<K, V>>, key: K, value: V) returns (r: seq<Row<K, V>>)
    requires UniqueKeys(rows)
    ensures UniqueKeys(r) && Index(r) == Index(rows)[key := value]
    ensures |rows| <= |r| && forall i | 0 <= i < |rows| ::
            r[i].key == rows[i].key && (r[i].key != key ==> r[i] == rows[i])
  {
    var i := 0;
    while i < |rows| && rows[i].key != key
      invariant 0 <= i <= |rows| && forall j | 0 <= j < i :: rows[j].key != key
    {
      i := i + 1;
    }
    if i < |rows| {
      ReplaceIndex(rows, i, value);
      r := rows[i := Row(key, value)];
    } else {
      AppendIndex(rows, Row(key, value));
      r := rows + [Row(key, value)];
    }
  }

  function Kept<K, V>(t: map<K, V>, keep: (K, V) -> bool): map<K, V> {
    map k | k in t && keep(k, t[k]) :: t[k]
  }

  lemma KeptExtends<K, V>(t: map<K, V>, key: K, value: V, keep: (K, V) -> bool)
    requires key !in t
    ensures Kept(t[key := value], keep) == if keep(key, value) then Kept(t, keep)[key := value] else Kept(t, keep)
  {}

  function Retained<K, V>(rows: seq<Row<K, V>>, keep: (K, V) -> bool): seq<Row<K, V>> {
    if rows == [] then []
    else
      var last := rows[|rows| - 1];
      Retained(rows[..|rows| - 1], keep) + if keep(last.key, last.value) then [last] else []
  }

  lemma LastKeyIsNew<K, V>(rows: seq<Row<K, V>>)
    requires UniqueKeys(rows) && rows != []
    ensures UniqueKeys(rows[..|rows| - 1]) && rows[|rows| - 1].key !in Index(rows[..|rows| - 1])
  {
    IndexRows(rows[..|rows| - 1]);
  }

  lemma UniqueAppend<K, V>(rows: seq<Row<K, V>>, row: Row<K, V>)
    requires UniqueKeys(rows) && row.key !in Index(rows)
    ensures UniqueKeys(rows + [row])
  {
    IndexRows(rows);
  }

  lemma {:induction false} RetainedIndex<K, V>(rows: seq<Row<K, V>>, keep: (K, V) -> bool)
    requires UniqueKeys(rows)
    ensures UniqueKeys(Retained(rows, keep)) && Index(Retained(rows, keep)) == Kept(Index(rows), keep)
  {
    if rows != [] {
      var init, last := rows[..|rows| - 1], rows[|rows| - 1];
      LastKeyIsNew(rows);
      RetainedIndex(init, keep);
      UniqueAppend(Retained(init, keep), last);
      AppendIndex(Retained(init, keep), last);
      assert Retained(init, keep) + [] == Retained(init, keep);
      KeptExtends(Index(init), last.key, last.value, keep);
    }
  }

  /** `retain`: drop the records that fail the test, keep the order of the others. */
  method Retain<K(==), V>(rows: seq<Row<K, V>>, keep: (K, V) -> bool) returns (r: seq<Row<K, V>>)
    requires UniqueKeys(rows)
    ensures r == Retained(rows, keep) && UniqueKeys(r) && Index(r) == Kept(Index(rows), keep)
  {
    r := [];
    for i := 0 to |rows|
      invariant r == Retained(rows[..i], keep)
    {
      assert rows[..i + 1][..i] == rows[..i];
      if keep(rows[i].key, rows[i].value) { r := r + [rows[i]]; }
    }
    assert rows[..|rows|] == rows;
    RetainedIndex(rows, keep);
  }

  method Remove<K(==), V>(rows: seq<Row<K, V>>, key: K) returns (r: seq<Row<K, V>>)
    requires UniqueKeys(rows)
    ensures UniqueKeys(r) && Index(r) == Index(rows) - {key}
  {
    r := Retain(rows, (k: K, v: V) => k != key);
  }
}

/** Control's state in memory, next to its database (crates/as-control/src/main.rs). */
module Store {
  import opened Base
  import opened RelayApi
  import opened KeyedRows
  import opened Control
  import opened Database
  import opened Schema
  import opened Writers

  /** Control's state once everything past its retention at `now` is forgotten. */
  function Swept(s: ControlState, now: int): ControlState {
    s.(invites := s.invites - StaleInvites(s, now), tombs := s.tombs - ExpiredTombs(s, now))
  }

  lemma SweptTables(s: ControlState, now: int)
    ensures Kept(s.invites, (k: string, r: InviteRecord) => now < SatAdd(InviteDeadline(r, now), RETENTION_SECS)) ==
            Swept(s, now).invites
    ensures Kept(s.tombs, (k: Id, t: Tombstone) => t.expiresAt > now) == Swept(s, now).tombs
  {}

  lemma SweepingShrinks(s: ControlState, now: int)
    ensures Shrinks(s, Swept(s, now))
  {}

  /** The keys of a vector, in its order. */
  function KeysOf<V>(rows: seq<Row<Id, V>>): seq<Id> { seq(|rows|, i requires 0 <= i < |rows| => rows[i].key) }

  lemma KeysEnumerate<V>(rows: seq<Row<Id, V>>)
    requires UniqueKeys(rows)
    ensures Enumerates(KeysOf(rows), Index(rows).Keys)
  {
    IndexRows(rows);
    var order := KeysOf(rows);
    assert forall i | 0 <= i < |rows| :: order[i] == rows[i].key;
    forall k | k in Index(rows) ensures k in order {
      var i :| 0 <= i < |rows| && rows[i].key == k;
      assert order[i] == k;
    }
    forall k | k in order ensures k in Index(rows) {
      var i :| 0 <= i < |order| && order[i] == k;
    }
    assert Index(rows).Keys == (set k | k in order);
  }

  class Memory {
    const network: Network
    var revision: nat
    var relayRevision: nat
    var clients: seq<Row<Id, ClientRecord>>
    var edges: seq<Row<Id, EdgeRecord>>
    var relays: seq<Row<Id, RelayRecord>>
    var invites: seq<Row<string, InviteRecord>>
    var provisioners: seq<Row<Id, string>>
    var tombs: seq<Row<Id, Tombstone>>

    ghost predicate Unique()
      reads this
    {
      && UniqueKeys(clients) && UniqueKeys(edges) && UniqueKeys(relays)
      && UniqueKeys(invites) && UniqueKeys(provisioners) && UniqueKeys(tombs)
    }

    ghost function View(): ControlState
      reads this
    {
      ControlState(network, revision, relayRevision, Index(clients), Index(edges), Index(relays),
                   Index(invites), Index(provisioners), Index(tombs))
    }

    method Put(c: StateChange)
      requires Unique()
              && (c.PutClient? || c.PutEdge? || c.PutRelay? || c.PutInvite? || c.PutProvisioner? || c.PutTomb?)
      modifies this
      ensures Unique() && View() == ApplyChange(old(View()), c)
    {
      match c {
        case PutClient(id, r) => clients := Upsert(clients, id, r);
        case PutEdge(id, r) => edges := Upsert(edges, id, r);
        case PutRelay(id, r) => relays := Upsert(relays, id, r);
        case PutInvite(r) => invites := Upsert(invites, r.invite.id, r);
        case PutProvisioner(id, name) => provisioners := Upsert(provisioners, id, name);
        case PutTomb(id, t) => tombs := Upsert(tombs, id, t);
      }
    }

    method Delete(c: StateChange)
      requires Unique() && (c.DeleteClient? || c.DeleteEdge? || c.DeleteRelay? || c.DeleteInvite?
              || c.DeleteProvisioner? || c.DeleteTomb?)
      modifies this
      ensures Unique() && View() == ApplyChange(old(View()), c)
    {
      match c {
        case DeleteClient(id) => clients := Remove(clients, id);
        case DeleteEdge(id) => edges := Remove(edges, id);
        case DeleteRelay(id) => relays := Remove(relays, id);
        case DeleteInvite(i) => invites := Remove(invites, i);
        case DeleteProvisioner(id) => provisioners := Remove(provisioners, id);
        case DeleteTomb(id) => tombs := Remove(tombs, id);
      }
    }

    /** `StateDelta::apply`: the changes in order. */
    method Apply(changes: seq<StateChange>)
      requires Unique()
      modifies this
      ensures Unique() && View() == ApplyChanges(old(View()), changes)
    {
      for i := 0 to |changes|
        invariant Unique() && View() == ApplyChanges(old(View()), changes[..i])
      {
        var c := changes[i];
        if c.PutClient? || c.PutEdge? || c.PutRelay? || c.PutInvite? || c.PutProvisioner? || c.PutTomb? {
          Put(c);
        } else {
          Delete(c);
        }
        assert changes[..i + 1][..i] == changes[..i];
      }
      assert changes[..|changes|] == changes;
    }

    /**
     * `commit_delta`: the database decides; on success both sides hold the same new state, on failure neither
     * changes.
     */
    method CommitDelta(db: Db, delta: StateDelta) returns (ok: bool)
      requires Unique() && View() == Load(db.tables)
      modifies this, db
      ensures Unique() && View() == Load(db.tables)
      ensures ok ==> View() == Committed(old(View()), delta) && PassesChecks(delta)
      ensures ok <==> Commits(old(db.tables), delta)
      ensures ok ==> db.tables == AfterCommit(old(db.tables), delta)
      ensures Constraints(old(db.tables)) ==> Constraints(db.tables)
      ensures !ok ==> View() == old(View()) && db.tables == old(db.tables)
    {
      var next := if delta.publish.Quiet? then revision else revision + 1;
      var nextRelay := if delta.publish.NodesAndRelays? then relayRevision + 1 else relayRevision;
      if next > U64_MAX || nextRelay > U64_MAX { return false; }
      ok := db.ApplyDeltaSync(revision, relayRevision, next, nextRelay, delta);
      if ok {
        Apply(delta.changes);
        revision, relayRevision := next, nextRelay;
      }
    }

    /** `cleanup_invitations` and `cleanup_revocations`. */
    method Sweep(now: int)
      requires Unique()
      modifies this`invites, this`tombs
      ensures Unique() && View() == Swept(old(View()), now)
    {
      SweptTables(View(), now);
      invites := Retain(invites, (k: string, r: InviteRecord) => now < SatAdd(InviteDeadline(r, now), RETENTION_SECS));
      tombs := Retain(tombs, (k: Id, t: Tombstone) => t.expiresAt > now);
    }

    /** Startup: sweep what is stale at `now`, and let the incremental writer store the result. */
    method Recover(db: Db, now: int) returns (ok: bool)
      requires Unique() && View() == Load(db.tables)
      requires forall i | i in View().invites :: View().invites[i].invite.id == i
      modifies this`invites, this`tombs, db
      ensures Unique() && View() == Swept(old(View()), now)
      ensures if ok then Load(db.tables) == View() else db.tables == old(db.tables)
      ensures ok <==> MetadataOk(View())
      ensures Constraints(old(db.tables)) ==> Constraints(db.tables)
    {
      var previous := Load(db.tables);
      Sweep(now);
      SweepingShrinks(previous, now);
      var order := Listing();
      ok := db.ApplySync(previous, Swept(previous, now), order);
    }

    /** The order of the vectors, which is the order in which the writers visit the records. */
    method Listing() returns (order: Order)
      requires Unique()
      ensures Lists(order, View())
    {
      KeysEnumerate(provisioners);
      KeysEnumerate(clients);
      KeysEnumerate(edges);
      KeysEnumerate(relays);
      KeysEnumerate(tombs);
      KeysEnumerate(invites);
      order := Order(KeysOf(provisioners), KeysOf(clients), KeysOf(edges), KeysOf(relays), KeysOf(tombs),
          KeysOf(invites));
    }
  }
}
