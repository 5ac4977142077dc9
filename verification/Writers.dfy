/** The three writers of Control's database (crates/as-control/src/db.rs). */
module Writers {
  import opened Base
  import opened RelayApi
  import opened Control
  import opened ControlProofs
  import opened Database
  import opened Schema

  // ---------- writing what differs ----------

  /** Records that are new or differ. */
  function Diff<K, V(==)>(previous: map<K, V>, next: map<K, V>): map<K, V> {
    map k | k in next && !(k in previous && previous[k] == next[k]) :: next[k]
  }

  lemma DiffRestores<K, V>(previous: map<K, V>, next: map<K, V>)
    ensures (previous - (previous.Keys - next.Keys)) + Diff(previous, next) == next
  {}

  /** `base` once every changed record outside `todo` has been written. */
  function Written<K, V(==)>(base: map<K, V>, previous: map<K, V>, next: map<K, V>, todo: set<K>): map<K, V> {
    base + (Diff(previous, next) - todo)
  }

  lemma WrittenStarts<K, V>(base: map<K, V>, previous: map<K, V>, next: map<K, V>)
    ensures Written(base, previous, next, next.Keys) == base
    ensures Written(base, previous, next, {}) == base + Diff(previous, next)
  {
    assert Diff(previous, next) - next.Keys == map[];
    assert Diff(previous, next) - {} == Diff(previous, next);
  }

  lemma WrittenStep<K, V>(base: map<K, V>, previous: map<K, V>, next: map<K, V>, todo: set<K>, k: K)
    requires k in todo && k in next
    ensures Written(base, previous, next, todo - {k}) ==
            if k in previous && previous[k] == next[k] then Written(base, previous, next, todo)
            else Written(base, previous, next, todo)[k := next[k]]
  {}

  lemma DiffStep<K, V>(previous: map<K, V>, next: map<K, V>, todo: set<K>, k: K)
    requires k in todo && k in next
    ensures Diff(previous, next) - (todo - {k}) ==
            if k in previous && previous[k] == next[k] then Diff(previous, next) - todo
            else (Diff(previous, next) - todo)[k := next[k]]
  {}

  lemma DiffStarts<K, V>(previous: map<K, V>, next: map<K, V>)
    ensures Diff(previous, next) - next.Keys == map[] && Diff(previous, next) - {} == Diff(previous, next)
  {}

  /** What is still to be visited from position `i` on. */
  function Rest<K(==)>(order: seq<K>, i: nat): set<K>
    requires i <= |order|
  {
    set k | k in order[i..]
  }

  lemma RestStep(order: seq<Id>, keys: set<Id>, i: nat)
    requires Enumerates(order, keys) && i < |order|
    ensures order[i] in keys && order[i] in Rest(order, i) && Rest(order, i + 1) == Rest(order, i) - {order[i]}
    ensures Rest(order, i) <= keys
  {
    assert order[i..] == [order[i]] + order[i + 1..];
    forall k | k in order[i..] ensures k in order { var j :| i <= j < |order| && order[j] == k; }
  }

  lemma RestEnds(order: seq<Id>, keys: set<Id>)
    requires Enumerates(order, keys)
    ensures Rest(order, 0) == keys && Rest(order, |order|) == {}
  {
    assert order[0..] == order;
  }

  /** `base` is `previous` without what `next` no longer has. */
  ghost predicate Trimmed<K, V>(base: map<K, V>, previous: map<K, V>, next: map<K, V>) {
    base == previous - (previous.Keys - next.Keys)
  }

  /** Rows still to be visited are old, the others new. */
  lemma OldOrNew<K, V>(base: map<K, V>, previous: map<K, V>, next: map<K, V>, todo: set<K>)
    requires Trimmed(base, previous, next)
    ensures forall k | k in Written(base, previous, next, todo) ::
              k in next && (if k in todo then k in previous && Written(base, previous, next, todo)[k] == previous[k]
                            else Written(base, previous, next, todo)[k] == next[k])
    ensures forall k | k in todo && k in previous && k in next :: k in Written(base, previous, next, todo)
  {}

  // ---------- clients ----------

  /** When row `i` is written, no row still to be visited holds its name. */
  ghost predicate ClientClear(previous: map<Id, ClientRecord>, next: map<Id, ClientRecord>, order: seq<Id>, i: nat)
    requires i < |order| && order[i] in next
  {
    forall c | c in Rest(order, i + 1) && c in previous :: previous[c].name != next[order[i]].name
  }

  ghost predicate ClientsClear(previous: map<Id, ClientRecord>, next: map<Id, ClientRecord>, order: seq<Id>, n: nat)
    requires n <= |order|
  {
    forall i | 0 <= i < n :: order[i] in next && ClientClear(previous, next, order, i)
  }

  ghost predicate ClientsReady(t: Tables, previous: map<Id, ClientRecord>, next: map<Id, ClientRecord>) {
    Trimmed(t.clients, previous, next) && ClientNamesOk(previous)
  }

  lemma ClientFits(
    t: Tables, previous: map<Id, ClientRecord>, next: map<Id, ClientRecord>, order: seq<Id>, i: nat)
    requires Enumerates(order, next.Keys) && i < |order| && ClientsReady(t, previous, next) && order[i] in next
    ensures var id := order[i];
            var after := UpsertClient(t.(clients := Written(t.clients, previous, next, Rest(order, i))), id, next[id]);
            && (ClientRowsOk(next, t.provisioners.Keys) && ClientClear(previous, next, order, i) ==> after.Some?)
            && (after.Some? || (id in previous && previous[id] == next[id]) ==> ClientClear(previous, next, order, i))
  {
    RestStep(order, next.Keys, i);
    OldOrNew(t.clients, previous, next, Rest(order, i));
  }

  ghost predicate ClientsSoFar(
    t: Tables, previous: map<Id, ClientRecord>, next: map<Id, ClientRecord>, order: seq<Id>, i: nat, tx: Tables)
    requires i <= |order|
  {
    && tx == t.(clients := Written(t.clients, previous, next, Rest(order, i)))
    && (ClientRowsOk(t.clients, t.provisioners.Keys) ==> ClientRowsOk(tx.clients, t.provisioners.Keys))
    && (ClientsReady(t, previous, next) ==> ClientsClear(previous, next, order, i))
  }

  ghost predicate ClientsFit(t: Tables, previous: map<Id, ClientRecord>, next: map<Id, ClientRecord>, order: seq<Id>) {
    ClientsReady(t, previous, next) && ClientRowsOk(next, t.provisioners.Keys)
        && ClientsClear(previous, next, order, |order|)
  }

  lemma ClientsTurn(
    t: Tables, previous: map<Id, ClientRecord>, next: map<Id, ClientRecord>, order: seq<Id>, i: nat, tx: Tables)
    requires Enumerates(order, next.Keys) && i < |order| && order[i] in next
            && ClientsSoFar(t, previous, next, order, i, tx)
    ensures var id := order[i];
            var after := UpsertClient(tx, id, next[id]);
            if id in previous && previous[id] == next[id] then ClientsSoFar(t, previous, next, order, i + 1, tx)
            else if after.Some? then ClientsSoFar(t, previous, next, order, i + 1, after.value)
            else Diff(previous, next) != map[] && !ClientsFit(t, previous, next, order)
  {
    var id := order[i];
    RestStep(order, next.Keys, i);
    WrittenStep(t.clients, previous, next, Rest(order, i), id);
    if ClientsReady(t, previous, next) { ClientFits(t, previous, next, order, i); }
    if ClientRowsOk(t.clients, t.provisioners.Keys) && UpsertClient(tx, id, next[id]).Some? {
      ClientRowKeeps(tx, id, next[id]);
    }
    assert !(id in previous && previous[id] == next[id]) ==> id in Diff(previous, next);
  }

  method WriteClients(t: Tables, previous: map<Id, ClientRecord>, next: map<Id, ClientRecord>, order: seq<Id>)
    returns (r: Option<Tables>)
    requires Enumerates(order, next.Keys)
    ensures r.Some? ==> ClientsSoFar(t, previous, next, order, |order|, r.value)
    ensures r.Some? ==> r.value == t.(clients := t.clients + Diff(previous, next))
    ensures Diff(previous, next) == map[] || ClientsFit(t, previous, next, order) ==> r.Some?
  {
    var tx := t;
    WrittenStarts(t.clients, previous, next);
    RestEnds(order, next.Keys);
    for i := 0 to |order|
      invariant ClientsSoFar(t, previous, next, order, i, tx)
    {
      RestStep(order, next.Keys, i);
      ClientsTurn(t, previous, next, order, i, tx);
      var id := order[i];
      if !(id in previous && previous[id] == next[id]) {
        var after := UpsertClient(tx, id, next[id]);
        if after.None? { return None; }
        tx := after.value;
      }
    }
    return Some(tx);
  }

  // ---------- edges ----------

  ghost predicate EdgeClear(previous: map<Id, EdgeRecord>, next: map<Id, EdgeRecord>, order: seq<Id>, i: nat)
    requires i < |order| && order[i] in next
  {
    forall c | c in Rest(order, i + 1) && c in previous ::
      !(previous[c].owner == next[order[i]].owner && previous[c].name == next[order[i]].name)
  }

  ghost predicate EdgesClear(previous: map<Id, EdgeRecord>, next: map<Id, EdgeRecord>, order: seq<Id>, n: nat)
    requires n <= |order|
  {
    forall i | 0 <= i < n :: order[i] in next && EdgeClear(previous, next, order, i)
  }

  ghost predicate EdgesReady(t: Tables, previous: map<Id, EdgeRecord>, next: map<Id, EdgeRecord>) {
    Trimmed(t.edges, previous, next) && EdgeNamesOk(previous)
  }

  lemma EdgeFits(t: Tables, previous: map<Id, EdgeRecord>, next: map<Id, EdgeRecord>, order: seq<Id>, i: nat)
    requires Enumerates(order, next.Keys) && i < |order| && EdgesReady(t, previous, next) && order[i] in next
    ensures var id := order[i];
            var after := UpsertEdge(t.(edges := Written(t.edges, previous, next, Rest(order, i))), id, next[id]);
            && (EdgeRowsOk(next, t.clients.Keys) && EdgeClear(previous, next, order, i) ==> after.Some?)
            && (after.Some? || (id in previous && previous[id] == next[id]) ==> EdgeClear(previous, next, order, i))
  {
    RestStep(order, next.Keys, i);
    OldOrNew(t.edges, previous, next, Rest(order, i));
  }

  ghost predicate EdgesSoFar(
    t: Tables, previous: map<Id, EdgeRecord>, next: map<Id, EdgeRecord>, order: seq<Id>, i: nat, tx: Tables)
    requires i <= |order|
  {
    && tx == t.(edges := Written(t.edges, previous, next, Rest(order, i)))
    && (EdgeRowsOk(t.edges, t.clients.Keys) ==> EdgeRowsOk(tx.edges, t.clients.Keys))
    && (EdgesReady(t, previous, next) ==> EdgesClear(previous, next, order, i))
  }

  ghost predicate EdgesFit(t: Tables, previous: map<Id, EdgeRecord>, next: map<Id, EdgeRecord>, order: seq<Id>) {
    EdgesReady(t, previous, next) && EdgeRowsOk(next, t.clients.Keys) && EdgesClear(previous, next, order, |order|)
  }

  lemma EdgesTurn(
    t: Tables, previous: map<Id, EdgeRecord>, next: map<Id, EdgeRecord>, order: seq<Id>, i: nat, tx: Tables)
    requires Enumerates(order, next.Keys) && i < |order| && order[i] in next
            && EdgesSoFar(t, previous, next, order, i, tx)
    ensures var id := order[i];
            var after := UpsertEdge(tx, id, next[id]);
            if id in previous && previous[id] == next[id] then EdgesSoFar(t, previous, next, order, i + 1, tx)
            else if after.Some? then EdgesSoFar(t, previous, next, order, i + 1, after.value)
            else Diff(previous, next) != map[] && !EdgesFit(t, previous, next, order)
  {
    var id := order[i];
    RestStep(order, next.Keys, i);
    WrittenStep(t.edges, previous, next, Rest(order, i), id);
    if EdgesReady(t, previous, next) { EdgeFits(t, previous, next, order, i); }
    if EdgeRowsOk(t.edges, t.clients.Keys) && UpsertEdge(tx, id, next[id]).Some? { EdgeRowKeeps(tx, id, next[id]); }
    assert !(id in previous && previous[id] == next[id]) ==> id in Diff(previous, next);
  }

  method WriteEdges(t: Tables, previous: map<Id, EdgeRecord>, next: map<Id, EdgeRecord>, order: seq<Id>)
    returns (r: Option<Tables>)
    requires Enumerates(order, next.Keys)
    ensures r.Some? ==> EdgesSoFar(t, previous, next, order, |order|, r.value)
    ensures r.Some? ==> r.value == t.(edges := t.edges + Diff(previous, next))
    ensures Diff(previous, next) == map[] || EdgesFit(t, previous, next, order) ==> r.Some?
  {
    var tx := t;
    WrittenStarts(t.edges, previous, next);
    RestEnds(order, next.Keys);
    for i := 0 to |order|
      invariant EdgesSoFar(t, previous, next, order, i, tx)
    {
      RestStep(order, next.Keys, i);
      EdgesTurn(t, previous, next, order, i, tx);
      var id := order[i];
      if !(id in previous && previous[id] == next[id]) {
        var after := UpsertEdge(tx, id, next[id]);
        if after.None? { return None; }
        tx := after.value;
      }
    }
    return Some(tx);
  }

  // ---------- relays ----------

  ghost predicate RelayClear(previous: map<Id, RelayRecord>, next: map<Id, RelayRecord>, order: seq<Id>, i: nat)
    requires i < |order| && order[i] in next
  {
    forall c | c in Rest(order, i + 1) && c in previous ::
      previous[c].name != next[order[i]].name && previous[c].url != next[order[i]].url
  }

  ghost predicate RelaysClear(previous: map<Id, RelayRecord>, next: map<Id, RelayRecord>, order: seq<Id>, n: nat)
    requires n <= |order|
  {
    forall i | 0 <= i < n :: order[i] in next && RelayClear(previous, next, order, i)
  }

  ghost predicate RelaysReady(t: Tables, previous: map<Id, RelayRecord>, next: map<Id, RelayRecord>) {
    Trimmed(t.relays, previous, next) && RelayNamesOk(previous)
  }

  lemma RelayFits(t: Tables, previous: map<Id, RelayRecord>, next: map<Id, RelayRecord>, order: seq<Id>, i: nat)
    requires Enumerates(order, next.Keys) && i < |order| && RelaysReady(t, previous, next) && order[i] in next
    ensures var id := order[i];
            var after := UpsertRelay(t.(relays := Written(t.relays, previous, next, Rest(order, i))), id, next[id]);
            && (RelayRowsOk(next) && RelayClear(previous, next, order, i) ==> after.Some?)
            && (after.Some? || (id in previous && previous[id] == next[id]) ==> RelayClear(previous, next, order, i))
  {
    RestStep(order, next.Keys, i);
    OldOrNew(t.relays, previous, next, Rest(order, i));
  }

  ghost predicate RelaysSoFar(
    t: Tables, previous: map<Id, RelayRecord>, next: map<Id, RelayRecord>, order: seq<Id>, i: nat, tx: Tables)
    requires i <= |order|
  {
    && tx == t.(relays := Written(t.relays, previous, next, Rest(order, i)))
    && (RelayRowsOk(t.relays) ==> RelayRowsOk(tx.relays))
    && (RelaysReady(t, previous, next) ==> RelaysClear(previous, next, order, i))
  }

  ghost predicate RelaysFit(t: Tables, previous: map<Id, RelayRecord>, next: map<Id, RelayRecord>, order: seq<Id>) {
    RelaysReady(t, previous, next) && RelayRowsOk(next) && RelaysClear(previous, next, order, |order|)
  }

  lemma RelaysTurn(
    t: Tables, previous: map<Id, RelayRecord>, next: map<Id, RelayRecord>, order: seq<Id>, i: nat, tx: Tables)
    requires Enumerates(order, next.Keys) && i < |order| && order[i] in next
            && RelaysSoFar(t, previous, next, order, i, tx)
    ensures var id := order[i];
            var after := UpsertRelay(tx, id, next[id]);
            if id in previous && previous[id] == next[id] then RelaysSoFar(t, previous, next, order, i + 1, tx)
            else if after.Some? then RelaysSoFar(t, previous, next, order, i + 1, after.value)
            else Diff(previous, next) != map[] && !RelaysFit(t, previous, next, order)
  {
    var id := order[i];
    RestStep(order, next.Keys, i);
    WrittenStep(t.relays, previous, next, Rest(order, i), id);
    if RelaysReady(t, previous, next) { RelayFits(t, previous, next, order, i); }
    if RelayRowsOk(t.relays) && UpsertRelay(tx, id, next[id]).Some? { RelayRowKeeps(tx, id, next[id]); }
    assert !(id in previous && previous[id] == next[id]) ==> id in Diff(previous, next);
  }

  method WriteRelays(t: Tables, previous: map<Id, RelayRecord>, next: map<Id, RelayRecord>, order: seq<Id>)
    returns (r: Option<Tables>)
    requires Enumerates(order, next.Keys)
    ensures r.Some? ==> RelaysSoFar(t, previous, next, order, |order|, r.value)
    ensures r.Some? ==> r.value == t.(relays := t.relays + Diff(previous, next))
    ensures Diff(previous, next) == map[] || RelaysFit(t, previous, next, order) ==> r.Some?
  {
    var tx := t;
    WrittenStarts(t.relays, previous, next);
    RestEnds(order, next.Keys);
    for i := 0 to |order|
      invariant RelaysSoFar(t, previous, next, order, i, tx)
    {
      RestStep(order, next.Keys, i);
      RelaysTurn(t, previous, next, order, i, tx);
      var id := order[i];
      if !(id in previous && previous[id] == next[id]) {
        var after := UpsertRelay(tx, id, next[id]);
        if after.None? { return None; }
        tx := after.value;
      }
    }
    return Some(tx);
  }

  // ---------- tombstones ----------

  ghost predicate TombsSoFar(t: Tables, previous: Tombs, next: Tombs, order: seq<Id>, i: nat, tx: Tables)
    requires i <= |order|
  {
    && tx == t.(tombs := Written(t.tombs, previous, next, Rest(order, i)))
    && (TombRowsOk(t.tombs) ==> TombRowsOk(tx.tombs))
  }

  lemma TombsTurn(t: Tables, previous: Tombs, next: Tombs, order: seq<Id>, i: nat, tx: Tables)
    requires Enumerates(order, next.Keys) && i < |order| && order[i] in next
            && TombsSoFar(t, previous, next, order, i, tx)
    ensures var id := order[i];
            var after := UpsertTomb(tx, id, next[id]);
            if id in previous && previous[id] == next[id] then TombsSoFar(t, previous, next, order, i + 1, tx)
            else if after.Some? then TombsSoFar(t, previous, next, order, i + 1, after.value)
            else Diff(previous, next) != map[] && !TombRowsOk(next)
  {
    var id := order[i];
    RestStep(order, next.Keys, i);
    WrittenStep(t.tombs, previous, next, Rest(order, i), id);
    assert !(id in previous && previous[id] == next[id]) ==> id in Diff(previous, next);
  }

  method WriteTombs(t: Tables, previous: Tombs, next: Tombs, order: seq<Id>) returns (r: Option<Tables>)
    requires Enumerates(order, next.Keys)
    ensures r.Some? ==> r.value == t.(tombs := t.tombs + Diff(previous, next))
    ensures r.Some? && TombRowsOk(t.tombs) ==> TombRowsOk(r.value.tombs)
    ensures Diff(previous, next) == map[] || TombRowsOk(next) ==> r.Some?
  {
    var tx := t;
    WrittenStarts(t.tombs, previous, next);
    RestEnds(order, next.Keys);
    for i := 0 to |order|
      invariant TombsSoFar(t, previous, next, order, i, tx)
    {
      RestStep(order, next.Keys, i);
      TombsTurn(t, previous, next, order, i, tx);
      var id := order[i];
      if !(id in previous && previous[id] == next[id]) {
        var after := UpsertTomb(tx, id, next[id]);
        if after.None? { return None; }
        tx := after.value;
      }
    }
    return Some(tx);
  }

  // ---------- provisioners ----------

  /** Provisioner rows, with names that are written set to active. */
  function ActiveRows(names: map<Id, string>): map<Id, ProvisionerRow> {
    map p | p in names :: ProvisionerRow(names[p], true)
  }

  lemma ActiveStep(rows: map<Id, ProvisionerRow>, done: map<Id, string>, id: Id, name: string)
    ensures rows + ActiveRows(done[id := name]) == (rows + ActiveRows(done))[id := ProvisionerRow(name, true)]
    ensures rows + ActiveRows(map[]) == rows
  {}

  /** Provisioners that go are deactivated last, so their names are in the way throughout. */
  ghost predicate ProvisionerClear(previous: map<Id, string>, next: map<Id, string>, order: seq<Id>, i: nat)
    requires i < |order| && order[i] in next
  {
    forall p | p in previous && (p in Rest(order, i + 1) || p !in next) :: previous[p] != next[order[i]]
  }

  ghost predicate ProvisionersClear(previous: map<Id, string>, next: map<Id, string>, order: seq<Id>, n: nat)
    requires n <= |order|
  {
    forall i | 0 <= i < n :: order[i] in next && ProvisionerClear(previous, next, order, i)
  }

  ghost predicate ProvisionersReady(t: Tables, previous: map<Id, string>, next: map<Id, string>) {
    LoadProvisioners(t.provisioners) == previous && ProvisionerNamesOk(previous)
  }

  /** The active rows once everything outside `todo` is written. */
  lemma ActiveOldOrNew(rows: map<Id, ProvisionerRow>, previous: map<Id, string>, next: map<Id, string>, todo: set<Id>)
    requires LoadProvisioners(rows) == previous
    ensures var after := rows + ActiveRows(Diff(previous, next) - todo);
            && (forall p | p in after && after[p].active ::
                  if p in next && p !in todo then after[p].name == next[p]
                      else p in previous && after[p].name == previous[p])
            && (forall p | p in previous && (p in todo || p !in next) ::
                 p in after && after[p] == ProvisionerRow(previous[p], true))
  {
    var after := rows + ActiveRows(Diff(previous, next) - todo);
    forall p | p in after && after[p].active
      ensures if p in next && p !in todo then after[p].name == next[p]
              else p in previous && after[p].name == previous[p]
    {
      if p !in Diff(previous, next) - todo { assert p in LoadProvisioners(rows); }
    }
    forall p | p in previous ensures p in rows && rows[p] == ProvisionerRow(previous[p], true) {
      assert p in LoadProvisioners(rows);
    }
  }

  lemma ProvisionerFits(t: Tables, previous: map<Id, string>, next: map<Id, string>, order: seq<Id>, i: nat)
    requires Enumerates(order, next.Keys) && i < |order| && ProvisionersReady(t, previous, next) && order[i] in next
    ensures var id := order[i];
            var tx := t.(provisioners := t.provisioners + ActiveRows(Diff(previous, next) - Rest(order, i)));
            var after := UpsertProvisioner(tx, id, next[id]);
            && (ProvisionerNamesOk(next) && ProvisionerClear(previous, next, order, i) ==> after.Some?)
            && (after.Some? || (id in previous && previous[id] == next[id]) ==>
                 ProvisionerClear(previous, next, order, i))
  {
    RestStep(order, next.Keys, i);
    ActiveOldOrNew(t.provisioners, previous, next, Rest(order, i));
  }

  ghost predicate ProvisionersSoFar(
    t: Tables, previous: map<Id, string>, next: map<Id, string>, order: seq<Id>, i: nat, tx: Tables)
    requires i <= |order|
  {
    && tx == t.(provisioners := t.provisioners + ActiveRows(Diff(previous, next) - Rest(order, i)))
    && (ProvisionerRowsOk(t.provisioners) ==> ProvisionerRowsOk(tx.provisioners))
    && (ProvisionersReady(t, previous, next) ==> ProvisionersClear(previous, next, order, i))
  }

  ghost predicate ProvisionersFit(t: Tables, previous: map<Id, string>, next: map<Id, string>, order: seq<Id>) {
    ProvisionersReady(t, previous, next) && ProvisionerNamesOk(next)
        && ProvisionersClear(previous, next, order, |order|)
  }

  lemma ProvisionersTurn(
    t: Tables, previous: map<Id, string>, next: map<Id, string>, order: seq<Id>, i: nat, tx: Tables)
    requires Enumerates(order, next.Keys) && i < |order| && order[i] in next
    requires ProvisionersSoFar(t, previous, next, order, i, tx)
    ensures var id := order[i];
            var after := UpsertProvisioner(tx, id, next[id]);
            if id in previous && previous[id] == next[id] then ProvisionersSoFar(t, previous, next, order, i + 1, tx)
            else if after.Some? then ProvisionersSoFar(t, previous, next, order, i + 1, after.value)
            else Diff(previous, next) != map[] && !ProvisionersFit(t, previous, next, order)
  {
    var id := order[i];
    RestStep(order, next.Keys, i);
    DiffStep(previous, next, Rest(order, i), id);
    ActiveStep(t.provisioners, Diff(previous, next) - Rest(order, i), id, next[id]);
    if ProvisionersReady(t, previous, next) { ProvisionerFits(t, previous, next, order, i); }
    if ProvisionerRowsOk(t.provisioners) && UpsertProvisioner(tx, id, next[id]).Some? {
      ProvisionerRowKeeps(tx, id, next[id]);
    }
    assert !(id in previous && previous[id] == next[id]) ==> id in Diff(previous, next);
  }

  method WriteProvisioners(t: Tables, previous: map<Id, string>, next: map<Id, string>, order: seq<Id>)
    returns (r: Option<Tables>)
    requires Enumerates(order, next.Keys)
    ensures r.Some? ==> ProvisionersSoFar(t, previous, next, order, |order|, r.value)
    ensures r.Some? ==> r.value == t.(provisioners := t.provisioners + ActiveRows(Diff(previous, next)))
    ensures Diff(previous, next) == map[] || ProvisionersFit(t, previous, next, order) ==> r.Some?
  {
    var tx := t;
    DiffStarts(previous, next);
    ActiveStep(t.provisioners, map[], "", "");
    RestEnds(order, next.Keys);
    for i := 0 to |order|
      invariant ProvisionersSoFar(t, previous, next, order, i, tx)
    {
      RestStep(order, next.Keys, i);
      ProvisionersTurn(t, previous, next, order, i, tx);
      var id := order[i];
      if !(id in previous && previous[id] == next[id]) {
        var after := UpsertProvisioner(tx, id, next[id]);
        if after.None? { return None; }
        tx := after.value;
      }
    }
    return Some(tx);
  }

  // ---------- invitations ----------

  function ColumnOf(r: InviteRecord, clients: set<Id>): Option<Id> {
    if r.invite.kind.ForEdge? && r.invite.kind.owner in clients then Some(r.invite.kind.owner) else None
  }

  /** Invitation rows; the owner column is filled only while the owner is registered. */
  function InviteRows(invites: map<string, InviteRecord>, clients: set<Id>): map<string, InviteRow> {
    map i | i in invites :: InviteRow(invites[i], ColumnOf(invites[i], clients))
  }

  lemma InviteStep(
    rows: map<string, InviteRow>, done: map<string, InviteRecord>, clients: set<Id>, i: string, r: InviteRecord)
    ensures rows + InviteRows(done[i := r], clients) ==
            (rows + InviteRows(done, clients))[i := InviteRow(r, ColumnOf(r, clients))]
  {}

  lemma NoInvites(rows: map<string, InviteRow>, clients: set<Id>)
    ensures rows + InviteRows(map[], clients) == rows
  {}

  ghost predicate RequestIdClear(
    previous: map<string, InviteRecord>, next: map<string, InviteRecord>, order: seq<string>, i: nat)
    requires i < |order| && order[i] in next
  {
    next[order[i]].requestId.Some? ==>
      forall j | j in Rest(order, i + 1) && j in previous :: previous[j].requestId != next[order[i]].requestId
  }

  ghost predicate RequestIdsClear(
    previous: map<string, InviteRecord>, next: map<string, InviteRecord>, order: seq<string>, n: nat)
    requires n <= |order|
  {
    forall i | 0 <= i < n :: order[i] in next && RequestIdClear(previous, next, order, i)
  }

  ghost predicate InvitesReady(
    t: Tables, previous: map<string, InviteRecord>, next: map<string, InviteRecord>, clients: set<Id>)
  {
    Trimmed(LoadInvites(t.invites), previous, next) && InvitesConsistent(previous) && clients <= t.clients.Keys
  }

  ghost predicate ManagersHaveRows(t: Tables, next: map<string, InviteRecord>) {
    forall i | i in next :: Referenced(next[i].managedBy, t.provisioners.Keys)
  }

  lemma InviteOldOrNew(
    rows: map<string, InviteRow>, previous: map<string, InviteRecord>, next: map<string, InviteRecord>,
    clients: set<Id>, todo: set<string>)
    requires Trimmed(LoadInvites(rows), previous, next)
    ensures var after := rows + InviteRows(Diff(previous, next) - todo, clients);
            && (forall k | k in after ::
                  k in next && (if k in todo then k in previous && after[k].record == previous[k]
                      else after[k].record == next[k]))
            && (forall k | k in todo && k in previous && k in next :: k in after)
  {
    var after := rows + InviteRows(Diff(previous, next) - todo, clients);
    assert forall k | k in rows :: k in LoadInvites(rows) && LoadInvites(rows)[k] == rows[k].record;
    forall k | k in after
      ensures k in next
              && (if k in todo then k in previous && after[k].record == previous[k] else after[k].record == next[k])
    {
      if k !in Diff(previous, next) - todo { assert k in LoadInvites(rows) && rows[k].record == previous[k]; }
    }
    forall k | k in todo && k in previous && k in next ensures k in after { assert k in LoadInvites(rows); }
  }

  lemma InviteFits(
    t: Tables, previous: map<string, InviteRecord>, next: map<string, InviteRecord>, clients: set<Id>,
    order: seq<string>, i: nat)
    requires Enumerates(order, next.Keys) && i < |order| && InvitesReady(t, previous, next, clients)
    requires order[i] in next && next[order[i]].invite.id == order[i]
    ensures var k := order[i];
            var tx := t.(invites := t.invites + InviteRows(Diff(previous, next) - Rest(order, i), clients));
            var after := UpsertInvite(tx, next[k], ColumnOf(next[k], clients));
            && (InvitesConsistent(next) && ManagersHaveRows(t, next) && RequestIdClear(previous, next, order, i) ==>
                 after.Some?)
            && (after.Some? || (k in previous && previous[k] == next[k]) ==> RequestIdClear(previous, next, order, i))
  {
    RestStep(order, next.Keys, i);
    InviteOldOrNew(t.invites, previous, next, clients, Rest(order, i));
  }

  ghost predicate InvitesSoFar(
    t: Tables, previous: map<string, InviteRecord>, next: map<string, InviteRecord>, clients: set<Id>,
    order: seq<string>, i: nat, tx: Tables)
    requires i <= |order|
  {
    && tx == t.(invites := t.invites + InviteRows(Diff(previous, next) - Rest(order, i), clients))
    && (InviteRowsOk(t.invites, t.provisioners.Keys, t.clients.Keys) ==>
          InviteRowsOk(tx.invites, t.provisioners.Keys, t.clients.Keys))
    && (InvitesReady(t, previous, next, clients) ==> RequestIdsClear(previous, next, order, i))
  }

  ghost predicate InvitesFit(
    t: Tables, previous: map<string, InviteRecord>, next: map<string, InviteRecord>, clients: set<Id>,
        order: seq<string>)
  {
    && InvitesReady(t, previous, next, clients) && InvitesConsistent(next) && ManagersHaveRows(t, next)
    && RequestIdsClear(previous, next, order, |order|)
  }

  lemma InviteRowsKept(t: Tables, tx: Tables, r: InviteRecord, column: Option<Id>)
    requires tx.provisioners == t.provisioners && tx.clients == t.clients && UpsertInvite(tx, r, column).Some?
    requires InviteRowsOk(tx.invites, t.provisioners.Keys, t.clients.Keys)
    ensures InviteRowsOk(UpsertInvite(tx, r, column).value.invites, t.provisioners.Keys, t.clients.Keys)
  {
    InviteRowKeeps(tx, r, column);
  }

  lemma InvitesTurn(
    t: Tables, previous: map<string, InviteRecord>, next: map<string, InviteRecord>, clients: set<Id>,
    order: seq<string>, i: nat, tx: Tables)
    requires Enumerates(order, next.Keys) && i < |order| && order[i] in next && next[order[i]].invite.id == order[i]
    requires InvitesSoFar(t, previous, next, clients, order, i, tx)
    ensures var k := order[i];
            var after := UpsertInvite(tx, next[k], ColumnOf(next[k], clients));
            if k in previous && previous[k] == next[k] then InvitesSoFar(t, previous, next, clients, order, i + 1, tx)
            else if after.Some? then InvitesSoFar(t, previous, next, clients, order, i + 1, after.value)
            else Diff(previous, next) != map[] && !InvitesFit(t, previous, next, clients, order)
  {
    var k := order[i];
    RestStep(order, next.Keys, i);
    DiffStep(previous, next, Rest(order, i), k);
    InviteStep(t.invites, Diff(previous, next) - Rest(order, i), clients, k, next[k]);
    if InvitesReady(t, previous, next, clients) { InviteFits(t, previous, next, clients, order, i); }
    if && InviteRowsOk(t.invites, t.provisioners.Keys, t.clients.Keys)
       && UpsertInvite(tx, next[k], ColumnOf(next[k], clients)).Some? {
      InviteRowsKept(t, tx, next[k], ColumnOf(next[k], clients));
    }
    assert !(k in previous && previous[k] == next[k]) ==> k in Diff(previous, next);
  }

  method WriteInvites(
    t: Tables, previous: map<string, InviteRecord>, next: map<string, InviteRecord>, clients: set<Id>,
        order: seq<string>)
    returns (r: Option<Tables>)
    requires Enumerates(order, next.Keys) && forall i | i in next :: next[i].invite.id == i
    ensures r.Some? ==> InvitesSoFar(t, previous, next, clients, order, |order|, r.value)
    ensures r.Some? ==> r.value == t.(invites := t.invites + InviteRows(Diff(previous, next), clients))
    ensures Diff(previous, next) == map[] || InvitesFit(t, previous, next, clients, order) ==> r.Some?
  {
    var tx := t;
    DiffStarts(previous, next);
    NoInvites(t.invites, clients);
    RestEnds(order, next.Keys);
    for i := 0 to |order|
      invariant InvitesSoFar(t, previous, next, clients, order, i, tx)
    {
      RestStep(order, next.Keys, i);
      InvitesTurn(t, previous, next, clients, order, i, tx);
      var k := order[i];
      if !(k in previous && previous[k] == next[k]) {
        var after := UpsertInvite(tx, next[k], ColumnOf(next[k], clients));
        if after.None? { return None; }
        tx := after.value;
      }
    }
    return Some(tx);
  }

  // ---------- placeholders ----------

  /** Placeholder rows for managers that have none. */
  function Placeholders(rows: map<Id, ProvisionerRow>, managers: set<Id>): map<Id, ProvisionerRow> {
    rows + map p | p in managers - rows.Keys :: ProvisionerRow("deleted:" + p, false)
  }

  lemma PlaceholderRow(rows: map<Id, ProvisionerRow>, managers: set<Id>, p: Id)
    ensures Placeholders(rows, {}) == rows
    ensures Placeholders(rows, managers + {p}) ==
            if p in Placeholders(rows, managers) then Placeholders(rows, managers)
            else Placeholders(rows, managers)[p := ProvisionerRow("deleted:" + p, false)]
  {}

  lemma PlaceholderStep(t: Tables, managers: set<Id>, p: Id)
    ensures EnsurePlaceholder(t.(provisioners := Placeholders(t.provisioners, managers)), Some(p)) ==
            t.(provisioners := Placeholders(t.provisioners, managers + {p}))
  {
    PlaceholderRow(t.provisioners, managers, p);
  }

  method WritePlaceholders(t: Tables, managers: set<Id>) returns (tx: Tables)
    ensures tx == t.(provisioners := Placeholders(t.provisioners, managers))
    ensures Constraints(t) ==> Constraints(tx)
    ensures Load(tx) == Load(t)
  {
    tx := t;
    var todo := managers;
    PlaceholderRow(t.provisioners, {}, "");
    while todo != {}
      invariant todo <= managers && tx == t.(provisioners := Placeholders(t.provisioners, managers - todo))
      invariant (Constraints(t) ==> Constraints(tx)) && Load(tx) == Load(t)
    {
      var p :| p in todo;
      PlaceholdersAreInvisible(tx, Some(p));
      if Constraints(t) { PlaceholderKeeps(tx, Some(p)); }
      PlaceholderStep(t, managers - todo, p);
      assert managers - (todo - {p}) == (managers - todo) + {p};
      tx, todo := EnsurePlaceholder(tx, Some(p)), todo - {p};
    }
    assert managers - {} == managers;
  }

  // ---------- deletes and deactivation ----------

  function Unowned(rows: map<string, InviteRow>, gone: set<Id>): map<string, InviteRow> {
    map i | i in rows ::
      if rows[i].ownerColumn.Some? && rows[i].ownerColumn.value in gone then rows[i].(ownerColumn := None) else rows[i]
  }

  lemma UnownedLoads(rows: map<string, InviteRow>, gone: set<Id>)
    ensures LoadInvites(Unowned(rows, gone)) == LoadInvites(rows)
  {}

  lemma RemovalStep(t: Tables, gone: set<Id>, id: Id)
    ensures t.(clients := t.clients - {}, invites := Unowned(t.invites, {})) == t
    ensures var tx := t.(clients := t.clients - gone, invites := Unowned(t.invites, gone));
            Database.RemoveClient(tx, id).Some? ==>
              Database.RemoveClient(tx, id).value ==
              t.(clients := t.clients - (gone + {id}), invites := Unowned(t.invites, gone + {id}))
  {
    assert t.clients - {} == t.clients && Unowned(t.invites, {}) == t.invites;
    var tx := t.(clients := t.clients - gone, invites := Unowned(t.invites, gone));
    if Database.RemoveClient(tx, id).Some? {
      assert t.clients - gone - {id} == t.clients - (gone + {id});
      assert Database.RemoveClient(tx, id).value.invites == Unowned(t.invites, gone + {id});
    }
  }

  /** Edges restrict the delete of their owner; invitations only lose their owner column. */
  method DeleteClients(t: Tables, gone: set<Id>) returns (r: Option<Tables>)
    ensures r.Some? ==> r.value == t.(clients := t.clients - gone, invites := Unowned(t.invites, gone))
    ensures r.Some? && Constraints(t) ==> Constraints(r.value)
    ensures gone == {} || (forall d | d in t.edges :: t.edges[d].owner !in gone) ==> r.Some?
    ensures r.Some? ==> forall d | d in t.edges && t.edges[d].owner in t.clients :: t.edges[d].owner !in gone
  {
    var tx, todo := t, gone;
    RemovalStep(t, {}, "");
    assert gone - gone == {};
    while todo != {}
      invariant todo <= gone
              && tx == t.(clients := t.clients - (gone - todo), invites := Unowned(t.invites, gone - todo))
      invariant Constraints(t) ==> Constraints(tx)
      invariant forall d | d in t.edges && t.edges[d].owner in t.clients :: t.edges[d].owner !in gone - todo
    {
      var id :| id in todo;
      RemovalStep(t, gone - todo, id);
      assert gone - (todo - {id}) == (gone - todo) + {id};
      var after := Database.RemoveClient(tx, id);
      if after.None? { return None; }
      if Constraints(t) { RemovedClientKeeps(tx, id); }
      tx, todo := after.value, todo - {id};
    }
    assert gone - {} == gone;
    return Some(tx);
  }

  function Inactive(rows: map<Id, ProvisionerRow>, gone: set<Id>): map<Id, ProvisionerRow> {
    map p | p in rows :: if p in gone then rows[p].(active := false) else rows[p]
  }

  lemma InactiveStep(t: Tables, done: set<Id>, p: Id)
    ensures Inactive(t.provisioners, {}) == t.provisioners
    ensures Deactivate(t.(provisioners := Inactive(t.provisioners, done)), p) ==
            t.(provisioners := Inactive(t.provisioners, done + {p}))
  {
    var rows := Inactive(t.provisioners, done);
    assert Inactive(t.provisioners, done + {p}) ==
           if p in rows then rows[p := rows[p].(active := false)] else rows;
  }

  lemma InactiveLoads(t: Tables, gone: set<Id>)
    ensures Load(t.(provisioners := Inactive(t.provisioners, gone))) ==
            Load(t).(provisioners := Load(t).provisioners - gone)
  {
    assert LoadProvisioners(Inactive(t.provisioners, gone)) == LoadProvisioners(t.provisioners) - gone;
  }

  lemma InactiveKeeps(t: Tables, gone: set<Id>)
    requires Constraints(t)
    ensures Constraints(t.(provisioners := Inactive(t.provisioners, gone)))
  {}

  method DeactivateGone(t: Tables, gone: set<Id>) returns (tx: Tables)
    ensures Load(tx) == Load(t).(provisioners := Load(t).provisioners - gone)
    ensures Constraints(t) ==> Constraints(tx)
  {
    tx := t;
    var todo := gone;
    InactiveStep(t, {}, "");
    assert gone - gone == {};
    while todo != {}
      invariant todo <= gone && tx == t.(provisioners := Inactive(t.provisioners, gone - todo))
    {
      var p :| p in todo;
      InactiveStep(t, gone - todo, p);
      assert gone - (todo - {p}) == (gone - todo) + {p};
      tx, todo := Deactivate(tx, p), todo - {p};
    }
    assert gone - {} == gone;
    InactiveLoads(t, gone);
    if Constraints(t) { InactiveKeeps(t, gone); }
  }

  // ---------- all rows ----------

  /** The order in which the next state lists its records. */
  datatype Order = Order(
    provisioners: seq<Id>, clients: seq<Id>, edges: seq<Id>, relays: seq<Id>, tombs: seq<Id>, invites: seq<string>)

  predicate Lists(order: Order, s: ControlState) {
    && Enumerates(order.provisioners, s.provisioners.Keys) && Enumerates(order.clients, s.clients.Keys)
    && Enumerates(order.edges, s.edges.Keys) && Enumerates(order.relays, s.relays.Keys)
    && Enumerates(order.tombs, s.tombs.Keys) && Enumerates(order.invites, s.invites.Keys)
  }

  function ClientManagers(s: ControlState): set<Id> {
    set c | c in s.clients && s.clients[c].managedBy.Some? :: s.clients[c].managedBy.value
  }

  function InviteManagers(s: ControlState): set<Id> {
    set i | i in s.invites && s.invites[i].managedBy.Some? :: s.invites[i].managedBy.value
  }

  /** In this order, no unique key of a node is in the way when its row is written. */
  ghost predicate NodesClear(previous: ControlState, next: ControlState, order: Order) {
    && ProvisionersClear(previous.provisioners, next.provisioners, order.provisioners, |order.provisioners|)
    && ClientsClear(previous.clients, next.clients, order.clients, |order.clients|)
    && EdgesClear(previous.edges, next.edges, order.edges, |order.edges|)
    && RelaysClear(previous.relays, next.relays, order.relays, |order.relays|)
  }

  ghost predicate UpsertsClear(previous: ControlState, next: ControlState, order: Order) {
    && NodesClear(previous, next, order)
    && RequestIdsClear(previous.invites, next.invites, order.invites, |order.invites|)
  }

  /** Owners that go have no surviving edge, and no unique key is in the way when a row is written. */
  ghost predicate Orderly(previous: ControlState, next: ControlState, order: Order) {
    OwnersStay(previous, next) && UpsertsClear(previous, next, order)
  }

  /** The tables after the deletes. */
  ghost predicate Ready(t: Tables, previous: ControlState, next: ControlState) {
    && Trimmed(t.clients, previous.clients, next.clients) && Trimmed(t.edges, previous.edges, next.edges)
    && Trimmed(t.relays, previous.relays, next.relays) && LoadProvisioners(t.provisioners) == previous.provisioners
    && Consistent(previous)
  }

  predicate Unchanged(previous: ControlState, next: ControlState) {
    && Diff(previous.clients, next.clients) == map[] && Diff(previous.edges, next.edges) == map[]
    && Diff(previous.relays, next.relays) == map[] && Diff(previous.provisioners, next.provisioners) == map[]
    && Diff(previous.tombs, next.tombs) == map[]
  }

  function WithProvisioners(t: Tables, previous: ControlState, next: ControlState): Tables {
    t.(provisioners := t.provisioners + ActiveRows(Diff(previous.provisioners, next.provisioners)))
  }

  function WithClients(t: Tables, previous: ControlState, next: ControlState): Tables {
    WithProvisioners(t, previous, next).(clients := t.clients + Diff(previous.clients, next.clients))
  }

  function WithEdges(t: Tables, previous: ControlState, next: ControlState): Tables {
    WithClients(t, previous, next).(edges := t.edges + Diff(previous.edges, next.edges))
  }

  function NodesWritten(t: Tables, previous: ControlState, next: ControlState): Tables {
    WithEdges(t, previous, next).(relays := t.relays + Diff(previous.relays, next.relays),
                                  tombs := t.tombs + Diff(previous.tombs, next.tombs))
  }

  ghost predicate CanSync(t: Tables, previous: ControlState, next: ControlState, order: Order) {
    && Ready(t, previous, next) && Consistent(next) && NodesClear(previous, next, order)
    && ClientManagers(next) <= t.provisioners.Keys + next.provisioners.Keys
  }

  lemma ClientsAreReady(t: Tables, previous: ControlState, next: ControlState, order: Order)
    requires CanSync(t, previous, next, order)
    ensures ClientsFit(WithProvisioners(t, previous, next), previous.clients, next.clients, order.clients)
  {
    var keys := WithProvisioners(t, previous, next).provisioners.Keys;
    forall p | p in next.provisioners ensures p in keys {
      if p !in Diff(previous.provisioners, next.provisioners) { assert p in LoadProvisioners(t.provisioners); }
    }
    forall c | c in next.clients ensures Referenced(next.clients[c].managedBy, keys) {
      if next.clients[c].managedBy.Some? { assert next.clients[c].managedBy.value in ClientManagers(next); }
    }
  }

  lemma NodesAreReady(t: Tables, previous: ControlState, next: ControlState, order: Order)
    requires CanSync(t, previous, next, order)
    ensures ProvisionersFit(t, previous.provisioners, next.provisioners, order.provisioners)
    ensures EdgesFit(WithClients(t, previous, next), previous.edges, next.edges, order.edges)
    ensures RelaysFit(WithEdges(t, previous, next), previous.relays, next.relays, order.relays)
            && TombRowsOk(next.tombs)
  {
    DiffRestores(previous.clients, next.clients);
  }

  lemma ManagersAreWritten(t: Tables, previous: ControlState, next: ControlState)
    ensures WithProvisioners(t, previous, next).provisioners.Keys <= t.provisioners.Keys + next.provisioners.Keys
    ensures t.provisioners.Keys <= WithProvisioners(t, previous, next).provisioners.Keys
  {}

  /** Node rows that are in order, next to invitations that were, make tables that meet the schema. */
  lemma NodesKeepConstraints(t: Tables, t': Tables)
    requires Constraints(t) && t'.invites == t.invites
    requires t.provisioners.Keys <= t'.provisioners.Keys && t.clients.Keys <= t'.clients.Keys
    requires ProvisionerRowsOk(t'.provisioners) && ClientRowsOk(t'.clients, t'.provisioners.Keys)
    requires EdgeRowsOk(t'.edges, t'.clients.Keys) && RelayRowsOk(t'.relays) && TombRowsOk(t'.tombs)
    ensures Constraints(t')
  {}

  /** Node rows in order make tables that meet the schema, and their keys were clear. */
  lemma NodesDone(t: Tables, t1: Tables, t2: Tables, t3: Tables, t4: Tables, t5: Tables, previous: ControlState,
      next: ControlState, order: Order)
    requires Lists(order, next) && t1 == WithProvisioners(t, previous, next) && t2 == WithClients(t, previous, next)
    requires t3 == WithEdges(t, previous, next) && t5 == NodesWritten(t, previous, next)
    requires ProvisionersSoFar(t, previous.provisioners, next.provisioners, order.provisioners,
               |order.provisioners|, t1)
    requires ClientsSoFar(t1, previous.clients, next.clients, order.clients, |order.clients|, t2)
    requires EdgesSoFar(t2, previous.edges, next.edges, order.edges, |order.edges|, t3)
    requires RelaysSoFar(t3, previous.relays, next.relays, order.relays, |order.relays|, t4)
    requires t5 == t4.(tombs := t5.tombs) && (TombRowsOk(t4.tombs) ==> TombRowsOk(t5.tombs))
    ensures Constraints(t) ==> Constraints(t5)
    ensures Ready(t, previous, next) ==> NodesClear(previous, next, order)
  {
    ManagersAreWritten(t, previous, next);
    if Constraints(t) { NodesKeepConstraints(t, t5); }
  }

  /** The upserts of nodes, parents before the rows that refer to them. */
  method WriteNodes(t: Tables, previous: ControlState, next: ControlState, order: Order) returns (r: Option<Tables>)
    requires Lists(order, next)
    ensures r.Some? ==> r.value == NodesWritten(t, previous, next)
    ensures r.Some? && Constraints(t) ==> Constraints(r.value)
    ensures r.Some? && Ready(t, previous, next) ==> NodesClear(previous, next, order)
    ensures Unchanged(previous, next) || CanSync(t, previous, next, order) ==> r.Some?
  {
    if CanSync(t, previous, next, order) {
      ClientsAreReady(t, previous, next, order);
      NodesAreReady(t, previous, next, order);
    }
    var t1 := WriteProvisioners(t, previous.provisioners, next.provisioners, order.provisioners);
    if t1.None? { return None; }
    var t2 := WriteClients(t1.value, previous.clients, next.clients, order.clients);
    if t2.None? { return None; }
    var t3 := WriteEdges(t2.value, previous.edges, next.edges, order.edges);
    if t3.None? { return None; }
    var t4 := WriteRelays(t3.value, previous.relays, next.relays, order.relays);
    if t4.None? { return None; }
    r := WriteTombs(t4.value, previous.tombs, next.tombs, order.tombs);
    if r.Some? { NodesDone(t, t1.value, t2.value, t3.value, t4.value, r.value, previous, next, order); }
  }

  // ---------- the incremental writer's rows ----------

  function Gone<K, V>(previous: map<K, V>, next: map<K, V>): set<K> { previous.Keys - next.Keys }

  function Deleted(t: Tables, previous: ControlState, next: ControlState): Tables {
    t.(invites := Unowned(t.invites - Gone(previous.invites, next.invites), Gone(previous.clients, next.clients)),
       clients := t.clients - Gone(previous.clients, next.clients),
       edges := t.edges - Gone(previous.edges, next.edges),
       relays := t.relays - Gone(previous.relays, next.relays),
       tombs := t.tombs - Gone(previous.tombs, next.tombs))
  }

  /** Deleted rows and placeholders: what the upserts start from. */
  function Prepared(t: Tables, previous: ControlState, next: ControlState): Tables {
    Deleted(t, previous, next).(provisioners :=
        Placeholders(t.provisioners, ClientManagers(next) + InviteManagers(next)))
  }

  ghost predicate OwnersStay(previous: ControlState, next: ControlState) {
    forall d | d in previous.edges && d in next.edges :: previous.edges[d].owner in next.clients
  }

  /** The deletes; edges go before the clients they refer to. */
  method DeleteRows(t: Tables, previous: ControlState, next: ControlState) returns (r: Option<Tables>)
    ensures r.Some? ==> r.value == Deleted(t, previous, next)
    ensures r.Some? && Constraints(t) ==> Constraints(r.value)
    ensures previous.clients.Keys <= next.clients.Keys || (OwnersStay(previous, next) && Load(t) == previous) ==>
            r.Some?
    ensures r.Some? && Load(t) == previous && Constraints(t) ==> OwnersStay(previous, next)
  {
    var t1 := t.(invites := t.invites - Gone(previous.invites, next.invites),
                 edges := t.edges - Gone(previous.edges, next.edges),
                 relays := t.relays - Gone(previous.relays, next.relays),
                 tombs := t.tombs - Gone(previous.tombs, next.tombs));
    if Constraints(t) {
      DeletionKeeps(t, Gone(previous.invites, next.invites), Gone(previous.edges, next.edges),
                    Gone(previous.relays, next.relays), Gone(previous.tombs, next.tombs));
    }
    r := DeleteClients(t1, Gone(previous.clients, next.clients));
    if r.Some? && Load(t) == previous && Constraints(t) {
      forall d | d in previous.edges && d in next.edges ensures previous.edges[d].owner in next.clients {
        assert d in t1.edges && t1.edges[d].owner in t1.clients;
      }
    }
  }

  lemma PlaceholdersLoad(rows: map<Id, ProvisionerRow>, managers: set<Id>)
    ensures LoadProvisioners(Placeholders(rows, managers)) == LoadProvisioners(rows)
    ensures managers <= Placeholders(rows, managers).Keys
  {}

  lemma PreparedInvites(rows: map<string, InviteRow>, previous: map<string, InviteRecord>,
      next: map<string, InviteRecord>, gone: set<Id>)
    requires LoadInvites(rows) == previous
    ensures Trimmed(LoadInvites(Unowned(rows - Gone(previous, next), gone)), previous, next)
  {
    UnownedLoads(rows - Gone(previous, next), gone);
    assert LoadInvites(rows - Gone(previous, next)) == LoadInvites(rows) - Gone(previous, next);
  }

  /** Everything that goes is gone, and every manager has a row. */
  ghost predicate Primed(t: Tables, previous: ControlState, next: ControlState) {
    && Trimmed(t.clients, previous.clients, next.clients) && Trimmed(t.edges, previous.edges, next.edges)
    && Trimmed(t.relays, previous.relays, next.relays) && Trimmed(t.tombs, previous.tombs, next.tombs)
    && Trimmed(LoadInvites(t.invites), previous.invites, next.invites)
    && LoadProvisioners(t.provisioners) == previous.provisioners
    && ClientManagers(next) <= t.provisioners.Keys && InviteManagers(next) <= t.provisioners.Keys
  }

  lemma PreparedIsPrimed(t: Tables, previous: ControlState, next: ControlState)
    requires Load(t) == previous
    ensures Primed(Prepared(t, previous, next), previous, next)
  {
    PlaceholdersLoad(t.provisioners, ClientManagers(next) + InviteManagers(next));
    PreparedInvites(t.invites, previous.invites, next.invites, Gone(previous.clients, next.clients));
  }

  /** Nothing but invitations and tombstones goes, and nothing is new or different. */
  predicate Shrinks(previous: ControlState, next: ControlState) {
    && Unchanged(previous, next) && Diff(previous.invites, next.invites) == map[]
    && previous.clients.Keys <= next.clients.Keys
  }

  lemma InviteManagersHaveRows(t: Tables, s: ControlState)
    requires InviteManagers(s) <= t.provisioners.Keys
    ensures ManagersHaveRows(t, s.invites)
  {
    forall i | i in s.invites && s.invites[i].managedBy.Some?
        ensures s.invites[i].managedBy.value in InviteManagers(s) {}
  }

  lemma InvitesAreReady(t: Tables, previous: ControlState, next: ControlState)
    requires Primed(t, previous, next) && Consistent(previous)
    ensures InvitesReady(NodesWritten(t, previous, next), previous.invites, next.invites, next.clients.Keys)
    ensures ManagersHaveRows(NodesWritten(t, previous, next), next.invites)
  {
    DiffRestores(previous.clients, next.clients);
    InviteManagersHaveRows(NodesWritten(t, previous, next), next);
  }

  lemma ActiveRowsLoad(rows: map<Id, ProvisionerRow>, names: map<Id, string>)
    ensures LoadProvisioners(rows + ActiveRows(names)) == LoadProvisioners(rows) + names
  {}

  lemma InviteRowsLoad(rows: map<string, InviteRow>, invites: map<string, InviteRecord>, clients: set<Id>)
    ensures LoadInvites(rows + InviteRows(invites, clients)) == LoadInvites(rows) + invites
  {}

  /** What a reader loads once every row is written. */
  lemma RowsLoad(t: Tables, previous: ControlState, next: ControlState, clients: set<Id>)
    requires Trimmed(t.clients, previous.clients, next.clients) && Trimmed(t.edges, previous.edges, next.edges)
    requires Trimmed(t.relays, previous.relays, next.relays) && Trimmed(t.tombs, previous.tombs, next.tombs)
    requires Trimmed(LoadInvites(t.invites), previous.invites, next.invites)
    ensures var t' := NodesWritten(t, previous, next);
            Load(t'.(invites := t'.invites + InviteRows(Diff(previous.invites, next.invites), clients))) ==
            next.(network := t.network, revision := t.revision, relayRevision := t.relayRevision,
                  provisioners := LoadProvisioners(t.provisioners) + Diff(previous.provisioners, next.provisioners))
  {
    DiffRestores(previous.clients, next.clients);
    DiffRestores(previous.edges, next.edges);
    DiffRestores(previous.relays, next.relays);
    DiffRestores(previous.tombs, next.tombs);
    DiffRestores(previous.invites, next.invites);
    ActiveRowsLoad(t.provisioners, Diff(previous.provisioners, next.provisioners));
    InviteRowsLoad(t.invites, Diff(previous.invites, next.invites), clients);
  }

  lemma ProvisionersRestored(previous: map<Id, string>, next: map<Id, string>)
    ensures (previous + Diff(previous, next)) - Gone(previous, next) == next
  {}

  lemma InvitesKeepConstraints(t: Tables, invites: map<string, InviteRow>)
    requires Constraints(t) && InviteRowsOk(invites, t.provisioners.Keys, t.clients.Keys)
    ensures Constraints(t.(invites := invites))
  {}

  /** The upserts of the incremental writer, after its deletes. */
  method UpsertRows(t: Tables, previous: ControlState, next: ControlState, order: Order) returns (r: Option<Tables>)
    requires Lists(order, next) && forall i | i in next.invites :: next.invites[i].invite.id == i
    ensures r.Some? ==> r.value == NodesWritten(t, previous, next).(
                invites := t.invites + InviteRows(Diff(previous.invites, next.invites), next.clients.Keys))
    ensures r.Some? && Constraints(t) ==> Constraints(r.value)
    ensures r.Some? && Primed(t, previous, next) ==>
              Load(r.value) == next.(network := t.network, revision := t.revision, relayRevision := t.relayRevision,
                                     provisioners :=
                                         previous.provisioners + Diff(previous.provisioners, next.provisioners))
    ensures r.Some? && Primed(t, previous, next) && Consistent(previous) ==> UpsertsClear(previous, next, order)
    ensures Primed(t, previous, next) && Consistent(previous) && Consistent(next) ==>
              UpsertsClear(previous, next, order) ==> r.Some?
    ensures Unchanged(previous, next) && Diff(previous.invites, next.invites) == map[] ==> r.Some?
  {
    if Primed(t, previous, next) {
      RowsLoad(t, previous, next, next.clients.Keys);
      if Consistent(previous) { InvitesAreReady(t, previous, next); }
    }
    var nodes := WriteNodes(t, previous, next, order);
    if nodes.None? { return None; }
    r := WriteInvites(nodes.value, previous.invites, next.invites, next.clients.Keys, order.invites);
    if r.Some? && Constraints(t) { InvitesKeepConstraints(nodes.value, r.value.invites); }
  }

  /** All row statements of the incremental writer: ordered deletes, conditional upserts, deactivation, collection. */
  method SyncRows(t: Tables, previous: ControlState, next: ControlState, order: Order) returns (r: Option<Tables>)
    requires Lists(order, next) && forall i | i in next.invites :: next.invites[i].invite.id == i
    ensures r.Some? && Load(t) == previous ==>
              Load(r.value) == next.(network := t.network, revision := t.revision, relayRevision := t.relayRevision)
    ensures r.Some? && Constraints(t) ==> Constraints(r.value)
    ensures Load(t) == previous && Constraints(t) && r.Some? ==> Orderly(previous, next, order)
    ensures Load(t) == previous && Constraints(t) && Consistent(next) && Orderly(previous, next, order) ==> r.Some?
    ensures Shrinks(previous, next) ==> r.Some?
  {
    var t1 := DeleteRows(t, previous, next);
    if t1.None? { return None; }
    var t2 := WritePlaceholders(t1.value, ClientManagers(next) + InviteManagers(next));
    if Load(t) == previous {
      PreparedIsPrimed(t, previous, next);
      if Constraints(t) { ConstraintsAreConsistent(t); }
    }
    var t3 := UpsertRows(t2, previous, next, order);
    if t3.None? { return None; }
    var t4 := DeactivateGone(t3.value, Gone(previous.provisioners, next.provisioners));
    ProvisionersRestored(previous.provisioners, next.provisioners);
    CollectionIsInvisible(t4);
    if Constraints(t) { CollectionKeeps(t4); }
    return Some(CollectProvisioners(t4));
  }

  // ---------- the full rewrite ----------

  /** The state before anything is written: only the metadata. */
  function Blank(s: ControlState): ControlState {
    s.(clients := map[], edges := map[], relays := map[], invites := map[], provisioners := map[], tombs := map[])
  }

  /** All rows deleted, all provisioners deactivated, the metadata row replaced. */
  function Emptied(t: Tables, s: ControlState): Tables {
    Tables(s.network, s.revision, s.relayRevision, map p | p in t.provisioners :: t.provisioners[p].(active := false),
           map[], map[], map[], map[], map[])
  }

  lemma EmptiedMeetsSchema(t: Tables, s: ControlState)
    ensures Constraints(Emptied(t, s)) && Emptied(t, s).provisioners.Keys == t.provisioners.Keys
    ensures LoadProvisioners(Emptied(t, s).provisioners) == map[]
  {}

  lemma BlankIsConsistent(s: ControlState)
    ensures Consistent(Blank(s)) && LoadInvites(map[]) == map[]
  {}

  lemma NothingIsInTheWay(s: ControlState, order: Order)
    requires Lists(order, s)
    ensures NodesClear(Blank(s), s, order) && RequestIdsClear(map[], s.invites, order.invites, |order.invites|)
  {
    forall i | 0 <= i < |order.provisioners| ensures order.provisioners[i] in s.provisioners.Keys {}
    forall i | 0 <= i < |order.clients| ensures order.clients[i] in s.clients.Keys {}
    forall i | 0 <= i < |order.edges| ensures order.edges[i] in s.edges.Keys {}
    forall i | 0 <= i < |order.relays| ensures order.relays[i] in s.relays.Keys {}
    forall i | 0 <= i < |order.invites| ensures order.invites[i] in s.invites.Keys {}
  }

  lemma EmptiedIsReady(t: Tables, s: ControlState)
    ensures Ready(Emptied(t, s), Blank(s), s) && LoadInvites(Emptied(t, s).invites) == map[]
  {
    EmptiedMeetsSchema(t, s);
    BlankIsConsistent(s);
  }

  lemma EverythingDiffers<K, V>(next: map<K, V>)
    ensures Diff(map[], next) == next && map[] + Diff(map[], next) == next
  {}

  lemma RewriteDiffers(s: ControlState)
    ensures Diff(map[], s.clients) == s.clients && Diff(map[], s.provisioners) == s.provisioners
            && Diff(map[], s.invites) == s.invites
  {
    EverythingDiffers(s.clients);
    EverythingDiffers(s.provisioners);
    EverythingDiffers(s.invites);
  }

  /** Managers of clients get no placeholder here: they must be registered, or have been at some time. */
  ghost predicate ManagersKnown(t: Tables, s: ControlState) {
    ClientManagers(s) <= t.provisioners.Keys + s.provisioners.Keys
  }

  lemma RewrittenInvitesFit(t: Tables, s: ControlState, order: Order)
    requires Lists(order, s) && Consistent(s)
    ensures var t1 := NodesWritten(Emptied(t, s), Blank(s), s);
            InvitesFit(t1.(provisioners := Placeholders(t1.provisioners, InviteManagers(s))), map[], s.invites,
                       s.clients.Keys, order.invites)
  {
    RewriteDiffers(s);
    EmptiedIsReady(t, s);
    NothingIsInTheWay(s, order);
    var t1 := NodesWritten(Emptied(t, s), Blank(s), s);
    PlaceholdersLoad(t1.provisioners, InviteManagers(s));
    InviteManagersHaveRows(t1.(provisioners := Placeholders(t1.provisioners, InviteManagers(s))), s);
  }

  lemma RewrittenLoads(t: Tables, s: ControlState)
    ensures var t1 := NodesWritten(Emptied(t, s), Blank(s), s);
            var t2 := t1.(provisioners := Placeholders(t1.provisioners, InviteManagers(s)));
            Load(t2.(invites := t2.invites + InviteRows(Diff(map[], s.invites), s.clients.Keys))) == s
  {
    EmptiedIsReady(t, s);
    RowsLoad(Emptied(t, s), Blank(s), s, s.clients.Keys);
    var t1 := NodesWritten(Emptied(t, s), Blank(s), s);
    PlaceholdersLoad(t1.provisioners, InviteManagers(s));
    EverythingDiffers(s.provisioners);
  }

  lemma WrittenManagersAreKnown(t: Tables, s: ControlState)
    requires Constraints(NodesWritten(Emptied(t, s), Blank(s), s))
    ensures ManagersKnown(t, s)
  {
    RewriteDiffers(s);
    ManagersAreWritten(Emptied(t, s), Blank(s), s);
    var t1 := NodesWritten(Emptied(t, s), Blank(s), s);
    assert t1.clients == s.clients && t1.provisioners.Keys <= t.provisioners.Keys + s.provisioners.Keys;
  }

  /** The rewrite's rows succeed exactly on consistent states whose clients have known managers. */
  method RewriteRows(t: Tables, s: ControlState, order: Order) returns (r: Option<Tables>)
    requires Lists(order, s) && forall i | i in s.invites :: s.invites[i].invite.id == i
    ensures r.Some? <==> Consistent(s) && ManagersKnown(t, s)
    ensures r.Some? ==> Load(r.value) == s && Constraints(r.value)
  {
    EmptiedMeetsSchema(t, s);
    EmptiedIsReady(t, s);
    NothingIsInTheWay(s, order);
    var t1 := WriteNodes(Emptied(t, s), Blank(s), s, order);
    if t1.None? { return None; }
    WrittenManagersAreKnown(t, s);
    var t2 := WritePlaceholders(t1.value, InviteManagers(s));
    if Consistent(s) { RewrittenInvitesFit(t, s, order); }
    var t3 := WriteInvites(t2, map[], s.invites, s.clients.Keys, order.invites);
    if t3.None? { return None; }
    RewrittenLoads(t, s);
    InvitesKeepConstraints(t2, t3.value.invites);
    ConstraintsAreConsistent(t3.value);
    CollectionIsInvisible(t3.value);
    CollectionKeeps(t3.value);
    return Some(CollectProvisioners(t3.value));
  }

  // ---------- the transactions ----------

  predicate NetworkRowOk(n: Network) { n.audience != "" && n.publicUrl != "" && n.relayCa != [] }

  predicate AdvancesByOne(before: nat, after: nat) { after == before || after == before + 1 }

  /** What the metadata row demands of a state. */
  predicate MetadataOk(s: ControlState) {
    && (forall e | e in s.tombs :: s.tombs[e].revision <= s.relayRevision)
    && s.revision <= I64_MAX && 0 < s.relayRevision <= I64_MAX && NetworkRowOk(s.network)
  }

  predicate Advances(t: Tables, next: ControlState) {
    AdvancesByOne(t.revision, next.revision) && AdvancesByOne(t.relayRevision, next.relayRevision)
  }

  class Db {
    var tables: Tables

    constructor (t: Tables)
      ensures tables == t
    {
      tables := t;
    }

    /** The delta writer: all of the delta and both revisions, or nothing. */
    method ApplyDeltaSync(expected: nat, expectedRelay: nat, revision: nat, relayRevision: nat, delta: StateDelta)
      returns (ok: bool)
      modifies this
      ensures !ok ==> tables == old(tables)
      ensures ok ==> Load(tables) ==
                     ApplyChanges(Load(old(tables)), delta.changes)
                     .(revision := revision, relayRevision := relayRevision)
      ensures ok <==>
                && AdvancesByOne(expected, revision) && AdvancesByOne(expectedRelay, relayRevision)
                && PerformAll(old(tables), delta.changes, relayRevision).Some?
                && revision <= I64_MAX && 0 < relayRevision <= I64_MAX
                && old(tables.revision) == expected && old(tables.relayRevision) == expectedRelay
      ensures ok ==> tables == CollectProvisioners(PerformAll(old(tables), delta.changes, relayRevision).value)
                                .(revision := revision, relayRevision := relayRevision)
      ensures ok ==> PassesChecks(delta)
      ensures ok && Constraints(old(tables)) ==> Constraints(tables)
    {
      if !AdvancesByOne(expected, revision) || !AdvancesByOne(expectedRelay, relayRevision) { return false; }
      var done := RunChanges(tables, delta.changes, relayRevision);
      if done.None? { return false; }
      CollectionIsInvisible(done.value);
      if Constraints(tables) {
        PerformAllKeeps(tables, delta.changes, relayRevision);
        CollectionKeeps(done.value);
      }
      var tx := CollectProvisioners(done.value);
      if revision > I64_MAX || relayRevision > I64_MAX || relayRevision == 0 { return false; }
      if tx.revision != expected || tx.relayRevision != expectedRelay { return false; }
      tables := tx.(revision := revision, relayRevision := relayRevision);
      return true;
    }

    /**
     * The incremental writer. If the tables held `previous` and the transaction commits, they hold `next`. On
     * tables that meet the schema it commits if and only if `next` meets it too, the metadata row accepts it,
     * and in the order of its lists no unique key and no owner is in the way.
     */
    method ApplySync(previous: ControlState, next: ControlState, order: Order) returns (ok: bool)
      requires Lists(order, next) && forall i | i in next.invites :: next.invites[i].invite.id == i
      modifies this
      ensures !ok ==> tables == old(tables)
      ensures ok ==> old(tables.revision) == previous.revision && old(tables.relayRevision) == previous.relayRevision
      ensures ok ==> Advances(old(tables), next) && MetadataOk(next)
      ensures ok && Load(old(tables)) == previous ==> Load(tables) == next
      ensures ok && Constraints(old(tables)) ==> Constraints(tables)
      ensures Load(old(tables)) == previous && Constraints(old(tables)) ==>
                (ok <==> && Advances(old(tables), next) && MetadataOk(next)
                         && Consistent(next) && Orderly(previous, next, order))
      ensures Load(old(tables)) == previous && Shrinks(previous, next) ==>
                (ok <==> Advances(old(tables), next) && MetadataOk(next))
    {
      if tables.revision != previous.revision || tables.relayRevision != previous.relayRevision { return false; }
      if !AdvancesByOne(previous.revision, next.revision)
          || !AdvancesByOne(previous.relayRevision, next.relayRevision) {
        return false;
      }
      if exists e | e in next.tombs :: next.tombs[e].revision > next.relayRevision { return false; }
      var tx := SyncRows(tables, previous, next, order);
      if tx.None? { return false; }
      if next.revision > I64_MAX || next.relayRevision > I64_MAX || next.relayRevision == 0
          || !NetworkRowOk(next.network) {
        return false;
      }
      tables := tx.value.(network := next.network, revision := next.revision, relayRevision := next.relayRevision);
      if Constraints(tables) { ConstraintsAreConsistent(tables); }
      return true;
    }

    /** The full rewrite, with its exact condition; `stored` says whether a metadata row exists already. */
    method InitializeSync(state: ControlState, order: Order, stored: bool) returns (ok: bool)
      requires Lists(order, state) && forall i | i in state.invites :: state.invites[i].invite.id == i
      modifies this
      ensures !ok ==> tables == old(tables)
      ensures ok ==> Load(tables) == state && Constraints(tables)
      ensures ok <==>
                && (stored ==> Advances(old(tables), state)) && MetadataOk(state)
                && Consistent(state) && ManagersKnown(old(tables), state)
    {
      if stored && !(AdvancesByOne(tables.revision, state.revision)
          && AdvancesByOne(tables.relayRevision, state.relayRevision)) {
        return false;
      }
      if exists e | e in state.tombs :: state.tombs[e].revision > state.relayRevision { return false; }
      if state.revision > I64_MAX || state.relayRevision > I64_MAX || state.relayRevision == 0
          || !NetworkRowOk(state.network) {
        return false;
      }
      var written := RewriteRows(tables, state, order);
      if written.None? { return false; }
      tables := written.value;
      return true;
    }
  }
}
