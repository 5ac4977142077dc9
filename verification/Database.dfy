/**
 * Control's tables and the two ways it writes them (crates/as-control/src/db.rs, schema.sql).
 * A statement that breaks a constraint yields None and the transaction is rolled back.
 */
module Database {
  import opened Base
  import opened RelayApi
  import Auth = Authorization
  import opened Control

  datatype ProvisionerRow = ProvisionerRow(name: string, active: bool)

  /** The owner column exists for the foreign key; loading reads the owner from the record. */
  datatype InviteRow = InviteRow(record: InviteRecord, ownerColumn: Option<Id>)

  datatype Tables = Tables(
    network: Network,
    revision: nat,
    relayRevision: nat,
    provisioners: map<Id, ProvisionerRow>,
    clients: map<Id, ClientRecord>,
    edges: map<Id, EdgeRecord>,
    relays: map<Id, RelayRecord>,
    invites: map<string, InviteRow>,
    tombs: Tombs)

  function LoadInvites(rows: map<string, InviteRow>): map<string, InviteRecord> {
    map i | i in rows :: rows[i].record
  }

  function LoadProvisioners(rows: map<Id, ProvisionerRow>): map<Id, string> {
    map p | p in rows && rows[p].active :: rows[p].name
  }

  function Load(t: Tables): ControlState {
    ControlState(t.network, t.revision, t.relayRevision, t.clients, t.edges, t.relays,
                 LoadInvites(t.invites), LoadProvisioners(t.provisioners), t.tombs)
  }

  // ---------- statements ----------

  predicate GrantRowOk(g: Auth.Grant) { 0 < g.generation <= I64_MAX && g.issuedAt < g.expiresAt }

  predicate Referenced(p: Option<Id>, keys: set<Id>) { p.Some? ==> p.value in keys }

  function UpsertClient(t: Tables, id: Id, r: ClientRecord): Option<Tables> {
    if !Referenced(r.managedBy, t.provisioners.Keys) || !GrantRowOk(r.grant) then None
    else if exists c | c in t.clients :: c != id && t.clients[c].name == r.name then None
    else Some(t.(clients := t.clients[id := r]))
  }

  /** Edges restrict the delete; invitations lose their owner column. */
  function RemoveClient(t: Tables, id: Id): Option<Tables> {
    if id in t.clients && exists d | d in t.edges :: t.edges[d].owner == id then None
    else
      Some(t.(clients := t.clients - {id},
              invites := map i | i in t.invites ::
                if t.invites[i].ownerColumn == Some(id) then t.invites[i].(ownerColumn := None) else t.invites[i]))
  }

  function UpsertEdge(t: Tables, id: Id, r: EdgeRecord): Option<Tables> {
    if r.owner !in t.clients || !GrantRowOk(r.grant) then None
    else if exists d | d in t.edges :: d != id && t.edges[d].owner == r.owner && t.edges[d].name == r.name then None
    else Some(t.(edges := t.edges[id := r]))
  }

  function UpsertRelay(t: Tables, id: Id, r: RelayRecord): Option<Tables> {
    if r.qadPort.Some? && !(1 <= r.qadPort.value <= 65535) then None
    else if exists x | x in t.relays :: x != id && (t.relays[x].name == r.name || t.relays[x].url == r.url) then None
    else Some(t.(relays := t.relays[id := r]))
  }

  function UpsertInvite(t: Tables, r: InviteRecord, ownerColumn: Option<Id>): Option<Tables> {
    if !Referenced(r.managedBy, t.provisioners.Keys) || !Referenced(ownerColumn, t.clients.Keys) then None
    else if r.state.Pending? != r.terminalAt.None? then None
    else if r.requestId.Some? && exists i | i in t.invites ::
        i != r.invite.id && t.invites[i].record.requestId == r.requestId then None
    else Some(t.(invites := t.invites[r.invite.id := InviteRow(r, ownerColumn)]))
  }

  function UpsertTomb(t: Tables, id: Id, r: Tombstone): Option<Tables> {
    if !(0 < r.generation <= I64_MAX && 0 < r.revision <= I64_MAX) then None
    else Some(t.(tombs := t.tombs[id := r]))
  }

  /** Active names are unique; placeholders carry no unique name. */
  function UpsertProvisioner(t: Tables, id: Id, name: string): Option<Tables> {
    if exists p | p in t.provisioners :: p != id && t.provisioners[p].active && t.provisioners[p].name == name then None
    else Some(t.(provisioners := t.provisioners[id := ProvisionerRow(name, true)]))
  }

  function EnsurePlaceholder(t: Tables, p: Option<Id>): Tables {
    if p.None? || p.value in t.provisioners then t
    else t.(provisioners := t.provisioners[p.value := ProvisionerRow("deleted:" + p.value, false)])
  }

  function Deactivate(t: Tables, p: Id): Tables {
    if p in t.provisioners then t.(provisioners := t.provisioners[p := t.provisioners[p].(active := false)]) else t
  }

  /** Inactive provisioners nobody refers to are dropped; a reference would have been set to null by the delete. */
  function CollectProvisioners(t: Tables): Tables {
    var used := (set i | i in t.invites && t.invites[i].record.managedBy.Some? :: t.invites[i].record.managedBy.value) +
                (set c | c in t.clients && t.clients[c].managedBy.Some? :: t.clients[c].managedBy.value);
    var kept := map p | p in t.provisioners && (t.provisioners[p].active || p in used) :: t.provisioners[p];
    t.(provisioners := kept,
       invites := map i | i in t.invites ::
         if Referenced(t.invites[i].record.managedBy, t.provisioners.Keys - kept.Keys)
             && t.invites[i].record.managedBy.Some?
         then t.invites[i].(record := t.invites[i].record.(managedBy := None)) else t.invites[i])
  }

  /** The owner column a delta writes, whether or not that owner is registered. */
  function NamedOwner(r: InviteRecord): Option<Id> {
    if r.invite.kind.ForEdge? then Some(r.invite.kind.owner) else None
  }

  /** One change of a delta, as the statements that carry it out. */
  function Perform(t: Tables, c: StateChange, relayRevision: nat): Option<Tables> {
    match c
    case PutClient(id, r) => UpsertClient(EnsurePlaceholder(t, r.managedBy), id, r)
    case DeleteClient(id) => RemoveClient(t, id)
    case PutEdge(id, r) => UpsertEdge(t, id, r)
    case DeleteEdge(id) => Some(t.(edges := t.edges - {id}))
    case PutRelay(id, r) => UpsertRelay(t, id, r)
    case DeleteRelay(id) => Some(t.(relays := t.relays - {id}))
    case PutInvite(r) =>
      UpsertInvite(EnsurePlaceholder(t, r.managedBy), r, NamedOwner(r))
    case DeleteInvite(i) => Some(t.(invites := t.invites - {i}))
    case PutProvisioner(id, name) => UpsertProvisioner(t, id, name)
    case DeleteProvisioner(id) => Some(Deactivate(t, id))
    case PutTomb(id, r) => if r.revision > relayRevision then None else UpsertTomb(t, id, r)
    case DeleteTomb(id) => Some(t.(tombs := t.tombs - {id}))
  }

  // ---------- what statements mean to a reader ----------

  lemma PlaceholdersAreInvisible(t: Tables, p: Option<Id>)
    ensures Load(EnsurePlaceholder(t, p)) == Load(t)
  {}

  lemma RemovedClientLoads(t: Tables, id: Id)
    requires RemoveClient(t, id).Some?
    ensures Load(RemoveClient(t, id).value) == Load(t).(clients := t.clients - {id})
  {
    assert LoadInvites(RemoveClient(t, id).value.invites) == LoadInvites(t.invites);
  }

  lemma InviteLoads(t: Tables, r: InviteRecord, column: Option<Id>)
    requires UpsertInvite(t, r, column).Some?
    ensures Load(UpsertInvite(t, r, column).value) == Load(t).(invites := Load(t).invites[r.invite.id := r])
  {
    assert LoadInvites(UpsertInvite(t, r, column).value.invites) == LoadInvites(t.invites)[r.invite.id := r];
  }

  lemma ProvisionerLoads(t: Tables, id: Id, name: string)
    requires UpsertProvisioner(t, id, name).Some?
    ensures Load(UpsertProvisioner(t, id, name).value) == Load(t).(provisioners := Load(t).provisioners[id := name])
  {
    assert LoadProvisioners(UpsertProvisioner(t, id, name).value.provisioners) ==
        LoadProvisioners(t.provisioners)[id := name];
  }

  lemma DeactivatedLoads(t: Tables, id: Id)
    ensures Load(Deactivate(t, id)) == Load(t).(provisioners := Load(t).provisioners - {id})
  {
    assert LoadProvisioners(Deactivate(t, id).provisioners) == LoadProvisioners(t.provisioners) - {id};
  }

  /** Each statement changes what a reader loads exactly as the change does in memory. */
  lemma PerformedLoads(t: Tables, c: StateChange, relayRevision: nat)
    requires Perform(t, c, relayRevision).Some?
    ensures Load(Perform(t, c, relayRevision).value) == ApplyChange(Load(t), c)
  {
    match c
    case PutClient(_, r) => PlaceholdersAreInvisible(t, r.managedBy);
    case DeleteClient(id) => RemovedClientLoads(t, id);
    case PutInvite(r) =>
      PlaceholdersAreInvisible(t, r.managedBy);
      InviteLoads(EnsurePlaceholder(t, r.managedBy), r, NamedOwner(r));
    case DeleteInvite(i) => assert LoadInvites(t.invites - {i}) == LoadInvites(t.invites) - {i};
    case PutProvisioner(id, name) => ProvisionerLoads(t, id, name);
    case DeleteProvisioner(id) => DeactivatedLoads(t, id);
    case _ =>
  }

  lemma PerformedChecks(t: Tables, c: StateChange, relayRevision: nat)
    requires Perform(t, c, relayRevision).Some?
    ensures Perform(t, c, relayRevision).value.revision == t.revision
            && Perform(t, c, relayRevision).value.relayRevision == t.relayRevision
    ensures Perform(t, c, relayRevision).value.network == t.network
    ensures PassesChecks(StateDelta([c], Quiet))
  {}

  /** The statements of a delta, in order; None as soon as one fails. */
  function PerformAll(t: Tables, changes: seq<StateChange>, relayRevision: nat): Option<Tables> {
    if changes == [] then Some(t)
    else
      var before := PerformAll(t, changes[..|changes| - 1], relayRevision);
      if before.None? then None else Perform(before.value, changes[|changes| - 1], relayRevision)
  }

  lemma {:induction false} FailureIsFinal(t: Tables, changes: seq<StateChange>, relayRevision: nat, n: nat)
    requires n <= |changes| && PerformAll(t, changes[..n], relayRevision).None?
    ensures PerformAll(t, changes, relayRevision).None?
    decreases |changes| - n
  {
    if n == |changes| {
      assert changes[..n] == changes;
    } else {
      assert changes[..n + 1][..n] == changes[..n];
      FailureIsFinal(t, changes, relayRevision, n + 1);
    }
  }

  /** A delta's statements load to the folded delta, and leave the metadata row alone. */
  lemma {:induction false} PerformAllLoads(t: Tables, changes: seq<StateChange>, relayRevision: nat)
    requires PerformAll(t, changes, relayRevision).Some?
    ensures var t' := PerformAll(t, changes, relayRevision).value;
            && Load(t') == ApplyChanges(Load(t), changes)
            && t'.revision == t.revision && t'.relayRevision == t.relayRevision && t'.network == t.network
    ensures PassesChecks(StateDelta(changes, Quiet))
  {
    if changes != [] {
      var init, last := changes[..|changes| - 1], changes[|changes| - 1];
      PerformAllLoads(t, init, relayRevision);
      PerformedLoads(PerformAll(t, init, relayRevision).value, last, relayRevision);
      PerformedChecks(PerformAll(t, init, relayRevision).value, last, relayRevision);
      forall c | c in changes ensures PassesChecks(StateDelta([c], Quiet)) && c in [c] {
        if c in init { assert c in StateDelta(init, Quiet).changes; }
      }
    }
  }

  method RunChanges(t: Tables, changes: seq<StateChange>, relayRevision: nat) returns (r: Option<Tables>)
    ensures r == PerformAll(t, changes, relayRevision)
    ensures r.Some? ==>
              && Load(r.value) == ApplyChanges(Load(t), changes)
              && r.value.revision == t.revision && r.value.relayRevision == t.relayRevision
              && PassesChecks(StateDelta(changes, Quiet))
  {
    var tx := t;
    for i := 0 to |changes|
      invariant PerformAll(t, changes[..i], relayRevision) == Some(tx)
    {
      var after := Perform(tx, changes[i], relayRevision);
      assert changes[..i + 1][..i] == changes[..i];
      if after.None? {
        FailureIsFinal(t, changes, relayRevision, i + 1);
        return None;
      }
      tx := after.value;
    }
    assert changes[..|changes|] == changes;
    PerformAllLoads(t, changes, relayRevision);
    return Some(tx);
  }

  /** Collecting placeholders never disturbs an invitation, a client or an active provisioner. */
  lemma CollectionIsInvisible(t: Tables)
    ensures Load(CollectProvisioners(t)) == Load(t)
  {
    var t' := CollectProvisioners(t);
    assert LoadProvisioners(t'.provisioners) == LoadProvisioners(t.provisioners);
    forall i | i in t.invites ensures t'.invites[i] == t.invites[i] {}
    assert LoadInvites(t'.invites) == LoadInvites(t.invites);
  }

  /** A delta commits exactly when every statement holds and both counters stay in SQLite's range. */
  predicate Commits(t: Tables, d: StateDelta) {
    var s := Load(t);
    && PerformAll(t, d.changes, BumpedRelayRevision(s, d.publish)).Some?
    && BumpedRevision(s, d.publish) <= I64_MAX && 0 < BumpedRelayRevision(s, d.publish) <= I64_MAX
  }

  function AfterCommit(t: Tables, d: StateDelta): Tables
    requires Commits(t, d)
  {
    var s := Load(t);
    CollectProvisioners(PerformAll(t, d.changes, BumpedRelayRevision(s, d.publish)).value)
    .(revision := BumpedRevision(s, d.publish), relayRevision := BumpedRelayRevision(s, d.publish))
  }

  /** What a reader loads after a commit is the committed state. */
  lemma CommitLoads(t: Tables, d: StateDelta)
    requires Commits(t, d)
    ensures Load(AfterCommit(t, d)) == Committed(Load(t), d)
  {
    var relayRevision := BumpedRelayRevision(Load(t), d.publish);
    PerformAllLoads(t, d.changes, relayRevision);
    CollectionIsInvisible(PerformAll(t, d.changes, relayRevision).value);
  }
}
