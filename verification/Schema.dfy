/** The constraints of Control's schema (crates/as-control/src/schema.sql), and that every statement keeps them. */
module Schema {
  import opened Base
  import opened RelayApi
  import opened Control
  import opened ControlProofs
  import opened Database

  predicate PortOk(port: Option<nat>) { port.Some? ==> 1 <= port.value <= 65535 }

  predicate TombRowOk(t: Tombstone) { 0 < t.generation <= I64_MAX && 0 < t.revision <= I64_MAX }

  // ---------- the schema's constraints, table by table ----------

  ghost predicate ClientRowsOk(clients: map<Id, ClientRecord>, provisioners: set<Id>) {
    && ClientNamesOk(clients)
    && forall c | c in clients :: Referenced(clients[c].managedBy, provisioners) && GrantRowOk(clients[c].grant)
  }

  ghost predicate EdgeRowsOk(edges: map<Id, EdgeRecord>, clients: set<Id>) {
    EdgeNamesOk(edges) && forall d | d in edges :: edges[d].owner in clients && GrantRowOk(edges[d].grant)
  }

  ghost predicate RelayRowsOk(relays: map<Id, RelayRecord>) {
    RelayNamesOk(relays) && forall r | r in relays :: PortOk(relays[r].qadPort)
  }

  ghost predicate RequestIdsOk(invites: map<string, InviteRow>) {
    forall i, j | i in invites && j in invites && i != j && invites[i].record.requestId.Some? ::
      invites[i].record.requestId != invites[j].record.requestId
  }

  ghost predicate InviteRowsOk(invites: map<string, InviteRow>, provisioners: set<Id>, clients: set<Id>) {
    && RequestIdsOk(invites)
    && forall i | i in invites ::
         && invites[i].record.invite.id == i
         && Referenced(invites[i].record.managedBy, provisioners) && Referenced(invites[i].ownerColumn, clients)
         && (invites[i].record.state.Pending? <==> invites[i].record.terminalAt.None?)
  }

  ghost predicate ProvisionerRowsOk(rows: map<Id, ProvisionerRow>) {
    forall p, q | p in rows && q in rows && p != q && rows[p].active && rows[q].active :: rows[p].name != rows[q].name
  }

  ghost predicate TombRowsOk(tombs: Tombs) { forall e | e in tombs :: TombRowOk(tombs[e]) }

  ghost predicate Constraints(t: Tables) {
    && ClientRowsOk(t.clients, t.provisioners.Keys) && EdgeRowsOk(t.edges, t.clients.Keys) && RelayRowsOk(t.relays)
    && InviteRowsOk(t.invites, t.provisioners.Keys, t.clients.Keys)
    && ProvisionerRowsOk(t.provisioners) && TombRowsOk(t.tombs)
  }

  /** The same constraints, read off a loaded state. */
  ghost predicate Consistent(s: ControlState) {
    && NamesOk(s) && OwnersOk(s)
    && (forall c | c in s.clients :: GrantRowOk(s.clients[c].grant))
    && (forall d | d in s.edges :: GrantRowOk(s.edges[d].grant))
    && (forall r | r in s.relays :: PortOk(s.relays[r].qadPort))
    && (forall e | e in s.tombs :: TombRowOk(s.tombs[e]))
    && InvitesConsistent(s.invites)
  }

  ghost predicate InvitesConsistent(invites: map<string, InviteRecord>) {
    && (forall i | i in invites ::
         invites[i].invite.id == i && (invites[i].state.Pending? <==> invites[i].terminalAt.None?))
    && (forall i, j | i in invites && j in invites && i != j && invites[i].requestId.Some? ::
          invites[i].requestId != invites[j].requestId)
  }

  lemma ConstraintsAreConsistent(t: Tables)
    requires Constraints(t)
    ensures Consistent(Load(t))
  {
    var s := Load(t);
    assert forall i | i in t.invites :: s.invites[i] == t.invites[i].record;
    assert forall p | p in s.provisioners :: t.provisioners[p].active && t.provisioners[p].name == s.provisioners[p];
  }

  // ---------- every statement keeps them ----------

  lemma PlaceholderKeeps(t: Tables, p: Option<Id>)
    requires Constraints(t)
    ensures Constraints(EnsurePlaceholder(t, p))
  {}

  lemma RemovedClientKeeps(t: Tables, id: Id)
    requires Constraints(t) && Database.RemoveClient(t, id).Some?
    ensures Constraints(Database.RemoveClient(t, id).value)
  {}

  lemma ClientRowKeeps(t: Tables, id: Id, r: ClientRecord)
    requires ClientRowsOk(t.clients, t.provisioners.Keys) && UpsertClient(t, id, r).Some?
    ensures ClientRowsOk(UpsertClient(t, id, r).value.clients, t.provisioners.Keys)
  {}

  lemma ClientKeeps(t: Tables, id: Id, r: ClientRecord)
    requires Constraints(t) && UpsertClient(t, id, r).Some?
    ensures Constraints(UpsertClient(t, id, r).value)
  {}

  lemma EdgeRowKeeps(t: Tables, id: Id, r: EdgeRecord)
    requires EdgeRowsOk(t.edges, t.clients.Keys) && UpsertEdge(t, id, r).Some?
    ensures EdgeRowsOk(UpsertEdge(t, id, r).value.edges, t.clients.Keys)
  {}

  lemma EdgeKeeps(t: Tables, id: Id, r: EdgeRecord)
    requires Constraints(t) && UpsertEdge(t, id, r).Some?
    ensures Constraints(UpsertEdge(t, id, r).value)
  {}

  lemma RelayRowKeeps(t: Tables, id: Id, r: RelayRecord)
    requires RelayRowsOk(t.relays) && UpsertRelay(t, id, r).Some?
    ensures RelayRowsOk(UpsertRelay(t, id, r).value.relays)
  {}

  lemma RelayKeeps(t: Tables, id: Id, r: RelayRecord)
    requires Constraints(t) && UpsertRelay(t, id, r).Some?
    ensures Constraints(UpsertRelay(t, id, r).value)
  {}

  lemma TombRowKeeps(t: Tables, id: Id, r: Tombstone)
    requires TombRowsOk(t.tombs) && UpsertTomb(t, id, r).Some?
    ensures TombRowsOk(UpsertTomb(t, id, r).value.tombs)
  {}

  lemma TombKeeps(t: Tables, id: Id, r: Tombstone)
    requires Constraints(t) && UpsertTomb(t, id, r).Some?
    ensures Constraints(UpsertTomb(t, id, r).value)
  {}

  lemma ProvisionerRowKeeps(t: Tables, id: Id, name: string)
    requires ProvisionerRowsOk(t.provisioners) && UpsertProvisioner(t, id, name).Some?
    ensures ProvisionerRowsOk(UpsertProvisioner(t, id, name).value.provisioners)
  {}

  lemma ProvisionerKeeps(t: Tables, id: Id, name: string)
    requires Constraints(t) && UpsertProvisioner(t, id, name).Some?
    ensures Constraints(UpsertProvisioner(t, id, name).value)
  {}

  lemma InviteRowKeeps(t: Tables, r: InviteRecord, column: Option<Id>)
    requires InviteRowsOk(t.invites, t.provisioners.Keys, t.clients.Keys) && UpsertInvite(t, r, column).Some?
    ensures InviteRowsOk(UpsertInvite(t, r, column).value.invites, t.provisioners.Keys, t.clients.Keys)
  {}

  lemma InviteKeeps(t: Tables, r: InviteRecord, column: Option<Id>)
    requires Constraints(t) && UpsertInvite(t, r, column).Some?
    ensures Constraints(UpsertInvite(t, r, column).value)
  {}

  lemma DeactivationKeeps(t: Tables, p: Id)
    requires Constraints(t)
    ensures Constraints(Deactivate(t, p))
  {}

  /** Deleting rows nobody refers to. */
  lemma DeletionKeeps(t: Tables, invites: set<string>, edges: set<Id>, relays: set<Id>, tombs: set<Id>)
    requires Constraints(t)
    ensures Constraints(t.(invites := t.invites - invites, edges := t.edges - edges,
                           relays := t.relays - relays, tombs := t.tombs - tombs))
  {}

  lemma PerformKeeps(t: Tables, c: StateChange, relayRevision: nat)
    requires Constraints(t) && Perform(t, c, relayRevision).Some?
    ensures Constraints(Perform(t, c, relayRevision).value)
  {
    match c
    case PutClient(id, r) =>
      PlaceholderKeeps(t, r.managedBy);
      ClientKeeps(EnsurePlaceholder(t, r.managedBy), id, r);
    case DeleteClient(id) => RemovedClientKeeps(t, id);
    case PutEdge(id, r) => EdgeKeeps(t, id, r);
    case PutRelay(id, r) => RelayKeeps(t, id, r);
    case PutInvite(r) =>
      PlaceholderKeeps(t, r.managedBy);
      InviteKeeps(EnsurePlaceholder(t, r.managedBy), r, NamedOwner(r));
    case PutProvisioner(id, name) => ProvisionerKeeps(t, id, name);
    case DeleteProvisioner(id) => DeactivationKeeps(t, id);
    case PutTomb(id, r) => TombKeeps(t, id, r);
    case _ =>
  }

  lemma {:induction false} PerformAllKeeps(t: Tables, changes: seq<StateChange>, relayRevision: nat)
    requires Constraints(t) && PerformAll(t, changes, relayRevision).Some?
    ensures Constraints(PerformAll(t, changes, relayRevision).value)
  {
    if changes != [] {
      var init := changes[..|changes| - 1];
      PerformAllKeeps(t, init, relayRevision);
      PerformKeeps(PerformAll(t, init, relayRevision).value, changes[|changes| - 1], relayRevision);
    }
  }

  lemma CollectionKeeps(t: Tables)
    requires Constraints(t)
    ensures Constraints(CollectProvisioners(t))
  {
    var t' := CollectProvisioners(t);
    forall i | i in t.invites ensures t'.invites[i] == t.invites[i] {}
    assert t'.invites == t.invites;
  }
}
