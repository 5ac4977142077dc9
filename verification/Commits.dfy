/** Exactly when the database refuses what a handler has decided (crates/as-control/src/db.rs, schema.sql). */
module Commits {
  import opened Base
  import opened RelayApi
  import Auth = Authorization
  import opened Control
  import opened ControlProofs
  import opened Database
  import opened Schema

  /** Every committed delta leaves tables that meet every constraint of the schema. */
  lemma CommitKeepsConstraints(t: Tables, d: StateDelta)
    requires Constraints(t) && Commits(t, d)
    ensures Constraints(AfterCommit(t, d))
  {
    var relayRevision := BumpedRelayRevision(Load(t), d.publish);
    PerformAllKeeps(t, d.changes, relayRevision);
    CollectionKeeps(PerformAll(t, d.changes, relayRevision).value);
  }

  // ---------- when a commit is refused ----------

  lemma OneStatement(t: Tables, c: StateChange, relayRevision: nat)
    ensures PerformAll(t, [c], relayRevision) == Perform(t, c, relayRevision)
  {
    assert [c][..0] == [];
  }

  lemma TwoStatements(t: Tables, c: StateChange, d: StateChange, relayRevision: nat)
    ensures PerformAll(t, [c, d], relayRevision) ==
            if Perform(t, c, relayRevision).None? then None
                else Perform(Perform(t, c, relayRevision).value, d, relayRevision)
  {
    assert [c, d][..1] == [c];
    OneStatement(t, c, relayRevision);
  }

  lemma {:induction false} DeletionsSucceed(t: Tables, changes: seq<StateChange>, relayRevision: nat)
    requires forall c | c in changes :: c.DeleteInvite? || c.DeleteTomb?
    ensures PerformAll(t, changes, relayRevision).Some?
  {
    if changes != [] {
      assert changes[|changes| - 1] in changes;
      DeletionsSucceed(t, changes[..|changes| - 1], relayRevision);
    }
  }

  /** The owner an edge invitation names is registered. */
  predicate OwnerRegistered(s: ControlState, r: InviteRecord) {
    r.invite.kind.ForEdge? ==> r.invite.kind.owner in s.clients
  }

  predicate RequestIdFree(s: ControlState, r: InviteRecord) {
    r.requestId.Some? ==> forall i | i in s.invites :: s.invites[i].requestId != r.requestId
  }

  /** What the handlers do not check: an orphaned edge invitation, and a request id another manager has used. */
  predicate Writable(s: ControlState, m: Mutation) {
    match m
    case AddInvite(r) => OwnerRegistered(s, r) && RequestIdFree(s, r)
    case EndInvite(i, _) => i in s.invites && OwnerRegistered(s, s.invites[i])
    case Enroll(i, _, port, _) => i in s.invites && (s.invites[i].invite.kind.ForRelay? ==> PortOk(port))
    case SetQadPort(_, port) => PortOk(port)
    case _ => true
  }

  ghost predicate Succeeds(t: Tables, m: Mutation, clock: int)
    requires Guard(Load(t), m, clock)
  {
    var d := DeltaOf(Load(t), m, clock);
    PerformAll(t, d.changes, BumpedRelayRevision(Load(t), d.publish)).Some?
  }

  /** A kept invitation never clashes with its own request id; a new one clashes if anybody holds it. */
  lemma ClashMeansTaken(invites: map<string, InviteRow>, r: InviteRecord)
    requires RequestIdsOk(invites) && r.requestId.Some?
    requires r.invite.id in invites ==> r.requestId == invites[r.invite.id].record.requestId
    ensures (exists i | i in invites :: i != r.invite.id && invites[i].record.requestId == r.requestId) <==>
            r.invite.id !in invites && exists i | i in invites :: LoadInvites(invites)[i].requestId == r.requestId
  {
    assert forall i | i in invites :: LoadInvites(invites)[i] == invites[i].record;
  }

  /** Rewriting a kept invitation, or writing a new one, fails only on its owner or its request id. */
  lemma InviteWritten(t: Tables, r: InviteRecord, relayRevision: nat)
    requires RequestIdsOk(t.invites) && (r.state.Pending? <==> r.terminalAt.None?)
    requires r.invite.id in t.invites ==> r.requestId == t.invites[r.invite.id].record.requestId
    ensures Perform(t, PutInvite(r), relayRevision).Some? <==>
            OwnerRegistered(Load(t), r) && (r.invite.id in t.invites || RequestIdFree(Load(t), r))
  {
    if r.requestId.Some? { ClashMeansTaken(t.invites, r); }
  }

  /** A new node's row is refused only for its port: its names are free and its references hold. */
  lemma ClaimedClientWritten(t: Tables, e: Id, r: ClientRecord)
    requires ClientNamesOk(t.clients) && GrantRowOk(r.grant) && forall c | c in t.clients :: t.clients[c].name != r.name
    ensures UpsertClient(EnsurePlaceholder(t, r.managedBy), e, r).Some?
  {}

  lemma ClaimedEdgeWritten(t: Tables, e: Id, r: EdgeRecord)
    requires r.owner in t.clients && GrantRowOk(r.grant)
    requires forall d | d in t.edges :: !(t.edges[d].owner == r.owner && t.edges[d].name == r.name)
    ensures UpsertEdge(t, e, r).Some?
  {}

  lemma ClaimedRelayWritten(t: Tables, e: Id, r: RelayRecord)
    requires forall x | x in t.relays :: t.relays[x].name != r.name && t.relays[x].url != r.url
    ensures UpsertRelay(t, e, r).Some? <==> PortOk(r.qadPort)
  {}

  /** Nothing registered is in the way of the node a guarded claim writes. */
  ghost predicate NodeIsFree(s: ControlState, node: StateChange) {
    match node
    case PutClient(_, r) => GrantRowOk(r.grant) && forall c | c in s.clients :: s.clients[c].name != r.name
    case PutEdge(_, r) =>
      && r.owner in s.clients && GrantRowOk(r.grant)
      && forall d | d in s.edges :: !(s.edges[d].owner == r.owner && s.edges[d].name == r.name)
    case PutRelay(_, r) => forall x | x in s.relays :: s.relays[x].name != r.name && s.relays[x].url != r.url
    case _ => false
  }

  lemma ClaimedNodeIsFree(s: ControlState, m: Mutation, clock: int)
    requires m.Enroll? && Guard(s, m, clock) && s.revision < I64_MAX && PassesChecks(DeltaOf(s, m, clock))
    ensures var node := DeltaOf(s, m, clock).changes[0];
            && NodeIsFree(s, node)
            && (Writable(s, m) <==> (node.PutRelay? ==> PortOk(node.relay.qadPort)))
  {
    assert DeltaOf(s, m, clock).changes[0] in DeltaOf(s, m, clock).changes;
  }

  /** The statement that writes a claimed node; it leaves invitations and old clients alone. */
  lemma NodeIsWritten(t: Tables, node: StateChange)
    requires ClientNamesOk(t.clients) && NodeIsFree(Load(t), node)
    ensures var r := Perform(t, node, t.relayRevision);
            && (r.Some? <==> (node.PutRelay? ==> PortOk(node.relay.qadPort)))
            && (r.Some? ==> r.value.invites == t.invites && t.clients.Keys <= r.value.clients.Keys)
  {
    match node
    case PutClient(e, r) => ClaimedClientWritten(t, e, r);
    case PutEdge(e, r) => ClaimedEdgeWritten(t, e, r);
    case PutRelay(e, r) => ClaimedRelayWritten(t, e, r);
  }

  lemma EnrollSucceeds(t: Tables, m: Mutation, clock: int)
    requires Constraints(t) && m.Enroll? && Guard(Load(t), m, clock) && t.revision < I64_MAX
    requires PassesChecks(DeltaOf(Load(t), m, clock))
    ensures Succeeds(t, m, clock) <==> Writable(Load(t), m)
  {
    var d := DeltaOf(Load(t), m, clock);
    assert d.changes == [d.changes[0], d.changes[1]];
    TwoStatements(t, d.changes[0], d.changes[1], t.relayRevision);
    ClaimedNodeIsFree(Load(t), m, clock);
    NodeIsWritten(t, d.changes[0]);
    if Perform(t, d.changes[0], t.relayRevision).Some? {
      InviteWritten(Perform(t, d.changes[0], t.relayRevision).value, d.changes[1].record, t.relayRevision);
    }
  }

  lemma InviteChangesSucceed(t: Tables, m: Mutation, clock: int)
    requires Constraints(t) && (m.AddInvite? || m.EndInvite?) && Guard(Load(t), m, clock)
    ensures Succeeds(t, m, clock) <==> Writable(Load(t), m)
  {
    var d := DeltaOf(Load(t), m, clock);
    OneStatement(t, d.changes[0], t.relayRevision);
    InviteWritten(t, d.changes[0].record, t.relayRevision);
  }

  /** The tombstone a removal leaves is always in range. */
  lemma TombIsWritten(t: Tables, tombs: Tombs, e: Id, g: Auth.Grant, relayRevision: nat)
    requires TombRowsOk(tombs) && GrantRowOk(g) && relayRevision < I64_MAX
    ensures Perform(t, PutTomb(e, Auth.Bury(tombs, e, g, relayRevision)), relayRevision + 1).Some?
  {}

  lemma ClientRemovalSucceeds(t: Tables, m: Mutation, clock: int)
    requires Constraints(t) && m.DropClient? && Guard(Load(t), m, clock) && t.relayRevision < I64_MAX
    ensures Succeeds(t, m, clock)
  {
    var d := DeltaOf(Load(t), m, clock);
    TwoStatements(t, d.changes[0], d.changes[1], t.relayRevision + 1);
    TombIsWritten(Perform(t, d.changes[0], t.relayRevision + 1).value, t.tombs, m.id, t.clients[m.id].grant,
        t.relayRevision);
  }

  lemma EdgeRemovalSucceeds(t: Tables, m: Mutation, clock: int)
    requires Constraints(t) && m.DropEdge? && Guard(Load(t), m, clock) && t.relayRevision < I64_MAX
    ensures Succeeds(t, m, clock)
  {
    var d := DeltaOf(Load(t), m, clock);
    TwoStatements(t, d.changes[0], d.changes[1], t.relayRevision + 1);
    TombIsWritten(Perform(t, d.changes[0], t.relayRevision + 1).value, t.tombs, m.id, t.edges[m.id].grant,
        t.relayRevision);
  }

  lemma ProvisionerChangesSucceed(t: Tables, m: Mutation, clock: int)
    requires Guard(Load(t), m, clock) && (m.AddProvisioner? || m.DropProvisioner?)
    ensures Succeeds(t, m, clock)
  {
    OneStatement(t, DeltaOf(Load(t), m, clock).changes[0], t.relayRevision);
    assert forall p | p in t.provisioners && t.provisioners[p].active :: p in Load(t).provisioners;
  }

  lemma EdgeRewritesSucceed(t: Tables, m: Mutation, clock: int)
    requires Constraints(t) && Guard(Load(t), m, clock) && PassesChecks(DeltaOf(Load(t), m, clock))
    requires m.MoveEdge? || m.RenewEdge?
    ensures Succeeds(t, m, clock) <==> Writable(Load(t), m)
  {
    var d := DeltaOf(Load(t), m, clock);
    assert d.changes[0] in d.changes;
    OneStatement(t, d.changes[0], BumpedRelayRevision(Load(t), d.publish));
  }

  lemma RewritesSucceed(t: Tables, m: Mutation, clock: int)
    requires Constraints(t) && Guard(Load(t), m, clock) && PassesChecks(DeltaOf(Load(t), m, clock))
    requires m.DropRelay? || m.SetQadPort? || m.RenewClient?
    ensures Succeeds(t, m, clock) <==> Writable(Load(t), m)
  {
    var d := DeltaOf(Load(t), m, clock);
    assert d.changes[0] in d.changes;
    OneStatement(t, d.changes[0], BumpedRelayRevision(Load(t), d.publish));
  }

  lemma SweepSucceeds(t: Tables, m: Mutation, clock: int)
    requires m.Sweep? && Guard(Load(t), m, clock)
    ensures Succeeds(t, m, clock)
  {
    var d := DeltaOf(Load(t), m, clock);
    DeletionsSucceed(t, d.changes, BumpedRelayRevision(Load(t), d.publish));
  }

  /**
   * On tables that meet the schema, and with both counters in range, what a handler decided commits if and
   * only if it is writable: the database never refuses anything else.
   */
  lemma CommitsExactlyWhenWritable(t: Tables, m: Mutation, clock: int)
    requires Constraints(t) && Guard(Load(t), m, clock) && PassesChecks(DeltaOf(Load(t), m, clock))
    requires t.revision < I64_MAX && 0 < t.relayRevision < I64_MAX
    ensures Commits(t, DeltaOf(Load(t), m, clock)) <==> Writable(Load(t), m)
  {
    CommitsIfStatementsHold(t, m, clock);
    SucceedsExactlyWhenWritable(t, m, clock);
  }

  lemma CommitsIfStatementsHold(t: Tables, m: Mutation, clock: int)
    requires Guard(Load(t), m, clock) && t.revision < I64_MAX && 0 < t.relayRevision < I64_MAX
    ensures Commits(t, DeltaOf(Load(t), m, clock)) <==> Succeeds(t, m, clock)
  {}

  lemma SucceedsExactlyWhenWritable(t: Tables, m: Mutation, clock: int)
    requires Constraints(t) && Guard(Load(t), m, clock) && PassesChecks(DeltaOf(Load(t), m, clock))
    requires t.revision < I64_MAX && 0 < t.relayRevision < I64_MAX
    ensures Succeeds(t, m, clock) <==> Writable(Load(t), m)
  {
    match m
    case Enroll(_, _, _, _) => EnrollSucceeds(t, m, clock);
    case AddInvite(_) => InviteChangesSucceed(t, m, clock);
    case EndInvite(_, _) => InviteChangesSucceed(t, m, clock);
    case DropClient(_) => ClientRemovalSucceeds(t, m, clock);
    case DropEdge(_) => EdgeRemovalSucceeds(t, m, clock);
    case AddProvisioner(_, _) => ProvisionerChangesSucceed(t, m, clock);
    case DropProvisioner(_) => ProvisionerChangesSucceed(t, m, clock);
    case Sweep(_, _) => SweepSucceeds(t, m, clock);
    case MoveEdge(_, _) => EdgeRewritesSucceed(t, m, clock);
    case RenewEdge(_, _) => EdgeRewritesSucceed(t, m, clock);
    case _ => RewritesSucceed(t, m, clock);
  }

  // ---------- which requests the database refuses ----------

  /** The edge invitation a request writes names an owner who is not, or no longer, registered. */
  predicate Orphaned(s: ControlState, q: Request) {
    match q
    case AdminInvite(_, ForEdge(owner), _, _, _, _) => owner !in s.clients
    case AdminRevokeInvite(i) => i in s.invites && !OwnerRegistered(s, s.invites[i])
    case FromProvisioner(_, _, _, _, RevokeInvite(i), _) => i in s.invites && !OwnerRegistered(s, s.invites[i])
    case _ => false
  }

  /** A provisioner's new invitation carries a request id that is already on record. */
  predicate Collides(s: ControlState, q: Request) {
    && q.FromProvisioner? && (q.action.InviteClient? || q.action.InviteEdge?)
    && exists i | i in s.invites :: s.invites[i].requestId == Some(q.requestId)
  }

  /** Ports are 16-bit numbers. */
  predicate PortFits(q: Request) {
    (q.Claim? || q.ReportQad? ==> q.qadPort.Some? ==> q.qadPort.value <= 65535)
  }

  lemma ProvisionerWrites(s: ControlState, controlId: Id, q: Request, now: int)
    requires q.FromProvisioner? && PlanProvisioner(s, controlId, q, now).Do?
    ensures Writable(s, PlanProvisioner(s, controlId, q, now).mutation) <==> !Orphaned(s, q) && !Collides(s, q)
  {}

  lemma AdminWrites(s: ControlState, controlId: Id, q: Request, now: int)
    requires PlanAdmin(s, controlId, q, now).Do?
    ensures Writable(s, PlanAdmin(s, controlId, q, now).mutation) <==> !Orphaned(s, q)
  {}

  lemma WritableExactly(s: ControlState, controlId: Id, q: Request, now: int)
    requires Plan(s, controlId, q, now).Do? && PortFits(q)
    ensures Writable(s, Plan(s, controlId, q, now).mutation) <==> !Orphaned(s, q) && !Collides(s, q)
  {
    match q
    case FromProvisioner(_, _, _, _, _, _) => ProvisionerWrites(s, controlId, q, now);
    case Claim(_, _, _, _, _) =>
    case ClientEdgeInvite(_, _, _, _, _, _, _) =>
    case ClientEdgeRemove(_, _, _, _) =>
    case Watch(_, _) =>
    case ReportQad(_, _) =>
    case CleanUp(_, _) =>
    case _ => AdminWrites(s, controlId, q, now);
  }

  /** Before the end of time every credential outlives its issuance, and no delta fails a table check. */
  lemma ChecksPass(t: Tables, m: Mutation, clock: int)
    requires Constraints(t) && Guard(Load(t), m, clock) && clock < I64_MAX
    ensures PassesChecks(DeltaOf(Load(t), m, clock))
  {}

  /**
   * Of all that the handlers decide, the database refuses exactly orphaned edge invitations and colliding
   * request ids.
   */
  lemma RefusedExactly(t: Tables, controlId: Id, q: Request, now: int)
    requires Constraints(t) && t.revision < I64_MAX && 0 < t.relayRevision < I64_MAX && now < I64_MAX
    requires RequestOk(Load(t), q, now) && PortFits(q) && Plan(Load(t), controlId, q, now).Do?
    ensures var m := Plan(Load(t), controlId, q, now).mutation;
            && Guard(Load(t), m, now) && PassesChecks(DeltaOf(Load(t), m, now))
            && (Commits(t, DeltaOf(Load(t), m, now)) <==> !Orphaned(Load(t), q) && !Collides(Load(t), q))
  {
    var m := Plan(Load(t), controlId, q, now).mutation;
    PlansAreGuarded(Load(t), controlId, q, now);
    ChecksPass(t, m, now);
    WritableExactly(Load(t), controlId, q, now);
    CommitsExactlyWhenWritable(t, m, now);
  }

  /**
   * Orphans arise whenever a client is removed while an expired edge invitation of its own is still kept: the
   * administrator's removal goes through, and every later attempt to revoke that invitation is decided upon
   * by the handler and refused by the database.
   */
  lemma RemovalOrphansInvitations(s: ControlState, controlId: Id, name: string, i: string, now: int, later: int)
    requires InvitesOk(s) && Plan(s, controlId, AdminRemoveClient(name), now).Do?
    requires i in s.invites && s.invites[i].state.Pending?
    requires s.invites[i].invite.kind == ForEdge(Plan(s, controlId, AdminRemoveClient(name), now).mutation.id)
    ensures s.invites[i].invite.expiresAt < now
    ensures var removal := Plan(s, controlId, AdminRemoveClient(name), now).mutation;
            && Guard(s, removal, now)
            && var s' := Performed(s, removal, now);
               && Plan(s', controlId, AdminRevokeInvite(i), later) == Do(EndInvite(i, later), Acknowledged)
               && Orphaned(s', AdminRevokeInvite(i)) && !Writable(s', EndInvite(i, later))
  {
    var removal := Plan(s, controlId, AdminRemoveClient(name), now).mutation;
    AdminPlansAreGuarded(s, controlId, AdminRemoveClient(name), now);
    InvitesAfter(s, removal, now);
    ClientsAfter(s, removal, now);
    assert !ActivePending(s.invites[i], now);
  }
}
