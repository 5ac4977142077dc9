/** Properties of single Control requests: partitions, ownership and invitations. */
module ControlTheorems {
  import opened Base
  import opened RelayApi
  import opened Control
  import opened ControlProofs

  /** A mutation that touches nothing of `p` leaves p's topology view exactly as it was. */
  ghost predicate Spares(s: ControlState, m: Mutation, p: Id) {
    match m
    case AddInvite(r) => r.managedBy != Some(p)
    case EndInvite(i, _) => i in s.invites && s.invites[i].managedBy != Some(p)
    case DropClient(c) => c in s.clients && s.clients[c].managedBy != Some(p)
    case DropEdge(d) =>
        d in s.edges && s.edges[d].owner in s.clients && s.clients[s.edges[d].owner].managedBy != Some(p)
    case MoveEdge(d, owner) =>
      && d in s.edges && s.edges[d].owner in s.clients && s.clients[s.edges[d].owner].managedBy != Some(p)
      && owner in s.clients && s.clients[owner].managedBy != Some(p)
    case _ => false
  }

  lemma SparedEdges(s: ControlState, m: Mutation, clock: int, p: Id, c: Id)
    requires Guard(s, m, clock) && Spares(s, m, p) && c in s.clients && s.clients[c].managedBy == Some(p)
    ensures EdgesOwned(Performed(s, m, clock).edges, c) == EdgesOwned(s.edges, c)
  {
    EdgesAfter(s, m, clock);
  }

  lemma SparedClients(s: ControlState, m: Mutation, clock: int, p: Id)
    requires Guard(s, m, clock) && Spares(s, m, p)
    ensures var s' := Performed(s, m, clock);
            ManagedClients(s'.clients, s'.edges, p) == ManagedClients(s.clients, s.edges, p)
  {
    ClientsAfter(s, m, clock);
    forall c | c in s.clients && s.clients[c].managedBy == Some(p)
      ensures EdgesOwned(Performed(s, m, clock).edges, c) == EdgesOwned(s.edges, c)
    {
      SparedEdges(s, m, clock, p, c);
    }
  }

  lemma SparedInvites(s: ControlState, m: Mutation, clock: int, p: Id, seen: int)
    requires InvitesOk(s) && Guard(s, m, clock) && Spares(s, m, p)
    ensures ManagedInvites(Performed(s, m, clock).invites, p, seen) == ManagedInvites(s.invites, p, seen)
  {
    InvitesAfter(s, m, clock);
  }

  /** A provisioner's plan only ever touches what that provisioner manages. */
  lemma PlansSpareOthers(s: ControlState, controlId: Id, q: Request, now: int, other: Id)
    requires OwnersOk(s) && q.FromProvisioner? && other != q.provisioner
    requires PlanProvisioner(s, controlId, q, now).Do?
    ensures Spares(s, PlanProvisioner(s, controlId, q, now).mutation, other)
  {}

  /** Whatever one provisioner asks for, every other provisioner sees the same topology before and after. */
  lemma ProvisionersAreIsolated(s: ControlState, controlId: Id, q: Request, now: int, other: Id, seen: int)
    requires ControlOk(s) && RequestOk(s, q, now) && q.FromProvisioner? && other != q.provisioner
    requires Plan(s, controlId, q, now).Do?
    ensures Guard(s, Plan(s, controlId, q, now).mutation, now)
    ensures TopologyOf(Performed(s, Plan(s, controlId, q, now).mutation, now), other, seen) ==
            TopologyOf(s, other, seen)
  {
    PlansAreGuarded(s, controlId, q, now);
    PlansSpareOthers(s, controlId, q, now, other);
    SparedClients(s, Plan(s, controlId, q, now).mutation, now, other);
    SparedInvites(s, Plan(s, controlId, q, now).mutation, now, other, seen);
  }

  /**
   * Ownership is symmetric: for a client without an edge role, its map lists an edge exactly when
   * that edge's map allows this client and nobody else. A client that is also an edge gets the
   * edge's map, so the rule fails for it exactly when it owns edges.
   */
  lemma OwnershipIsSymmetricExactly(s: ControlState, controlId: Id, c: Id)
    requires c in s.clients
    ensures MapFor(s, controlId, c).Some?
    ensures (forall d | d in s.edges :: d in MapFor(s, controlId, c).value.edges <==>
                                        MapFor(s, controlId, d).value.allowedClients == [c])
            <==> (c !in s.edges || forall d | d in s.edges :: s.edges[d].owner != c)
  {
    if c in s.edges && exists d :: d in s.edges && s.edges[d].owner == c {
      var d :| d in s.edges && s.edges[d].owner == c;
      assert MapFor(s, controlId, d).value.allowedClients == [c] && d !in MapFor(s, controlId, c).value.edges;
    }
  }

  /** What identifies an invitation and its request. */
  ghost predicate SameInvitation(a: InviteRecord, b: InviteRecord) {
    a.invite == b.invite && a.requestId == b.requestId && a.managedBy == b.managedBy && a.requestHash == b.requestHash
  }

  /** An invitation is kept, swept, or moved once from pending to claimed or revoked. */
  lemma InvitationMovesOnce(s: ControlState, m: Mutation, clock: int, i: string)
    requires InvitesOk(s) && Guard(s, m, clock) && i in s.invites
    ensures var s' := Performed(s, m, clock);
            i in s'.invites ==>
              && SameInvitation(s'.invites[i], s.invites[i])
              && (s'.invites[i] == s.invites[i] || (s.invites[i].state.Pending? && !s'.invites[i].state.Pending?))
    ensures i !in Performed(s, m, clock).invites ==> i in StaleInvites(s, clock)
  {
    InvitesAfter(s, m, clock);
  }
}
