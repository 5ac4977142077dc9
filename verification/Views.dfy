/** What endpoints and provisioners are shown, and how a request shows in the next view. */
module Views {
  import opened Base
  import opened RelayApi
  import Auth = Authorization
  import opened Control
  import opened ControlProofs
  import opened RequestEffects

  // ---------- what a map shows ----------

  /** A registered endpoint gets every Relay, the credential of its role, and its side of the ownership relation. */
  lemma MapShows(s: ControlState, controlId: Id, e: Id)
    ensures MapFor(s, controlId, e).Some? <==> e in s.clients || e in s.edges || e in s.relays
    ensures MapFor(s, controlId, e).Some? ==>
              var m := MapFor(s, controlId, e).value;
              && m.revision == s.revision && m.recipient == e && m.relays == s.relays
              && (m.credential.Some? <==> e in s.clients || e in s.edges)
              && (forall c :: c in m.allowedClients <==> e in s.edges && c == s.edges[e].owner)
              && (forall d :: d in m.edges <==>
                   e !in s.edges && e in s.clients && d in s.edges && s.edges[d].owner == e)
              && (forall d | d in m.edges :: m.edges[d] == EdgeInfo(s.edges[d].name, e, s.clients[e].name))
  {}

  // ---------- what a topology shows ----------

  /** A client is shown to exactly the provisioner that manages it, under its name, with exactly the edges it owns. */
  lemma ClientsShow(s: ControlState, p: Id, now: int, c: Id)
    ensures var shown := TopologyOf(s, p, now).clients;
            && (c in shown <==> c in s.clients && s.clients[c].managedBy == Some(p))
            && (c in shown ==> shown[c].name == s.clients[c].name)
            && (c in shown ==> forall d :: d in shown[c].edges <==> d in s.edges && s.edges[d].owner == c)
            && (c in shown ==> forall d | d in shown[c].edges :: shown[c].edges[d] == s.edges[d].name)
  {}

  /** An invitation is shown to exactly the provisioner that manages it, with the status it has by then. */
  lemma InvitationsShow(s: ControlState, p: Id, now: int, i: string)
    ensures var shown := TopologyOf(s, p, now).invites;
            && (i in shown <==> i in s.invites && s.invites[i].managedBy == Some(p))
            && (i in shown ==>
                  var v, r := shown[i], s.invites[i];
                  && v.name == r.invite.name && v.kind == r.invite.kind && v.expiresAt == r.invite.expiresAt
                  && (v.status == IsPending <==> r.state == Pending && now <= r.invite.expiresAt)
                  && (v.status == IsExpired <==> r.state == Pending && r.invite.expiresAt < now)
                  && (v.status == IsClaimed <==> r.state == Claimed)
                  && (v.status == IsRevoked <==> r.state == Withdrawn))
  {}

  // ---------- how requests show ----------

  lemma WithInvitation(invites: map<string, InviteRecord>, p: Id, seen: int, i: string, r: InviteRecord)
    requires r.managedBy == Some(p)
    ensures ManagedInvites(invites[i := r], p, seen) == ManagedInvites(invites, p, seen)[i := InfoOf(r, seen)]
  {}

  /** A committed invitation is the one new entry, pending until it expires. */
  lemma InviteShows(s: ControlState, controlId: Id, q: Request, now: int, seen: int, kind: InviteKind)
    requires ControlOk(s) && q.FromProvisioner? && (q.action.InviteClient? || q.action.InviteEdge?)
    requires Carried(s, controlId, q, now) && Targets(s, q, kind)
    ensures var t, t' := TopologyOf(s, q.provisioner, seen),
              TopologyOf(Resulting(s, controlId, q, now), q.provisioner, seen);
            var until := now + q.action.ttl;
            && q.freshId !in t.invites && t'.clients == t.clients
            && t'.invites == t.invites[q.freshId :=
                 InviteInfo(q.action.name, kind, until, if seen <= until then IsPending else IsExpired)]
  {
    ProvisionerInvites(s, controlId, q, now);
    var r := Plan(s, controlId, q, now).mutation.record;
    assert InvitationAdded(s, Resulting(s, controlId, q, now), r);
    WithInvitation(s.invites, q.provisioner, seen, q.freshId, r);
  }

  /** A committed revocation shows, and nothing else changes. */
  lemma RevocationShows(s: ControlState, controlId: Id, q: Request, now: int, seen: int)
    requires ControlOk(s) && q.FromProvisioner? && q.action.RevokeInvite? && Carried(s, controlId, q, now)
    ensures var t, t', i := TopologyOf(s, q.provisioner, seen),
              TopologyOf(Resulting(s, controlId, q, now), q.provisioner, seen), q.action.inviteId;
            && i in t.invites && t'.invites == t.invites[i := t.invites[i].(status := IsRevoked)]
            && t'.clients == t.clients
  {
    var i := q.action.inviteId;
    ProvisionerRevokes(s, controlId, q, now);
    WithInvitation(s.invites, q.provisioner, seen, i, Resulting(s, controlId, q, now).invites[i]);
  }

  lemma WithoutClient(clients: map<Id, ClientRecord>, edges: map<Id, EdgeRecord>, p: Id, c: Id)
    ensures ManagedClients(clients - {c}, edges, p) == ManagedClients(clients, edges, p) - {c}
  {}

  /** A removed client is gone from the view, and nothing else changes. */
  lemma ClientRemovalShows(s: ControlState, controlId: Id, q: Request, now: int, seen: int, c: Id)
    requires ControlOk(s) && q.FromProvisioner? && q.action.RemoveClient? && Carried(s, controlId, q, now)
    requires Manages(s, q.provisioner, c, q.action.name)
    ensures var t, t' := TopologyOf(s, q.provisioner, seen),
              TopologyOf(Resulting(s, controlId, q, now), q.provisioner, seen);
            c in t.clients && t' == t.(clients := t.clients - {c})
  {
    ProvisionerRemovesClient(s, controlId, q, now);
    assert ClientRemoved(s, Resulting(s, controlId, q, now), c);
    WithoutClient(s.clients, s.edges, q.provisioner, c);
  }

  /** Edges other than `e` show as before. */
  ghost predicate SameBut(shown: map<Id, ManagedClientInfo>, shown': map<Id, ManagedClientInfo>, e: Id) {
    && shown'.Keys == shown.Keys
    && forall c | c in shown ::
         shown'[c].name == shown[c].name && shown'[c].edges - {e} == shown[c].edges - {e}
  }

  lemma WithoutEdge(clients: map<Id, ClientRecord>, edges: map<Id, EdgeRecord>, p: Id, e: Id)
    ensures var shown, shown' := ManagedClients(clients, edges, p), ManagedClients(clients, edges - {e}, p);
            SameBut(shown, shown', e) && forall d | d in shown' :: e !in shown'[d].edges
  {
    forall c ensures EdgesOwned(edges - {e}, c) == EdgesOwned(edges, c) - {e} {}
  }

  lemma WithEdge(clients: map<Id, ClientRecord>, edges: map<Id, EdgeRecord>, p: Id, e: Id, r: EdgeRecord)
    ensures var shown, shown' := ManagedClients(clients, edges, p), ManagedClients(clients, edges[e := r], p);
            && SameBut(shown, shown', e)
            && (forall d | d in shown' :: e in shown'[d].edges <==> d == r.owner)
            && (r.owner in shown' ==> shown'[r.owner].edges[e] == r.name)
  {
    forall c ensures EdgesOwned(edges[e := r], c) - {e} == EdgesOwned(edges, c) - {e} {}
  }

  /** A removed edge is gone from its owner's entry, and nothing else changes. */
  lemma EdgeRemovalShows(s: ControlState, controlId: Id, q: Request, now: int, seen: int, c: Id, e: Id)
    requires ControlOk(s) && q.FromProvisioner? && q.action.RemoveEdge? && Carried(s, controlId, q, now)
    requires Manages(s, q.provisioner, c, q.action.owner) && IsEdge(s, e, c, q.action.name)
    ensures var t, t' := TopologyOf(s, q.provisioner, seen),
              TopologyOf(Resulting(s, controlId, q, now), q.provisioner, seen);
            && t'.invites == t.invites && SameBut(t.clients, t'.clients, e)
            && c in t.clients && e in t.clients[c].edges
            && forall d | d in t'.clients :: e !in t'.clients[d].edges
  {
    ProvisionerRemovesEdge(s, controlId, q, now);
    assert EdgeRemoved(s, Resulting(s, controlId, q, now), e);
    WithoutEdge(s.clients, s.edges, q.provisioner, e);
  }

  /** A transferred edge moves from one entry to the other under its name, and nothing else changes. */
  lemma TransferShows(s: ControlState, controlId: Id, q: Request, now: int, seen: int, from: Id, to: Id)
    requires ControlOk(s) && q.FromProvisioner? && q.action.TransferEdge? && Carried(s, controlId, q, now)
    requires BothManaged(s, q, from, to)
    ensures var t, t', e := TopologyOf(s, q.provisioner, seen),
              TopologyOf(Resulting(s, controlId, q, now), q.provisioner, seen), q.action.endpoint;
            && t'.invites == t.invites && SameBut(t.clients, t'.clients, e)
            && from in t.clients && e in t.clients[from].edges
            && (forall d | d in t'.clients :: e in t'.clients[d].edges <==> d == to)
            && to in t'.clients && t'.clients[to].edges[e] == q.action.name
  {
    var e := q.action.endpoint;
    ProvisionerTransfers(s, controlId, q, now);
    ManagedIs(s, q.provisioner, q.action.owner);
    assert Transferred(s, Resulting(s, controlId, q, now), e, to);
    WithEdge(s.clients, s.edges, q.provisioner, e, s.edges[e].(owner := to));
  }

  lemma WithClient(clients: map<Id, ClientRecord>, edges: map<Id, EdgeRecord>, p: Id, c: Id, r: ClientRecord)
    requires r.managedBy == Some(p) && forall d | d in edges :: edges[d].owner != c
    ensures ManagedClients(clients[c := r], edges, p) ==
            ManagedClients(clients, edges, p)[c := ManagedClientInfo(r.name, map[])]
  {
    assert EdgesOwned(edges, c) == map[];
  }

  /**
   * Whoever joins as a client on a provisioner's invitation shows there without edges, and the invitation as
   * claimed.
   */
  lemma JoiningShows(s: ControlState, controlId: Id, q: Request, now: int, seen: int, p: Id)
    requires ControlOk(s) && q.Claim? && Carried(s, controlId, q, now) && q.token.kind == ForClient
    requires q.token.id in s.invites && s.invites[q.token.id].managedBy == Some(p)
    ensures var t, t', i := TopologyOf(s, p, seen), TopologyOf(Resulting(s, controlId, q, now), p, seen), q.token.id;
            && q.endpoint !in t.clients
            && t'.clients == t.clients[q.endpoint := ManagedClientInfo(q.token.name, map[])]
            && i in t.invites && t'.invites == t.invites[i := t.invites[i].(status := IsClaimed)]
  {
    var i, e := q.token.id, q.endpoint;
    Joins(s, controlId, q, now);
    var s' := Resulting(s, controlId, q, now);
    assert Registered(s, s', i, e, q.qadPort, q.at);
    WithClient(s.clients, s.edges, p, e, s'.clients[e]);
    WithInvitation(s.invites, p, seen, i, s'.invites[i]);
  }
}
