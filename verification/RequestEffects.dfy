/**
 * What every request to Control does: when it is carried out, when it is only answered, and the state it leads to,
 * in terms of the registered records and their names.
 */
module RequestEffects {
  import opened Base
  import opened RelayApi
  import Auth = Authorization
  import opened Control
  import opened ControlProofs

  // ---------- what may be written in a request ----------

  // ASCII codes; dash, dot and underscore are 45, 46 and 95.
  const DIGITS: set<int> := {48, 49, 50, 51, 52, 53, 54, 55, 56, 57}
  const CAPITALS: set<int> := {
    65, 66, 67, 68, 69, 70, 71, 72, 73, 74, 75, 76, 77, 78, 79, 80, 81, 82, 83, 84, 85, 86, 87, 88, 89, 90}
  const SMALL: set<int> := {
    97, 98, 99, 100, 101, 102, 103, 104, 105, 106, 107, 108, 109, 110, 111, 112, 113, 114, 115, 116, 117, 118, 119,
    120, 121, 122}

  const NAME_CODES: set<int> := DIGITS + CAPITALS + SMALL + {45, 46, 95}

  lemma DigitsAre(n: int)
    ensures 48 <= n <= 57 <==> n in DIGITS
  {}

  lemma CapitalsAre(n: int)
    ensures 65 <= n <= 90 <==> n in CAPITALS
  {}

  lemma SmallAre(n: int)
    ensures 97 <= n <= 122 <==> n in SMALL
  {}

  lemma NameCharIs(c: char)
    ensures IsNameChar(c) <==> c as int in NAME_CODES
    ensures c as int == 46 <==> c == '.'
    ensures c as int == 58 <==> c == ':'
    ensures c as int == 47 <==> c == '/'
  {
    DigitsAre(c as int);
    CapitalsAre(c as int);
    SmallAre(c as int);
  }

  /** What names, secrets and request ids may consist of; a secret has no dot, a request id may have `:` and `/`. */
  lemma WordsAre(word: string)
    ensures ValidName(word) <==> 1 <= |word| <= 64 && forall i | 0 <= i < |word| :: word[i] as int in NAME_CODES
    ensures ValidSecret(word) <==>
            32 <= |word| <= 128 && forall i | 0 <= i < |word| :: word[i] as int in NAME_CODES - {46}
    ensures ValidRequestId(word) <==>
            1 <= |word| <= 128 && forall i | 0 <= i < |word| :: word[i] as int in NAME_CODES + {58, 47}
  {
    forall i | 0 <= i < |word|
      ensures IsNameChar(word[i]) <==> word[i] as int in NAME_CODES
      ensures word[i] as int in NAME_CODES - {46} <==> IsNameChar(word[i]) && word[i] != '.'
      ensures word[i] as int in NAME_CODES + {58, 47} <==> IsNameChar(word[i]) || word[i] == ':' || word[i] == '/'
    {
      NameCharIs(word[i]);
    }
  }

  // ---------- who and what ----------

  predicate IsClient(s: ControlState, c: Id, name: string) { c in s.clients && s.clients[c].name == name }

  predicate Manages(s: ControlState, p: Id, c: Id, name: string) {
    IsClient(s, c, name) && s.clients[c].managedBy == Some(p)
  }

  predicate IsEdge(s: ControlState, e: Id, owner: Id, name: string) {
    e in s.edges && s.edges[e].owner == owner && s.edges[e].name == name
  }

  /** The client owns no edge and no edge invitation that could still be claimed. */
  predicate Unencumbered(s: ControlState, c: Id, now: int) {
    && (forall d | d in s.edges :: s.edges[d].owner != c)
    && (forall i | i in s.invites ::
          !(s.invites[i].state.Pending? && now <= s.invites[i].invite.expiresAt
            && s.invites[i].invite.kind == ForEdge(c)))
  }

  /** The provisioner may ask: it is registered, and its request is well formed and for this network. */
  predicate Entitled(s: ControlState, q: Request)
    requires q.FromProvisioner?
  {
    ValidRequestId(q.requestId) && q.audience == s.network.audience && q.provisioner in s.provisioners
  }

  predicate ExpectationMet(s: ControlState, q: Request)
    requires q.FromProvisioner?
  {
    q.expected.None? || q.expected == Some(s.revision)
  }

  // ---------- what can happen to the state ----------

  predicate Transferred(s: ControlState, s': ControlState, e: Id, owner: Id) {
    && e in s.edges
    && s' == s.(revision := s.revision + 1, edges := s.edges[e := s.edges[e].(owner := owner)])
  }

  /** The tombstone of `e` now covers the grant and whatever it covered before; no other tombstone changed. */
  predicate Buries(before: Tombs, after: Tombs, e: Id, g: Auth.Grant, revision: nat) {
    && after.Keys == before.Keys + {e} && after - {e} == before - {e}
    && after[e].revision == revision
    && after[e].generation == (if e in before && before[e].generation > g.generation
                               then before[e].generation else g.generation)
    && after[e].expiresAt == (if e in before && before[e].expiresAt > g.expiresAt
                              then before[e].expiresAt else g.expiresAt)
  }

  predicate ClientRemoved(s: ControlState, s': ControlState, c: Id) {
    && c in s.clients && Buries(s.tombs, s'.tombs, c, s.clients[c].grant, s.relayRevision + 1)
    && s' == s.(revision := s.revision + 1, relayRevision := s.relayRevision + 1, clients := s.clients - {c},
                tombs := s'.tombs)
  }

  predicate EdgeRemoved(s: ControlState, s': ControlState, e: Id) {
    && e in s.edges && Buries(s.tombs, s'.tombs, e, s.edges[e].grant, s.relayRevision + 1)
    && s' == s.(revision := s.revision + 1, relayRevision := s.relayRevision + 1, edges := s.edges - {e},
                tombs := s'.tombs)
  }

  predicate InvitationRevoked(s: ControlState, s': ControlState, i: string, now: int) {
    && i in s.invites
    && s' == s.(revision := s.revision + 1,
                invites := s.invites[i := s.invites[i].(state := Withdrawn, terminalAt := Some(now))])
  }

  predicate InvitationAdded(s: ControlState, s': ControlState, r: InviteRecord) {
    && r.invite.id !in s.invites && r.state == Pending && r.claimedBy == None && r.terminalAt == None
    && s' == s.(revision := s.revision + 1, invites := s.invites[r.invite.id := r])
  }

  /** A grant of seven days from `at`. */
  function Week(generation: nat, at: int): Auth.Grant { Auth.Grant(generation, at, SatAdd(at, 604800)) }

  /** The endpoint is registered as the invitation says, under the next revision, and the invitation is claimed. */
  predicate Registered(s: ControlState, s': ControlState, i: string, e: Id, port: Option<nat>, at: int) {
    && i in s.invites
    && var r := s.invites[i];
       var claimed := s.(revision := s.revision + 1,
         invites := s.invites[i := r.(state := Claimed, claimedBy := Some(e), terminalAt := Some(at))]);
       s' == match r.invite.kind
             case ForClient =>
               claimed.(clients := s.clients[e :=
                 ClientRecord(r.invite.name, r.managedBy, Week(s.revision + 1, at))])
             case ForEdge(owner) =>
               claimed.(edges := s.edges[e := EdgeRecord(r.invite.name, owner, Week(s.revision + 1, at))])
             case ForRelay(url) => claimed.(relays := s.relays[e := RelayRecord(r.invite.name, url, port)])
  }

  // ---------- carried out ----------

  ghost predicate Carried(s: ControlState, controlId: Id, q: Request, now: int) {
    RequestOk(s, q, now) && Plan(s, controlId, q, now).Do?
  }

  /** The request is answered although nothing needs to be done. */
  ghost predicate Answered(s: ControlState, controlId: Id, q: Request, now: int) {
    Plan(s, controlId, q, now).Reply?
  }

  /** The state the request leads to. */
  ghost function Resulting(s: ControlState, controlId: Id, q: Request, now: int): ControlState {
    if !Carried(s, controlId, q, now) then s
    else
      PlansAreGuarded(s, controlId, q, now);
      Performed(s, Plan(s, controlId, q, now).mutation, now)
  }

  lemma ResultIs(s: ControlState, controlId: Id, q: Request, now: int)
    requires Carried(s, controlId, q, now)
    ensures Guard(s, Plan(s, controlId, q, now).mutation, now)
    ensures Resulting(s, controlId, q, now) == Performed(s, Plan(s, controlId, q, now).mutation, now)
  {
    PlansAreGuarded(s, controlId, q, now);
  }

  // ---------- what each decision leads to ----------

  lemma Moves(s: ControlState, e: Id, owner: Id, now: int)
    requires Guard(s, MoveEdge(e, owner), now)
    ensures Transferred(s, Performed(s, MoveEdge(e, owner), now), e, owner)
  {
    Effect(s, MoveEdge(e, owner), now);
  }

  lemma DropsClient(s: ControlState, c: Id, now: int)
    requires Guard(s, DropClient(c), now)
    ensures ClientRemoved(s, Performed(s, DropClient(c), now), c)
  {
    Effect(s, DropClient(c), now);
  }

  lemma DropsEdge(s: ControlState, e: Id, now: int)
    requires Guard(s, DropEdge(e), now)
    ensures EdgeRemoved(s, Performed(s, DropEdge(e), now), e)
  {
    Effect(s, DropEdge(e), now);
  }

  lemma Revokes(s: ControlState, i: string, now: int)
    requires InvitesOk(s) && Guard(s, EndInvite(i, now), now)
    ensures InvitationRevoked(s, Performed(s, EndInvite(i, now), now), i, now)
  {
    Effect(s, EndInvite(i, now), now);
  }

  lemma Adds(s: ControlState, r: InviteRecord, now: int)
    requires Guard(s, AddInvite(r), now)
    ensures InvitationAdded(s, Performed(s, AddInvite(r), now), r)
  {
    Effect(s, AddInvite(r), now);
  }

  lemma Registers(s: ControlState, i: string, e: Id, port: Option<nat>, at: int, now: int)
    requires InvitesOk(s) && Guard(s, Enroll(i, e, port, at), now)
    ensures Registered(s, Performed(s, Enroll(i, e, port, at), now), i, e, port, at)
  {
    Effect(s, Enroll(i, e, port, at), now);
  }

  lemma RenewsClient(s: ControlState, c: Id, at: int, now: int)
    requires Guard(s, RenewClient(c, at), now)
    ensures Performed(s, RenewClient(c, at), now) ==
            s.(clients := s.clients[c := s.clients[c].(grant := Week(s.clients[c].grant.generation, at))])
  {
    Effect(s, RenewClient(c, at), now);
  }

  lemma RenewsEdge(s: ControlState, e: Id, at: int, now: int)
    requires Guard(s, RenewEdge(e, at), now)
    ensures Performed(s, RenewEdge(e, at), now) ==
            s.(edges := s.edges[e := s.edges[e].(grant := Week(s.edges[e].grant.generation, at))])
  {
    Effect(s, RenewEdge(e, at), now);
  }

  lemma ChangesRelay(s: ControlState, r: Id, port: Option<nat>, now: int)
    requires r in s.relays
    ensures Performed(s, SetQadPort(r, port), now) ==
            s.(revision := s.revision + 1, relays := s.relays[r := s.relays[r].(qadPort := port)])
    ensures Performed(s, DropRelay(r), now) ==
            s.(revision := s.revision + 1, relayRevision := s.relayRevision + 1, relays := s.relays - {r})
  {
    Effect(s, SetQadPort(r, port), now);
    Effect(s, DropRelay(r), now);
  }

  lemma AddsProvisioner(s: ControlState, p: Id, name: string, now: int)
    requires Guard(s, AddProvisioner(p, name), now)
    ensures Performed(s, AddProvisioner(p, name), now) ==
            s.(revision := s.revision + 1, provisioners := s.provisioners[p := name])
  {
    Effect(s, AddProvisioner(p, name), now);
  }

  lemma DropsProvisioner(s: ControlState, p: Id, now: int)
    requires Guard(s, DropProvisioner(p), now)
    ensures Performed(s, DropProvisioner(p), now) ==
            s.(revision := s.revision + 1, provisioners := s.provisioners - {p})
  {
    Effect(s, DropProvisioner(p), now);
  }

  // ---------- lookups by name ----------

  lemma ManagedIs(s: ControlState, p: Id, name: string)
    requires NamesOk(s)
    ensures forall c :: Manages(s, p, c, name) <==> ManagedClient(s, name, p) == Some(c)
  {}

  lemma ClientIs(s: ControlState, name: string)
    requires NamesOk(s)
    ensures forall c :: IsClient(s, c, name) <==> ClientNamed(s, name) == Some(c)
  {}

  lemma EdgeIs(s: ControlState, owner: Id, name: string)
    requires NamesOk(s)
    ensures forall d :: IsEdge(s, d, owner, name) <==> EdgeOf(s, owner, name) == Some(d)
  {}

  // ---------- edges ----------

  /** The edge is `from`'s under that name, and the new owner has none of that name. */
  ghost predicate CanMove(s: ControlState, e: Id, name: string, from: Id, to: Id) {
    IsEdge(s, e, from, name) && forall d :: !IsEdge(s, d, to, name)
  }

  ghost predicate BothManaged(s: ControlState, q: Request, from: Id, to: Id)
    requires q.FromProvisioner? && q.action.TransferEdge?
  {
    Manages(s, q.provisioner, from, q.action.owner) && Manages(s, q.provisioner, to, q.action.newOwner)
  }

  /** A provisioner moves an edge between two clients it manages; repeating the move is answered. */
  lemma ProvisionerTransfers(s: ControlState, controlId: Id, q: Request, now: int)
    requires ControlOk(s) && RequestOk(s, q, now) && q.FromProvisioner? && q.action.TransferEdge?
    ensures Carried(s, controlId, q, now) <==>
              && Entitled(s, q) && ExpectationMet(s, q)
              && exists from, to ::
                   BothManaged(s, q, from, to) && CanMove(s, q.action.endpoint, q.action.name, from, to)
    ensures Answered(s, controlId, q, now) <==>
              && Entitled(s, q)
              && exists from, to ::
                   BothManaged(s, q, from, to) && from != to && IsEdge(s, q.action.endpoint, to, q.action.name)
    ensures Carried(s, controlId, q, now) ==> forall to | Manages(s, q.provisioner, to, q.action.newOwner) ::
              Transferred(s, Resulting(s, controlId, q, now), q.action.endpoint, to)
  {
    ManagedIs(s, q.provisioner, q.action.owner);
    ManagedIs(s, q.provisioner, q.action.newOwner);
    var from, to := ManagedClient(s, q.action.owner, q.provisioner), ManagedClient(s, q.action.newOwner, q.provisioner);
    if from.Some? && to.Some? {
      assert BothManaged(s, q, from.value, to.value);
      EdgeIs(s, to.value, q.action.name);
    }
    if Carried(s, controlId, q, now) {
      assert CanMove(s, q.action.endpoint, q.action.name, from.value, to.value);
      ResultIs(s, controlId, q, now);
      Moves(s, q.action.endpoint, to.value, now);
    }
  }

  ghost predicate BothNamed(s: ControlState, q: Request, from: Id, to: Id)
    requires q.AdminTransferEdge?
  {
    IsClient(s, from, q.ownerName) && IsClient(s, to, q.newClient)
  }

  /** The administrator names the edge by its owner and name. */
  lemma AdminTransfers(s: ControlState, controlId: Id, q: Request, now: int)
    requires ControlOk(s) && q.AdminTransferEdge?
    ensures Carried(s, controlId, q, now) <==>
            exists from, to, e :: BothNamed(s, q, from, to) && CanMove(s, e, q.name, from, to)
    ensures !Answered(s, controlId, q, now)
    ensures Carried(s, controlId, q, now) ==>
              forall from, to, e | BothNamed(s, q, from, to) && CanMove(s, e, q.name, from, to) ::
                Transferred(s, Resulting(s, controlId, q, now), e, to)
  {
    ClientIs(s, q.ownerName);
    ClientIs(s, q.newClient);
    var from, to := ClientNamed(s, q.ownerName), ClientNamed(s, q.newClient);
    if from.Some? && to.Some? {
      assert BothNamed(s, q, from.value, to.value);
      EdgeIs(s, from.value, q.name);
      EdgeIs(s, to.value, q.name);
    }
    if Carried(s, controlId, q, now) {
      var e := EdgeOf(s, from.value, q.name).value;
      assert CanMove(s, e, q.name, from.value, to.value);
      ResultIs(s, controlId, q, now);
      Moves(s, e, to.value, now);
    }
  }

  ghost predicate OwnedAs(s: ControlState, c: Id, ownerName: string, e: Id, name: string) {
    IsClient(s, c, ownerName) && IsEdge(s, e, c, name)
  }

  lemma AdminRemovesEdge(s: ControlState, controlId: Id, q: Request, now: int)
    requires ControlOk(s) && q.AdminRemoveEdge?
    ensures Carried(s, controlId, q, now) <==> exists c, e :: OwnedAs(s, c, q.ownerName, e, q.name)
    ensures !Answered(s, controlId, q, now)
    ensures forall c, e | OwnedAs(s, c, q.ownerName, e, q.name) :: EdgeRemoved(s, Resulting(s, controlId, q, now), e)
  {
    ClientIs(s, q.ownerName);
    var c := ClientNamed(s, q.ownerName);
    if c.Some? { EdgeIs(s, c.value, q.name); }
    if Carried(s, controlId, q, now) {
      var e := EdgeOf(s, c.value, q.name).value;
      assert OwnedAs(s, c.value, q.ownerName, e, q.name);
      ResultIs(s, controlId, q, now);
      DropsEdge(s, e, now);
    }
  }

  /** A provisioner removes an edge of a client it manages; one that is not there is as good as removed. */
  lemma ProvisionerRemovesEdge(s: ControlState, controlId: Id, q: Request, now: int)
    requires ControlOk(s) && RequestOk(s, q, now) && q.FromProvisioner? && q.action.RemoveEdge?
    ensures Carried(s, controlId, q, now) <==>
              && Entitled(s, q) && ExpectationMet(s, q)
              && exists c, e :: Manages(s, q.provisioner, c, q.action.owner) && IsEdge(s, e, c, q.action.name)
    ensures Answered(s, controlId, q, now) <==>
              && Entitled(s, q)
              && exists c :: Manages(s, q.provisioner, c, q.action.owner) && forall d :: !IsEdge(s, d, c, q.action.name)
    ensures Carried(s, controlId, q, now) ==>
              forall c, e | Manages(s, q.provisioner, c, q.action.owner) && IsEdge(s, e, c, q.action.name) ::
                EdgeRemoved(s, Resulting(s, controlId, q, now), e)
  {
    ManagedIs(s, q.provisioner, q.action.owner);
    var c := ManagedClient(s, q.action.owner, q.provisioner);
    if c.Some? { EdgeIs(s, c.value, q.action.name); }
    if Carried(s, controlId, q, now) {
      ResultIs(s, controlId, q, now);
      DropsEdge(s, EdgeOf(s, c.value, q.action.name).value, now);
    }
  }

  /** A client removes an edge of its own. */
  lemma ClientRemovesEdge(s: ControlState, controlId: Id, q: Request, now: int)
    requires q.ClientEdgeRemove?
    ensures Carried(s, controlId, q, now) <==>
              q.audience == s.network.audience && q.client in s.clients && IsEdge(s, q.endpoint, q.client, q.name)
    ensures !Answered(s, controlId, q, now)
    ensures Carried(s, controlId, q, now) ==> EdgeRemoved(s, Resulting(s, controlId, q, now), q.endpoint)
  {
    if Carried(s, controlId, q, now) {
      ResultIs(s, controlId, q, now);
      DropsEdge(s, q.endpoint, now);
    }
  }

  // ---------- clients ----------

  lemma AdminRemovesClient(s: ControlState, controlId: Id, q: Request, now: int)
    requires ControlOk(s) && q.AdminRemoveClient?
    ensures Carried(s, controlId, q, now) <==> exists c :: IsClient(s, c, q.name) && Unencumbered(s, c, now)
    ensures !Answered(s, controlId, q, now)
    ensures Carried(s, controlId, q, now) ==>
              forall c | IsClient(s, c, q.name) :: ClientRemoved(s, Resulting(s, controlId, q, now), c)
  {
    ClientIs(s, q.name);
    if Carried(s, controlId, q, now) {
      ResultIs(s, controlId, q, now);
      DropsClient(s, ClientNamed(s, q.name).value, now);
    }
  }

  /** A provisioner removes a client it manages; one nobody knows is as good as removed. */
  lemma ProvisionerRemovesClient(s: ControlState, controlId: Id, q: Request, now: int)
    requires ControlOk(s) && RequestOk(s, q, now) && q.FromProvisioner? && q.action.RemoveClient?
    ensures Carried(s, controlId, q, now) <==>
              && Entitled(s, q) && ExpectationMet(s, q)
              && exists c :: Manages(s, q.provisioner, c, q.action.name) && Unencumbered(s, c, now)
    ensures Answered(s, controlId, q, now) <==> Entitled(s, q) && forall c :: !IsClient(s, c, q.action.name)
    ensures Carried(s, controlId, q, now) ==>
              forall c | Manages(s, q.provisioner, c, q.action.name) ::
                ClientRemoved(s, Resulting(s, controlId, q, now), c)
  {
    ManagedIs(s, q.provisioner, q.action.name);
    ClientIs(s, q.action.name);
    if Carried(s, controlId, q, now) {
      ResultIs(s, controlId, q, now);
      DropsClient(s, ManagedClient(s, q.action.name, q.provisioner).value, now);
    }
  }

  // ---------- invitations ----------

  lemma ProvisionerRevokes(s: ControlState, controlId: Id, q: Request, now: int)
    requires ControlOk(s) && RequestOk(s, q, now) && q.FromProvisioner? && q.action.RevokeInvite?
    ensures Carried(s, controlId, q, now) <==>
              && Entitled(s, q) && ExpectationMet(s, q) && q.action.inviteId in s.invites
              && s.invites[q.action.inviteId].managedBy == Some(q.provisioner)
              && s.invites[q.action.inviteId].state == Pending
    ensures Answered(s, controlId, q, now) <==>
              && Entitled(s, q) && q.action.inviteId in s.invites
              && s.invites[q.action.inviteId].managedBy == Some(q.provisioner)
              && s.invites[q.action.inviteId].state == Withdrawn
    ensures Carried(s, controlId, q, now) ==>
              InvitationRevoked(s, Resulting(s, controlId, q, now), q.action.inviteId, now)
  {
    if Carried(s, controlId, q, now) {
      ResultIs(s, controlId, q, now);
      Revokes(s, q.action.inviteId, now);
    }
  }

  lemma AdminRevokes(s: ControlState, controlId: Id, q: Request, now: int)
    requires ControlOk(s) && q.AdminRevokeInvite?
    ensures Carried(s, controlId, q, now) <==> q.inviteId in s.invites && s.invites[q.inviteId].state == Pending
    ensures Answered(s, controlId, q, now) <==> q.inviteId in s.invites && s.invites[q.inviteId].state == Withdrawn
    ensures Carried(s, controlId, q, now) ==> InvitationRevoked(s, Resulting(s, controlId, q, now), q.inviteId, now)
  {
    if Carried(s, controlId, q, now) {
      ResultIs(s, controlId, q, now);
      Revokes(s, q.inviteId, now);
    }
  }

  /** Nobody registered has the name in its scope, and no invitation that could still be claimed reserves it. */
  ghost predicate Available(s: ControlState, name: string, kind: InviteKind, now: int) {
    match kind
    case ForClient =>
      && (forall c | c in s.clients :: s.clients[c].name != name)
      && (forall i | i in s.invites && s.invites[i].state.Pending? && now <= s.invites[i].invite.expiresAt ::
            !(s.invites[i].invite.kind == ForClient && s.invites[i].invite.name == name))
    case ForEdge(owner) =>
      && (forall d | d in s.edges && s.edges[d].owner == owner :: s.edges[d].name != name)
      && (forall i | i in s.invites && s.invites[i].state.Pending? && now <= s.invites[i].invite.expiresAt ::
            !(s.invites[i].invite.kind == ForEdge(owner) && s.invites[i].invite.name == name))
    case ForRelay(url) =>
      && (forall r | r in s.relays :: s.relays[r].name != name && s.relays[r].url != url)
      && (forall i | i in s.invites && s.invites[i].state.Pending? && now <= s.invites[i].invite.expiresAt ::
            s.invites[i].invite.kind.ForRelay? ==>
              s.invites[i].invite.kind.url != url && s.invites[i].invite.name != name)
  }

  lemma NameFreeIs(s: ControlState, name: string, kind: InviteKind, now: int)
    ensures NameFree(s, name, kind, now) <==> Available(s, name, kind, now)
  {}

  /** What an invitation and its token say: who may join as what, until when, and with which secret. */
  ghost predicate Offers(s: ControlState, controlId: Id, r: InviteRecord, response: Response, id: string, name: string,
      kind: InviteKind, secret: string, until: int) {
    && r.invite == Invite(id, s.network.audience, s.network.publicUrl, controlId, name, kind, HashSecret(secret), until)
    && response == Invited(id, JoinToken(r.invite, secret, Signature(controlId, r.invite)), until)
  }

  predicate Lifetime(ttl: nat, now: int) { 1 <= ttl <= 604800 && now + ttl <= I64_MAX }

  lemma ClientInvites(s: ControlState, controlId: Id, q: Request, now: int)
    requires RequestOk(s, q, now) && q.ClientEdgeInvite?
    ensures Carried(s, controlId, q, now) <==>
              && ValidName(q.name) && 1 <= |q.requestId| <= 128 && q.audience == s.network.audience
              && q.client in s.clients && (forall i | i in s.invites :: s.invites[i].requestId != Some(q.requestId))
              && Available(s, q.name, ForEdge(q.client), now) && Lifetime(q.ttl, now)
    ensures !Answered(s, controlId, q, now)
    ensures Carried(s, controlId, q, now) ==>
              var r := Plan(s, controlId, q, now).mutation.record;
              && InvitationAdded(s, Resulting(s, controlId, q, now), r)
              && Offers(s, controlId, r, Plan(s, controlId, q, now).response, q.freshId, q.name, ForEdge(q.client),
                   q.secret, now + q.ttl)
              && r.managedBy == s.clients[q.client].managedBy && r.requestId == Some(q.requestId)
  {
    NameFreeIs(s, q.name, ForEdge(q.client), now);
    if Carried(s, controlId, q, now) {
      ResultIs(s, controlId, q, now);
      Adds(s, Plan(s, controlId, q, now).mutation.record, now);
    }
  }

  lemma AdminInvites(s: ControlState, controlId: Id, q: Request, now: int)
    requires RequestOk(s, q, now) && q.AdminInvite?
    ensures Carried(s, controlId, q, now) <==>
              ValidName(q.name) && Available(s, q.name, q.kind, now) && Lifetime(q.ttl, now)
    ensures !Answered(s, controlId, q, now)
    ensures Carried(s, controlId, q, now) ==>
              var r := Plan(s, controlId, q, now).mutation.record;
              && InvitationAdded(s, Resulting(s, controlId, q, now), r)
              && Offers(s, controlId, r, Plan(s, controlId, q, now).response, q.freshId, q.name, q.kind, q.secret,
                   now + q.ttl)
              && r.managedBy == q.managedBy && r.requestId == None
  {
    NameFreeIs(s, q.name, q.kind, now);
    if Carried(s, controlId, q, now) {
      ResultIs(s, controlId, q, now);
      Adds(s, Plan(s, controlId, q, now).mutation.record, now);
    }
  }

  /** What a provisioner invites to: a client, or an edge of a client it manages. */
  ghost predicate Targets(s: ControlState, q: Request, kind: InviteKind)
    requires q.FromProvisioner?
  {
    || (q.action.InviteClient? && kind == ForClient)
    || (q.action.InviteEdge? && kind.ForEdge? && Manages(s, q.provisioner, kind.owner, q.action.owner))
  }

  lemma TargetIs(s: ControlState, q: Request) returns (kind: Option<InviteKind>)
    requires NamesOk(s) && q.FromProvisioner? && (q.action.InviteClient? || q.action.InviteEdge?)
    ensures forall k :: Targets(s, q, k) <==> kind == Some(k)
    ensures q.action.InviteClient? ==> kind == Some(ForClient)
    ensures q.action.InviteEdge? ==>
              var c := ManagedClient(s, q.action.owner, q.provisioner);
              kind == if c.Some? then Some(ForEdge(c.value)) else None
  {
    if q.action.InviteClient? { return Some(ForClient); }
    ManagedIs(s, q.provisioner, q.action.owner);
    var c := ManagedClient(s, q.action.owner, q.provisioner);
    kind := if c.Some? then Some(ForEdge(c.value)) else None;
  }

  /** The record an earlier request of this provisioner under this id left. */
  ghost predicate OnRecord(s: ControlState, q: Request, i: string)
    requires q.FromProvisioner?
  {
    i in s.invites && s.invites[i].managedBy == Some(q.provisioner) && s.invites[i].requestId == Some(q.requestId)
  }

  /** The invitation as the provisioner's request describes it. */
  ghost predicate Describes(s: ControlState, controlId: Id, q: Request, kind: InviteKind, now: int, r: InviteRecord,
      response: Response)
    requires q.FromProvisioner? && (q.action.InviteClient? || q.action.InviteEdge?)
  {
    && Offers(s, controlId, r, response, q.freshId, q.action.name, kind, q.action.secret, now + q.action.ttl)
    && r.managedBy == Some(q.provisioner) && r.requestId == Some(q.requestId) && r.requestHash == Some(q.action)
  }

  lemma InvitePlanned(s: ControlState, controlId: Id, q: Request, kind: InviteKind, now: int)
    requires q.FromProvisioner? && (q.action.InviteClient? || q.action.InviteEdge?)
    ensures var plan :=
              PlanProvisionerInvite(s, controlId, q, q.action.name, kind, q.action.ttl, q.action.secret, now);
            && (plan.Do? <==>
                  && ExpectationMet(s, q) && ValidName(q.action.name) && ValidSecret(q.action.secret)
                  && Lifetime(q.action.ttl, now) && (forall i :: !OnRecord(s, q, i))
                  && Available(s, q.action.name, kind, now))
            && (plan.Do? ==>
                  plan.mutation.AddInvite?
                  && Describes(s, controlId, q, kind, now, plan.mutation.record, plan.response))
  {
    NameFreeIs(s, q.action.name, kind, now);
    var known := RequestRecord(s, q.provisioner, q.requestId);
    assert known.Some? ==> OnRecord(s, q, known.value);
  }

  /** A provisioner invites once per request id. */
  lemma ProvisionerInvites(s: ControlState, controlId: Id, q: Request, now: int)
    requires ControlOk(s) && RequestOk(s, q, now)
    requires q.FromProvisioner? && (q.action.InviteClient? || q.action.InviteEdge?)
    ensures Carried(s, controlId, q, now) <==>
              && Entitled(s, q) && ExpectationMet(s, q) && ValidName(q.action.name) && ValidSecret(q.action.secret)
              && Lifetime(q.action.ttl, now) && (forall i :: !OnRecord(s, q, i))
              && exists kind :: Targets(s, q, kind) && Available(s, q.action.name, kind, now)
    ensures Carried(s, controlId, q, now) ==> forall kind | Targets(s, q, kind) ::
              var r := Plan(s, controlId, q, now).mutation.record;
              && InvitationAdded(s, Resulting(s, controlId, q, now), r)
              && Describes(s, controlId, q, kind, now, r, Plan(s, controlId, q, now).response)
  {
    var kind := TargetIs(s, q);
    if kind.Some? { InvitePlanned(s, controlId, q, kind.value, now); }
    if Carried(s, controlId, q, now) {
      ResultIs(s, controlId, q, now);
      Adds(s, Plan(s, controlId, q, now).mutation.record, now);
    }
  }

  /** A repeat of a request on record is answered with that record, and only such a repeat is. */
  lemma ProvisionerRepeats(s: ControlState, controlId: Id, q: Request, now: int)
    requires ControlOk(s) && RequestOk(s, q, now)
    requires q.FromProvisioner? && (q.action.InviteClient? || q.action.InviteEdge?)
    ensures Answered(s, controlId, q, now) <==>
              && Entitled(s, q) && ValidName(q.action.name) && ValidSecret(q.action.secret)
              && (exists kind :: Targets(s, q, kind))
              && exists i :: OnRecord(s, q, i) && s.invites[i].requestHash == Some(q.action)
                             && s.invites[i].invite.secretHash == HashSecret(q.action.secret)
    ensures Answered(s, controlId, q, now) ==> forall i | OnRecord(s, q, i) ::
              var v := s.invites[i].invite;
              Plan(s, controlId, q, now).response ==
              Invited(v.id, JoinToken(v, q.action.secret, Signature(controlId, v)), v.expiresAt)
  {
    var kind := TargetIs(s, q);
    var known := RequestRecord(s, q.provisioner, q.requestId);
    if known.Some? { assert OnRecord(s, q, known.value); }
    forall i | OnRecord(s, q, i) ensures known == Some(i) {}
  }

  // ---------- joining ----------

  /** Nothing registered is in the way of the endpoint under that name. */
  ghost predicate Free(s: ControlState, kind: InviteKind, name: string, e: Id) {
    match kind
    case ForClient => e !in s.clients && forall c :: !IsClient(s, c, name)
    case ForEdge(owner) => owner in s.clients && e !in s.edges && forall d :: !IsEdge(s, d, owner, name)
    case ForRelay(url) =>
      e !in s.relays && forall r | r in s.relays :: s.relays[r].name != name && s.relays[r].url != url
  }

  /** The invitation in the token is one of this network's and still on record as it was signed. */
  predicate Genuine(s: ControlState, controlId: Id, token: Invite) {
    && token.controlId == controlId && token.audience == s.network.audience && token.publicUrl == s.network.publicUrl
    && token.id in s.invites && s.invites[token.id].invite == token
  }

  /** A Relay gives its port with its certificate request, and nobody else gives either. */
  predicate PortsFit(token: Invite, port: Option<nat>, hasCsr: bool) {
    if token.kind.ForRelay? then port != Some(0) && port.Some? == hasCsr else port.None? && !hasCsr
  }

  lemma FreeIs(s: ControlState, kind: InviteKind, name: string, e: Id)
    ensures Free(s, kind, name, e) <==>
            match kind
            case ForClient => !exists c | c in s.clients :: c == e || s.clients[c].name == name
            case ForEdge(owner) =>
              owner in s.clients && !exists d | d in s.edges ::
                d == e || (s.edges[d].owner == owner && s.edges[d].name == name)
            case ForRelay(url) =>
              !exists r | r in s.relays :: r == e || s.relays[r].name == name || s.relays[r].url == url
  {
    assert kind.ForEdge? ==> forall d | d in s.edges ::
             IsEdge(s, d, kind.owner, name) <==> s.edges[d].owner == kind.owner && s.edges[d].name == name;
    assert forall c | c in s.clients :: IsClient(s, c, name) <==> s.clients[c].name == name;
  }

  /** An invitation is claimed exactly while it is pending and unexpired and its place is free. */
  lemma Joins(s: ControlState, controlId: Id, q: Request, now: int)
    requires ControlOk(s) && RequestOk(s, q, now) && q.Claim?
    ensures Carried(s, controlId, q, now) <==>
              && Genuine(s, controlId, q.token) && q.at <= q.token.expiresAt && PortsFit(q.token, q.qadPort, q.hasCsr)
              && s.invites[q.token.id].state == Pending && Free(s, q.token.kind, q.token.name, q.endpoint)
    ensures Answered(s, controlId, q, now) <==>
              && Genuine(s, controlId, q.token) && q.at <= q.token.expiresAt && PortsFit(q.token, q.qadPort, q.hasCsr)
              && s.invites[q.token.id].state == Claimed && s.invites[q.token.id].claimedBy == Some(q.endpoint)
              && (q.endpoint in s.relays ==> s.relays[q.endpoint].qadPort == q.qadPort)
              && (q.endpoint in s.clients || q.endpoint in s.edges || q.endpoint in s.relays)
    ensures Carried(s, controlId, q, now) ==>
              Registered(s, Resulting(s, controlId, q, now), q.token.id, q.endpoint, q.qadPort, q.at)
  {
    FreeIs(s, q.token.kind, q.token.name, q.endpoint);
    if Carried(s, controlId, q, now) {
      ResultIs(s, controlId, q, now);
      Registers(s, q.token.id, q.endpoint, q.qadPort, q.at, now);
    }
  }

  // ---------- renewal ----------

  /** What a watch does for an endpoint: its client role is renewed before its edge role. */
  lemma WatchRenews(s: ControlState, controlId: Id, q: Request, now: int)
    requires RequestOk(s, q, now) && q.Watch?
    ensures var soon := SatAdd(q.at, 172800);
            && (Carried(s, controlId, q, now) <==>
                  if q.endpoint in s.clients then s.clients[q.endpoint].grant.expiresAt <= soon
                  else q.endpoint in s.edges && s.edges[q.endpoint].grant.expiresAt <= soon)
            && (Answered(s, controlId, q, now) <==>
                  && (q.endpoint in s.clients || q.endpoint in s.edges) && !Carried(s, controlId, q, now))
    ensures Carried(s, controlId, q, now) ==>
              var s', e := Resulting(s, controlId, q, now), q.endpoint;
              if e in s.clients
              then s' == s.(clients :=
                  s.clients[e := s.clients[e].(grant := Week(s.clients[e].grant.generation, q.at))])
              else s' == s.(edges := s.edges[e := s.edges[e].(grant := Week(s.edges[e].grant.generation, q.at))])
  {
    if Carried(s, controlId, q, now) {
      ResultIs(s, controlId, q, now);
      if q.endpoint in s.clients {
        RenewsClient(s, q.endpoint, q.at, now);
      } else {
        RenewsEdge(s, q.endpoint, q.at, now);
      }
    }
  }

  // ---------- relays, provisioners, clean-up ----------

  lemma RelayReports(s: ControlState, controlId: Id, q: Request, now: int)
    requires q.ReportQad?
    ensures Carried(s, controlId, q, now) <==>
              q.relay in s.relays && q.qadPort != Some(0) && s.relays[q.relay].qadPort != q.qadPort
    ensures Answered(s, controlId, q, now) <==>
              q.relay in s.relays && q.qadPort != Some(0) && s.relays[q.relay].qadPort == q.qadPort
    ensures Carried(s, controlId, q, now) ==>
              Resulting(s, controlId, q, now) ==
              s.(revision := s.revision + 1, relays := s.relays[q.relay := s.relays[q.relay].(qadPort := q.qadPort)])
  {
    if Carried(s, controlId, q, now) {
      ResultIs(s, controlId, q, now);
      ChangesRelay(s, q.relay, q.qadPort, now);
    }
  }

  lemma AdminRemovesRelay(s: ControlState, controlId: Id, q: Request, now: int)
    requires ControlOk(s) && q.AdminRemoveRelay?
    ensures Carried(s, controlId, q, now) <==> exists r :: r in s.relays && s.relays[r].name == q.name
    ensures !Answered(s, controlId, q, now)
    ensures forall r | r in s.relays && s.relays[r].name == q.name :: Resulting(s, controlId, q, now) ==
              s.(revision := s.revision + 1, relayRevision := s.relayRevision + 1, relays := s.relays - {r})
  {
    if Carried(s, controlId, q, now) {
      ResultIs(s, controlId, q, now);
      ChangesRelay(s, RelayNamed(s, q.name).value, None, now);
    }
  }

  lemma AdminAddsProvisioner(s: ControlState, controlId: Id, q: Request, now: int)
    requires q.AdminAddProvisioner?
    ensures Carried(s, controlId, q, now) <==>
              && ValidName(q.name) && q.provisioner !in s.provisioners
              && forall p | p in s.provisioners :: s.provisioners[p] != q.name
    ensures !Answered(s, controlId, q, now)
    ensures Carried(s, controlId, q, now) ==>
              Resulting(s, controlId, q, now) ==
              s.(revision := s.revision + 1, provisioners := s.provisioners[q.provisioner := q.name])
  {
    if Carried(s, controlId, q, now) {
      ResultIs(s, controlId, q, now);
      AddsProvisioner(s, q.provisioner, q.name, now);
    }
  }

  /** Nothing the provisioner manages is left that it could still act on. */
  predicate ManagesNothing(s: ControlState, p: Id, now: int) {
    && (forall c | c in s.clients :: s.clients[c].managedBy != Some(p))
    && (forall i | i in s.invites && s.invites[i].state.Pending? && now <= s.invites[i].invite.expiresAt ::
          s.invites[i].managedBy != Some(p))
  }

  lemma AdminRemovesProvisioner(s: ControlState, controlId: Id, q: Request, now: int)
    requires ControlOk(s) && q.AdminRemoveProvisioner?
    ensures Carried(s, controlId, q, now) <==>
            exists p :: p in s.provisioners && s.provisioners[p] == q.name && ManagesNothing(s, p, now)
    ensures !Answered(s, controlId, q, now)
    ensures Carried(s, controlId, q, now) ==> forall p | p in s.provisioners && s.provisioners[p] == q.name ::
              Resulting(s, controlId, q, now) ==
              s.(revision := s.revision + 1, provisioners := s.provisioners - {p})
  {
    if Carried(s, controlId, q, now) {
      ResultIs(s, controlId, q, now);
      DropsProvisioner(s, ProvisionerNamed(s, q.name).value, now);
    }
  }

  /** An invitation is kept for seven days after it expired or was claimed or revoked. */
  predicate Retained(r: InviteRecord, now: int) {
    match r.state
    case Pending => now < SatAdd(r.invite.expiresAt, 604800)
    case _ => r.terminalAt.Some? ==> now < SatAdd(r.terminalAt.value, 604800)
  }

  /** Clean-up keeps exactly the retained invitations and the unexpired tombstones. */
  lemma CleanUpKeeps(s: ControlState, controlId: Id, q: Request, now: int)
    requires InvitesOk(s) && q.CleanUp? && Carried(s, controlId, q, now)
    ensures var s' := Resulting(s, controlId, q, now);
            && s' == s.(invites := s'.invites, tombs := s'.tombs)
            && s'.invites == (map i | i in s.invites && Retained(s.invites[i], now) :: s.invites[i])
            && s'.tombs == (map e | e in s.tombs && now < s.tombs[e].expiresAt :: s.tombs[e])
  {
    ResultIs(s, controlId, q, now);
    SweepEffect(s, q.staleInvites, q.expiredTombs, now);
  }

  // ---------- answers ----------

  /** Only invitation requests return a token; everything else that succeeds is merely acknowledged. */
  lemma OthersAreAcknowledged(s: ControlState, controlId: Id, q: Request, now: int)
    requires !q.ClientEdgeInvite? && !q.AdminInvite?
    requires q.FromProvisioner? ==> !q.action.InviteClient? && !q.action.InviteEdge?
    ensures Carried(s, controlId, q, now) || Answered(s, controlId, q, now) ==>
              Plan(s, controlId, q, now).response == Acknowledged
  {}

  /** The request is for another network, or its token is not the one on record. */
  ghost predicate Foreign(s: ControlState, controlId: Id, q: Request) {
    match q
    case Claim(token, _, _, _, at) =>
      || token.controlId != controlId || token.audience != s.network.audience
      || token.publicUrl != s.network.publicUrl
      || (at <= token.expiresAt && token.id in s.invites && s.invites[token.id].invite != token)
    case ClientEdgeInvite(_, audience, requestId, name, _, _, _) =>
      audience != s.network.audience && ValidName(name) && 1 <= |requestId| <= 128
    case ClientEdgeRemove(_, audience, _, _) => audience != s.network.audience
    case FromProvisioner(_, audience, requestId, _, _, _) => audience != s.network.audience && ValidRequestId(requestId)
    case _ => false
  }

  /** Whoever asks is not registered, or asks to remove a client somebody else manages. */
  ghost predicate Stranger(s: ControlState, q: Request) {
    match q
    case ClientEdgeInvite(c, audience, requestId, name, _, _, _) =>
      audience == s.network.audience && ValidName(name) && 1 <= |requestId| <= 128 && c !in s.clients
    case ClientEdgeRemove(c, audience, _, _) => audience == s.network.audience && c !in s.clients
    case FromProvisioner(p, audience, requestId, _, action, _) =>
      && audience == s.network.audience && ValidRequestId(requestId)
      && (p !in s.provisioners ||
          (action.RemoveClient? && (exists c :: IsClient(s, c, action.name))
           && forall c :: !Manages(s, p, c, action.name)))
    case Watch(e, _) => e !in s.clients && e !in s.edges
    case ReportQad(r, port) => port != Some(0) && r !in s.relays
    case _ => false
  }

  lemma ProvisionerRefusals(s: ControlState, controlId: Id, q: Request, now: int)
    requires ControlOk(s) && q.FromProvisioner?
    ensures PlanProvisioner(s, controlId, q, now) == Refuse(Unauthorized) <==> Foreign(s, controlId, q)
    ensures PlanProvisioner(s, controlId, q, now) == Refuse(Forbidden) <==> Stranger(s, q)
  {
    if q.action.RemoveClient? {
      ManagedIs(s, q.provisioner, q.action.name);
      ClientIs(s, q.action.name);
    }
  }

  /** Which requests are turned away for who asks. */
  lemma RefusalCodes(s: ControlState, controlId: Id, q: Request, now: int)
    requires ControlOk(s)
    ensures Plan(s, controlId, q, now) == Refuse(Unauthorized) <==> Foreign(s, controlId, q)
    ensures Plan(s, controlId, q, now) == Refuse(Forbidden) <==> Stranger(s, q)
  {
    if q.FromProvisioner? { ProvisionerRefusals(s, controlId, q, now); }
  }
}
