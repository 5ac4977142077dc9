/**
 * Control's state, its handlers and its deltas (crates/as-control/src/main.rs). Records are keyed
 * by identity, as every handler and every table uses them.
 */
module Control {
  import opened Base
  import opened RelayApi
  import Auth = Authorization

  const RETENTION_SECS: nat := 7 * 24 * 60 * 60
  const MAX_TTL_SECS: nat := 7 * 24 * 60 * 60

  datatype ClientRecord = ClientRecord(name: string, managedBy: Option<Id>, grant: Auth.Grant)

  datatype EdgeRecord = EdgeRecord(name: string, owner: Id, grant: Auth.Grant)

  datatype RelayRecord = RelayRecord(name: string, url: string, qadPort: Option<nat>)

  datatype InviteKind = ForClient | ForEdge(owner: Id) | ForRelay(url: string)

  datatype Invite = Invite(
    id: string, audience: string, publicUrl: string, controlId: Id,
    name: string, kind: InviteKind, secretHash: string, expiresAt: int)

  datatype InviteState = Pending | Claimed | Withdrawn

  /** A provisioner's action hash is ideal: it is the action itself. */
  datatype InviteRecord = InviteRecord(
    invite: Invite, state: InviteState, claimedBy: Option<Id>, requestId: Option<string>,
    managedBy: Option<Id>, requestHash: Option<ProvisionerAction>, terminalAt: Option<int>)

  datatype ProvisionerAction =
    | InviteClient(name: string, ttl: nat, secret: string)
    | InviteEdge(owner: string, name: string, ttl: nat, secret: string)
    | RevokeInvite(inviteId: string)
    | RemoveClient(name: string)
    | RemoveEdge(owner: string, name: string)
    | TransferEdge(owner: string, name: string, endpoint: Id, newOwner: string)

  datatype Network = Network(schema: nat, audience: string, publicUrl: string, relayCa: seq<bv8>)

  datatype ControlState = ControlState(
    network: Network,
    revision: nat,
    relayRevision: nat,
    clients: map<Id, ClientRecord>,
    edges: map<Id, EdgeRecord>,
    relays: map<Id, RelayRecord>,
    invites: map<string, InviteRecord>,
    provisioners: map<Id, string>,
    tombs: Tombs)

  // ---------- deltas ----------

  datatype StateChange =
    | PutClient(id: Id, client: ClientRecord)
    | DeleteClient(id: Id)
    | PutEdge(id: Id, edge: EdgeRecord)
    | DeleteEdge(id: Id)
    | PutRelay(id: Id, relay: RelayRecord)
    | DeleteRelay(id: Id)
    | PutInvite(record: InviteRecord)
    | DeleteInvite(inviteId: string)
    | PutProvisioner(id: Id, name: string)
    | DeleteProvisioner(id: Id)
    | PutTomb(id: Id, tomb: Tombstone)
    | DeleteTomb(id: Id)

  datatype Publish = Quiet | Nodes | NodesAndRelays

  datatype StateDelta = StateDelta(changes: seq<StateChange>, publish: Publish)

  function ApplyChange(s: ControlState, c: StateChange): ControlState {
    match c
    case PutClient(id, r) => s.(clients := s.clients[id := r])
    case DeleteClient(id) => s.(clients := s.clients - {id})
    case PutEdge(id, r) => s.(edges := s.edges[id := r])
    case DeleteEdge(id) => s.(edges := s.edges - {id})
    case PutRelay(id, r) => s.(relays := s.relays[id := r])
    case DeleteRelay(id) => s.(relays := s.relays - {id})
    case PutInvite(r) => s.(invites := s.invites[r.invite.id := r])
    case DeleteInvite(i) => s.(invites := s.invites - {i})
    case PutProvisioner(id, n) => s.(provisioners := s.provisioners[id := n])
    case DeleteProvisioner(id) => s.(provisioners := s.provisioners - {id})
    case PutTomb(id, t) => s.(tombs := s.tombs[id := t])
    case DeleteTomb(id) => s.(tombs := s.tombs - {id})
  }

  function ApplyChanges(s: ControlState, changes: seq<StateChange>): ControlState {
    if changes == [] then s
    else ApplyChange(ApplyChanges(s, changes[..|changes| - 1]), changes[|changes| - 1])
  }

  function BumpedRevision(s: ControlState, p: Publish): nat {
    if p.Quiet? then s.revision else s.revision + 1
  }

  function BumpedRelayRevision(s: ControlState, p: Publish): nat {
    if p.NodesAndRelays? then s.relayRevision + 1 else s.relayRevision
  }

  /** The state a committed delta leads to. */
  function Committed(s: ControlState, d: StateDelta): ControlState {
    ApplyChanges(s, d.changes).(
      revision := BumpedRevision(s, d.publish), relayRevision := BumpedRelayRevision(s, d.publish))
  }

  /** Table checks no transaction gets past: a credential must outlive its issuance. */
  predicate PassesChecks(d: StateDelta) {
    forall c | c in d.changes ::
      && (c.PutClient? ==> c.client.grant.issuedAt < c.client.grant.expiresAt)
      && (c.PutEdge? ==> c.edge.grant.issuedAt < c.edge.grant.expiresAt)
  }

  // ---------- what a handler can decide to do ----------

  datatype Mutation =
    | Enroll(inviteId: string, endpoint: Id, qadPort: Option<nat>, at: int)
    | AddInvite(record: InviteRecord)
    | EndInvite(inviteId: string, at: int)
    | DropClient(id: Id)
    | DropEdge(id: Id)
    | MoveEdge(id: Id, owner: Id)
    | DropRelay(id: Id)
    | SetQadPort(id: Id, qadPort: Option<nat>)
    | AddProvisioner(id: Id, name: string)
    | DropProvisioner(id: Id)
    | RenewClient(id: Id, at: int)
    | RenewEdge(id: Id, at: int)
    | Sweep(invites: seq<string>, tombs: seq<Id>)

  function InviteDeadline(r: InviteRecord, now: int): int {
    if r.state.Pending? then r.invite.expiresAt else if r.terminalAt.Some? then r.terminalAt.value else now
  }

  /** Invitations whose retention is over. */
  function StaleInvites(s: ControlState, now: int): set<string> {
    set i | i in s.invites && now >= SatAdd(InviteDeadline(s.invites[i], now), RETENTION_SECS)
  }

  function ExpiredTombs(s: ControlState, now: int): set<Id> {
    set e | e in s.tombs && s.tombs[e].expiresAt <= now
  }

  /** The checks the handlers make before they build this change, whoever asked for it. */
  predicate Guard(s: ControlState, m: Mutation, clock: int) {
    match m
    case Enroll(i, e, _, at) =>
      && at <= clock && i in s.invites && s.invites[i].state.Pending?
      && var invite := s.invites[i].invite;
         (match invite.kind
          case ForClient => forall c | c in s.clients :: c != e && s.clients[c].name != invite.name
          case ForEdge(owner) =>
            && owner in s.clients
            && forall d | d in s.edges :: d != e && !(s.edges[d].owner == owner && s.edges[d].name == invite.name)
          case ForRelay(url) => forall r | r in s.relays ::
              r != e && s.relays[r].name != invite.name && s.relays[r].url != url)
    case AddInvite(r) =>
      && r.invite.id !in s.invites && r.state == Pending && r.claimedBy == None && r.terminalAt == None
      && (r.requestId.Some? ==> forall i | i in s.invites ::
            !(s.invites[i].requestId == r.requestId && s.invites[i].managedBy == r.managedBy))
    case EndInvite(i, _) => i in s.invites && s.invites[i].state.Pending?
    case DropClient(c) => c in s.clients && forall d | d in s.edges :: s.edges[d].owner != c
    case DropEdge(d) => d in s.edges
    case MoveEdge(d, owner) =>
      && d in s.edges && owner in s.clients
      && forall x | x in s.edges :: !(s.edges[x].owner == owner && s.edges[x].name == s.edges[d].name)
    case DropRelay(r) => r in s.relays
    case SetQadPort(r, _) => r in s.relays
    case AddProvisioner(p, name) => forall q | q in s.provisioners :: q != p && s.provisioners[q] != name
    case DropProvisioner(p) => p in s.provisioners && forall c | c in s.clients :: s.clients[c].managedBy != Some(p)
    case RenewClient(c, at) =>
      at <= clock && c in s.clients && s.clients[c].grant.expiresAt <= SatAdd(at, Auth.RENEW_BEFORE_SECS)
    case RenewEdge(d, at) =>
      at <= clock && d in s.edges && s.edges[d].grant.expiresAt <= SatAdd(at, Auth.RENEW_BEFORE_SECS)
    case Sweep(invites, tombs) =>
      && Enumerates(invites, StaleInvites(s, clock)) && Enumerates(tombs, ExpiredTombs(s, clock))
  }

  /** `claimed_node_change`: the record an invitation turns into. */
  function ClaimedNode(s: ControlState, r: InviteRecord, e: Id, qadPort: Option<nat>, at: int): StateChange {
    var grant := Auth.Renewed(s.revision + 1, at);
    match r.invite.kind
    case ForClient => PutClient(e, ClientRecord(r.invite.name, r.managedBy, grant))
    case ForEdge(owner) => PutEdge(e, EdgeRecord(r.invite.name, owner, grant))
    case ForRelay(url) => PutRelay(e, RelayRecord(r.invite.name, url, qadPort))
  }

  /** `revocation_change`: the tombstone a removal leaves. */
  function TombChange(s: ControlState, e: Id, grant: Auth.Grant): StateChange {
    PutTomb(e, Auth.Bury(s.tombs, e, grant, s.relayRevision))
  }

  function DeltaOf(s: ControlState, m: Mutation, clock: int): StateDelta
    requires Guard(s, m, clock)
  {
    match m
    case Enroll(i, e, qad, at) =>
      StateDelta(
        [ClaimedNode(s, s.invites[i], e, qad, at),
         PutInvite(s.invites[i].(state := Claimed, claimedBy := Some(e), terminalAt := Some(at)))], Nodes)
    case AddInvite(r) => StateDelta([PutInvite(r)], Nodes)
    case EndInvite(i, at) => StateDelta([PutInvite(s.invites[i].(state := Withdrawn, terminalAt := Some(at)))], Nodes)
    case DropClient(c) => StateDelta([DeleteClient(c), TombChange(s, c, s.clients[c].grant)], NodesAndRelays)
    case DropEdge(d) => StateDelta([DeleteEdge(d), TombChange(s, d, s.edges[d].grant)], NodesAndRelays)
    case MoveEdge(d, owner) => StateDelta([PutEdge(d, s.edges[d].(owner := owner))], Nodes)
    case DropRelay(r) => StateDelta([DeleteRelay(r)], NodesAndRelays)
    case SetQadPort(r, port) => StateDelta([PutRelay(r, s.relays[r].(qadPort := port))], Nodes)
    case AddProvisioner(p, name) => StateDelta([PutProvisioner(p, name)], Nodes)
    case DropProvisioner(p) => StateDelta([DeleteProvisioner(p)], Nodes)
    case RenewClient(c, at) =>
      StateDelta([PutClient(c, s.clients[c].(grant := Auth.Renewed(s.clients[c].grant.generation, at)))], Quiet)
    case RenewEdge(d, at) =>
      StateDelta([PutEdge(d, s.edges[d].(grant := Auth.Renewed(s.edges[d].grant.generation, at)))], Quiet)
    case Sweep(invites, tombs) =>
      StateDelta(
        seq(|invites|, i requires 0 <= i < |invites| => DeleteInvite(invites[i])) +
        seq(|tombs|, i requires 0 <= i < |tombs| => DeleteTomb(tombs[i])), Quiet)
  }

  // ---------- requests ----------

  datatype ErrorCode = Bad | Unauthorized | Forbidden | Conflict | Gone | Internal

  datatype JoinToken = JoinToken(invite: Invite, secret: string, signature: Signature<Invite>)

  datatype Response = Invited(inviteId: string, token: JoinToken, expiresAt: int) | Acknowledged

  datatype Outcome = Refuse(code: ErrorCode) | Reply(response: Response) | Do(mutation: Mutation, response: Response)

  /**
   * A verified request. `at` is a clock reading taken before the request queued for its turn;
   * `freshId` and `secret` stand for random tokens; owner and manager of an administrator's edge
   * invitation were looked up under an earlier lock.
   */
  datatype Request =
    | Claim(token: Invite, endpoint: Id, qadPort: Option<nat>, hasCsr: bool, at: int)
    | ClientEdgeInvite(client: Id, audience: string, requestId: string, name: string, ttl: nat, freshId: string,
        secret: string)
    | ClientEdgeRemove(client: Id, audience: string, name: string, endpoint: Id)
    | FromProvisioner(provisioner: Id, audience: string, requestId: string, expected: Option<nat>,
        action: ProvisionerAction, freshId: string)
    | Watch(endpoint: Id, at: int)
    | ReportQad(relay: Id, qadPort: Option<nat>)
    | AdminInvite(name: string, kind: InviteKind, managedBy: Option<Id>, ttl: nat, freshId: string, secret: string)
    | AdminRevokeInvite(inviteId: string)
    | AdminRemoveClient(name: string)
    | AdminTransferEdge(ownerName: string, name: string, newClient: string)
    | AdminRemoveEdge(ownerName: string, name: string)
    | AdminRemoveRelay(name: string)
    | AdminAddProvisioner(name: string, provisioner: Id)
    | AdminRemoveProvisioner(name: string)
    | CleanUp(staleInvites: seq<string>, expiredTombs: seq<Id>)

  predicate IsNameChar(c: char) {
    'a' <= c <= 'z' || 'A' <= c <= 'Z' || '0' <= c <= '9' || c == '-' || c == '_' || c == '.'
  }

  predicate ValidName(name: string) {
    1 <= |name| <= 64 && forall i | 0 <= i < |name| :: IsNameChar(name[i])
  }

  predicate ValidSecret(secret: string) {
    32 <= |secret| <= 128 && forall i | 0 <= i < |secret| :: IsNameChar(secret[i]) && secret[i] != '.'
  }

  predicate ValidRequestId(id: string) {
    1 <= |id| <= 128 && forall i | 0 <= i < |id| :: IsNameChar(id[i]) || id[i] == ':' || id[i] == '/'
  }

  /** An ideal digest. */
  function HashSecret(secret: string): string { secret }

  function TokenFor(invite: Invite, secret: string, controlId: Id): JoinToken {
    JoinToken(invite, secret, Signature(controlId, invite))
  }

  predicate ActivePending(r: InviteRecord, now: int) {
    r.state.Pending? && r.invite.expiresAt >= now
  }

  predicate SameSlot(a: InviteKind, aName: string, b: InviteKind, bName: string) {
    match (a, b)
    case (ForClient, ForClient) => aName == bName
    case (ForEdge(x), ForEdge(y)) => x == y && aName == bName
    case (ForRelay(x), ForRelay(y)) => aName == bName || x == y
    case _ => false
  }

  /** `validate_invite_name`. */
  predicate NameFree(s: ControlState, name: string, kind: InviteKind, now: int) {
    && (match kind
        case ForClient => forall c | c in s.clients :: s.clients[c].name != name
        case ForEdge(owner) => forall d | d in s.edges :: !(s.edges[d].owner == owner && s.edges[d].name == name)
        case ForRelay(url) => forall r | r in s.relays :: s.relays[r].name != name && s.relays[r].url != url)
    && forall i | i in s.invites && ActivePending(s.invites[i], now) ::
         !SameSlot(s.invites[i].invite.kind, s.invites[i].invite.name, kind, name)
  }

  function NewInvite(
    s: ControlState, controlId: Id, name: string, kind: InviteKind, ttl: nat, freshId: string, secret: string, now: int)
    : InviteRecord
  {
    InviteRecord(
      Invite(freshId, s.network.audience, s.network.publicUrl, controlId, name, kind, HashSecret(secret), now + ttl),
      Pending, None, None, None, None, None)
  }

  function AddingInvite(r: InviteRecord, secret: string, controlId: Id): Outcome {
    Do(AddInvite(r), Invited(r.invite.id, TokenFor(r.invite, secret, controlId), r.invite.expiresAt))
  }

  predicate TtlOk(ttl: nat, now: int) {
    1 <= ttl <= MAX_TTL_SECS && now + ttl <= I64_MAX
  }

  // Lookups by name return some matching record; names are unique, so there is only one.

  ghost function ClientNamed(s: ControlState, name: string): (r: Option<Id>)
    ensures r.Some? ==> r.value in s.clients && s.clients[r.value].name == name
    ensures r.None? ==> forall c | c in s.clients :: s.clients[c].name != name
  {
    if c :| c in s.clients && s.clients[c].name == name then Some(c) else None
  }

  ghost function ManagedClient(s: ControlState, name: string, p: Id): (r: Option<Id>)
    ensures r.Some? ==>
            r.value in s.clients && s.clients[r.value].name == name && s.clients[r.value].managedBy == Some(p)
    ensures r.None? ==> forall c | c in s.clients :: !(s.clients[c].name == name && s.clients[c].managedBy == Some(p))
  {
    if c :| c in s.clients && s.clients[c].name == name && s.clients[c].managedBy == Some(p) then Some(c) else None
  }

  ghost function EdgeOf(s: ControlState, owner: Id, name: string): (r: Option<Id>)
    ensures r.Some? ==> r.value in s.edges && s.edges[r.value].owner == owner && s.edges[r.value].name == name
    ensures r.None? ==> forall d | d in s.edges :: !(s.edges[d].owner == owner && s.edges[d].name == name)
  {
    if d :| d in s.edges && s.edges[d].owner == owner && s.edges[d].name == name then Some(d) else None
  }

  ghost function RelayNamed(s: ControlState, name: string): (r: Option<Id>)
    ensures r.Some? ==> r.value in s.relays && s.relays[r.value].name == name
  {
    if x :| x in s.relays && s.relays[x].name == name then Some(x) else None
  }

  ghost function ProvisionerNamed(s: ControlState, name: string): (r: Option<Id>)
    ensures r.Some? ==> r.value in s.provisioners && s.provisioners[r.value] == name
  {
    if p :| p in s.provisioners && s.provisioners[p] == name then Some(p) else None
  }

  ghost function RequestRecord(s: ControlState, p: Id, requestId: string): (r: Option<string>)
    ensures r.Some? ==> r.value in s.invites && s.invites[r.value].managedBy == Some(p)
    ensures r.Some? ==> s.invites[r.value].requestId == Some(requestId)
    ensures r.None? ==> forall i | i in s.invites ::
            !(s.invites[i].managedBy == Some(p) && s.invites[i].requestId == Some(requestId))
  {
    if i :| i in s.invites && s.invites[i].managedBy == Some(p) && s.invites[i].requestId == Some(requestId)
        then Some(i) else None
  }

  predicate RevisionOk(s: ControlState, expected: Option<nat>) {
    expected.Some? ==> expected.value == s.revision
  }

  function PlanClaim(s: ControlState, controlId: Id, q: Request): Outcome
    requires q.Claim?
  {
    var token, e := q.token, q.endpoint;
    if token.controlId != controlId || token.audience != s.network.audience || token.publicUrl != s.network.publicUrl
        then Refuse(Unauthorized)
    else if token.expiresAt < q.at then Refuse(Gone)
    else if token.id !in s.invites then Refuse(Gone)
    else if s.invites[token.id].invite != token then Refuse(Unauthorized)
    else if !token.kind.ForRelay? && (q.qadPort.Some? || q.hasCsr) then Refuse(Bad)
    else if token.kind.ForRelay? && (q.qadPort == Some(0) || q.qadPort.Some? != q.hasCsr) then Refuse(Bad)
    else
      var record := s.invites[token.id];
      match record.state
      case Withdrawn => Refuse(Gone)
      case Claimed =>
        if record.claimedBy != Some(e) then Refuse(Conflict)
        else if e in s.relays && s.relays[e].qadPort != q.qadPort then Refuse(Conflict)
        else if MapFor(s, controlId, e).None? then Refuse(Internal)
        else Reply(Acknowledged)
      case Pending =>
        var taken := match token.kind
          case ForClient => exists c | c in s.clients :: c == e || s.clients[c].name == token.name
          case ForEdge(owner) => exists d | d in s.edges ::
              d == e || (s.edges[d].owner == owner && s.edges[d].name == token.name)
          case ForRelay(url) => exists r | r in s.relays ::
              r == e || s.relays[r].name == token.name || s.relays[r].url == url;
        if token.kind.ForEdge? && token.kind.owner !in s.clients then Refuse(Bad)
        else if taken then Refuse(Conflict)
        else Do(Enroll(token.id, e, q.qadPort, q.at), Acknowledged)
  }

  function PlanClientEdgeInvite(s: ControlState, controlId: Id, q: Request, now: int): Outcome
    requires q.ClientEdgeInvite?
  {
    if !ValidName(q.name) || !(1 <= |q.requestId| <= 128) then Refuse(Bad)
    else if q.audience != s.network.audience then Refuse(Unauthorized)
    else if q.client !in s.clients then Refuse(Forbidden)
    else if exists i | i in s.invites :: s.invites[i].requestId == Some(q.requestId) then Refuse(Conflict)
    else if !NameFree(s, q.name, ForEdge(q.client), now) then Refuse(Conflict)
    else if !TtlOk(q.ttl, now) then Refuse(Bad)
    else
      var r := NewInvite(s, controlId, q.name, ForEdge(q.client), q.ttl, q.freshId, q.secret, now);
      AddingInvite(r.(requestId := Some(q.requestId), managedBy := s.clients[q.client].managedBy), q.secret, controlId)
  }

  /** `provisioner_invite`: a known request id is answered from its record, before anything else is checked. */
  ghost function PlanProvisionerInvite(
    s: ControlState, controlId: Id, q: Request, name: string, kind: InviteKind, ttl: nat, secret: string,
        now: int): Outcome
    requires q.FromProvisioner?
  {
    if !ValidName(name) || !ValidSecret(secret) then Refuse(Bad)
    else
      var known := RequestRecord(s, q.provisioner, q.requestId);
      if known.Some? then
        var r := s.invites[known.value];
        if r.requestHash != Some(q.action) then Refuse(Conflict)
        else if HashSecret(secret) != r.invite.secretHash then Refuse(Internal)
        else Reply(Invited(r.invite.id, TokenFor(r.invite, secret, controlId), r.invite.expiresAt))
      else if !RevisionOk(s, q.expected) || !NameFree(s, name, kind, now) then Refuse(Conflict)
      else if !TtlOk(ttl, now) then Refuse(Bad)
      else
        var r := NewInvite(s, controlId, name, kind, ttl, q.freshId, secret, now);
        AddingInvite(
          r.(requestId := Some(q.requestId), managedBy := Some(q.provisioner), requestHash := Some(q.action)), secret,
              controlId)
  }

  predicate OwnsPending(s: ControlState, c: Id, now: int) {
    exists i | i in s.invites :: ActivePending(s.invites[i], now) && s.invites[i].invite.kind == ForEdge(c)
  }

  ghost function PlanProvisioner(s: ControlState, controlId: Id, q: Request, now: int): Outcome
    requires q.FromProvisioner?
  {
    var p := q.provisioner;
    if !ValidRequestId(q.requestId) then Refuse(Bad)
    else if q.audience != s.network.audience then Refuse(Unauthorized)
    else if p !in s.provisioners then Refuse(Forbidden)
    else
      match q.action
      case InviteClient(name, ttl, secret) => PlanProvisionerInvite(s, controlId, q, name, ForClient, ttl, secret, now)
      case InviteEdge(owner, name, ttl, secret) =>
        var c := ManagedClient(s, owner, p);
        if c.None? then Refuse(Bad)
        else PlanProvisionerInvite(s, controlId, q, name, ForEdge(c.value), ttl, secret, now)
      case RevokeInvite(i) =>
        if i !in s.invites || s.invites[i].managedBy != Some(p) then Refuse(Bad)
        else if s.invites[i].state.Withdrawn? then Reply(Acknowledged)
        else if s.invites[i].state.Claimed? || !RevisionOk(s, q.expected) then Refuse(Conflict)
        else Do(EndInvite(i, now), Acknowledged)
      case RemoveClient(name) =>
        var c := ManagedClient(s, name, p);
        if c.None? then (if ClientNamed(s, name).Some? then Refuse(Forbidden) else Reply(Acknowledged))
        else if (exists d | d in s.edges :: s.edges[d].owner == c.value) || OwnsPending(s, c.value, now)
            then Refuse(Conflict)
        else if !RevisionOk(s, q.expected) then Refuse(Conflict)
        else Do(DropClient(c.value), Acknowledged)
      case RemoveEdge(owner, name) =>
        var c := ManagedClient(s, owner, p);
        if c.None? then Refuse(Bad)
        else
          var d := EdgeOf(s, c.value, name);
          if d.None? then Reply(Acknowledged)
          else if !RevisionOk(s, q.expected) then Refuse(Conflict)
          else Do(DropEdge(d.value), Acknowledged)
      case TransferEdge(owner, name, e, newOwner) =>
        var c, c' := ManagedClient(s, owner, p), ManagedClient(s, newOwner, p);
        if c.None? || c'.None? then Refuse(Bad)
        else if !(e in s.edges && s.edges[e].owner == c.value && s.edges[e].name == name) then
          if e in s.edges && s.edges[e].owner == c'.value && s.edges[e].name == name then Reply(Acknowledged)
              else Refuse(Bad)
        else if EdgeOf(s, c'.value, name).Some? || !RevisionOk(s, q.expected) then Refuse(Conflict)
        else Do(MoveEdge(e, c'.value), Acknowledged)
  }

  function PlanWatch(s: ControlState, e: Id, at: int): Outcome {
    var renewAt := SatAdd(at, Auth.RENEW_BEFORE_SECS);
    if e in s.clients then
      if s.clients[e].grant.expiresAt > renewAt then Reply(Acknowledged) else Do(RenewClient(e, at), Acknowledged)
    else if e in s.edges then
      if s.edges[e].grant.expiresAt > renewAt then Reply(Acknowledged) else Do(RenewEdge(e, at), Acknowledged)
    else Refuse(Forbidden)
  }

  ghost function PlanAdmin(s: ControlState, controlId: Id, q: Request, now: int): Outcome {
    match q
    case AdminInvite(name, kind, managedBy, ttl, freshId, secret) =>
      if !ValidName(name) then Refuse(Bad)
      else if !NameFree(s, name, kind, now) then Refuse(Conflict)
      else if !TtlOk(ttl, now) then Refuse(Bad)
      else AddingInvite(NewInvite(s, controlId, name, kind, ttl, freshId, secret, now).(managedBy := managedBy),
          secret, controlId)
    case AdminRevokeInvite(i) =>
      if i !in s.invites then Refuse(Bad)
      else if s.invites[i].state.Claimed? then Refuse(Conflict)
      else if s.invites[i].state.Withdrawn? then Reply(Acknowledged)
      else Do(EndInvite(i, now), Acknowledged)
    case AdminRemoveClient(name) =>
      var c := ClientNamed(s, name);
      if c.None? then Refuse(Bad)
      else if (exists d | d in s.edges :: s.edges[d].owner == c.value) || OwnsPending(s, c.value, now)
          then Refuse(Conflict)
      else Do(DropClient(c.value), Acknowledged)
    case AdminTransferEdge(ownerName, name, newClient) =>
      var c, c' := ClientNamed(s, ownerName), ClientNamed(s, newClient);
      if c.None? || c'.None? then Refuse(Bad)
      else if EdgeOf(s, c'.value, name).Some? then Refuse(Conflict)
      else if EdgeOf(s, c.value, name).None? then Refuse(Bad)
      else Do(MoveEdge(EdgeOf(s, c.value, name).value, c'.value), Acknowledged)
    case AdminRemoveEdge(ownerName, name) =>
      var c := ClientNamed(s, ownerName);
      if c.None? || EdgeOf(s, c.value, name).None? then Refuse(Bad)
      else Do(DropEdge(EdgeOf(s, c.value, name).value), Acknowledged)
    case AdminRemoveRelay(name) =>
      var r := RelayNamed(s, name);
      if r.None? then Refuse(Bad) else Do(DropRelay(r.value), Acknowledged)
    case AdminAddProvisioner(name, p) =>
      if !ValidName(name) then Refuse(Bad)
      else if exists q | q in s.provisioners :: q == p || s.provisioners[q] == name then Refuse(Conflict)
      else Do(AddProvisioner(p, name), Acknowledged)
    case AdminRemoveProvisioner(name) =>
      var p := ProvisionerNamed(s, name);
      if p.None? then Refuse(Bad)
      else if exists c | c in s.clients :: s.clients[c].managedBy == Some(p.value) then Refuse(Conflict)
      else if exists i | i in s.invites ::
          ActivePending(s.invites[i], now) && s.invites[i].managedBy == Some(p.value) then Refuse(Conflict)
      else Do(DropProvisioner(p.value), Acknowledged)
    case _ => Refuse(Bad)
  }

  /** What each handler decides under the state lock. */
  ghost function Plan(s: ControlState, controlId: Id, q: Request, now: int): Outcome {
    match q
    case Claim(_, _, _, _, _) => PlanClaim(s, controlId, q)
    case ClientEdgeInvite(_, _, _, _, _, _, _) => PlanClientEdgeInvite(s, controlId, q, now)
    case ClientEdgeRemove(c, audience, name, e) =>
      if audience != s.network.audience then Refuse(Unauthorized)
      else if c !in s.clients then Refuse(Forbidden)
      else if !(e in s.edges && s.edges[e].owner == c && s.edges[e].name == name) then Refuse(Bad)
      else Do(DropEdge(e), Acknowledged)
    case FromProvisioner(_, _, _, _, _, _) => PlanProvisioner(s, controlId, q, now)
    case Watch(e, at) => PlanWatch(s, e, at)
    case ReportQad(r, port) =>
      if port == Some(0) then Refuse(Bad)
      else if r !in s.relays then Refuse(Forbidden)
      else if s.relays[r].qadPort == port then Reply(Acknowledged)
      else Do(SetQadPort(r, port), Acknowledged)
    case CleanUp(invites, tombs) =>
      if Enumerates(invites, StaleInvites(s, now)) && Enumerates(tombs, ExpiredTombs(s, now)) && |invites| + |tombs| > 0
      then Do(Sweep(invites, tombs), Acknowledged) else Reply(Acknowledged)
    case _ => PlanAdmin(s, controlId, q, now)
  }

  // ---------- views ----------

  datatype EdgeInfo = EdgeInfo(name: string, owner: Id, ownerName: string)

  datatype NodeMap = NodeMap(
    revision: nat, recipient: Id, relays: map<Id, RelayRecord>, credential: Option<Credential>,
    allowedClients: seq<Id>, edges: map<Id, EdgeInfo>)

  function RelayCredential(s: ControlState, controlId: Id, e: Id, kind: SubjectKind, g: Auth.Grant): Credential {
    Credential(PROTOCOL_VERSION, s.network.audience, controlId, e, kind, g.generation, g.issuedAt, g.expiresAt)
  }

  function OwnerName(s: ControlState, c: Id): string { if c in s.clients then s.clients[c].name else "unknown" }

  /** `signed_map`: an endpoint's view of the network; the Edge role is looked up first. */
  function MapFor(s: ControlState, controlId: Id, e: Id): Option<NodeMap> {
    if e in s.edges then
      Some(NodeMap(s.revision, e, s.relays,
          Some(RelayCredential(s, controlId, e, SubjectKind.Edge, s.edges[e].grant)), [s.edges[e].owner], map[]))
    else if e in s.clients then
      Some(NodeMap(s.revision, e, s.relays,
          Some(RelayCredential(s, controlId, e, SubjectKind.Client, s.clients[e].grant)), [],
                   map d | d in s.edges && s.edges[d].owner == e :: EdgeInfo(s.edges[d].name, e, OwnerName(s, e))))
    else if e in s.relays then Some(NodeMap(s.revision, e, s.relays, None, [], map[]))
    else None
  }

  datatype InviteStatus = IsPending | IsExpired | IsClaimed | IsRevoked

  datatype InviteInfo = InviteInfo(name: string, kind: InviteKind, expiresAt: int, status: InviteStatus)

  datatype ManagedClientInfo = ManagedClientInfo(name: string, edges: map<Id, string>)

  datatype Topology = Topology(clients: map<Id, ManagedClientInfo>, invites: map<string, InviteInfo>)

  function InfoOf(r: InviteRecord, now: int): InviteInfo {
    InviteInfo(r.invite.name, r.invite.kind, r.invite.expiresAt,
      match r.state
      case Pending => if r.invite.expiresAt < now then IsExpired else IsPending
      case Claimed => IsClaimed
      case Withdrawn => IsRevoked)
  }

  function EdgesOwned(edges: map<Id, EdgeRecord>, owner: Id): map<Id, string> {
    map d | d in edges && edges[d].owner == owner :: edges[d].name
  }

  function ManagedClients(clients: map<Id, ClientRecord>, edges: map<Id, EdgeRecord>, p: Id)
    : map<Id, ManagedClientInfo>
  {
    map c | c in clients && clients[c].managedBy == Some(p) :: ManagedClientInfo(clients[c].name, EdgesOwned(edges, c))
  }

  function ManagedInvites(invites: map<string, InviteRecord>, p: Id, now: int): map<string, InviteInfo> {
    map i | i in invites && invites[i].managedBy == Some(p) :: InfoOf(invites[i], now)
  }

  /** `provisioner_topology`, apart from its revision number. */
  function TopologyOf(s: ControlState, p: Id, now: int): Topology {
    Topology(ManagedClients(s.clients, s.edges, p), ManagedInvites(s.invites, p, now))
  }
}
