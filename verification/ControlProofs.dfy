/** What every Control mutation keeps, and how it looks to the authorization protocol. */
module ControlProofs {
  import opened Base
  import opened RelayApi
  import Auth = Authorization
  import opened Control

  ghost predicate ClientNamesOk(t: map<Id, ClientRecord>) {
    forall c, d | c in t && d in t && c != d :: t[c].name != t[d].name
  }

  ghost predicate EdgeNamesOk(t: map<Id, EdgeRecord>) {
    forall c, d | c in t && d in t && c != d :: !(t[c].owner == t[d].owner && t[c].name == t[d].name)
  }

  ghost predicate RelayNamesOk(t: map<Id, RelayRecord>) {
    forall c, d | c in t && d in t && c != d :: t[c].name != t[d].name && t[c].url != t[d].url
  }

  ghost predicate ProvisionerNamesOk(t: map<Id, string>) {
    forall c, d | c in t && d in t && c != d :: t[c] != t[d]
  }

  ghost predicate NamesOk(s: ControlState) {
    ClientNamesOk(s.clients) && EdgeNamesOk(s.edges) && RelayNamesOk(s.relays) && ProvisionerNamesOk(s.provisioners)
  }

  ghost predicate OwnersOk(s: ControlState) {
    forall d | d in s.edges :: s.edges[d].owner in s.clients
  }

  ghost predicate InvitesOk(s: ControlState) {
    && (forall i | i in s.invites ::
          var r := s.invites[i];
          r.invite.id == i && (r.state.Pending? <==> r.terminalAt.None?) && (r.state.Claimed? <==> r.claimedBy.Some?))
    && (forall i, j | i in s.invites && j in s.invites && i != j && s.invites[i].requestId.Some? ::
          !(s.invites[i].requestId == s.invites[j].requestId && s.invites[i].managedBy == s.invites[j].managedBy))
  }

  ghost predicate ControlOk(s: ControlState) { NamesOk(s) && OwnersOk(s) && InvitesOk(s) }

  // ---------- effects in closed form ----------

  lemma OneChange(s: ControlState, c: StateChange)
    ensures ApplyChanges(s, [c]) == ApplyChange(s, c)
  {
    assert [c][..0] == [];
  }

  lemma TwoChanges(s: ControlState, c: StateChange, d: StateChange)
    ensures ApplyChanges(s, [c, d]) == ApplyChange(ApplyChange(s, c), d)
  {
    assert [c, d][..1] == [c];
    OneChange(s, c);
  }

  lemma {:induction false} ManyChanges(s: ControlState, a: seq<StateChange>, b: seq<StateChange>)
    ensures ApplyChanges(s, a + b) == ApplyChanges(ApplyChanges(s, a), b)
  {
    if b == [] {
      assert a + b == a;
    } else {
      assert (a + b)[..|a + b| - 1] == a + b[..|b| - 1];
      ManyChanges(s, a, b[..|b| - 1]);
    }
  }

  function InviteDeletions(ids: seq<string>): seq<StateChange> {
    seq(|ids|, i requires 0 <= i < |ids| => DeleteInvite(ids[i]))
  }

  function TombDeletions(ids: seq<Id>): seq<StateChange> {
    seq(|ids|, i requires 0 <= i < |ids| => DeleteTomb(ids[i]))
  }

  /** Removing listed keys one by one. */
  lemma RemoveLast<V>(m: map<string, V>, ids: seq<string>, init: seq<string>, last: string)
    requires ids == init + [last]
    ensures (m - set i | i in init) - {last} == m - set i | i in ids
  {
    assert (set i | i in ids) == (set i | i in init) + {last};
  }

  lemma {:induction false} DeletedInvites(s: ControlState, ids: seq<string>)
    ensures ApplyChanges(s, InviteDeletions(ids)) == s.(invites := s.invites - set i | i in ids)
  {
    if ids == [] {
      assert s.invites - (set i | i in ids) == s.invites;
    } else {
      var init, last := ids[..|ids| - 1], ids[|ids| - 1];
      DeletedInvites(s, init);
      assert InviteDeletions(ids)[..|ids| - 1] == InviteDeletions(init);
      RemoveLast(s.invites, ids, init, last);
    }
  }

  lemma {:induction false} DeletedTombs(s: ControlState, ids: seq<Id>)
    ensures ApplyChanges(s, TombDeletions(ids)) == s.(tombs := s.tombs - set i | i in ids)
  {
    if ids == [] {
      assert s.tombs - (set i | i in ids) == s.tombs;
    } else {
      var init, last := ids[..|ids| - 1], ids[|ids| - 1];
      DeletedTombs(s, init);
      assert TombDeletions(ids)[..|ids| - 1] == TombDeletions(init);
      RemoveLast(s.tombs, ids, init, last);
    }
  }

  function Performed(s: ControlState, m: Mutation, clock: int): ControlState
    requires Guard(s, m, clock)
  {
    Committed(s, DeltaOf(s, m, clock))
  }

  lemma SweepEffect(s: ControlState, invites: seq<string>, tombs: seq<Id>, clock: int)
    requires Guard(s, Sweep(invites, tombs), clock)
    ensures Performed(s, Sweep(invites, tombs), clock) ==
            s.(invites := s.invites - StaleInvites(s, clock), tombs := s.tombs - ExpiredTombs(s, clock))
  {
    ManyChanges(s, InviteDeletions(invites), TombDeletions(tombs));
    DeletedInvites(s, invites);
    DeletedTombs(s.(invites := s.invites - StaleInvites(s, clock)), tombs);
    assert DeltaOf(s, Sweep(invites, tombs), clock).changes == InviteDeletions(invites) + TombDeletions(tombs);
  }

  /** The committed state of a one- or two-change mutation, without the fold. */
  lemma Effect(s: ControlState, m: Mutation, clock: int)
    requires Guard(s, m, clock) && !m.Sweep?
    ensures var d := DeltaOf(s, m, clock);
            var after := if |d.changes| == 1 then ApplyChange(s, d.changes[0])
                else ApplyChange(ApplyChange(s, d.changes[0]), d.changes[1]);
            Performed(s, m, clock) ==
            after.(revision := BumpedRevision(s, d.publish), relayRevision := BumpedRelayRevision(s, d.publish))
  {
    var d := DeltaOf(s, m, clock);
    if |d.changes| == 1 {
      assert d.changes == [d.changes[0]];
      OneChange(s, d.changes[0]);
    } else {
      assert d.changes == [d.changes[0], d.changes[1]];
      TwoChanges(s, d.changes[0], d.changes[1]);
    }
  }

  // ---------- the global invariant ----------

  lemma ClientsAfter(s: ControlState, m: Mutation, clock: int)
    requires Guard(s, m, clock)
    ensures Performed(s, m, clock).clients ==
            match m
            case Enroll(i, e, _, at) =>
              if s.invites[i].invite.kind.ForClient?
              then s.clients[e :=
                  ClientRecord(s.invites[i].invite.name, s.invites[i].managedBy, Auth.Renewed(s.revision + 1, at))]
              else s.clients
            case DropClient(c) => s.clients - {c}
            case RenewClient(c, at) =>
                s.clients[c := s.clients[c].(grant := Auth.Renewed(s.clients[c].grant.generation, at))]
            case _ => s.clients
  {
    if m.Sweep? { SweepEffect(s, m.invites, m.tombs, clock); } else { Effect(s, m, clock); }
  }

  lemma EdgesAfter(s: ControlState, m: Mutation, clock: int)
    requires Guard(s, m, clock)
    ensures Performed(s, m, clock).edges ==
            match m
            case Enroll(i, e, _, at) =>
              if s.invites[i].invite.kind.ForEdge?
              then s.edges[e := EdgeRecord(s.invites[i].invite.name, s.invites[i].invite.kind.owner,
                  Auth.Renewed(s.revision + 1, at))]
              else s.edges
            case DropEdge(d) => s.edges - {d}
            case MoveEdge(d, owner) => s.edges[d := s.edges[d].(owner := owner)]
            case RenewEdge(d, at) => s.edges[d := s.edges[d].(grant := Auth.Renewed(s.edges[d].grant.generation, at))]
            case _ => s.edges
  {
    if m.Sweep? { SweepEffect(s, m.invites, m.tombs, clock); } else { Effect(s, m, clock); }
  }

  lemma RelaysAfter(s: ControlState, m: Mutation, clock: int)
    requires Guard(s, m, clock)
    ensures Performed(s, m, clock).relays ==
            match m
            case Enroll(i, e, qad, _) =>
              if s.invites[i].invite.kind.ForRelay?
              then s.relays[e := RelayRecord(s.invites[i].invite.name, s.invites[i].invite.kind.url, qad)]
              else s.relays
            case DropRelay(r) => s.relays - {r}
            case SetQadPort(r, port) => s.relays[r := s.relays[r].(qadPort := port)]
            case _ => s.relays
    ensures Performed(s, m, clock).provisioners ==
            match m
            case AddProvisioner(p, name) => s.provisioners[p := name]
            case DropProvisioner(p) => s.provisioners - {p}
            case _ => s.provisioners
  {
    if m.Sweep? { SweepEffect(s, m.invites, m.tombs, clock); } else { Effect(s, m, clock); }
  }

  lemma MutationKeepsNames(s: ControlState, m: Mutation, clock: int)
    requires NamesOk(s) && Guard(s, m, clock)
    ensures NamesOk(Performed(s, m, clock))
  {
    ClientsAfter(s, m, clock);
    EdgesAfter(s, m, clock);
    RelaysAfter(s, m, clock);
  }

  lemma MutationKeepsOwners(s: ControlState, m: Mutation, clock: int)
    requires OwnersOk(s) && Guard(s, m, clock)
    ensures OwnersOk(Performed(s, m, clock))
  {
    ClientsAfter(s, m, clock);
    EdgesAfter(s, m, clock);
  }

  lemma ClaimMarksInvite(s: ControlState, m: Mutation, clock: int)
    requires InvitesOk(s) && Guard(s, m, clock) && m.Enroll?
    ensures Performed(s, m, clock).invites == s.invites[m.inviteId := s.invites[m.inviteId].(
              state := Claimed, claimedBy := Some(m.endpoint), terminalAt := Some(m.at))]
  {
    Effect(s, m, clock);
  }

  /** What a mutation can do to the invitations: nothing, add, end or claim one, or drop stale ones. */
  lemma InvitesAfter(s: ControlState, m: Mutation, clock: int)
    requires InvitesOk(s) && Guard(s, m, clock)
    ensures Performed(s, m, clock).invites ==
            match m
            case Enroll(i, e, _, at) =>
                s.invites[i := s.invites[i].(state := Claimed, claimedBy := Some(e), terminalAt := Some(at))]
            case AddInvite(r) => s.invites[r.invite.id := r]
            case EndInvite(i, at) => s.invites[i := s.invites[i].(state := Withdrawn, terminalAt := Some(at))]
            case Sweep(_, _) => s.invites - StaleInvites(s, clock)
            case _ => s.invites
  {
    if m.Sweep? {
      SweepEffect(s, m.invites, m.tombs, clock);
    } else if m.Enroll? {
      ClaimMarksInvite(s, m, clock);
    } else {
      Effect(s, m, clock);
    }
  }

  lemma MutationKeepsInvites(s: ControlState, m: Mutation, clock: int)
    requires InvitesOk(s) && Guard(s, m, clock)
    ensures InvitesOk(Performed(s, m, clock))
  {
    InvitesAfter(s, m, clock);
  }

  /** Every mutation a handler may perform keeps names, identities, owners and invitations consistent. */
  lemma MutationKeepsOk(s: ControlState, m: Mutation, clock: int)
    requires ControlOk(s) && Guard(s, m, clock)
    ensures ControlOk(Performed(s, m, clock))
  {
    MutationKeepsNames(s, m, clock);
    MutationKeepsOwners(s, m, clock);
    MutationKeepsInvites(s, m, clock);
  }

  /** Requests carry clock readings from the past and invitation ids nobody has seen. */
  predicate RequestOk(s: ControlState, q: Request, now: int) {
    && (q.Claim? || q.Watch? ==> q.at <= now)
    && (Invites(q) ==> q.freshId !in s.invites)
  }

  lemma ClaimsAreGuarded(s: ControlState, controlId: Id, q: Request, now: int)
    requires q.Claim? && q.at <= now && PlanClaim(s, controlId, q).Do?
    ensures Guard(s, PlanClaim(s, controlId, q).mutation, now)
  {}

  lemma ProvisionerPlansAreGuarded(s: ControlState, controlId: Id, q: Request, now: int)
    requires q.FromProvisioner? && q.freshId !in s.invites && PlanProvisioner(s, controlId, q, now).Do?
    ensures Guard(s, PlanProvisioner(s, controlId, q, now).mutation, now)
  {}

  lemma AdminPlansAreGuarded(s: ControlState, controlId: Id, q: Request, now: int)
    requires RequestOk(s, q, now) && PlanAdmin(s, controlId, q, now).Do?
    ensures Guard(s, PlanAdmin(s, controlId, q, now).mutation, now)
  {}

  /** No handler decides on a mutation without having made its checks. */
  lemma PlansAreGuarded(s: ControlState, controlId: Id, q: Request, now: int)
    requires RequestOk(s, q, now) && Plan(s, controlId, q, now).Do?
    ensures Guard(s, Plan(s, controlId, q, now).mutation, now)
  {
    match q
    case Claim(_, _, _, _, _) => ClaimsAreGuarded(s, controlId, q, now);
    case FromProvisioner(_, _, _, _, _, _) => ProvisionerPlansAreGuarded(s, controlId, q, now);
    case ClientEdgeInvite(_, _, _, _, _, _, _) =>
    case ClientEdgeRemove(_, _, _, _) =>
    case Watch(_, _) =>
    case ReportQad(_, _) =>
    case CleanUp(_, _) =>
    case _ => AdminPlansAreGuarded(s, controlId, q, now);
  }

  predicate Invites(q: Request) { q.ClientEdgeInvite? || q.FromProvisioner? || q.AdminInvite? }

  /** A new invitation carries the request's fresh id. */
  lemma NewInvitesAreFresh(s: ControlState, controlId: Id, q: Request, now: int)
    requires Plan(s, controlId, q, now).Do? && Plan(s, controlId, q, now).mutation.AddInvite?
    ensures Invites(q) && Plan(s, controlId, q, now).mutation.record.invite.id == q.freshId
  {}

  // ---------- refinement of the authorization protocol ----------

  function Roles(s: ControlState): set<Auth.Enrollment> {
    (set c | c in s.clients :: Auth.Enrollment(c, SubjectKind.Client)) +
    (set d | d in s.edges :: Auth.Enrollment(d, SubjectKind.Edge))
  }

  function GrantOf(s: ControlState, w: Auth.Enrollment): Auth.Grant
    requires w in Roles(s)
  {
    if w.kind.Client? then s.clients[w.endpoint].grant else s.edges[w.endpoint].grant
  }

  /** The part of Control's state the authorization protocol is about. */
  function Authority(s: ControlState): Auth.Authority {
    Auth.Authority(s.revision, s.relayRevision, map w | w in Roles(s) :: GrantOf(s, w), s.tombs)
  }

  function ChangeOf(s: ControlState, m: Mutation, clock: int): Auth.Change
    requires Guard(s, m, clock)
  {
    match m
    case Enroll(i, e, _, at) =>
      (match s.invites[i].invite.kind
       case ForClient => Auth.Enroll(Auth.Enrollment(e, SubjectKind.Client), at)
       case ForEdge(_) => Auth.Enroll(Auth.Enrollment(e, SubjectKind.Edge), at)
       case ForRelay(_) => Auth.Change.Publish(false))
    case DropClient(c) => Auth.Remove(Auth.Enrollment(c, SubjectKind.Client))
    case DropEdge(d) => Auth.Remove(Auth.Enrollment(d, SubjectKind.Edge))
    case RenewClient(c, at) => Auth.Renew(Auth.Enrollment(c, SubjectKind.Client), at)
    case RenewEdge(d, at) => Auth.Renew(Auth.Enrollment(d, SubjectKind.Edge), at)
    case Sweep(_, _) => Auth.Collect(ExpiredTombs(s, clock))
    case DropRelay(_) => Auth.Change.Publish(true)
    case _ => Auth.Change.Publish(false)
  }

  lemma TombsAfter(s: ControlState, m: Mutation, clock: int)
    requires Guard(s, m, clock)
    ensures var s' := Performed(s, m, clock);
            && s'.network == s.network
            && s'.revision == BumpedRevision(s, DeltaOf(s, m, clock).publish)
            && s'.relayRevision == BumpedRelayRevision(s, DeltaOf(s, m, clock).publish)
            && s'.tombs ==
               match m
               case DropClient(c) => s.tombs[c := Auth.Bury(s.tombs, c, s.clients[c].grant, s.relayRevision)]
               case DropEdge(d) => s.tombs[d := Auth.Bury(s.tombs, d, s.edges[d].grant, s.relayRevision)]
               case Sweep(_, _) => s.tombs - ExpiredTombs(s, clock)
               case _ => s.tombs
  {
    if m.Sweep? { SweepEffect(s, m.invites, m.tombs, clock); } else { Effect(s, m, clock); }
  }

  lemma ClientGranted(s: ControlState, s': ControlState, e: Id, r: ClientRecord)
    requires s'.clients == s.clients[e := r] && s'.edges == s.edges
    ensures Authority(s').live == Authority(s).live[Auth.Enrollment(e, SubjectKind.Client) := r.grant]
  {}

  lemma EdgeGranted(s: ControlState, s': ControlState, e: Id, r: EdgeRecord)
    requires s'.clients == s.clients && s'.edges == s.edges[e := r]
    ensures Authority(s').live == Authority(s).live[Auth.Enrollment(e, SubjectKind.Edge) := r.grant]
  {}

  lemma ClientDropped(s: ControlState, s': ControlState, e: Id)
    requires s'.clients == s.clients - {e} && s'.edges == s.edges
    ensures Authority(s').live == Authority(s).live - {Auth.Enrollment(e, SubjectKind.Client)}
  {}

  lemma EdgeDropped(s: ControlState, s': ControlState, e: Id)
    requires s'.clients == s.clients && s'.edges == s.edges - {e}
    ensures Authority(s').live == Authority(s).live - {Auth.Enrollment(e, SubjectKind.Edge)}
  {}

  lemma LiveAfter(s: ControlState, m: Mutation, clock: int)
    requires Guard(s, m, clock)
    ensures Authority(Performed(s, m, clock)).live ==
            var live := Authority(s).live;
            match ChangeOf(s, m, clock)
            case Enroll(w, at) => live[w := Auth.Renewed(s.revision + 1, at)]
            case Renew(w, at) => live[w := Auth.Renewed(live[w].generation, at)]
            case Remove(w) => live - {w}
            case _ => live
  {
    ClientsAfter(s, m, clock);
    EdgesAfter(s, m, clock);
    var s' := Performed(s, m, clock);
    match m
    case Enroll(i, e, _, at) =>
      if s.invites[i].invite.kind.ForClient? { ClientGranted(s, s', e, s'.clients[e]); }
      else if s.invites[i].invite.kind.ForEdge? { EdgeGranted(s, s', e, s'.edges[e]); }
    case DropClient(c) => ClientDropped(s, s', c);
    case DropEdge(d) => EdgeDropped(s, s', d);
    case RenewClient(c, _) => ClientGranted(s, s', c, s'.clients[c]);
    case RenewEdge(d, _) => EdgeGranted(s, s', d, s'.edges[d]);
    case MoveEdge(d, _) => EdgeGranted(s, s', d, s'.edges[d]);
    case _ =>
  }

  lemma MutationAllowed(s: ControlState, m: Mutation, clock: int)
    requires Guard(s, m, clock) && PassesChecks(DeltaOf(s, m, clock))
    ensures Auth.Allowed(Authority(s), ChangeOf(s, m, clock), clock)
  {
    var d := DeltaOf(s, m, clock);
    if !m.Sweep? { assert d.changes[0] in d.changes; }
  }

  /** Every mutation that passes the table checks is one step of the authorization protocol's Control. */
  lemma MutationRefines(s: ControlState, m: Mutation, clock: int)
    requires Guard(s, m, clock) && PassesChecks(DeltaOf(s, m, clock))
    ensures Auth.Allowed(Authority(s), ChangeOf(s, m, clock), clock)
    ensures Authority(Performed(s, m, clock)) == Auth.After(Authority(s), ChangeOf(s, m, clock), clock)
  {
    MutationAllowed(s, m, clock);
    LiveAfter(s, m, clock);
    TombsAfter(s, m, clock);
  }
}
