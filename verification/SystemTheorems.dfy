/** What holds in every run of Control with all its handlers and any number of Relays. */
module SystemTheorems {
  import opened Base
  import opened RelayApi
  import Relay
  import Auth = Authorization
  import AuthTheorems = AuthorizationTheorems
  import Provenance
  import Sessions
  import opened Control
  import opened ControlProofs
  import opened ControlTheorems
  import opened ControlSystem

  // ---------- lifted from the protocol ----------

  lemma ReachedProtocol(c: Sys, steps: seq<Step>)
    requires Initial(c)
    ensures Auth.Initial(Project(c))
    ensures Project(Execute(c, steps)) == Auth.Execute(Project(c), Shadows(c, steps))
    ensures Auth.Inv(Project(Execute(c, steps)))
  {
    InitialRefines(c);
    RunRefines(c, steps);
    Provenance.Reached(Project(c), Shadows(c, steps));
  }

  lemma {:induction false} RunsJoin(c: Sys, a: seq<Step>, b: seq<Step>)
    ensures Execute(c, a + b) == Execute(Execute(c, a), b)
    ensures Shadows(c, a + b) == Shadows(c, a) + Shadows(Execute(c, a), b)
  {
    if b == [] {
      assert a + b == a;
    } else {
      assert (a + b)[..|a + b| - 1] == a + b[..|b| - 1];
      RunsJoin(c, a, b[..|b| - 1]);
    }
  }

  /**
   * Revocation safety for the whole Control: claims, renewals, removals, transfers, cleanups and all the
   * rest. A Relay that has reached a removal's revision refuses its credentials in every continuation.
   */
  lemma RemovedNeverAdmitted(
    c: Sys, steps: seq<Step>, more: seq<Step>, id: Id, r: Auth.Removal, cred: Credential, peer: Id, now: int)
    requires Initial(c)
    requires var s := Execute(c, steps);
             id in s.nodes && r in s.removed && s.nodes[id].current.version >= r.revision
    requires var z := Execute(c, steps + more);
             cred in z.issued && cred.generation == r.grant.generation && now >= z.clock
    ensures var z := Execute(c, steps + more);
            id in z.nodes && Auth.Admission(World(z), z.nodes[id], peer, cred, now).Err?
  {
    ReachedProtocol(c, steps);
    ReachedProtocol(c, steps + more);
    RunsJoin(c, steps, more);
    AuthTheorems.RevocationSafety(
      Project(c), Shadows(c, steps), Shadows(Execute(c, steps), more), id, r, cred, peer, now);
  }

  /** No enrollment of `e` that began after the role its map carries has been removed. */
  ghost predicate Clear(z: Sys, e: Id)
    requires RoleOf(z.control, e).Some?
  {
    forall r | r in z.removed && r.who.endpoint == e ::
      r.grant.generation <= GrantOf(z.control, RoleOf(z.control, e).value).generation
  }

  lemma MapCarriesRole(z: Sys, e: Id)
    requires RoleOf(z.control, e).Some?
    ensures var w := RoleOf(z.control, e).value;
            && w in Authority(z.control).live && w.endpoint == e
            && Authority(z.control).live[w] == GrantOf(z.control, w)
            && MapFor(z.control, z.controlId, e).Some?
            && MapFor(z.control, z.controlId, e).value.credential == Some(Auth.CredentialOf(World(z), w))
  {
    assert RoleOf(z.control, e).value in Roles(z.control);
  }

  /**
   * A registered endpoint is admitted by every enrolled Relay with the unexpired credential its current map
   * carries, unless a role it took on later has been removed.
   */
  lemma LiveNeverDenied(c: Sys, steps: seq<Step>, id: Id, e: Id)
    requires Initial(c)
    requires var z := Execute(c, steps);
             id in z.nodes && !z.nodes[id].enrollmentRevoked && RoleOf(z.control, e).Some? && Clear(z, e)
    ensures var z := Execute(c, steps);
            var fetched := MapFor(z.control, z.controlId, e);
            && fetched.Some? && fetched.value.credential.Some?
            && (fetched.value.credential.value.expiresAt > z.clock ==>
                  Auth.Admission(World(z), z.nodes[id], e, fetched.value.credential.value, z.clock) == Ok(()))
  {
    var z := Execute(c, steps);
    MapCarriesRole(z, e);
    ReachedProtocol(c, steps);
    AuthTheorems.NoFalseDenial(Project(c), Shadows(c, steps), id, RoleOf(z.control, e).value);
  }

  /** And it is denied by every Relay that has learned of such a removal, while the removed role would have lasted. */
  lemma LaterRemovalDenies(c: Sys, steps: seq<Step>, id: Id, e: Id, r: Auth.Removal)
    requires Initial(c)
    requires var z := Execute(c, steps);
             && id in z.nodes && RoleOf(z.control, e).Some? && r in z.removed && r.who.endpoint == e
             && r.grant.generation > GrantOf(z.control, RoleOf(z.control, e).value).generation
             && r.grant.expiresAt > z.clock && r.revision <= z.nodes[id].current.version
    ensures var z := Execute(c, steps);
            var fetched := MapFor(z.control, z.controlId, e);
            && fetched.Some? && fetched.value.credential.Some?
            && Auth.Admission(World(z), z.nodes[id], e, fetched.value.credential.value, z.clock).Err?
  {
    var z := Execute(c, steps);
    MapCarriesRole(z, e);
    ReachedProtocol(c, steps);
    AuthTheorems.LaterRemovalDenies(Project(c), Shadows(c, steps), id, RoleOf(z.control, e).value, r);
  }

  /** Over every run of the whole Control, sessions stay safe throughout exactly when no activated update was raced. */
  lemma SessionsSafeExactly(c: Sys, steps: seq<Step>)
    requires Initial(c)
    ensures AuthTheorems.AlwaysSafe(Project(c), Shadows(c, steps)) <==>
            AuthTheorems.NeverRaced(Project(c), Shadows(c, steps))
    ensures AuthTheorems.NeverRaced(Project(c), Shadows(c, steps)) ==> AuthTheorems.AllSafe(Project(Execute(c, steps)))
  {
    ReachedProtocol(c, steps);
    AuthTheorems.SessionsSafeExactly(Project(c), Shadows(c, steps));
  }

  // ---------- sessions ----------

  /** Control gives the credential away at this step, in the map of a registered endpoint. */
  ghost predicate Hands(c: Sys, step: Step, cred: Credential) {
    && step.Fetch? && step.endpoint == cred.endpoint && RoleOf(c.control, cred.endpoint).Some?
    && var g := GrantOf(c.control, RoleOf(c.control, cred.endpoint).value);
       cred.generation == g.generation && cred.issuedAt == g.issuedAt && cred.expiresAt == g.expiresAt
  }

  ghost predicate WasHanded(c: Sys, steps: seq<Step>, cred: Credential) {
    exists k :: 0 <= k < |steps| && Hands(Execute(c, steps[..k]), steps[k], cred)
  }

  lemma NewlyIssuedIsHanded(c: Sys, step: Step, cred: Credential)
    requires cred in Next(c, step).issued && cred !in c.issued
    ensures Hands(c, step, cred)
  {
    if step.Fetch? { MapCarriesRole(c, step.endpoint); }
  }

  /** Every credential in circulation was in a map Control gave its endpoint while that endpoint was registered. */
  lemma {:induction false} IssuedWasHanded(c: Sys, steps: seq<Step>, cred: Credential)
    requires Initial(c) && cred in Execute(c, steps).issued
    ensures WasHanded(c, steps, cred)
  {
    var init, last := steps[..|steps| - 1], steps[|steps| - 1];
    if cred in Execute(c, init).issued {
      IssuedWasHanded(c, init, cred);
      var k :| 0 <= k < |init| && Hands(Execute(c, init[..k]), init[k], cred);
      assert steps[..k] == init[..k] && steps[k] == init[k];
    } else {
      NewlyIssuedIsHanded(Execute(c, init), last, cred);
      assert steps[|init|] == last;
    }
  }

  /** The session is opened at this step with a credential handed out before. */
  ghost predicate Opens(c: Sys, steps: seq<Step>, k: nat, id: Id, x: Relay.Session)
    requires k < |steps|
  {
    && steps[k].Elsewhere? && Sessions.Opens(Project(Execute(c, steps[..k])), steps[k].step, id, x)
    && WasHanded(c, steps[..k], steps[k].step.token.value.credential)
  }

  ghost predicate WasOpened(c: Sys, steps: seq<Step>, id: Id, x: Relay.Session) {
    exists k :: 0 <= k < |steps| && Opens(c, steps, k, id, x)
  }

  lemma NewSessionsAreOpened(c: Sys, init: seq<Step>, last: Step, id: Id, x: Relay.Session)
    requires Initial(c) && Sessions.Connected(Project(Next(Execute(c, init), last)), id, x)
    requires !Sessions.Connected(Project(Execute(c, init)), id, x)
    ensures Opens(c, init + [last], |init|, id, x)
  {
    var z := Execute(c, init);
    StepRefines(z, last);
    Sessions.NewSessionsAreOpened(Project(z), Shadow(z, last), id, x);
    assert (init + [last])[..|init|] == init;
    IssuedWasHanded(c, init, Shadow(z, last).token.value.credential);
  }

  /**
   * In every run of the whole Control, whatever peers present, every session of every Relay was opened with a
   * credential that Control had handed to that endpoint, while registered, with that generation.
   */
  lemma {:induction false} SessionsWereOpened(c: Sys, steps: seq<Step>, id: Id, x: Relay.Session)
    requires Initial(c) && Sessions.Connected(Project(Execute(c, steps)), id, x)
    ensures WasOpened(c, steps, id, x)
  {
    var init, last := steps[..|steps| - 1], steps[|steps| - 1];
    assert steps == init + [last];
    if Sessions.Connected(Project(Execute(c, init)), id, x) {
      SessionsWereOpened(c, init, id, x);
      var k :| 0 <= k < |init| && Opens(c, init, k, id, x);
      assert steps[..k] == init[..k] && steps[k] == init[k];
      assert Opens(c, steps, k, id, x);
    } else {
      NewSessionsAreOpened(c, init, last, id, x);
    }
  }

  /**
   * And a step ends a session exactly if it activates an update that raises its endpoint's effective generation,
   * closes that connection, or crashes or expels that Relay.
   */
  lemma SessionsEndExactly(c: Sys, steps: seq<Step>, step: Step, id: Id, x: Relay.Session)
    requires Initial(c) && Sessions.Connected(Project(Execute(c, steps)), id, x)
    ensures var z := Execute(c, steps);
            !Sessions.Connected(Project(Next(z, step)), id, x) <==> Sessions.Ends(Project(z), Shadow(z, step), id, x)
  {
    ReachedProtocol(c, steps);
    StepRefines(Execute(c, steps), step);
    Sessions.StepEndsExactly(Project(Execute(c, steps)), Shadow(Execute(c, steps), step), id, x);
  }

  /** A Relay that polls is answered with what it lacks exactly while it is registered; otherwise it shuts down. */
  lemma PollsAreAnswered(z: Sys, id: Id, order: seq<Id>)
    requires id in z.nodes && z.nodes[id].reply.None? && z.nodes[id].staged.None?
    requires z.nodes[id].current.version < z.control.relayRevision
    requires Enumerates(order,
            (set e | e in z.control.tombs && z.control.tombs[e].revision > z.nodes[id].current.version))
    ensures var n := Next(z, Poll(id, order)).nodes[id];
            if id in z.control.relays
            then && n == z.nodes[id].(reply := n.reply) && n.reply.Some?
                 && n.reply.value.signature == Signature(z.controlId, n.reply.value.update)
                 && n.reply.value.update.version == z.control.relayRevision
                 && Table(n.reply.value.update.revocations) ==
                    map e | e in z.control.tombs && z.control.tombs[e].revision > z.nodes[id].current.version ::
                      z.control.tombs[e]
            else n.sessions == {} && n.enrollmentRevoked
  {
    var missing := map e | e in z.control.tombs && z.control.tombs[e].revision > z.nodes[id].current.version ::
                     z.control.tombs[e];
    assert missing.Keys ==
           set e | e in z.control.tombs && z.control.tombs[e].revision > z.nodes[id].current.version;
    assert missing == Auth.Since(World(z).control.tombs, z.nodes[id].current.version);
    TableOfWire(order, missing);
  }

  // ---------- Control's own invariant ----------

  /** Invitation ids and claims on record agree with the invitations that are still kept. */
  ghost predicate ClaimsOk(invites: map<string, InviteRecord>, used: set<string>, claims: set<(string, Id)>) {
    && invites.Keys <= used
    && (forall p | p in claims :: p.0 in used)
    && (forall p, q | p in claims && q in claims && p.0 == q.0 :: p == q)
    && (forall p | p in claims && p.0 in invites :: invites[p.0].claimedBy == Some(p.1))
  }

  ghost predicate SysOk(c: Sys) { ControlOk(c.control) && ClaimsOk(c.control.invites, c.used, c.claims) }

  lemma EnrollKeepsClaims(invites: map<string, InviteRecord>, used: set<string>, claims: set<(string, Id)>, i: string,
      e: Id, at: int)
    requires ClaimsOk(invites, used, claims) && i in invites && invites[i].claimedBy == None
    ensures ClaimsOk(invites[i := invites[i].(state := Claimed, claimedBy := Some(e), terminalAt := Some(at))], used,
            claims + {(i, e)})
  {
    assert forall p | p in claims :: p.0 != i;
  }

  lemma OtherClaimsStay(
    before: map<string, InviteRecord>, after: map<string, InviteRecord>, used: set<string>, more: set<string>,
    claims: set<(string, Id)>)
    requires ClaimsOk(before, used, claims) && after.Keys <= used + more
    requires forall i | i in after && i in used :: i in before && after[i].claimedBy == before[i].claimedBy
    ensures ClaimsOk(after, used + more, claims)
  {}

  lemma CommitKeepsClaims(c: Sys, m: Mutation)
    requires InvitesOk(c.control) && ClaimsOk(c.control.invites, c.used, c.claims)
    requires Guard(c.control, m, c.clock) && PassesChecks(DeltaOf(c.control, m, c.clock))
    requires m.AddInvite? ==> m.record.invite.id !in c.used
    ensures ClaimsOk(Commit(c, m).control.invites, Commit(c, m).used, Commit(c, m).claims)
  {
    InvitesAfter(c.control, m, c.clock);
    var after := Commit(c, m).control.invites;
    if m.Enroll? {
      EnrollKeepsClaims(c.control.invites, c.used, c.claims, m.inviteId, m.endpoint, m.at);
    } else {
      OtherClaimsStay(c.control.invites, after, c.used, if m.AddInvite? then {m.record.invite.id} else {}, c.claims);
      assert c.claims + {} == c.claims;
    }
  }

  lemma CommitKeepsOk(c: Sys, m: Mutation)
    requires SysOk(c) && Guard(c.control, m, c.clock) && PassesChecks(DeltaOf(c.control, m, c.clock))
    requires m.AddInvite? ==> m.record.invite.id !in c.used
    ensures SysOk(Commit(c, m))
  {
    MutationKeepsOk(c.control, m, c.clock);
    CommitKeepsClaims(c, m);
  }

  lemma StepKeepsOk(c: Sys, step: Step)
    requires SysOk(c)
    ensures SysOk(Next(c, step))
  {
    OnlyCommitsTouchControl(c, step);
    if step.Serve? && step.commits && Effective(c, step.request).Some? {
      CommitKeepsOk(c, Effective(c, step.request).value);
    }
  }

  lemma {:induction false} RunKeepsOk(c: Sys, steps: seq<Step>)
    requires SysOk(c)
    ensures SysOk(Execute(c, steps))
  {
    if steps != [] {
      RunKeepsOk(c, steps[..|steps| - 1]);
      StepKeepsOk(Execute(c, steps[..|steps| - 1]), steps[|steps| - 1]);
    }
  }

  /**
   * Control's global invariant over every run from `init`: identities and scoped names are unique,
   * owners are registered, generations are unique and within 1..revision, and tombstone revisions
   * never pass the relay revision.
   */
  lemma ControlInvariant(c: Sys, steps: seq<Step>)
    requires Initial(c)
    ensures var s := Execute(c, steps).control;
            && ControlOk(s)
            && (forall w | w in Roles(s) :: 1 <= GrantOf(s, w).generation <= s.revision)
            && (forall v, w | v in Roles(s) && w in Roles(s) && v != w ::
                 GrantOf(s, v).generation != GrantOf(s, w).generation)
            && (forall e | e in s.tombs :: 1 <= s.tombs[e].revision <= s.relayRevision)
  {
    ReachedProtocol(c, steps);
    RunKeepsOk(c, steps);
    var z := Execute(c, steps);
    assert Auth.GrantsOk(World(z)) && Auth.TombsOk(World(z));
    forall w | w in Roles(z.control)
        ensures w in Authority(z.control).live && Authority(z.control).live[w] == GrantOf(z.control, w) {}
  }

  /** Each step moves both revisions by nothing or by one, and never shortens a surviving credential. */
  lemma StepAdvances(c: Sys, step: Step)
    ensures var s, s' := c.control, Next(c, step).control;
            && s.revision <= s'.revision <= s.revision + 1
            && s.relayRevision <= s'.relayRevision <= s.relayRevision + 1
            && (forall w | w in Roles(s) && w in Roles(s') ::
                  && GrantOf(s', w).generation == GrantOf(s, w).generation
                  && GrantOf(s', w).expiresAt >= GrantOf(s, w).expiresAt)
  {
    StepRefines(c, step);
    AuthTheorems.StepMonotone(Project(c), Shadow(c, step));
    var s, s' := c.control, Next(c, step).control;
    forall w | w in Roles(s) ensures Authority(s).live[w] == GrantOf(s, w) {}
    forall w | w in Roles(s') ensures Authority(s').live[w] == GrantOf(s', w) {}
  }

  lemma {:induction false} RevisionsGrow(c: Sys, steps: seq<Step>)
    ensures c.control.revision <= Execute(c, steps).control.revision
  {
    if steps != [] {
      RevisionsGrow(c, steps[..|steps| - 1]);
      StepAdvances(Execute(c, steps[..|steps| - 1]), steps[|steps| - 1]);
    }
  }

  // ---------- invitations over whole runs ----------

  /** In no run does one invitation enroll two endpoints. */
  lemma InvitationsAreSingleUse(c: Sys, steps: seq<Step>, i: string, d: Id, e: Id)
    requires Initial(c) && (i, d) in Execute(c, steps).claims && (i, e) in Execute(c, steps).claims
    ensures d == e
  {
    RunKeepsOk(c, steps);
  }

  /** From `before` to `after`, an id that was already used is gone, unchanged, or left pending once. */
  ghost predicate MovedOnce(before: map<string, InviteRecord>, after: map<string, InviteRecord>, i: string) {
    i in after ==>
      && i in before && SameInvitation(after[i], before[i])
      && (after[i] == before[i] || (before[i].state.Pending? && !after[i].state.Pending?))
  }

  lemma CommitMovesInvitationOnce(c: Sys, m: Mutation, i: string)
    requires SysOk(c) && Guard(c.control, m, c.clock) && i in c.used
    requires m.AddInvite? ==> m.record.invite.id !in c.used
    ensures var after := Performed(c.control, m, c.clock).invites;
            && MovedOnce(c.control.invites, after, i)
            && (i in c.control.invites && i !in after ==> i in StaleInvites(c.control, c.clock))
  {
    if i in c.control.invites {
      InvitationMovesOnce(c.control, m, c.clock, i);
    } else {
      InvitesAfter(c.control, m, c.clock);
    }
  }

  lemma StepMovesInvitationOnce(c: Sys, step: Step, i: string)
    requires SysOk(c) && i in c.used
    ensures i in Next(c, step).used && MovedOnce(c.control.invites, Next(c, step).control.invites, i)
    ensures i in c.control.invites && i !in Next(c, step).control.invites ==> i in StaleInvites(c.control, c.clock)
  {
    OnlyCommitsTouchControl(c, step);
    if step.Serve? && step.commits && Effective(c, step.request).Some? {
      CommitMovesInvitationOnce(c, Effective(c, step.request).value, i);
    }
  }

  /** At some point of the run the invitation was past its retention. */
  ghost predicate WasStale(c: Sys, steps: seq<Step>, i: string) {
    exists k :: 0 <= k < |steps| && i in StaleInvites(Execute(c, steps[..k]).control, Execute(c, steps[..k]).clock)
  }

  lemma StaleLater(c: Sys, init: seq<Step>, last: Step, i: string)
    requires WasStale(c, init, i) || i in StaleInvites(Execute(c, init).control, Execute(c, init).clock)
    ensures WasStale(c, init + [last], i)
  {
    var steps := init + [last];
    if WasStale(c, init, i) {
      var k :| 0 <= k < |init| && i in StaleInvites(Execute(c, init[..k]).control, Execute(c, init[..k]).clock);
      assert steps[..k] == init[..k];
    } else {
      assert steps[..|init|] == init;
    }
  }

  /** Until it is swept, an invitation keeps its identity; once terminal, it never changes again. */
  lemma {:induction false} InvitationsAreFinal(c: Sys, steps: seq<Step>, i: string)
    requires SysOk(c) && i in c.used
    ensures i in Execute(c, steps).used
    ensures i in Execute(c, steps).control.invites ==>
              && i in c.control.invites
              && SameInvitation(Execute(c, steps).control.invites[i], c.control.invites[i])
              && (!c.control.invites[i].state.Pending? ==> Execute(c, steps).control.invites[i] == c.control.invites[i])
  {
    if steps != [] {
      var init := steps[..|steps| - 1];
      InvitationsAreFinal(c, init, i);
      RunKeepsOk(c, init);
      StepMovesInvitationOnce(Execute(c, init), steps[|steps| - 1], i);
    }
  }

  /** And it is swept only after its retention is over. */
  lemma {:induction false} InvitationsAreRetained(c: Sys, steps: seq<Step>, i: string)
    requires SysOk(c) && i in c.used && i in c.control.invites && i !in Execute(c, steps).control.invites
    ensures WasStale(c, steps, i)
  {
    var init, last := steps[..|steps| - 1], steps[|steps| - 1];
    assert steps == init + [last];
    if i !in Execute(c, init).control.invites {
      InvitationsAreRetained(c, init, i);
    } else {
      RunKeepsOk(c, init);
      InvitationsAreFinal(c, init, i);
      StepMovesInvitationOnce(Execute(c, init), last, i);
    }
    StaleLater(c, init, last, i);
  }

  /** What a committed claim leaves on record. */
  lemma CommittedClaim(c: Sys, q: Request)
    requires SysOk(c) && Effective(c, q).Some? && Effective(c, q).value.Enroll?
    ensures var c', m := Next(c, Serve(q, true)), Effective(c, q).value;
            && SysOk(c') && m.inviteId in c'.used && m.inviteId in c'.control.invites
            && var r := c'.control.invites[m.inviteId];
               r.state.Claimed? && r.claimedBy == Some(m.endpoint) && r.invite == c.control.invites[m.inviteId].invite
  {
    StepKeepsOk(c, Serve(q, true));
    InvitesAfter(c.control, Effective(c, q).value, c.clock);
  }

  /**
   * Once a claim has committed, no request of any later state commits a claim of that invitation, not even the
   * same one.
   */
  lemma InvitationsEnrollOnce(c: Sys, q: Request, steps: seq<Step>, q': Request)
    requires SysOk(c) && Effective(c, q).Some? && Effective(c, q).value.Enroll?
    ensures var again := Effective(Execute(Next(c, Serve(q, true)), steps), q');
            again.Some? && again.value.Enroll? ==> again.value.inviteId != Effective(c, q).value.inviteId
  {
    CommittedClaim(c, q);
    InvitationsAreFinal(Next(c, Serve(q, true)), steps, Effective(c, q).value.inviteId);
  }

  predicate SameClaim(q: Request, q': Request) {
    && q.Claim? && q'.Claim? && q.token == q'.token && q.endpoint == q'.endpoint
    && q.qadPort == q'.qadPort && q.hasCsr == q'.hasCsr
  }

  lemma FirstClaim(s: ControlState, controlId: Id, q: Request, now: int)
    requires Plan(s, controlId, q, now).Do? && Plan(s, controlId, q, now).mutation.Enroll?
    ensures q.Claim? && q.token.id in s.invites && s.invites[q.token.id].invite == q.token
    ensures Plan(s, controlId, q, now).mutation == Enroll(q.token.id, q.endpoint, q.qadPort, q.at)
  {}

  /** The handler's answer to a claim whose invitation, if kept, is already claimed by the same endpoint. */
  lemma LaterClaim(s: ControlState, s': ControlState, controlId: Id, q: Request, q': Request)
    requires SameClaim(q, q') && PlanClaim(s, controlId, q).Do? && s'.network == s.network
    requires q.token.id in s'.invites ==>
               var r := s'.invites[q.token.id];
               r.state.Claimed? && r.claimedBy == Some(q.endpoint) && r.invite == q.token
    ensures !PlanClaim(s', controlId, q').Do?
    ensures PlanClaim(s', controlId, q').Reply? <==>
              && q'.at <= q.token.expiresAt && q.token.id in s'.invites && MapFor(s', controlId, q.endpoint).Some?
              && (q.endpoint in s'.relays ==> s'.relays[q.endpoint].qadPort == q.qadPort)
  {}

  lemma CommitKeepsNetwork(c: Sys, q: Request)
    ensures Next(c, Serve(q, true)).control.network == c.control.network
            && Next(c, Serve(q, true)).controlId == c.controlId
  {
    var run := [Serve(q, true)];
    assert run[..0] == [];
    NetworkIsFixed(c, run);
  }

  /**
   * After a claim commits, and whatever happens in between, the claimant's repeat changes nothing. It is
   * answered exactly while the token is unexpired, the record is kept, the endpoint is still registered and,
   * for a Relay, its port is the one it repeats.
   */
  lemma RepeatedClaimIsAnswered(c: Sys, q: Request, steps: seq<Step>, q': Request)
    requires SysOk(c) && Effective(c, q).Some? && Effective(c, q).value.Enroll? && SameClaim(q, q')
    ensures var z := Execute(Next(c, Serve(q, true)), steps);
            var outcome := Plan(z.control, z.controlId, q', z.clock);
            && !outcome.Do?
            && (outcome.Reply? <==>
                  && q'.at <= q.token.expiresAt && q.token.id in z.control.invites
                  && MapFor(z.control, z.controlId, q.endpoint).Some?
                  && (q.endpoint in z.control.relays ==> z.control.relays[q.endpoint].qadPort == q.qadPort))
  {
    var c' := Next(c, Serve(q, true));
    FirstClaim(c.control, c.controlId, q, c.clock);
    CommittedClaim(c, q);
    InvitationsAreFinal(c', steps, q.token.id);
    CommitKeepsNetwork(c, q);
    NetworkIsFixed(c', steps);
    LaterClaim(c.control, Execute(c', steps).control, c.controlId, q, q');
  }

  lemma ClaimedIsTaken(s: ControlState, controlId: Id, q: Request)
    requires q.Claim? && (q.token.id in s.invites ==> s.invites[q.token.id].state.Claimed?)
    requires q.token.id in s.invites ==> s.invites[q.token.id].claimedBy != Some(q.endpoint)
    ensures PlanClaim(s, controlId, q).Refuse?
  {}

  /** Anybody else is turned away. */
  lemma ClaimedTokensAreRefused(c: Sys, q: Request, steps: seq<Step>, q': Request)
    requires SysOk(c) && Effective(c, q).Some? && Effective(c, q).value.Enroll?
    requires q'.Claim? && q'.token.id == Effective(c, q).value.inviteId && q'.endpoint != Effective(c, q).value.endpoint
    ensures var z := Execute(Next(c, Serve(q, true)), steps);
            Plan(z.control, z.controlId, q', z.clock).Refuse?
  {
    CommittedClaim(c, q);
    InvitationsAreFinal(Next(c, Serve(q, true)), steps, q'.token.id);
    var z := Execute(Next(c, Serve(q, true)), steps);
    ClaimedIsTaken(z.control, z.controlId, q');
  }

  // ---------- retries and optimistic concurrency ----------

  predicate SameAsk(q: Request, q': Request) {
    && q.FromProvisioner? && q'.FromProvisioner?
    && q.provisioner == q'.provisioner && q.audience == q'.audience && q.requestId == q'.requestId
         && q.action == q'.action
  }

  /** The owner named in an edge invitation still resolves; client invitations name no owner. */
  ghost predicate OwnerResolves(s: ControlState, q: Request)
    requires q.FromProvisioner?
  {
    q.action.InviteEdge? ==> ManagedClient(s, q.action.owner, q.provisioner).Some?
  }

  /** What the first request leaves on record. */
  ghost predicate Records(r: InviteRecord, q: Request)
    requires q.FromProvisioner?
  {
    && r.managedBy == Some(q.provisioner) && r.requestId == Some(q.requestId) && r.requestHash == Some(q.action)
    && (q.action.InviteClient? || q.action.InviteEdge?)
    && ValidRequestId(q.requestId) && ValidName(q.action.name) && ValidSecret(q.action.secret)
    && HashSecret(q.action.secret) == r.invite.secretHash
  }

  function InvitedBy(r: InviteRecord, q: Request, controlId: Id): Response
    requires q.FromProvisioner? && (q.action.InviteClient? || q.action.InviteEdge?)
  {
    Invited(r.invite.id, TokenFor(r.invite, q.action.secret, controlId), r.invite.expiresAt)
  }

  lemma FirstAnswer(s: ControlState, controlId: Id, q: Request, now: int)
    requires q.FromProvisioner? && PlanProvisioner(s, controlId, q, now).Do?
            && PlanProvisioner(s, controlId, q, now).mutation.AddInvite?
    ensures var r := PlanProvisioner(s, controlId, q, now).mutation.record;
            Records(r, q) && PlanProvisioner(s, controlId, q, now).response == InvitedBy(r, q, controlId)
  {}

  lemma LaterAnswer(s: ControlState, controlId: Id, q: Request, now: int, i: string)
    requires InvitesOk(s) && q.FromProvisioner? && i in s.invites && Records(s.invites[i], q)
    requires q.audience == s.network.audience && q.provisioner in s.provisioners && OwnerResolves(s, q)
    ensures PlanProvisioner(s, controlId, q, now) == Reply(InvitedBy(s.invites[i], q, controlId))
  {
    assert RequestRecord(s, q.provisioner, q.requestId) == Some(i);
  }

  lemma {:induction false} NetworkIsFixed(c: Sys, steps: seq<Step>)
    ensures Execute(c, steps).control.network == c.control.network && Execute(c, steps).controlId == c.controlId
  {
    if steps != [] {
      var z, last := Execute(c, steps[..|steps| - 1]), steps[|steps| - 1];
      NetworkIsFixed(c, steps[..|steps| - 1]);
      OnlyCommitsTouchControl(z, last);
      if last.Serve? && Effective(z, last.request).Some? {
        TombsAfter(z.control, Effective(z, last.request).value, z.clock);
      }
    }
  }

  lemma CommittedInvitation(c: Sys, q: Request)
    requires SysOk(c) && q.FromProvisioner? && Effective(c, q).Some? && Effective(c, q).value.AddInvite?
    ensures var c', r := Next(c, Serve(q, true)), Effective(c, q).value.record;
            && SysOk(c') && r.invite.id in c'.used && c'.control.network == c.control.network
                 && c'.controlId == c.controlId
            && r.invite.id in c'.control.invites && c'.control.invites[r.invite.id] == r
  {
    StepKeepsOk(c, Serve(q, true));
    InvitesAfter(c.control, Effective(c, q).value, c.clock);
    TombsAfter(c.control, Effective(c, q).value, c.clock);
  }

  /**
   * Retries are idempotent. After an invite request commits, and whatever happens in between, asking
   * again returns the same invitation and changes nothing, as long as the record is retained, the
   * provisioner is registered and the owner name still resolves.
   */
  lemma RetriesAreIdempotent(c: Sys, q: Request, steps: seq<Step>, q': Request)
    requires SysOk(c) && Effective(c, q).Some? && Effective(c, q).value.AddInvite? && SameAsk(q, q')
    requires var z := Execute(Next(c, Serve(q, true)), steps);
             && Effective(c, q).value.record.invite.id in z.control.invites
             && q.provisioner in z.control.provisioners && OwnerResolves(z.control, q')
    ensures var z := Execute(Next(c, Serve(q, true)), steps);
            Plan(z.control, z.controlId, q', z.clock) == Reply(Plan(c.control, c.controlId, q, c.clock).response)
  {
    var c', i := Next(c, Serve(q, true)), Effective(c, q).value.record.invite.id;
    FirstAnswer(c.control, c.controlId, q, c.clock);
    CommittedInvitation(c, q);
    InvitationsAreFinal(c', steps, i);
    RunKeepsOk(c', steps);
    NetworkIsFixed(c', steps);
    var z := Execute(c', steps);
    LaterAnswer(z.control, z.controlId, q', z.clock, i);
  }

  lemma PlansCheckRevision(s: ControlState, controlId: Id, q: Request, now: int)
    requires q.FromProvisioner? && PlanProvisioner(s, controlId, q, now).Do?
    ensures RevisionOk(s, q.expected)
    ensures var m := PlanProvisioner(s, controlId, q, now).mutation;
            m.AddInvite? || m.EndInvite? || m.DropClient? || m.DropEdge? || m.MoveEdge?
  {}

  /** Two provisioner requests that expect the same revision never both commit. */
  lemma SameExpectationCommitsOnce(c: Sys, q: Request, steps: seq<Step>, q': Request)
    requires q.FromProvisioner? && q'.FromProvisioner? && q.expected.Some? && q'.expected == q.expected
    requires Effective(c, q).Some?
    ensures Effective(Execute(Next(c, Serve(q, true)), steps), q').None?
  {
    var m, c' := Effective(c, q).value, Next(c, Serve(q, true));
    PlansCheckRevision(c.control, c.controlId, q, c.clock);
    TombsAfter(c.control, m, c.clock);
    assert c'.control.revision == q.expected.value + 1;
    RevisionsGrow(c', steps);
    var z := Execute(c', steps);
    if Effective(z, q').Some? { PlansCheckRevision(z.control, z.controlId, q', z.clock); }
  }
}
