/** The effects of requests over whole runs of Control. */
module RequestRuns {
  import opened Base
  import opened RelayApi
  import Auth = Authorization
  import opened Control
  import opened ControlProofs
  import opened RequestEffects
  import opened ControlSystem
  import opened SystemTheorems

  /** A request that commits leads to the state its effect describes; any other leaves Control as it is. */
  lemma ServedLeadsTo(z: Sys, q: Request, commits: bool)
    ensures var z' := Next(z, Serve(q, commits));
            z'.control == if commits && Effective(z, q).Some?
                          then Resulting(z.control, z.controlId, q, z.clock) else z.control
    ensures Effective(z, q).Some? ==> Carried(z.control, z.controlId, q, z.clock)
  {
    OnlyCommitsTouchControl(z, Serve(q, commits));
    if Effective(z, q).Some? { ResultIs(z.control, z.controlId, q, z.clock); }
  }

  // ---------- nothing stands between a decision and its commit but the end of time ----------

  ghost predicate GrantsLast(s: ControlState) {
    && (forall c | c in s.clients :: s.clients[c].grant.issuedAt < s.clients[c].grant.expiresAt)
    && (forall d | d in s.edges :: s.edges[d].grant.issuedAt < s.edges[d].grant.expiresAt)
  }

  lemma LiveGrantsLast(z: Sys)
    requires Auth.GrantsOk(World(z))
    ensures GrantsLast(z.control)
  {
    forall e | e in z.control.clients
        ensures z.control.clients[e].grant.issuedAt < z.control.clients[e].grant.expiresAt {
      assert Auth.Enrollment(e, SubjectKind.Client) in Authority(z.control).live;
    }
    forall e | e in z.control.edges ensures z.control.edges[e].grant.issuedAt < z.control.edges[e].grant.expiresAt {
      assert Auth.Enrollment(e, SubjectKind.Edge) in Authority(z.control).live;
    }
  }

  lemma ReachedGrantsLast(c: Sys, steps: seq<Step>)
    requires Initial(c)
    ensures GrantsLast(Execute(c, steps).control)
  {
    ReachedProtocol(c, steps);
    LiveGrantsLast(Execute(c, steps));
  }

  /** A new grant that begins at `at` has room before the last representable second. */
  ghost predicate HasRoom(q: Request) {
    (q.Claim? && !q.token.kind.ForRelay?) || q.Watch? ==> q.at < SatAdd(q.at, 604800)
  }

  lemma ClaimChecks(s: ControlState, controlId: Id, q: Request, now: int)
    requires q.Claim? && RequestOk(s, q, now) && PlanClaim(s, controlId, q).Do?
    ensures Guard(s, PlanClaim(s, controlId, q).mutation, now)
    ensures PassesChecks(DeltaOf(s, PlanClaim(s, controlId, q).mutation, now)) <==> HasRoom(q)
  {
    ClaimsAreGuarded(s, controlId, q, now);
    var d := DeltaOf(s, PlanClaim(s, controlId, q).mutation, now);
    assert d.changes == [d.changes[0], d.changes[1]];
    assert d.changes[0] in d.changes;
  }

  lemma OtherChecks(s: ControlState, m: Mutation, now: int)
    requires GrantsLast(s) && Guard(s, m, now) && !m.Enroll? && !m.RenewClient? && !m.RenewEdge?
    ensures PassesChecks(DeltaOf(s, m, now))
  {}

  lemma RenewalChecks(s: ControlState, m: Mutation, now: int)
    requires Guard(s, m, now) && (m.RenewClient? || m.RenewEdge?)
    ensures PassesChecks(DeltaOf(s, m, now)) <==> m.at < SatAdd(m.at, 604800)
  {
    var d := DeltaOf(s, m, now);
    assert d.changes[0] in d.changes;
  }

  lemma OnlyWatchesRenew(s: ControlState, controlId: Id, q: Request, now: int)
    requires Plan(s, controlId, q, now).Do?
    ensures var m := Plan(s, controlId, q, now).mutation;
            && (m.RenewClient? || m.RenewEdge? <==> q.Watch?) && (m.Enroll? <==> q.Claim?)
            && (q.Watch? ==> m.at == q.at)
  {}

  lemma ChecksExactly(s: ControlState, controlId: Id, q: Request, now: int)
    requires GrantsLast(s) && Carried(s, controlId, q, now)
    ensures Guard(s, Plan(s, controlId, q, now).mutation, now)
    ensures PassesChecks(DeltaOf(s, Plan(s, controlId, q, now).mutation, now)) <==> HasRoom(q)
  {
    ResultIs(s, controlId, q, now);
    OnlyWatchesRenew(s, controlId, q, now);
    if q.Claim? {
      ClaimChecks(s, controlId, q, now);
    } else if q.Watch? {
      RenewalChecks(s, Plan(s, controlId, q, now).mutation, now);
    } else {
      OtherChecks(s, Plan(s, controlId, q, now).mutation, now);
    }
  }

  /** In every reachable state, whatever is to be carried out can be, while grants have room. */
  lemma EffectiveExactly(c: Sys, steps: seq<Step>, q: Request)
    requires Initial(c)
    ensures var z := Execute(c, steps);
            Effective(z, q).Some? <==>
              Carried(z.control, z.controlId, q, z.clock) && (Invites(q) ==> q.freshId !in z.used) && HasRoom(q)
  {
    var z := Execute(c, steps);
    ReachedGrantsLast(c, steps);
    if Carried(z.control, z.controlId, q, z.clock) { ChecksExactly(z.control, z.controlId, q, z.clock); }
  }

  // ---------- from an invitation to a registration ----------

  /** A committed invitation is on record under the id and with the terms its token carries. */
  lemma TokenIsOnRecord(c: Sys, q: Request)
    requires SysOk(c) && Effective(c, q).Some? && Effective(c, q).value.AddInvite?
    ensures var c', response := Next(c, Serve(q, true)), Plan(c.control, c.controlId, q, c.clock).response;
            && SysOk(c') && response.Invited? && response.token.invite.id in c'.used
            && response.token.invite == Effective(c, q).value.record.invite
            && response.token.signature == Signature(c.controlId, response.token.invite)
            && Genuine(c'.control, c'.controlId, response.token.invite)
            && c'.control.invites[response.token.invite.id].state == Pending
  {
    var r := Effective(c, q).value.record;
    StepKeepsOk(c, Serve(q, true));
    CommitKeepsNetwork(c, q);
    ServedLeadsTo(c, q, true);
    ResultIs(c.control, c.controlId, q, c.clock);
    Adds(c.control, r, c.clock);
    InviteTerms(c.control, c.controlId, q, c.clock);
  }

  lemma InviteTerms(s: ControlState, controlId: Id, q: Request, now: int)
    requires Plan(s, controlId, q, now).Do? && Plan(s, controlId, q, now).mutation.AddInvite?
    ensures var r, response := Plan(s, controlId, q, now).mutation.record, Plan(s, controlId, q, now).response;
            && r.invite.controlId == controlId && r.invite.audience == s.network.audience
            && r.invite.publicUrl == s.network.publicUrl && response.Invited? && response.token.invite == r.invite
            && response.token.signature == Signature(controlId, r.invite)
  {}

  /**
   * The token of a committed invitation, presented after whatever else has happened, registers an endpoint exactly
   * while the invitation is on record and pending, the token unexpired and the place free.
   */
  lemma TokensEnroll(c: Sys, q: Request, steps: seq<Step>, q': Request)
    requires SysOk(c) && Effective(c, q).Some? && Effective(c, q).value.AddInvite? && q'.Claim?
    requires q'.token == Effective(c, q).value.record.invite
    ensures var z := Execute(Next(c, Serve(q, true)), steps);
            RequestOk(z.control, q', z.clock) ==>
              (Carried(z.control, z.controlId, q', z.clock) <==>
                 && q'.token.id in z.control.invites && z.control.invites[q'.token.id].state == Pending
                 && q'.at <= q'.token.expiresAt && PortsFit(q'.token, q'.qadPort, q'.hasCsr)
                 && Free(z.control, q'.token.kind, q'.token.name, q'.endpoint))
  {
    var c' := Next(c, Serve(q, true));
    var z := Execute(c', steps);
    TokenIsOnRecord(c, q);
    InvitationsAreFinal(c', steps, q'.token.id);
    NetworkIsFixed(c', steps);
    RunKeepsOk(c', steps);
    if RequestOk(z.control, q', z.clock) { Joins(z.control, z.controlId, q', z.clock); }
  }

  /** Somebody registers as a client, an edge or a Relay at this step, on an invitation pending until then. */
  ghost predicate JoinsAt(z: Sys, step: Step, e: Id) {
    && step.Serve? && step.commits && step.request.Claim? && step.request.endpoint == e
    && Genuine(z.control, z.controlId, step.request.token)
    && z.control.invites[step.request.token.id].state == Pending && step.request.at <= step.request.token.expiresAt
  }

  function Nodes(s: ControlState): set<Id> { s.clients.Keys + s.edges.Keys + s.relays.Keys }

  lemma NewNodesJoin(z: Sys, step: Step, e: Id)
    requires ControlOk(z.control) && e in Nodes(Next(z, step).control) && e !in Nodes(z.control)
    ensures JoinsAt(z, step, e)
  {
    OnlyCommitsTouchControl(z, step);
    assert step.Serve? && step.commits && Effective(z, step.request).Some?;
    var q, m := step.request, Effective(z, step.request).value;
    ClientsAfter(z.control, m, z.clock);
    EdgesAfter(z.control, m, z.clock);
    RelaysAfter(z.control, m, z.clock);
    OnlyWatchesRenew(z.control, z.controlId, q, z.clock);
    Joins(z.control, z.controlId, q, z.clock);
  }

  ghost predicate Joined(c: Sys, steps: seq<Step>, e: Id) {
    exists k :: 0 <= k < |steps| && JoinsAt(Execute(c, steps[..k]), steps[k], e)
  }

  /** In every run, whoever is registered has claimed an invitation of this network that was pending then. */
  lemma {:induction false} EverybodyWasInvited(c: Sys, steps: seq<Step>, e: Id)
    requires Initial(c) && e in Nodes(Execute(c, steps).control)
    ensures Joined(c, steps, e)
  {
    var init, last := steps[..|steps| - 1], steps[|steps| - 1];
    if e in Nodes(Execute(c, init).control) {
      EverybodyWasInvited(c, init, e);
      var k :| 0 <= k < |init| && JoinsAt(Execute(c, init[..k]), init[k], e);
      assert steps[..k] == init[..k] && steps[k] == init[k];
    } else {
      ControlInvariant(c, init);
      NewNodesJoin(Execute(c, init), last, e);
      assert steps[|init|] == last;
    }
  }
}
