/** Every run of the authorization protocol keeps the invariant, and what that means for admission. */
module AuthorizationProofs {
  import opened Base
  import opened RelayApi
  import opened Relay
  import opened Authorization

  lemma InitialHolds(s: System)
    requires Initial(s)
    ensures Inv(s)
  {}

  // ---------- Control changes ----------

  lemma OneRole(s: World, v: Enrollment, w: Enrollment)
    requires GrantsOk(s) && v in s.control.live && w in s.control.live
    requires v.endpoint == w.endpoint && v.endpoint !in s.dual
    ensures v == w
  {
    var client, edge := Enrollment(v.endpoint, SubjectKind.Client), Enrollment(v.endpoint, SubjectKind.Edge);
    assert v.kind == SubjectKind.Client || v.kind == SubjectKind.Edge;
    assert w.kind == SubjectKind.Client || w.kind == SubjectKind.Edge;
    assert (v == client || v == edge) && (w == client || w == edge);
  }

  lemma RemoveKeepsTable(s: World, w: Enrollment, t: Tombs, version: nat)
    requires WorldOk(s) && w in s.control.live
    requires version <= s.control.relayRevision && Sound(s, t, version) && Fresh(s, t)
    ensures Sound(Changed(s, Remove(w)), t, version) && Fresh(Changed(s, Remove(w)), t)
  {
    var s' := Changed(s, Remove(w));
    forall e | e in t && e !in s'.dual
      ensures forall k | Enrollment(e, k) in s'.control.live ::
              t[e].generation < s'.control.live[Enrollment(e, k)].generation
      ensures e in s'.control.tombs && t[e].revision < s'.control.tombs[e].revision ==>
                t[e].generation < s'.control.tombs[e].generation
    {
      if e == w.endpoint {
        assert w == Enrollment(e, w.kind);
        assert t[e].generation < s.control.live[w].generation;
      }
    }
  }

  lemma ChangeKeepsTable(s: World, c: Change, t: Tombs, version: nat)
    requires WorldOk(s) && Allowed(s.control, c, s.clock)
    requires version <= s.control.relayRevision && Sound(s, t, version) && Fresh(s, t)
    ensures Sound(Changed(s, c), t, version) && Fresh(Changed(s, c), t)
  {
    if c.Remove? { RemoveKeepsTable(s, c.who, t, version); }
  }

  /** What a Control change means to someone who only knows revisions up to the old relay revision. */
  ghost predicate Grows(s: World, s': World) {
    && s'.clock == s.clock && s'.audience == s.audience && s'.controlId == s.controlId
    && s'.control.relayRevision >= s.control.relayRevision
    && s.dual <= s'.dual
    && forall r | r in s'.removed && r.revision <= s.control.relayRevision :: r in s.removed
  }

  lemma GrowthKeepsKnows(s: World, s': World, u: RevocationUpdate)
    requires Grows(s, s') && Knows(s, u) && Sound(s', Held(u), u.version) && Fresh(s', Held(u))
    ensures Knows(s', u)
  {}

  lemma ChangeKeepsKnows(s: World, c: Change, u: RevocationUpdate)
    requires WorldOk(s) && Allowed(s.control, c, s.clock) && Knows(s, u)
    ensures Knows(Changed(s, c), u)
  {
    ChangeKeepsTable(s, c, Held(u), u.version);
    GrowthKeepsKnows(s, Changed(s, c), u);
  }

  lemma GrowthKeepsReply(s: World, s': World, n: Node)
    requires Grows(s, s') && ReplyOk(s, n) && n.reply.Some?
    requires Sound(s', Table(n.reply.value.update.revocations), n.reply.value.update.version)
    requires Fresh(s', Table(n.reply.value.update.revocations))
    ensures ReplyOk(s', n)
  {}

  lemma ChangeKeepsNode(s: World, c: Change, n: Node)
    requires WorldOk(s) && Allowed(s.control, c, s.clock) && NodeOk(s, n)
    ensures NodeOk(Changed(s, c), n)
  {
    var s' := Changed(s, c);
    assert Grows(s, s');
    ChangeKeepsKnows(s, c, n.current);
    if n.reply.Some? {
      ChangeKeepsTable(s, c, Table(n.reply.value.update.revocations), n.reply.value.update.version);
      GrowthKeepsReply(s, s', n);
    }
    if n.staged.Some? {
      ChangeKeepsKnows(s, c, n.staged.value.next);
    }
  }

  /** Changes never reuse a generation, never lower an expiry, and keep `dual` up to date. */
  lemma ChangeKeepsGrants(s: World, c: Change)
    requires GrantsOk(s) && Allowed(s.control, c, s.clock)
    ensures GrantsOk(Changed(s, c))
    ensures forall w | w in Changed(s, c).control.live && !(c.Enroll? && w == c.who) ::
              && w in s.control.live
              && Changed(s, c).control.live[w].generation == s.control.live[w].generation
              && Changed(s, c).control.live[w].expiresAt >= s.control.live[w].expiresAt
  {
    var s' := Changed(s, c);
    if c.Enroll? {
      forall e | Enrollment(e, SubjectKind.Client) in s'.control.live
          && Enrollment(e, SubjectKind.Edge) in s'.control.live
        ensures e in s'.dual
      {
        assert c.who == Enrollment(c.who.endpoint, c.who.kind);
      }
    }
  }

  lemma ChangeKeepsHistory(s: World, c: Change)
    requires GrantsOk(s) && HistoryOk(s) && Allowed(s.control, c, s.clock)
    ensures HistoryOk(Changed(s, c))
  {
    ChangeKeepsGrants(s, c);
    var s' := Changed(s, c);
    if c.Remove? {
      assert s'.removed == s.removed + {Removal(c.who, s.control.live[c.who], s.control.relayRevision + 1)};
    } else {
      assert s'.removed == s.removed;
    }
  }

  lemma RemoveKeepsTombs(s: World, w: Enrollment)
    requires WorldOk(s) && w in s.control.live
    ensures TombsOk(Changed(s, Remove(w)))
  {
    var s' := Changed(s, Remove(w));
    RemoveKeepsTable(s, w, s.control.tombs, s.control.relayRevision);
    forall e | e in s'.control.tombs
      ensures InRange(s'.control.tombs[e], s'.control.relayRevision)
      ensures s'.control.tombs[e].generation <= s'.control.revision
      ensures Dominates(s'.control.tombs, e, s'.control.tombs[e])
    {}
    forall e, k | e in s'.control.tombs && e !in s'.dual && Enrollment(e, k) in s'.control.live
      ensures s'.control.tombs[e].generation < s'.control.live[Enrollment(e, k)].generation
    {
      if e == w.endpoint { OneRole(s, Enrollment(e, k), w); }
    }
  }

  lemma ChangeKeepsTombs(s: World, c: Change)
    requires WorldOk(s) && Allowed(s.control, c, s.clock)
    ensures TombsOk(Changed(s, c))
  {
    if c.Remove? {
      RemoveKeepsTombs(s, c.who);
    } else {
      ChangeKeepsTable(s, c, s.control.tombs, s.control.relayRevision);
    }
  }

  lemma ChangeKeepsInv(s: System, c: Change)
    requires Inv(s) && Allowed(s.world.control, c, s.world.clock)
    ensures Inv(s.(world := Changed(s.world, c)))
  {
    ChangeKeepsGrants(s.world, c);
    ChangeKeepsHistory(s.world, c);
    ChangeKeepsTombs(s.world, c);
    forall id | id in s.nodes ensures NodeOk(Changed(s.world, c), s.nodes[id]) {
      ChangeKeepsNode(s.world, c, s.nodes[id]);
    }
  }

  // ---------- time and issuing ----------

  lemma TickKeepsNode(s: World, now: int, n: Node)
    requires NodeOk(s, n) && s.clock <= now
    ensures NodeOk(s.(clock := now), n)
  {}

  lemma TickKeepsInv(s: System, now: int)
    requires Inv(s) && s.world.clock <= now <= I64_MAX
    ensures Inv(s.(world := s.world.(clock := now)))
  {
    forall id | id in s.nodes ensures NodeOk(s.world.(clock := now), s.nodes[id]) {
      TickKeepsNode(s.world, now, s.nodes[id]);
    }
  }

  lemma IssueKeepsNode(s: World, c: Credential, n: Node)
    requires NodeOk(s, n)
    ensures NodeOk(s.(issued := s.issued + {c}), n)
  {}

  lemma IssueKeepsInv(s: System, w: Enrollment)
    requires Inv(s) && w in s.world.control.live
    ensures Inv(s.(world := s.world.(issued := s.world.issued + {CredentialOf(s.world, w)})))
  {
    assert w == Enrollment(w.endpoint, w.kind);
    forall id | id in s.nodes
        ensures NodeOk(s.world.(issued := s.world.issued + {CredentialOf(s.world, w)}), s.nodes[id]) {
      IssueKeepsNode(s.world, CredentialOf(s.world, w), s.nodes[id]);
    }
  }

  // ---------- Relay steps ----------

  lemma FirstNodeOk(s: World)
    requires WorldOk(s)
    ensures NodeOk(s, FirstNode(s))
  {}

  lemma AnswerAdvances(s: World, held: Tombs, version: nat)
    requires TombsOk(s) && Sound(s, held, version) && Fresh(s, held)
    ensures Advances(s, held, Since(s.control.tombs, version))
  {
    var delta := Since(s.control.tombs, version);
    forall e | e in held && e in delta
      ensures held[e].expiresAt > s.clock ==> held[e].generation <= delta[e].generation
      ensures e !in s.dual ==> held[e].generation < delta[e].generation
    {
      assert InRange(held[e], version);
    }
  }

  /** Control's answer is well formed, contains every removal the Relay lacks, and only moves forward. */
  lemma AnswerIsGood(s: World, n: Node, order: seq<Id>)
    requires WorldOk(s) && NodeOk(s, n) && n.staged.None?
    requires n.current.version < s.control.relayRevision
    requires Enumerates(order, Since(s.control.tombs, n.current.version).Keys)
    ensures ReplyOk(s, n.(reply := Some(Reply(s, n, order))))
  {
    var delta := Since(s.control.tombs, n.current.version);
    var u := Reply(s, n, order).update;
    assert u == u.(revocations := Wire(order, delta));
    ListedTableValidates(order, delta, u, s.audience);
    assert Table(u.revocations) == delta;
    assert Sound(s, delta, u.version) && Fresh(s, delta);
    AnswerAdvances(s, Held(n.current), n.current.version);
  }

  /** The overlap test reads the list; the protocol reasons about the table. */
  lemma NoOverlap(u: RevocationUpdate, version: nat)
    requires Distinct(u.revocations) && forall e | e in Table(u.revocations) ::
            Table(u.revocations)[e].revision > version
    ensures forall r | r in u.revocations :: r.tomb.revision > version
  {
    TableRows(u.revocations);
    forall r | r in u.revocations ensures r.tomb.revision > version {
      var i :| 0 <= i < |u.revocations| && u.revocations[i] == r;
      assert Table(u.revocations)[r.endpoint] == r.tomb;
    }
  }

  /** An honest reply is adopted, whatever else happened since; only its age can make the Relay refuse it. */
  lemma HonestReplyAdopted(s: World, n: Node)
    requires WorldOk(s) && NodeOk(s, n) && n.reply.Some?
    ensures var u := n.reply.value.update;
            Judged(s, n) ==
            if Abs(s.clock - u.issuedAt) > MAX_CLOCK_SKEW_SECS then Err(OutsideTimeWindow)
            else Ok(Adopt(Live(Held(n.current), s.clock) + Table(u.revocations), Table(u.revocations)))
  {
    var u := n.reply.value.update;
    SizeDetectsDuplicates(u.revocations);
    NoOverlap(u, n.current.version);
    assert !GoesBackwards(Held(n.current), Table(u.revocations), s.clock);
    assert InTable(Live(Held(n.current), s.clock) + Table(u.revocations), u.version);
  }

  /** Merging an honest delta into what the Relay holds gives knowledge up to the delta's version. */
  lemma MergeKnows(s: World, n: Node, next: RevocationUpdate)
    requires WorldOk(s) && NodeOk(s, n) && n.reply.Some?
    requires ValidateRevocations(next, s.audience) == Ok(Held(next)) && next.version == n.reply.value.update.version
    requires Held(next) == Live(Held(n.current), s.clock) + Table(n.reply.value.update.revocations)
    ensures Knows(s, next)
  {
    MergeIsComplete(s, n, Held(next));
  }

  lemma MergeIsComplete(s: World, n: Node, table: Tombs)
    requires Complete(s, Held(n.current), n.current.version) && ReplyOk(s, n) && n.reply.Some?
    requires table == Live(Held(n.current), s.clock) + Table(n.reply.value.update.revocations)
    ensures Complete(s, table, n.reply.value.update.version)
  {
    forall r | r in s.removed && r.revision <= n.reply.value.update.version && r.grant.expiresAt > s.clock
      ensures Covers(table, r.who.endpoint, r.grant)
    {
      if r.revision <= n.current.version { assert Covers(Held(n.current), r.who.endpoint, r.grant); }
    }
  }

  lemma StagedNodeOk(s: World, n: Node, order: seq<Id>)
    requires WorldOk(s) && NodeOk(s, n) && n.reply.Some? && n.staged.None? && ListsResult(s, n, order)
    ensures NodeOk(s, StageNode(s, n, order))
  {
    HonestReplyAdopted(s, n);
    if Judged(s, n).Ok? {
      var u := n.reply.value.update;
      var table := Live(Held(n.current), s.clock) + Table(u.revocations);
      ListedTableValidates(order, table, u, s.audience);
      TableOfWire(order, table);
      MergeKnows(s, n, u.(revocations := Wire(order, table)));
    }
  }

  lemma ActivatedNodeOk(s: World, n: Node)
    requires WorldOk(s) && NodeOk(s, n) && n.staged.Some?
    ensures NodeOk(s, ActivateNode(n))
  {
    var n', g := ActivateNode(n), n.staged.value;
    forall x | x in n'.sessions && x.endpoint !in s.dual
      ensures x.generation > RevokedThrough(Held(n'.current), x.endpoint, s.clock)
    {
      var e := x.endpoint;
      assert !Disconnects(Held(n.current), g.delta, e, g.at);
      if e in g.delta {
        assert InRange(Held(g.next)[e], g.next.version);
        assert g.delta[e].generation > RevokedThrough(Held(n.current), e, g.at);
      }
    }
  }

  lemma ConnectedSessionsOk(s: World, n: Node, peer: Id, c: Credential)
    requires SessionsOk(s, n) && Admission(s, n, peer, c, s.clock).Ok?
    ensures SessionsOk(s, n.(sessions := n.sessions + {Session(peer, c.generation)}))
  {}

  lemma ConnectedNodeOk(s: World, n: Node, peer: Id, c: Credential)
    requires NodeOk(s, n) && Admission(s, n, peer, c, s.clock).Ok?
    ensures NodeOk(s, n.(sessions := n.sessions + {Session(peer, c.generation)}))
  {
    ConnectedSessionsOk(s, n, peer, c);
  }

  /** Whatever a peer presents, it is admitted only with a credential that Control issued. */
  lemma PresentedIsIssued(s: World, n: Node, step: Step)
    requires step.Connect? && NodeEnabled(s, n, step) && Presented(s, n, step.peer, step.token, s.clock).Ok?
    ensures step.token.Some? && step.token.value == SignCredential(step.token.value.credential, s.controlId)
    ensures step.token.value.credential in s.issued
  {}

  /** An update Control did not sign changes nothing. */
  lemma ForgeryIsLost(s: World, n: Node, step: Step)
    requires step.Forge? && NodeEnabled(s, n, step)
    ensures NodeAfter(s, n, step) == n.(reply := None)
  {}

  /** A restart serves what was stored, which is what was served or what was about to be. */
  lemma RestartedNodeOk(s: World, n: Node)
    requires NodeOk(s, n)
    ensures NodeOk(s, n.(current := n.disk, reply := None, staged := None, sessions := {}, enrollmentRevoked := false))
  {}

  lemma NodeStepOk(s: World, n: Node, step: Step)
    requires WorldOk(s) && NodeOk(s, n) && NodeEnabled(s, n, step)
    ensures NodeOk(s, NodeAfter(s, n, step))
  {
    match step
    case Answer(_, order) => AnswerIsGood(s, n, order);
    case Stage(_, order) => StagedNodeOk(s, n, order);
    case Activate(_) => ActivatedNodeOk(s, n);
    case Forge(_, _, _) => ForgeryIsLost(s, n, step);
    case Connect(_, peer, token) =>
      if Presented(s, n, peer, token, s.clock).Ok? {
        PresentedIsIssued(s, n, step);
        ConnectedNodeOk(s, n, peer, token.value.credential);
      }
    case Crash(_) => RestartedNodeOk(s, n);
    case _ =>
  }

  lemma NodesFrame(s: System, id: Id, n: Node)
    requires Inv(s) && NodeOk(s.world, n)
    ensures Inv(s.(nodes := s.nodes[id := n]))
  {}

  lemma BootKeepsInv(s: System, id: Id)
    requires Inv(s)
    ensures Inv(s.(nodes := s.nodes[id := FirstNode(s.world)]))
  {
    FirstNodeOk(s.world);
    NodesFrame(s, id, FirstNode(s.world));
  }

  lemma NodeStepKeepsInv(s: System, step: Step)
    requires Inv(s) && Enabled(s, step)
    requires !step.Tick? && !step.Control? && !step.Issue? && !step.Boot?
    ensures Inv(s.(nodes := s.nodes[step.node := NodeAfter(s.world, s.nodes[step.node], step)]))
  {
    var n := s.nodes[step.node];
    NodeStepOk(s.world, n, step);
    NodesFrame(s, step.node, NodeAfter(s.world, n, step));
  }

  lemma StepKeepsInv(s: System, step: Step)
    requires Inv(s)
    ensures Inv(Next(s, step))
  {
    if Enabled(s, step) {
      match step
      case Tick(now) => TickKeepsInv(s, now);
      case Control(c) => ChangeKeepsInv(s, c);
      case Issue(w) => IssueKeepsInv(s, w);
      case Boot(id) => BootKeepsInv(s, id);
      case _ => NodeStepKeepsInv(s, step);
    }
  }

  /** The invariant holds after every run from the initial state. */
  lemma {:induction false} RunKeepsInv(s: System, steps: seq<Step>)
    requires Inv(s)
    ensures Inv(Execute(s, steps))
  {
    if steps != [] {
      RunKeepsInv(s, steps[..|steps| - 1]);
      StepKeepsInv(Execute(s, steps[..|steps| - 1]), steps[|steps| - 1]);
    }
  }
}
