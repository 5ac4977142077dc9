/** What every run of the authorization protocol guarantees. */
module AuthorizationTheorems {
  import opened Base
  import opened RelayApi
  import opened Relay
  import opened Authorization
  import opened AuthorizationProofs
  import opened Provenance

  /** A credential of a removed enrollment is refused by a Relay that is at the removal's revision. */
  lemma LearnedRemovalDenies(s: World, n: Node, r: Removal, c: Credential, peer: Id, now: int)
    requires HistoryOk(s) && NodeOk(s, n) && r in s.removed && c in s.issued && c.generation == r.grant.generation
    requires n.current.version >= r.revision && now >= s.clock
    ensures Admission(s, n, peer, c, now).Err?
  {
    assert r.who == Enrollment(c.endpoint, c.kind) && c.expiresAt <= r.grant.expiresAt;
    if c.expiresAt > now {
      assert Covers(Held(n.current), r.who.endpoint, r.grant);
    }
  }

  /**
   * Revocation safety. Once a Relay has reached the revision that announced a removal, it admits no
   * credential ever issued under the removed enrollment: not then, and not after any continuation of the
   * run, although the Relay crashes and restarts and tombstones are merged, superseded, pruned and collected.
   */
  lemma RevocationSafety(
    s0: System, steps: seq<Step>, more: seq<Step>, id: Id, r: Removal, c: Credential, peer: Id, now: int)
    requires Initial(s0)
    requires var s := Execute(s0, steps);
             id in s.nodes && r in s.world.removed && s.nodes[id].current.version >= r.revision
    requires var z := Execute(s0, steps + more);
             c in z.world.issued && c.generation == r.grant.generation && now >= z.world.clock
    ensures var z := Execute(s0, steps + more);
            id in z.nodes && Admission(z.world, z.nodes[id], peer, c, now).Err?
  {
    RunProgresses(s0, steps);
    RunProgresses(Execute(s0, steps), more);
    RunsJoin(s0, steps, more);
    Reached(s0, steps + more);
    var z := Execute(s0, steps + more);
    LearnedRemovalDenies(z.world, z.nodes[id], r, c, peer, now);
  }

  /** The served and the stored state both validate, and the age check is the only one an honest delta can fail. */
  ghost predicate AcceptsHonestly(s: World, n: Node) {
    && ValidateRevocations(n.current, s.audience).Ok?
    && ValidateRevocations(n.disk, s.audience).Ok?
    && (n.reply.Some? ==>
          if Abs(s.clock - n.reply.value.update.issuedAt) > MAX_CLOCK_SKEW_SECS
          then Judged(s, n) == Err(OutsideTimeWindow)
          else Judged(s, n).Ok? && Judged(s, n).value.Adopt?)
  }

  /** Honest deltas are never refused, except for age, and what a Relay stores always re-validates. */
  lemma HonestDeltasAreAccepted(s0: System, steps: seq<Step>, id: Id)
    requires Initial(s0) && id in Execute(s0, steps).nodes
    ensures AcceptsHonestly(Execute(s0, steps).world, Execute(s0, steps).nodes[id])
  {
    Reached(s0, steps);
    var s, n := Execute(s0, steps).world, Execute(s0, steps).nodes[id];
    assert NodeOk(s, n) && WorldOk(s);
    if n.reply.Some? { HonestReplyAdopted(s, n); }
  }

  function Asking(s: World, n: Node, asked: seq<Id>): Node
    requires Enumerates(asked, Since(s.control.tombs, n.current.version).Keys)
  {
    n.(reply := Some(Reply(s, n, asked)))
  }

  /** Polling, staging and activating a reply takes a node to Control's relay revision. */
  lemma PollReachesControl(s: World, n: Node, asked: seq<Id>, written: seq<Id>)
    requires WorldOk(s) && NodeOk(s, n) && n.reply.None? && n.staged.None?
            && n.current.version < s.control.relayRevision
    requires Enumerates(asked, Since(s.control.tombs, n.current.version).Keys)
            && ListsResult(s, Asking(s, n, asked), written)
    ensures var polled := StageNode(s, Asking(s, n, asked), written);
            polled.staged.Some? && ActivateNode(polled).current.version == s.control.relayRevision
  {
    AnswerIsGood(s, n, asked);
    HonestReplyAdopted(s, Asking(s, n, asked));
  }

  lemma Listed(keys: set<Id>) returns (order: seq<Id>)
    ensures Enumerates(order, keys)
  {
    if keys == {} { return []; }
    var k :| k in keys;
    order := Listed(keys - {k});
    ListedOne(order, keys - {k}, k);
    assert keys - {k} + {k} == keys;
    order := order + [k];
  }

  lemma RelayStepIs(s: System, step: Step)
    requires Enabled(s, step) && !(step.Tick? || step.Control? || step.Issue? || step.Boot?)
    ensures Next(s, step) == System(s.world, s.nodes[step.node := NodeAfter(s.world, s.nodes[step.node], step)])
  {}

  /** All of these are steps of polling by one Relay. */
  ghost predicate Polls(more: seq<Step>, id: Id) {
    forall k | 0 <= k < |more| ::
      (more[k].Lose? || more[k].Answer? || more[k].Stage? || more[k].Activate?) && more[k].node == id
  }

  lemma PollsJoin(a: seq<Step>, b: seq<Step>, id: Id)
    requires Polls(a, id) && Polls(b, id)
    ensures Polls(a + b, id)
  {}

  /** One more step of a Relay's own. */
  lemma OwnStep(s: System, more: seq<Step>, id: Id, step: Step) returns (more': seq<Step>)
    requires Inv(Execute(s, more)) && id in Execute(s, more).nodes && Execute(s, more).world == s.world
    requires Enabled(Execute(s, more), step) && (step.Lose? || step.Answer? || step.Stage? || step.Activate?)
            && step.node == id
    ensures more' == more + [step] && Inv(Execute(s, more')) && (Polls(more, id) ==> Polls(more', id))
    ensures var at := Execute(s, more);
            Execute(s, more') == System(s.world, at.nodes[id := NodeAfter(s.world, at.nodes[id], step)])
  {
    more' := more + [step];
    RunsJoin(s, more, [step]);
    assert [step][..0] == [];
    RelayStepIs(Execute(s, more), step);
    StepKeepsInv(Execute(s, more), step);
  }

  /** First the Relay finishes or forgets what it had begun. */
  lemma Settle(s: System, id: Id) returns (more: seq<Step>)
    requires Inv(s) && id in s.nodes
    ensures var s' := Execute(s, more);
            Inv(s') && s'.world == s.world && id in s'.nodes && s'.nodes[id].reply.None? && s'.nodes[id].staged.None?
    ensures |more| <= 1 && Polls(more, id)
  {
    var n := s.nodes[id];
    if n.staged.None? && n.reply.None? { return []; }
    assert NodeOk(s.world, n) && Execute(s, []) == s;
    more := OwnStep(s, [], id, if n.staged.Some? then Activate(id) else Lose(id));
  }

  /** With Control's answer in hand, two more steps adopt it. */
  lemma Adopts(s: System, asking: seq<Step>, id: Id, n: Node, asked: seq<Id>) returns (more: seq<Step>)
    requires Inv(Execute(s, asking)) && Execute(s, asking).world == s.world && WorldOk(s.world) && NodeOk(s.world, n)
    requires n.reply.None? && n.staged.None? && n.current.version < s.world.control.relayRevision
    requires Enumerates(asked, Since(s.world.control.tombs, n.current.version).Keys)
    requires id in Execute(s, asking).nodes && Execute(s, asking).nodes[id] == Asking(s.world, n, asked)
    requires |asking| <= 1 && Polls(asking, id)
    ensures var s' := Execute(s, more);
            && s'.world == s.world && id in s'.nodes
            && s'.nodes[id].current.version == s.world.control.relayRevision
    ensures |more| <= 3 && Polls(more, id)
  {
    var polled := Asking(s.world, n, asked);
    HonestReplyAdopted(s.world, polled);
    var written := Listed(Judged(s.world, polled).value.table.Keys);
    PollReachesControl(s.world, n, asked, written);
    more := OwnStep(s, asking, id, Stage(id, written));
    more := OwnStep(s, more, id, Activate(id));
  }

  /** Then one poll is enough. */
  lemma CatchUp(s: System, id: Id) returns (more: seq<Step>)
    requires Inv(s) && id in s.nodes && s.nodes[id].reply.None? && s.nodes[id].staged.None?
    ensures var s' := Execute(s, more);
            && s'.world == s.world && id in s'.nodes
            && s'.nodes[id].current.version == s.world.control.relayRevision
    ensures |more| <= 3 && Polls(more, id)
  {
    var n := s.nodes[id];
    assert NodeOk(s.world, n);
    if n.current.version == s.world.control.relayRevision { return []; }
    var asked := Listed(Since(s.world.control.tombs, n.current.version).Keys);
    more := OwnStep(s, [], id, Answer(id, asked));
    more := Adopts(s, more, id, n, asked);
  }

  /**
   * A Relay cannot get stuck. From every reachable state, whatever is pending or staged, at most four of its
   * own steps, taken before anything else happens, bring it level with Control.
   */
  lemma OnePollCatchesUp(s0: System, steps: seq<Step>, id: Id) returns (more: seq<Step>)
    requires Initial(s0) && id in Execute(s0, steps).nodes
    ensures var s, s' := Execute(s0, steps), Execute(s0, steps + more);
            && s'.world == s.world && id in s'.nodes && s'.nodes[id].current.version == s.world.control.relayRevision
    ensures |more| <= 4 && Polls(more, id)
  {
    Reached(s0, steps);
    var s := Execute(s0, steps);
    var settle := Settle(s, id);
    var catchUp := CatchUp(Execute(s, settle), id);
    more := settle + catchUp;
    PollsJoin(settle, catchUp, id);
    RunsJoin(s, settle, catchUp);
    RunsJoin(s0, steps, more);
  }

  // ---------- sessions ----------

  /** A session the disconnect rule misses: its endpoint's old tombstone ran out while the update was being stored. */
  predicate Raced(n: Node, x: Session, clock: int)
    requires n.staged.Some?
  {
    var g := n.staged.value;
    var held := Held(n.current);
    var e := x.endpoint;
    && x in n.sessions && e in held && e in g.delta
    && g.at < held[e].expiresAt <= clock < g.delta[e].expiresAt
    && held[e].generation == g.delta[e].generation && x.generation <= g.delta[e].generation
  }

  /** For arbitrary endpoints, activating an update leaves all sessions safe exactly when no session is raced. */
  lemma ActivationSafeUnlessRaced(n: Node, clock: int)
    requires n.staged.Some? && n.staged.value.at <= clock
    requires SessionsSafe(n.sessions, Held(n.current), clock)
    requires Held(n.staged.value.next) == Live(Held(n.current), n.staged.value.at) + n.staged.value.delta
    requires !GoesBackwards(Held(n.current), n.staged.value.delta, n.staged.value.at)
    requires forall e | e in n.staged.value.delta :: n.staged.value.delta[e].generation > 0
    ensures SessionsSafe(ActivateNode(n).sessions, Held(ActivateNode(n).current), clock) <==>
            !exists x :: x in n.sessions && Raced(n, x, clock)
  {
    var n', g, held := ActivateNode(n), n.staged.value, Held(n.current);
    forall x | x in n.sessions
      ensures Raced(n, x, clock) <==>
              x in n'.sessions && x.generation <= RevokedThrough(Held(n'.current), x.endpoint, clock)
    {
      var e := x.endpoint;
      if e in g.delta {
        assert Held(n'.current)[e] == g.delta[e];
        if e in Live(held, g.at) { assert held[e].generation <= g.delta[e].generation; }
      }
    }
  }

  ghost predicate AllSafe(s: System) {
    forall id | id in s.nodes :: SessionsSafe(s.nodes[id].sessions, Held(s.nodes[id].current), s.world.clock)
  }

  /** The step activates an update some session raced. */
  ghost predicate RacedStep(s: System, step: Step) {
    && step.Activate? && Enabled(s, step)
    && exists x :: x in s.nodes[step.node].sessions && Raced(s.nodes[step.node], x, s.world.clock)
  }

  lemma ReachedActivation(s: World, n: Node)
    requires NodeOk(s, n) && Forward(n) && n.staged.Some? && SessionsSafe(n.sessions, Held(n.current), s.clock)
    ensures SessionsSafe(ActivateNode(n).sessions, Held(ActivateNode(n).current), s.clock) <==>
            !exists x :: x in n.sessions && Raced(n, x, s.clock)
  {
    forall e | e in n.staged.value.delta ensures n.staged.value.delta[e].generation > 0 {
      assert Held(n.staged.value.next)[e] == n.staged.value.delta[e];
      assert InRange(Held(n.staged.value.next)[e], n.staged.value.next.version);
    }
    ActivationSafeUnlessRaced(n, s.clock);
  }

  lemma StagingKeepsSafe(s: World, n: Node, order: seq<Id>)
    requires n.reply.Some? && n.staged.None? && ListsResult(s, n, order)
    requires SessionsSafe(n.sessions, Held(n.current), s.clock)
    ensures SessionsSafe(StageNode(s, n, order).sessions, Held(StageNode(s, n, order).current), s.clock)
  {
    VerdictShape(s.controlId, s.audience, n.current, n.reply.value, s.clock);
    match Judged(s, n)
    case Ok(Prune(t)) => TableOfWire(order, t);
    case _ =>
  }

  lemma NodeStepSafe(s: World, n: Node, step: Step)
    requires NodeEnabled(s, n, step) && !step.Activate? && SessionsSafe(n.sessions, Held(n.current), s.clock)
    ensures SessionsSafe(NodeAfter(s, n, step).sessions, Held(NodeAfter(s, n, step).current), s.clock)
  {
    if step.Stage? { StagingKeepsSafe(s, n, step.order); }
  }

  lemma OneNodeSafe(s: System, id: Id, n: Node)
    requires AllSafe(s)
    ensures AllSafe(System(s.world, s.nodes[id := n])) <==> SessionsSafe(n.sessions, Held(n.current), s.world.clock)
  {
    var s' := System(s.world, s.nodes[id := n]);
    assert id in s'.nodes && s'.nodes[id] == n;
  }

  lemma WorldStepSafe(s: System, step: Step)
    requires AllSafe(s) && (step.Tick? || step.Control? || step.Issue? || step.Boot?)
    ensures AllSafe(Next(s, step))
  {}

  /** One step from a reachable state: whoever is affected, safety is lost exactly by activating a raced update. */
  lemma StepSafeExactly(s: System, step: Step)
    requires Inv(s) && Grounded(s) && AllSafe(s)
    ensures AllSafe(Next(s, step)) <==> !RacedStep(s, step)
  {
    if step.Tick? || step.Control? || step.Issue? || step.Boot? {
      WorldStepSafe(s, step);
    } else if Enabled(s, step) {
      var n := s.nodes[step.node];
      RelayStepIs(s, step);
      OneNodeSafe(s, step.node, NodeAfter(s.world, n, step));
      if step.Activate? { ReachedActivation(s.world, n); } else { NodeStepSafe(s.world, n, step); }
    }
  }

  ghost predicate NeverRaced(s0: System, steps: seq<Step>) {
    forall k | 0 <= k < |steps| :: !RacedStep(Execute(s0, steps[..k]), steps[k])
  }

  ghost predicate AlwaysSafe(s0: System, steps: seq<Step>) {
    forall k | 0 <= k <= |steps| :: AllSafe(Execute(s0, steps[..k]))
  }

  lemma SafeSoFar(s0: System, init: seq<Step>, last: Step)
    ensures AlwaysSafe(s0, init + [last]) <==> AlwaysSafe(s0, init) && AllSafe(Execute(s0, init + [last]))
  {
    var steps := init + [last];
    assert steps[..|steps|] == steps;
    forall k | 0 <= k <= |init| ensures init[..k] == steps[..k] {}
    if AlwaysSafe(s0, steps) {
      forall k | 0 <= k <= |init| ensures AllSafe(Execute(s0, init[..k])) { assert AllSafe(Execute(s0, steps[..k])); }
    }
  }

  lemma NeverRacedSoFar(s0: System, init: seq<Step>, last: Step)
    ensures NeverRaced(s0, init + [last]) <==> NeverRaced(s0, init) && !RacedStep(Execute(s0, init), last)
  {
    var steps := init + [last];
    assert steps[..|init|] == init && steps[|init|] == last;
    forall k | 0 <= k < |init| ensures init[..k] == steps[..k] && init[k] == steps[k] {}
    if NeverRaced(s0, steps) {
      forall k | 0 <= k < |init| ensures !RacedStep(Execute(s0, init[..k]), init[k]) {
        assert !RacedStep(Execute(s0, steps[..k]), steps[k]);
      }
    }
  }

  /**
   * Session safety for every endpoint, exactly: throughout a run no session is under a generation an
   * unexpired tombstone covers, if and only if no update the run activates was raced.
   */
  lemma {:induction false} SessionsSafeExactly(s0: System, steps: seq<Step>)
    requires Initial(s0)
    ensures AlwaysSafe(s0, steps) <==> NeverRaced(s0, steps)
    ensures NeverRaced(s0, steps) ==> AllSafe(Execute(s0, steps))
  {
    assert steps[..|steps|] == steps;
    if steps == [] {
      assert steps[..0] == [];
    } else {
      var init, last := steps[..|steps| - 1], steps[|steps| - 1];
      assert steps == init + [last];
      SessionsSafeExactly(s0, init);
      SafeSoFar(s0, init, last);
      NeverRacedSoFar(s0, init, last);
      assert init[..|init|] == init;
      if AllSafe(Execute(s0, init)) {
        Reached(s0, init);
        StepSafeExactly(Execute(s0, init), last);
      }
    }
  }

  /** Sessions of a removed enrollment the Relay has learned about, safe ones, have outlived their credentials. */
  lemma RemovedSessionsHaveExpired(s: World, n: Node, x: Session, r: Removal)
    requires NodeOk(s, n) && x.generation > RevokedThrough(Held(n.current), x.endpoint, s.clock)
    requires r in s.removed && r.who.endpoint == x.endpoint && r.grant.generation == x.generation
    requires r.revision <= n.current.version
    ensures r.grant.expiresAt <= s.clock
  {
    assert r.grant.expiresAt > s.clock ==> Covers(Held(n.current), x.endpoint, r.grant);
  }

  /**
   * Session safety. In a run that activates no raced update, no session of any endpoint runs under a
   * generation an unexpired tombstone covers, and a session of a removed enrollment the Relay has
   * learned about is one whose credential lifetime is already over.
   */
  lemma SessionSafety(s0: System, steps: seq<Step>, id: Id, x: Session)
    requires Initial(s0) && NeverRaced(s0, steps)
    requires id in Execute(s0, steps).nodes && x in Execute(s0, steps).nodes[id].sessions
    ensures var s := Execute(s0, steps);
            && x.generation > RevokedThrough(Held(s.nodes[id].current), x.endpoint, s.world.clock)
            && forall r | r in s.world.removed && r.who.endpoint == x.endpoint && r.grant.generation == x.generation &&
                          r.revision <= s.nodes[id].current.version :: r.grant.expiresAt <= s.world.clock
  {
    SessionsSafeExactly(s0, steps);
    Reached(s0, steps);
    var s := Execute(s0, steps);
    forall r | r in s.world.removed && r.who.endpoint == x.endpoint && r.grant.generation == x.generation &&
               r.revision <= s.nodes[id].current.version
      ensures r.grant.expiresAt <= s.world.clock
    {
      RemovedSessionsHaveExpired(s.world, s.nodes[id], x, r);
    }
  }

  /** An endpoint that never held two roles at once is safe in every run, raced or not. */
  lemma SingleRoleSessionSafety(s0: System, steps: seq<Step>, id: Id, x: Session)
    requires Initial(s0)
    requires var s := Execute(s0, steps);
             id in s.nodes && x in s.nodes[id].sessions && x.endpoint !in s.world.dual
    ensures var s := Execute(s0, steps);
            x.generation > RevokedThrough(Held(s.nodes[id].current), x.endpoint, s.world.clock)
  {
    Reached(s0, steps);
    var s := Execute(s0, steps);
    assert NodeOk(s.world, s.nodes[id]);
  }

  // ---------- live enrollments ----------

  ghost predicate Below(t: Tombs, e: Id, generation: nat) { e in t ==> t[e].generation < generation }

  /** Every tombstone for `w`, at Control, on its way, stored or served, is older than its grant. */
  ghost predicate Outdates(s: World, n: Node, w: Enrollment)
    requires w in s.control.live
  {
    var g := s.control.live[w].generation;
    && Below(s.control.tombs, w.endpoint, g)
    && Below(Held(n.current), w.endpoint, g) && Below(Held(n.disk), w.endpoint, g)
    && (n.reply.Some? ==> Below(Held(n.reply.value.update), w.endpoint, g))
    && (n.staged.Some? ==> Below(Held(n.staged.value.next), w.endpoint, g))
  }

  /** No enrollment of the same endpoint that began after `w` has been removed. */
  ghost predicate Clear(s: World, w: Enrollment)
    requires w in s.control.live
  {
    forall r | r in s.removed && r.who.endpoint == w.endpoint :: r.grant.generation <= s.control.live[w].generation
  }

  lemma TracedBelow(s: World, t: Tombs, w: Enrollment)
    requires HistoryOk(s) && w in s.control.live && Clear(s, w) && Traced(s.removed, t)
    ensures Below(t, w.endpoint, s.control.live[w].generation)
  {
    if w.endpoint in t { assert Stems(s.removed, w.endpoint, t[w.endpoint].generation); }
  }

  lemma ClearOutdates(s: World, n: Node, w: Enrollment)
    requires HistoryOk(s) && Traced(s.removed, s.control.tombs) && NodeTraced(s.removed, n)
    requires w in s.control.live && Clear(s, w)
    ensures Outdates(s, n, w)
  {
    TracedBelow(s, s.control.tombs, w);
    TracedBelow(s, Held(n.current), w);
    TracedBelow(s, Held(n.disk), w);
    if n.reply.Some? { TracedBelow(s, Held(n.reply.value.update), w); }
    if n.staged.Some? { TracedBelow(s, Held(n.staged.value.next), w); }
  }

  lemma OutdatedAdmits(s: World, n: Node, w: Enrollment)
    requires s.audience != "" && s.clock <= I64_MAX && GrantsOk(s) && w in s.control.live && Outdates(s, n, w)
    requires s.control.live[w].expiresAt > s.clock && !n.enrollmentRevoked
    ensures Admission(s, n, w.endpoint, CredentialOf(s, w), s.clock) == Ok(())
  {}

  /**
   * No false denial. While no later enrollment of the same endpoint has been removed, every tombstone
   * anywhere is strictly older than the live enrollment, so its current credential is admitted by every
   * Relay that is itself enrolled, whatever roles the endpoint held before.
   */
  lemma NoFalseDenial(s0: System, steps: seq<Step>, id: Id, w: Enrollment)
    requires Initial(s0)
    requires var s := Execute(s0, steps); id in s.nodes && w in s.world.control.live && Clear(s.world, w)
    ensures var s := Execute(s0, steps);
            && Outdates(s.world, s.nodes[id], w)
            && (s.world.control.live[w].expiresAt > s.world.clock && !s.nodes[id].enrollmentRevoked ==>
                  Admission(s.world, s.nodes[id], w.endpoint, CredentialOf(s.world, w), s.world.clock) == Ok(()))
  {
    Reached(s0, steps);
    var s := Execute(s0, steps);
    ClearOutdates(s.world, s.nodes[id], w);
    if s.world.control.live[w].expiresAt > s.world.clock && !s.nodes[id].enrollmentRevoked {
      OutdatedAdmits(s.world, s.nodes[id], w);
    }
  }

  lemma CoveredIsDenied(s: World, n: Node, w: Enrollment, r: Removal)
    requires w in s.control.live && r in s.removed && Complete(s, Held(n.current), n.current.version)
    requires r.who.endpoint == w.endpoint && r.grant.generation > s.control.live[w].generation
    requires r.grant.expiresAt > s.clock && r.revision <= n.current.version
    ensures Admission(s, n, w.endpoint, CredentialOf(s, w), s.clock).Err?
  {
    assert Covers(Held(n.current), r.who.endpoint, r.grant);
  }

  /**
   * And the other way: once a Relay has learned of the removal of a later enrollment, it denies the
   * live credential for as long as the removed one would have lasted.
   */
  lemma LaterRemovalDenies(s0: System, steps: seq<Step>, id: Id, w: Enrollment, r: Removal)
    requires Initial(s0)
    requires var s := Execute(s0, steps);
             && id in s.nodes && w in s.world.control.live && r in s.world.removed
             && r.who.endpoint == w.endpoint && r.grant.generation > s.world.control.live[w].generation
             && r.grant.expiresAt > s.world.clock && r.revision <= s.nodes[id].current.version
    ensures var s := Execute(s0, steps);
            Admission(s.world, s.nodes[id], w.endpoint, CredentialOf(s.world, w), s.world.clock).Err?
  {
    Reached(s0, steps);
    var s := Execute(s0, steps);
    assert NodeOk(s.world, s.nodes[id]);
    CoveredIsDenied(s.world, s.nodes[id], w, r);
  }

  /** The Relay holds an unexpired tombstone that covers the removal of a later enrollment. */
  ghost predicate Buried(s: World, n: Node, w: Enrollment)
    requires w in s.control.live
  {
    exists r :: r in s.removed && r.who.endpoint == w.endpoint && r.grant.generation > s.control.live[w].generation
                && RevokedThrough(Held(n.current), w.endpoint, s.clock) >= r.grant.generation
  }

  lemma AdmittedUnlessBuried(s: World, n: Node, w: Enrollment)
    requires s.audience != "" && s.clock <= I64_MAX && GrantsOk(s) && HistoryOk(s) && Traced(s.removed, Held(n.current))
    requires w in s.control.live && s.control.live[w].expiresAt > s.clock && !n.enrollmentRevoked
    ensures Admission(s, n, w.endpoint, CredentialOf(s, w), s.clock).Err? <==> Buried(s, n, w)
  {
    var held := Held(n.current);
    if w.endpoint in held { assert Stems(s.removed, w.endpoint, held[w.endpoint].generation); }
  }

  /** In any reachable state an enrolled Relay denies a live, unexpired credential exactly when it is buried. */
  lemma DeniedExactly(s0: System, steps: seq<Step>, id: Id, w: Enrollment)
    requires Initial(s0)
    requires var s := Execute(s0, steps);
             && id in s.nodes && w in s.world.control.live && s.world.control.live[w].expiresAt > s.world.clock
             && !s.nodes[id].enrollmentRevoked
    ensures var s := Execute(s0, steps);
            Admission(s.world, s.nodes[id], w.endpoint, CredentialOf(s.world, w), s.world.clock).Err? <==>
            Buried(s.world, s.nodes[id], w)
  {
    Reached(s0, steps);
    AdmittedUnlessBuried(Execute(s0, steps).world, Execute(s0, steps).nodes[id], w);
  }

  /** Clear before, and not the moment a later enrollment of the same endpoint goes. */
  ghost predicate StaysClear(s: World, c: Change, w: Enrollment)
    requires Allowed(s.control, c, s.clock)
  {
    && w in s.control.live && Clear(s, w)
    && !(c.Remove? && c.who.endpoint == w.endpoint
         && s.control.live[c.who].generation > s.control.live[w].generation)
  }

  lemma ChangeKeepsClear(s: World, c: Change, w: Enrollment)
    requires GrantsOk(s) && HistoryOk(s) && Allowed(s.control, c, s.clock) && w in Changed(s, c).control.live
    ensures Clear(Changed(s, c), w) <==> (c.Enroll? && c.who == w) || StaysClear(s, c, w)
  {
    var s' := Changed(s, c);
    if c.Remove? {
      assert s'.removed == s.removed + {Removal(c.who, s.control.live[c.who], s.control.relayRevision + 1)};
    } else {
      assert s'.removed == s.removed;
    }
  }

  /**
   * How an enrollment becomes and stays clear, over every run: a new enrollment always is, also after any
   * number of removals; it stops being clear exactly when a later enrollment of its endpoint is removed.
   */
  lemma ClearExactly(s0: System, steps: seq<Step>, c: Change, w: Enrollment)
    requires Initial(s0) && Allowed(Execute(s0, steps).world.control, c, Execute(s0, steps).world.clock)
    requires w in Changed(Execute(s0, steps).world, c).control.live
    ensures var s := Execute(s0, steps).world;
            Clear(Changed(s, c), w) <==> (c.Enroll? && c.who == w) || StaysClear(s, c, w)
  {
    Reached(s0, steps);
    ChangeKeepsClear(Execute(s0, steps).world, c, w);
  }

  /** An endpoint that never held two roles at once is always clear. */
  lemma SingleRoleIsClear(s0: System, steps: seq<Step>, w: Enrollment)
    requires Initial(s0)
    requires w in Execute(s0, steps).world.control.live && w.endpoint !in Execute(s0, steps).world.dual
    ensures Clear(Execute(s0, steps).world, w)
  {
    Reached(s0, steps);
  }

  /** Over any run, revisions never fall, and a grant that survives keeps its generation and never loses lifetime. */
  lemma StepMonotone(s: System, step: Step)
    ensures var a, b := s.world.control, Next(s, step).world.control;
            && a.revision <= b.revision <= a.revision + 1
            && a.relayRevision <= b.relayRevision <= a.relayRevision + 1
            && (forall w | w in a.live && w in b.live ::
                  && b.live[w].generation == a.live[w].generation
                  && b.live[w].expiresAt >= a.live[w].expiresAt)
  {}
}
