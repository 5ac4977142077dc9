/** Where tombstones come from and how updates are judged: two more facts every run of the protocol keeps. */
module Provenance {
  import opened Base
  import opened RelayApi
  import opened Relay
  import opened Authorization
  import opened AuthorizationProofs

  // ---------- every tombstone stems from a removal ----------

  ghost predicate Stems(removed: set<Removal>, e: Id, generation: nat) {
    exists r :: r in removed && r.who.endpoint == e && r.grant.generation == generation
  }

  /** A tombstone lasts exactly as long as the credentials of some removal would have. */
  ghost predicate Lasts(removed: set<Removal>, e: Id, expiresAt: int) {
    exists r :: r in removed && r.who.endpoint == e && r.grant.expiresAt == expiresAt
  }

  ghost predicate Traced(removed: set<Removal>, t: Tombs) {
    forall e | e in t :: Stems(removed, e, t[e].generation) && Lasts(removed, e, t[e].expiresAt)
  }

  ghost predicate NodeTraced(removed: set<Removal>, n: Node) {
    && Traced(removed, Held(n.current)) && Traced(removed, Held(n.disk))
    && (n.reply.Some? ==> Traced(removed, Held(n.reply.value.update)))
    && (n.staged.Some? ==> Traced(removed, Held(n.staged.value.next)))
  }

  /** A staged delta was judged not to move any generation backwards. */
  ghost predicate Forward(n: Node) {
    n.staged.Some? ==> !GoesBackwards(Held(n.current), n.staged.value.delta, n.staged.value.at)
  }

  /** An endpoint that never held two roles at once has only removals older than its enrollment. */
  ghost predicate Ordered(s: World) {
    forall r, w | r in s.removed && w in s.control.live && r.who.endpoint == w.endpoint && w.endpoint !in s.dual ::
      r.grant.generation < s.control.live[w].generation
  }

  ghost predicate Grounded(s: System) {
    && Ordered(s.world) && Traced(s.world.removed, s.world.control.tombs)
    && forall id | id in s.nodes :: NodeTraced(s.world.removed, s.nodes[id]) && Forward(s.nodes[id])
  }

  lemma StillTraced(removed: set<Removal>, more: set<Removal>, t: Tombs)
    requires removed <= more && Traced(removed, t)
    ensures Traced(more, t)
  {
    forall e | e in t ensures Stems(more, e, t[e].generation) && Lasts(more, e, t[e].expiresAt) {
      var r :| r in removed && r.who.endpoint == e && r.grant.generation == t[e].generation;
      var l :| l in removed && l.who.endpoint == e && l.grant.expiresAt == t[e].expiresAt;
      assert r in more && l in more;
    }
  }

  lemma NodeStillTraced(removed: set<Removal>, more: set<Removal>, n: Node)
    requires removed <= more && NodeTraced(removed, n)
    ensures NodeTraced(more, n)
  {
    StillTraced(removed, more, Held(n.current));
    StillTraced(removed, more, Held(n.disk));
    if n.reply.Some? { StillTraced(removed, more, Held(n.reply.value.update)); }
    if n.staged.Some? { StillTraced(removed, more, Held(n.staged.value.next)); }
  }

  lemma RemovalIsTraced(s: World, w: Enrollment)
    requires w in s.control.live && Traced(s.removed, s.control.tombs)
    ensures Traced(Changed(s, Remove(w)).removed, Changed(s, Remove(w)).control.tombs)
  {
    var s' := Changed(s, Remove(w));
    StillTraced(s.removed, s'.removed, s.control.tombs);
    var r := Removal(w, s.control.live[w], s.control.relayRevision + 1);
    assert r in s'.removed && r.who.endpoint == w.endpoint;
  }

  lemma ChangeKeepsOrder(s: World, c: Change)
    requires GrantsOk(s) && HistoryOk(s) && Ordered(s) && Allowed(s.control, c, s.clock)
    ensures Ordered(Changed(s, c))
  {
    var s' := Changed(s, c);
    forall r, w | r in s'.removed && w in s'.control.live && r.who.endpoint == w.endpoint && w.endpoint !in s'.dual
      ensures r.grant.generation < s'.control.live[w].generation
    {
      if r !in s.removed { OneRole(s, w, c.who); }
    }
  }

  lemma ChangeKeepsGrounded(s: System, c: Change)
    requires Inv(s) && Grounded(s) && Allowed(s.world.control, c, s.world.clock)
    ensures Grounded(s.(world := Changed(s.world, c)))
  {
    var w' := Changed(s.world, c);
    ChangeKeepsOrder(s.world, c);
    if c.Remove? {
      RemovalIsTraced(s.world, c.who);
    } else {
      StillTraced(s.world.removed, w'.removed, w'.control.tombs);
    }
    forall id | id in s.nodes ensures NodeTraced(w'.removed, s.nodes[id]) {
      NodeStillTraced(s.world.removed, w'.removed, s.nodes[id]);
    }
  }

  lemma VerdictShape(authority: Id, audience: string, current: RevocationUpdate, signed: SignedUpdate, now: int)
    ensures match Judge(authority, audience, current, signed, now)
            case Ok(Prune(t)) => t == Live(Held(current), now)
            case Ok(Adopt(t, delta)) =>
              && delta == Held(signed.update) && t == Live(Held(current), now) + delta
              && !GoesBackwards(Held(current), delta, now) && signed.update.version > current.version
            case _ => true
  {}

  lemma StagingKeeps(s: World, n: Node, order: seq<Id>)
    requires NodeTraced(s.removed, n) && n.reply.Some? && n.staged.None? && ListsResult(s, n, order)
    ensures NodeTraced(s.removed, StageNode(s, n, order)) && Forward(StageNode(s, n, order))
  {
    VerdictShape(s.controlId, s.audience, n.current, n.reply.value, s.clock);
    match Judged(s, n)
    case Ok(Prune(t)) => TableOfWire(order, t);
    case Ok(Adopt(t, _)) => TableOfWire(order, t);
    case _ =>
  }

  lemma AnswerIsTraced(s: World, n: Node, order: seq<Id>)
    requires Traced(s.removed, s.control.tombs)
    requires Enumerates(order, Since(s.control.tombs, n.current.version).Keys)
    ensures Traced(s.removed, Held(Reply(s, n, order).update))
  {
    TableOfWire(order, Since(s.control.tombs, n.current.version));
  }

  lemma NodeStepKeeps(s: World, n: Node, step: Step)
    requires Traced(s.removed, s.control.tombs) && NodeTraced(s.removed, n) && Forward(n) && NodeEnabled(s, n, step)
    ensures NodeTraced(s.removed, NodeAfter(s, n, step)) && Forward(NodeAfter(s, n, step))
  {
    match step
    case Answer(_, order) => AnswerIsTraced(s, n, order);
    case Stage(_, order) => StagingKeeps(s, n, order);
    case Forge(_, _, _) => ForgeryIsLost(s, n, step);
    case _ =>
  }

  lemma NodeFrame(s: System, id: Id, n: Node)
    requires Grounded(s) && NodeTraced(s.world.removed, n) && Forward(n)
    ensures Grounded(s.(nodes := s.nodes[id := n]))
  {}

  lemma StepKeepsGrounded(s: System, step: Step)
    requires Inv(s) && Grounded(s)
    ensures Grounded(Next(s, step))
  {
    if Enabled(s, step) {
      match step
      case Tick(_) =>
      case Control(c) => ChangeKeepsGrounded(s, c);
      case Issue(_) =>
      case Boot(id) => NodeFrame(s, id, FirstNode(s.world));
      case _ =>
        var n := s.nodes[step.node];
        NodeStepKeeps(s.world, n, step);
        NodeFrame(s, step.node, NodeAfter(s.world, n, step));
    }
  }

  lemma {:induction false} RunKeepsGrounded(s: System, steps: seq<Step>)
    requires Inv(s) && Grounded(s)
    ensures Inv(Execute(s, steps)) && Grounded(Execute(s, steps))
  {
    if steps != [] {
      RunKeepsGrounded(s, steps[..|steps| - 1]);
      StepKeepsInv(Execute(s, steps[..|steps| - 1]), steps[|steps| - 1]);
      StepKeepsGrounded(Execute(s, steps[..|steps| - 1]), steps[|steps| - 1]);
    }
  }

  lemma Reached(s0: System, steps: seq<Step>)
    requires Initial(s0)
    ensures Inv(Execute(s0, steps)) && Grounded(Execute(s0, steps))
  {
    InitialHolds(s0);
    RunKeepsGrounded(s0, steps);
  }

  // ---------- nothing a Relay has learned is forgotten ----------

  /** What is stored, or about to be served, is never older than what is served. */
  ghost predicate Ahead(n: Node) {
    && n.disk.version >= n.current.version
    && (n.staged.Some? ==> n.disk.version >= n.staged.value.next.version >= n.current.version)
  }

  ghost predicate AllAhead(s: System) { forall id | id in s.nodes :: Ahead(s.nodes[id]) }

  /** Versions, removals and issued credentials only grow, and time only passes. */
  ghost predicate Progresses(s: System, s': System) {
    && s.world.removed <= s'.world.removed && s.world.issued <= s'.world.issued && s.world.clock <= s'.world.clock
    && forall id | id in s.nodes :: id in s'.nodes && s'.nodes[id].current.version >= s.nodes[id].current.version
  }

  lemma StagingIsAhead(s: World, n: Node, order: seq<Id>)
    requires Ahead(n) && n.reply.Some? && n.staged.None? && ListsResult(s, n, order)
    ensures Ahead(StageNode(s, n, order)) && StageNode(s, n, order).current.version == n.current.version
  {
    VerdictShape(s.controlId, s.audience, n.current, n.reply.value, s.clock);
  }

  /** No step of a Relay takes it back, not even a crash: the state file is written before it is served. */
  lemma NodeStepProgresses(s: World, n: Node, step: Step)
    requires Ahead(n) && NodeEnabled(s, n, step)
    ensures Ahead(NodeAfter(s, n, step)) && NodeAfter(s, n, step).current.version >= n.current.version
  {
    if step.Stage? { StagingIsAhead(s, n, step.order); }
    if step.Forge? { ForgeryIsLost(s, n, step); }
  }

  lemma StepProgresses(s: System, step: Step)
    requires AllAhead(s)
    ensures AllAhead(Next(s, step)) && Progresses(s, Next(s, step))
  {
    if Enabled(s, step) && !(step.Tick? || step.Control? || step.Issue? || step.Boot?) {
      NodeStepProgresses(s.world, s.nodes[step.node], step);
    }
  }

  lemma {:induction false} RunProgresses(s: System, more: seq<Step>)
    requires AllAhead(s)
    ensures AllAhead(Execute(s, more)) && Progresses(s, Execute(s, more))
  {
    if more != [] {
      RunProgresses(s, more[..|more| - 1]);
      StepProgresses(Execute(s, more[..|more| - 1]), more[|more| - 1]);
    }
  }

  lemma {:induction false} RunsJoin(s: System, a: seq<Step>, b: seq<Step>)
    ensures Execute(s, a + b) == Execute(Execute(s, a), b)
  {
    if b == [] {
      assert a + b == a;
    } else {
      assert (a + b)[..|a + b| - 1] == a + b[..|b| - 1];
      RunsJoin(s, a, b[..|b| - 1]);
    }
  }
}
