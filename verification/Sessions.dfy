/** Where a Relay's sessions come from and what ends them, over every run of the protocol. */
module Sessions {
  import opened Base
  import opened RelayApi
  import opened Relay
  import opened Authorization
  import opened AuthorizationProofs
  import opened Provenance

  ghost predicate Connected(s: System, id: Id, x: Session) { id in s.nodes && x in s.nodes[id].sessions }

  /**
   * This step opens the session: its peer presents a credential that Control issued to that very endpoint, with
   * that generation, unexpired and above any tombstone in force, to a Relay whose own enrollment stands.
   */
  ghost predicate Opens(s: System, step: Step, id: Id, x: Session) {
    && step.Connect? && step.node == id && step.peer == x.endpoint && step.token.Some? && id in s.nodes
    && var c := step.token.value.credential;
       && step.token.value.signature == Signature(s.world.controlId, c) && c in s.world.issued
       && c.endpoint == x.endpoint && c.generation == x.generation && c.audience == s.world.audience
       && c.expiresAt > s.world.clock && !s.nodes[id].enrollmentRevoked
       && c.generation > RevokedThrough(Held(s.nodes[id].current), x.endpoint, s.world.clock)
  }

  lemma AdmittedOpens(s: System, step: Step)
    requires Enabled(s, step) && step.Connect?
    requires Presented(s.world, s.nodes[step.node], step.peer, step.token, s.world.clock).Ok?
    ensures step.token.Some?
    ensures Opens(s, step, step.node, Session(step.peer, step.token.value.credential.generation))
  {
    PresentedIsIssued(s.world, s.nodes[step.node], step);
  }

  /** A session appears only by being opened. */
  lemma NewSessionsAreOpened(s: System, step: Step, id: Id, x: Session)
    requires Connected(Next(s, step), id, x) && !Connected(s, id, x)
    ensures Opens(s, step, id, x)
  {
    if step.Connect? && Presented(s.world, s.nodes[step.node], step.peer, step.token, s.world.clock).Ok? {
      AdmittedOpens(s, step);
    } else if step.Forge? {
      ForgeryIsLost(s.world, s.nodes[step.node], step);
    }
  }

  ghost predicate WasOpened(s0: System, steps: seq<Step>, id: Id, x: Session) {
    exists k :: 0 <= k < |steps| && Opens(Execute(s0, steps[..k]), steps[k], id, x)
  }

  lemma StillOpened(s0: System, init: seq<Step>, last: Step, id: Id, x: Session)
    requires WasOpened(s0, init, id, x) || Opens(Execute(s0, init), last, id, x)
    ensures WasOpened(s0, init + [last], id, x)
  {
    var steps := init + [last];
    if WasOpened(s0, init, id, x) {
      var k :| 0 <= k < |init| && Opens(Execute(s0, init[..k]), init[k], id, x);
      assert steps[..k] == init[..k] && steps[k] == init[k];
    } else {
      assert steps[..|init|] == init && steps[|init|] == last;
    }
  }

  /** In every run, whatever peers presented, every session was opened with a credential that Control had issued. */
  lemma {:induction false} SessionsWereOpened(s0: System, steps: seq<Step>, id: Id, x: Session)
    requires Initial(s0) && Connected(Execute(s0, steps), id, x)
    ensures WasOpened(s0, steps, id, x)
  {
    if steps != [] {
      var init, last := steps[..|steps| - 1], steps[|steps| - 1];
      assert steps == init + [last];
      if Connected(Execute(s0, init), id, x) {
        SessionsWereOpened(s0, init, id, x);
      } else {
        NewSessionsAreOpened(Execute(s0, init), last, id, x);
      }
      StillOpened(s0, init, last, id, x);
    }
  }

  // ---------- what ends a session ----------

  /** The staged update says more about the endpoint, as of the moment it was judged, than what is served. */
  ghost predicate Raises(n: Node, endpoint: Id)
    requires n.staged.Some?
  {
    Rises(Held(n.current), Held(n.staged.value.next), endpoint, n.staged.value.at)
  }

  lemma ActivationCutsExactly(s: World, n: Node, x: Session)
    requires NodeOk(s, n) && n.staged.Some? && x in n.sessions
    ensures x in ActivateNode(n).sessions <==> !Raises(n, x.endpoint)
  {
    CutExactly(n.sessions, Held(n.current), n.staged.value.delta, n.staged.value.at);
  }

  /** The steps of its Relay that end a session. */
  ghost predicate Cuts(n: Node, step: Step, x: Session) {
    match step
    case Activate(_) => n.staged.Some? && Raises(n, x.endpoint)
    case Disconnect(_, session) => session == x
    case Crash(_) => true
    case Expel(_) => true
    case _ => false
  }

  ghost predicate Ends(s: System, step: Step, id: Id, x: Session)
    requires id in s.nodes
  {
    !(step.Tick? || step.Control? || step.Issue?) && step.node == id && Cuts(s.nodes[id], step, x)
  }

  lemma NodeCutsExactly(s: World, n: Node, step: Step, x: Session)
    requires NodeOk(s, n) && NodeEnabled(s, n, step) && x in n.sessions
    ensures x !in NodeAfter(s, n, step).sessions <==> Cuts(n, step, x)
  {
    match step
    case Activate(_) => ActivationCutsExactly(s, n, x);
    case Forge(_, _, _) => ForgeryIsLost(s, n, step);
    case _ =>
  }

  lemma StepEndsExactly(s: System, step: Step, id: Id, x: Session)
    requires Inv(s) && Connected(s, id, x)
    ensures !Connected(Next(s, step), id, x) <==> Ends(s, step, id, x)
  {
    if Enabled(s, step) && !(step.Tick? || step.Control? || step.Issue? || step.Boot?) && step.node == id {
      NodeCutsExactly(s.world, s.nodes[id], step, x);
    }
  }

  /**
   * In every run, one step ends a session exactly if it activates an update that raises the effective generation
   * of its endpoint, or closes that connection, or stops or expels that Relay.
   */
  lemma SessionsEndExactly(s0: System, steps: seq<Step>, step: Step, id: Id, x: Session)
    requires Initial(s0) && Connected(Execute(s0, steps), id, x)
    ensures !Connected(Execute(s0, steps + [step]), id, x) <==> Ends(Execute(s0, steps), step, id, x)
  {
    Reached(s0, steps);
    assert (steps + [step])[..|steps|] == steps;
    StepEndsExactly(Execute(s0, steps), step, id, x);
  }
}
