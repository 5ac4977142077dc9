/**
 * Two runs that show why freedom from false denial and session safety need their conditions: one endpoint is
 * enrolled both as a client and as an edge. In the first a later enrollment is removed, in the second an
 * update is raced.
 */
module Counterexamples {
  import opened Base
  import opened RelayApi
  import opened Relay
  import opened Authorization
  import opened AuthorizationProofs
  import opened AuthorizationTheorems
  import opened Provenance

  const DAY: nat := 24 * 60 * 60
  const BOTH: Id := "both"
  const RELAY: Id := "relay"
  const CLIENT: Enrollment := Enrollment(BOTH, SubjectKind.Client)
  const EDGE: Enrollment := Enrollment(BOTH, SubjectKind.Edge)

  function Start(): (s: System)
    ensures Initial(s)
  {
    System(World("net", "control", 0, Authority(0, 1, map[], map[]), {}, {}, {}), map[])
  }

  lemma Then(run: seq<Step>, s: System, step: Step) returns (run': seq<Step>, s': System)
    requires s == Execute(Start(), run)
    ensures s' == Next(s, step) == Execute(Start(), run')
  {
    run', s' := run + [step], Next(s, step);
  }

  /** The client enrolls first, the edge second; on day six the client renews and the edge is removed. */
  lemma EdgeRoleRemoved() returns (run: seq<Step>, s: System)
    ensures s == Execute(Start(), run)
    ensures s.world.audience == "net" && s.world.controlId == "control" && s.world.clock == 6 * DAY
    ensures s.world.control ==
            Authority(3, 2, map[CLIENT := Grant(1, 6 * DAY, 13 * DAY)], map[BOTH := Tombstone(2, 7 * DAY, 2)])
    ensures s.nodes == map[] && CredentialOf(s.world, CLIENT) in s.world.issued
  {
    run, s := [], Start();
    run, s := Then(run, s, Control(Enroll(CLIENT, 0)));
    run, s := Then(run, s, Control(Enroll(EDGE, 0)));
    run, s := Then(run, s, Tick(6 * DAY));
    run, s := Then(run, s, Control(Renew(CLIENT, 6 * DAY)));
    assert s.world.control ==
        Authority(2, 1, map[CLIENT := Grant(1, 6 * DAY, 13 * DAY), EDGE := Grant(2, 0, 7 * DAY)], map[]);
    run, s := Then(run, s, Issue(CLIENT));
    run, s := Then(run, s, Control(Remove(EDGE)));
  }

  ghost predicate Ready(s: World, n: Node, t: Tombstone) {
    && n.reply.None? && n.staged.None? && n.current.version < s.control.relayRevision
    && Since(s.control.tombs, n.current.version) == map[BOTH := t] && Held(n.current).Keys <= {BOTH}
  }

  /** `n'` is `n` with the one tombstone `t` stored but not yet active. */
  ghost predicate Stored(s: World, n: Node, n': Node, t: Tombstone) {
    && n'.staged.Some? && n' == n.(disk := n'.disk, staged := n'.staged)
    && n'.staged.value.delta == map[BOTH := t] == Held(n'.staged.value.next)
    && n'.staged.value.at == s.clock && n'.staged.value.next.version == s.control.relayRevision
  }

  lemma Listing(t: Tombstone)
    ensures Enumerates([BOTH], map[BOTH := t].Keys)
  {
    assert (set k | k in [BOTH]) == {BOTH};
  }

  lemma PollIsOk(s: World, n: Node)
    requires WorldOk(s) && NodeOk(s, n) && n.staged.None? && n.current.version < s.control.relayRevision
    requires Enumerates([BOTH], Since(s.control.tombs, n.current.version).Keys)
    ensures NodeOk(s, Asking(s, n, [BOTH]))
  {
    AnswerIsGood(s, n, [BOTH]);
  }

  lemma OnlyRow(held: Tombs, t: Tombstone, now: int)
    requires held.Keys <= {BOTH}
    ensures Live(held, now) + map[BOTH := t] == map[BOTH := t]
  {}

  lemma TombstoneAdopted(s: World, n: Node, t: Tombstone)
    requires WorldOk(s) && NodeOk(s, n) && Ready(s, n, t)
    requires Enumerates([BOTH], Since(s.control.tombs, n.current.version).Keys)
    ensures Judged(s, Asking(s, n, [BOTH])) == Ok(Adopt(map[BOTH := t], map[BOTH := t]))
  {
    PollIsOk(s, n);
    HonestReplyAdopted(s, Asking(s, n, [BOTH]));
    TableOfWire([BOTH], map[BOTH := t]);
    OnlyRow(Held(n.current), t, s.clock);
  }

  lemma TombstoneStored(s: World, n: Node, t: Tombstone)
    requires WorldOk(s) && NodeOk(s, n) && Ready(s, n, t)
    ensures Enumerates([BOTH], Since(s.control.tombs, n.current.version).Keys)
    ensures ListsResult(s, Asking(s, n, [BOTH]), [BOTH])
    ensures Stored(s, n, StageNode(s, Asking(s, n, [BOTH]), [BOTH]), t)
  {
    Listing(t);
    TombstoneAdopted(s, n, t);
    TableOfWire([BOTH], map[BOTH := t]);
  }

  lemma TombstoneStaged(run: seq<Step>, s: System, t: Tombstone) returns (run': seq<Step>, s': System)
    requires s == Execute(Start(), run) && RELAY in s.nodes && Ready(s.world, s.nodes[RELAY], t)
    ensures s' == Execute(Start(), run') && s'.world == s.world && RELAY in s'.nodes
    ensures Stored(s.world, s.nodes[RELAY], s'.nodes[RELAY], t)
  {
    Reached(Start(), run);
    TombstoneStored(s.world, s.nodes[RELAY], t);
    RelayStepIs(s, Answer(RELAY, [BOTH]));
    run', s' := Then(run, s, Answer(RELAY, [BOTH]));
    RelayStepIs(s', Stage(RELAY, [BOTH]));
    run', s' := Then(run', s', Stage(RELAY, [BOTH]));
  }

  /** A Relay boots and learns of the removal. */
  lemma RemovalLearned() returns (run: seq<Step>, s: System)
    ensures s == Execute(Start(), run) && RELAY in s.nodes
    ensures s.world.audience == "net" && s.world.controlId == "control" && s.world.clock == 6 * DAY
    ensures s.world.control ==
            Authority(3, 2, map[CLIENT := Grant(1, 6 * DAY, 13 * DAY)], map[BOTH := Tombstone(2, 7 * DAY, 2)])
    ensures CredentialOf(s.world, CLIENT) in s.world.issued
    ensures var n := s.nodes[RELAY];
            && n.reply.None? && n.staged.None? && n.sessions == {} && !n.enrollmentRevoked
            && n.current.version == 2 && Held(n.current) == map[BOTH := Tombstone(2, 7 * DAY, 2)]
  {
    run, s := EdgeRoleRemoved();
    run, s := Then(run, s, Boot(RELAY));
    assert Since(s.world.control.tombs, 0) == map[BOTH := Tombstone(2, 7 * DAY, 2)];
    run, s := TombstoneStaged(run, s, Tombstone(2, 7 * DAY, 2));
    run, s := Then(run, s, Activate(RELAY));
  }

  /** False denial: the client role is live and its credential unexpired, yet the Relay answers that it is revoked. */
  lemma SecondRoleIsDenied() returns (run: seq<Step>, s: System)
    ensures s == Execute(Start(), run) && RELAY in s.nodes
    ensures CLIENT in s.world.control.live && s.world.control.live[CLIENT].expiresAt > s.world.clock
    ensures !s.nodes[RELAY].enrollmentRevoked
    ensures Admission(s.world, s.nodes[RELAY], BOTH, CredentialOf(s.world, CLIENT), s.world.clock) == Err(Revoked)
  {
    run, s := RemovalLearned();
  }

  /** On day seven the first tombstone runs out while the second, just as high, is stored but not yet active. */
  lemma SecondRemovalStaged() returns (run: seq<Step>, s: System, c: Credential)
    ensures s == Execute(Start(), run) && RELAY in s.nodes && s.world.clock == 7 * DAY && s.world.control.live == map[]
    ensures s.world.audience == "net" && s.world.controlId == "control" && c in s.world.issued
    ensures c == Credential(PROTOCOL_VERSION, "net", "control", BOTH, SubjectKind.Client, 1, 6 * DAY, 13 * DAY)
    ensures var n := s.nodes[RELAY];
            && !n.enrollmentRevoked && n.sessions == {} && Held(n.current) == map[BOTH := Tombstone(2, 7 * DAY, 2)]
            && n.staged.Some? && n.staged.value.at == 7 * DAY - 1
            && n.staged.value.delta == map[BOTH := Tombstone(2, 13 * DAY, 3)] == Held(n.staged.value.next)
  {
    run, s := RemovalLearned();
    c := CredentialOf(s.world, CLIENT);
    run, s := Then(run, s, Tick(7 * DAY - 1));
    run, s := Then(run, s, Control(Remove(CLIENT)));
    assert s.world.control.tombs == map[BOTH := Tombstone(2, 13 * DAY, 3)];
    assert Since(s.world.control.tombs, 2) == map[BOTH := Tombstone(2, 13 * DAY, 3)];
    run, s := TombstoneStaged(run, s, Tombstone(2, 13 * DAY, 3));
    run, s := Then(run, s, Tick(7 * DAY));
  }

  /** Unsafe session: the removed client connects in that moment, and activating the update leaves it connected. */
  lemma SessionSurvivesItsRemoval() returns (run: seq<Step>, s: System, x: Session)
    ensures s == Execute(Start(), run) && RELAY in s.nodes && x in s.nodes[RELAY].sessions
    ensures x.generation <= RevokedThrough(Held(s.nodes[RELAY].current), x.endpoint, s.world.clock)
    ensures s.world.control.live == map[]
  {
    var c;
    run, s, c := SecondRemovalStaged();
    x := Session(BOTH, 1);
    run, s := Then(run, s, Connect(RELAY, BOTH, Some(SignCredential(c, "control"))));
    assert x in s.nodes[RELAY].sessions;
    run, s := Then(run, s, Activate(RELAY));
  }
}
