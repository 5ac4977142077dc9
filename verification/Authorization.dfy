/**
 * The authorization protocol between Control and any number of Relays, over the parts of
 * Control's state that decide admission. Every interleaving of Control changes, polls, lost
 * replies, staged and activated updates, connections, crashes and clock ticks is a run.
 */
module Authorization {
  import opened Base
  import opened RelayApi
  import opened Relay

  const LIFETIME_SECS: nat := 7 * 24 * 60 * 60
  const RENEW_BEFORE_SECS: nat := 2 * 24 * 60 * 60

  datatype Enrollment = Enrollment(endpoint: Id, kind: SubjectKind)

  datatype Grant = Grant(generation: nat, issuedAt: int, expiresAt: int)

  datatype Authority = Authority(revision: nat, relayRevision: nat, live: map<Enrollment, Grant>, tombs: Tombs)

  /** `at` is a clock reading taken before the change waits for its turn, so it may be old. */
  datatype Change =
    | Enroll(who: Enrollment, at: int)
    | Renew(who: Enrollment, at: int)
    | Remove(who: Enrollment)
    | Collect(dead: set<Id>)
    | Publish(relays: bool)

  function Renewed(generation: nat, at: int): Grant {
    Grant(generation, at, SatAdd(at, LIFETIME_SECS))
  }

  predicate Allowed(a: Authority, c: Change, clock: int) {
    match c
    case Enroll(w, at) => at <= clock && at < SatAdd(at, LIFETIME_SECS) && w !in a.live
    case Renew(w, at) =>
      && at <= clock && at < SatAdd(at, LIFETIME_SECS)
      && w in a.live && a.live[w].expiresAt <= SatAdd(at, RENEW_BEFORE_SECS)
    case Remove(w) => w in a.live
    case Collect(dead) => forall e | e in dead && e in a.tombs :: a.tombs[e].expiresAt <= clock
    case Publish(_) => true
  }

  /** The tombstone a removal leaves: never less than the one it replaces. */
  function Bury(tombs: Tombs, endpoint: Id, g: Grant, relayRevision: nat): Tombstone {
    if endpoint in tombs then
      Tombstone(Max(tombs[endpoint].generation, g.generation), Max(tombs[endpoint].expiresAt, g.expiresAt),
          relayRevision + 1)
    else Tombstone(g.generation, g.expiresAt, relayRevision + 1)
  }

  function After(a: Authority, c: Change, clock: int): Authority
    requires Allowed(a, c, clock)
  {
    match c
    case Enroll(w, at) => a.(revision := a.revision + 1, live := a.live[w := Renewed(a.revision + 1, at)])
    case Renew(w, at) => a.(live := a.live[w := Renewed(a.live[w].generation, at)])
    case Remove(w) =>
      Authority(a.revision + 1, a.relayRevision + 1, a.live - {w},
                a.tombs[w.endpoint := Bury(a.tombs, w.endpoint, a.live[w], a.relayRevision)])
    case Collect(dead) => a.(tombs := a.tombs - dead)
    case Publish(relays) =>
      a.(revision := a.revision + 1, relayRevision := a.relayRevision + if relays then 1 else 0)
  }

  /** A staged update is already on disk but not yet active; `at` is the clock reading it was judged by. */
  datatype Staged = Staged(next: RevocationUpdate, delta: Tombs, at: int)

  datatype Node = Node(
    current: RevocationUpdate,
    disk: RevocationUpdate,
    reply: Option<SignedUpdate>,
    staged: Option<Staged>,
    sessions: set<Session>,
    enrollmentRevoked: bool)

  /** History of one removal: what was removed, its last grant, and the relay revision that announced it. */
  datatype Removal = Removal(who: Enrollment, grant: Grant, revision: nat)

  /**
   * Everything but the Relays. `issued`, `removed` and `dual` (endpoints that held two roles
   * at once) are history: nothing in the system reads them.
   */
  datatype World = World(
    audience: string,
    controlId: Id,
    clock: int,
    control: Authority,
    issued: set<Credential>,
    removed: set<Removal>,
    dual: set<Id>)

  datatype System = System(world: World, nodes: map<Id, Node>)

  datatype Step =
    | Tick(now: int)
    | Control(change: Change)
    | Issue(who: Enrollment)
    | Boot(node: Id)
    | Answer(node: Id, order: seq<Id>)
    | Lose(node: Id)
    | Stage(node: Id, order: seq<Id>)
    | Activate(node: Id)
    | Forge(node: Id, signed: SignedUpdate, order: seq<Id>)
    | Connect(node: Id, peer: Id, token: Option<SignedCredential>)
    | Disconnect(node: Id, session: Session)
    | Crash(node: Id)
    | Expel(node: Id)

  function Held(u: RevocationUpdate): Tombs { Table(u.revocations) }

  function Since(tombs: Tombs, version: nat): Tombs {
    map e | e in tombs && tombs[e].revision > version :: tombs[e]
  }

  function CredentialOf(s: World, w: Enrollment): Credential
    requires w in s.control.live
  {
    var g := s.control.live[w];
    Credential(PROTOCOL_VERSION, s.audience, s.controlId, w.endpoint, w.kind, g.generation, g.issuedAt, g.expiresAt)
  }

  /** Control's answer to a poll that carries the Relay's own version. */
  function Reply(s: World, n: Node, order: seq<Id>): SignedUpdate
    requires Enumerates(order, Since(s.control.tombs, n.current.version).Keys)
  {
    SignUpdate(
      RevocationUpdate(PROTOCOL_VERSION, s.audience, s.control.relayRevision, s.clock,
                       Wire(order, Since(s.control.tombs, n.current.version))),
      s.controlId)
  }

  function Judged(s: World, n: Node): Result<Verdict, Refusal>
    requires n.reply.Some?
  {
    Judge(s.controlId, s.audience, n.current, n.reply.value, s.clock)
  }

  /** `order` is an order in which the judged table, if any, can be written out. */
  predicate ListsResult(s: World, n: Node, order: seq<Id>)
    requires n.reply.Some?
  {
    match Judged(s, n)
    case Ok(Prune(t)) => Enumerates(order, t.Keys)
    case Ok(Adopt(t, _)) => Enumerates(order, t.Keys)
    case _ => true
  }

  /** The Relay's answer to whatever a peer presents. */
  function Presented(s: World, n: Node, peer: Id, token: Option<SignedCredential>, now: int): Result<(), Denial> {
    if n.enrollmentRevoked then Err(EnrollmentRevoked)
    else ValidateCredential(token, peer, s.controlId, s.audience, Held(n.current), now)
  }

  /** Its answer to a credential signed by Control. */
  function Admission(s: World, n: Node, peer: Id, c: Credential, now: int): Result<(), Denial> {
    Presented(s, n, peer, Some(SignCredential(c, s.controlId)), now)
  }

  predicate Enabled(s: System, step: Step) {
    match step
    case Tick(now) => s.world.clock <= now <= I64_MAX
    case Control(c) => Allowed(s.world.control, c, s.world.clock)
    case Issue(w) => w in s.world.control.live
    case Boot(id) => id !in s.nodes
    case _ => step.node in s.nodes && NodeEnabled(s.world, s.nodes[step.node], step)
  }

  /**
   * Anybody may send anything, but only Control signs in its name: a credential signature of Control's is on
   * something it issued, and an update in its name is the answer it gave.
   */
  predicate NodeEnabled(s: World, n: Node, step: Step) {
    match step
    case Answer(_, order) =>
      && n.reply.None? && n.staged.None? && n.current.version < s.control.relayRevision
      && Enumerates(order, Since(s.control.tombs, n.current.version).Keys)
    case Stage(_, order) => n.reply.Some? && n.staged.None? && ListsResult(s, n, order)
    case Activate(_) => n.staged.Some?
    case Forge(_, signed, order) =>
      && n.staged.None? && signed.signature != Signature(s.controlId, signed.update)
      && ListsResult(s, n.(reply := Some(signed)), order)
    case Connect(_, _, token) =>
      token.Some? && token.value.signature.signer == s.controlId ==> token.value.signature.payload in s.issued
    case _ => true
  }

  function StageNode(s: World, n: Node, order: seq<Id>): Node
    requires n.reply.Some? && ListsResult(s, n, order)
  {
    match Judged(s, n)
    case Err(_) => n.(reply := None)
    case Ok(Keep) => n.(reply := None)
    case Ok(Prune(t)) =>
      var pruned := n.current.(revocations := Wire(order, t));
      n.(reply := None, current := pruned, disk := pruned)
    case Ok(Adopt(t, delta)) =>
      var next := n.reply.value.update.(revocations := Wire(order, t));
      n.(reply := None, disk := next, staged := Some(Staged(next, delta, s.clock)))
  }

  function ActivateNode(n: Node): Node
    requires n.staged.Some?
  {
    var g := n.staged.value;
    n.(current := g.next, staged := None, sessions := Survivors(n.sessions, Held(n.current), g.delta, g.at))
  }

  function NodeAfter(s: World, n: Node, step: Step): Node
    requires NodeEnabled(s, n, step)
  {
    match step
    case Answer(_, order) => n.(reply := Some(Reply(s, n, order)))
    case Lose(_) => n.(reply := None)
    case Stage(_, order) => StageNode(s, n, order)
    case Activate(_) => ActivateNode(n)
    case Forge(_, signed, order) => StageNode(s, n.(reply := Some(signed)), order)
    case Connect(_, peer, token) =>
      if token.Some? && Presented(s, n, peer, token, s.clock).Ok?
      then n.(sessions := n.sessions + {Session(peer, token.value.credential.generation)}) else n
    case Disconnect(_, session) => n.(sessions := n.sessions - {session})
    case Crash(_) => n.(current := n.disk, reply := None, staged := None, sessions := {}, enrollmentRevoked := false)
    case Expel(_) => n.(reply := None, sessions := {}, enrollmentRevoked := true)
    case _ => n
  }

  function OtherKind(k: SubjectKind): SubjectKind { if k.Client? then SubjectKind.Edge else SubjectKind.Client }

  /** A Control change, with the history it adds. */
  function Changed(s: World, c: Change): World
    requires Allowed(s.control, c, s.clock)
  {
    s.(control := After(s.control, c, s.clock),
       removed := s.removed +
         if c.Remove? then {Removal(c.who, s.control.live[c.who], s.control.relayRevision + 1)} else {},
       dual := s.dual +
         if c.Enroll? && Enrollment(c.who.endpoint, OtherKind(c.who.kind)) in s.control.live
         then {c.who.endpoint} else {})
  }

  function FirstNode(s: World): Node {
    var first := StartingState(None, s.audience, s.clock);
    Node(first, first, None, None, {}, false)
  }

  /** A step that is not enabled changes nothing. */
  function Next(s: System, step: Step): System {
    if !Enabled(s, step) then s
    else
      match step
      case Tick(now) => s.(world := s.world.(clock := now))
      case Control(c) => s.(world := Changed(s.world, c))
      case Issue(w) => s.(world := s.world.(issued := s.world.issued + {CredentialOf(s.world, w)}))
      case Boot(id) => s.(nodes := s.nodes[id := FirstNode(s.world)])
      case _ => s.(nodes := s.nodes[step.node := NodeAfter(s.world, s.nodes[step.node], step)])
  }

  function Execute(s: System, steps: seq<Step>): System {
    if steps == [] then s else Next(Execute(s, steps[..|steps| - 1]), steps[|steps| - 1])
  }

  predicate Initial(s: System) {
    && s.world.audience != "" && s.world.clock <= I64_MAX
    && s.world.control == Authority(0, 1, map[], map[])
    && s.nodes == map[] && s.world.issued == {} && s.world.removed == {} && s.world.dual == {}
  }

  // ---------- the invariant ----------

  predicate Covers(t: Tombs, endpoint: Id, g: Grant) {
    endpoint in t && t[endpoint].generation >= g.generation && t[endpoint].expiresAt >= g.expiresAt
  }

  /** `big` says at least as much about `endpoint` as `t`. */
  predicate Dominates(big: Tombs, endpoint: Id, t: Tombstone) {
    && endpoint in big
    && big[endpoint].generation >= t.generation
    && big[endpoint].expiresAt >= t.expiresAt
    && big[endpoint].revision >= t.revision
  }

  /** Rows are well formed, and what has not expired is still known to Control. */
  ghost predicate Sound(s: World, t: Tombs, version: nat) {
    forall e | e in t ::
      && InRange(t[e], version)
      && t[e].generation <= s.control.revision
      && (t[e].expiresAt > s.clock ==> Dominates(s.control.tombs, e, t[e]))
  }

  /** Every removal up to `version` is covered until its last credential has expired. */
  ghost predicate Complete(s: World, t: Tombs, version: nat) {
    forall r | r in s.removed && r.revision <= version && r.grant.expiresAt > s.clock ::
      Covers(t, r.who.endpoint, r.grant)
  }

  /** For endpoints that never held two roles at once, tombstones stay below the live generation. */
  ghost predicate Fresh(s: World, t: Tombs) {
    forall e | e in t && e !in s.dual ::
      && (forall k | Enrollment(e, k) in s.control.live ::
           t[e].generation < s.control.live[Enrollment(e, k)].generation)
      && (e in s.control.tombs && t[e].revision < s.control.tombs[e].revision ==>
            t[e].generation < s.control.tombs[e].generation)
  }

  ghost predicate Knows(s: World, u: RevocationUpdate) {
    && ValidateRevocations(u, s.audience) == Ok(Held(u))
    && u.version <= s.control.relayRevision
    && Sound(s, Held(u), u.version) && Complete(s, Held(u), u.version) && Fresh(s, Held(u))
  }

  /** Against the table it will be merged into, a delta only moves forward. */
  ghost predicate Advances(s: World, held: Tombs, delta: Tombs) {
    forall e | e in held && e in delta ::
      && (held[e].expiresAt > s.clock ==> held[e].generation <= delta[e].generation)
      && (e !in s.dual ==> held[e].generation < delta[e].generation)
  }

  ghost predicate ReplyOk(s: World, n: Node) {
    n.reply.Some? ==>
      var u := n.reply.value.update;
      var delta := Table(u.revocations);
      && n.staged.None?
      && n.reply.value == SignUpdate(u, s.controlId)
      && ValidateRevocations(u, s.audience) == Ok(delta)
      && n.current.version < u.version <= s.control.relayRevision
      && (forall e | e in delta :: delta[e].revision > n.current.version)
      && Sound(s, delta, u.version) && Fresh(s, delta) && Advances(s, Held(n.current), delta)
      && (forall r | r in s.removed && r.revision <= u.version && r.grant.expiresAt > s.clock &&
                     (r.revision > n.current.version || r.who.endpoint in delta) ::
            Covers(delta, r.who.endpoint, r.grant))
  }

  ghost predicate StagedOk(s: World, n: Node) {
    if n.staged.None? then n.disk == n.current
    else
      var g := n.staged.value;
      && n.disk == g.next && Knows(s, g.next) && g.at <= s.clock
      && Held(g.next) == Live(Held(n.current), g.at) + g.delta
      && (forall e | e in Held(n.current) && e in g.delta && e !in s.dual ::
            Held(n.current)[e].generation < g.delta[e].generation)
  }

  ghost predicate SessionsOk(s: World, n: Node) {
    forall x | x in n.sessions && x.endpoint !in s.dual ::
      x.generation > RevokedThrough(Held(n.current), x.endpoint, s.clock)
  }

  ghost predicate NodeOk(s: World, n: Node) {
    Knows(s, n.current) && ReplyOk(s, n) && StagedOk(s, n) && SessionsOk(s, n)
  }

  ghost predicate GrantsOk(s: World) {
    && (forall w | w in s.control.live ::
          var g := s.control.live[w];
          1 <= g.generation <= s.control.revision && g.issuedAt <= s.clock && g.issuedAt < g.expiresAt)
    && (forall v, w | v in s.control.live && w in s.control.live && v != w ::
          s.control.live[v].generation != s.control.live[w].generation)
    && (forall e | Enrollment(e, SubjectKind.Client) in s.control.live
         && Enrollment(e, SubjectKind.Edge) in s.control.live ::
          e in s.dual)
  }

  ghost predicate HistoryOk(s: World) {
    && (forall r | r in s.removed ::
          1 <= r.grant.generation <= s.control.revision && 1 <= r.revision <= s.control.relayRevision)
    && (forall r, w | r in s.removed && w in s.control.live :: r.grant.generation != s.control.live[w].generation)
    && (forall c | c in s.issued ::
          && ValidCredential(c) && c.audience == s.audience && c.controlId == s.controlId
          && c.generation <= s.control.revision && c.issuedAt <= s.clock
          && (forall w | w in s.control.live && s.control.live[w].generation == c.generation ::
                w == Enrollment(c.endpoint, c.kind) && c.expiresAt <= s.control.live[w].expiresAt)
          && (forall r | r in s.removed && r.grant.generation == c.generation ::
                r.who == Enrollment(c.endpoint, c.kind) && c.expiresAt <= r.grant.expiresAt))
  }

  ghost predicate TombsOk(s: World) {
    && Sound(s, s.control.tombs, s.control.relayRevision)
    && Complete(s, s.control.tombs, s.control.relayRevision)
    && Fresh(s, s.control.tombs)
    && (forall r | r in s.removed && r.grant.expiresAt > s.clock ::
          r.who.endpoint in s.control.tombs && s.control.tombs[r.who.endpoint].revision >= r.revision)
  }

  ghost predicate WorldOk(s: World) {
    s.audience != "" && s.clock <= I64_MAX && GrantsOk(s) && HistoryOk(s) && TombsOk(s)
  }

  ghost predicate Inv(s: System) {
    WorldOk(s.world) && forall id | id in s.nodes :: NodeOk(s.world, s.nodes[id])
  }
}
