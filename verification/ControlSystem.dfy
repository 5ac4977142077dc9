/** Control with all its handlers, next to the Relays it feeds; every run refines the authorization protocol. */
module ControlSystem {
  import opened Base
  import opened RelayApi
  import Auth = Authorization
  import opened Control
  import opened ControlProofs

  /** `issued`, `removed`, `dual`, `used` (invitation ids) and `claims` are history. */
  datatype Sys = Sys(
    controlId: Id,
    clock: int,
    control: ControlState,
    nodes: map<Id, Auth.Node>,
    issued: set<Credential>,
    removed: set<Auth.Removal>,
    dual: set<Id>,
    used: set<string>,
    claims: set<(string, Id)>)

  /** `commits` is the database's verdict: a transaction may always abort. */
  datatype Step =
    | Serve(request: Request, commits: bool)
    | Fetch(endpoint: Id)
    | Poll(node: Id, order: seq<Id>)
    | Elsewhere(step: Auth.Step)

  function World(c: Sys): Auth.World {
    Auth.World(c.control.network.audience, c.controlId, c.clock, Authority(c.control), c.issued, c.removed, c.dual)
  }

  function Project(c: Sys): Auth.System { Auth.System(World(c), c.nodes) }

  /** Random invitation ids are assumed never to repeat. */
  ghost predicate Serves(c: Sys, q: Request) {
    && RequestOk(c.control, q, c.clock)
    && (Invites(q) ==> q.freshId !in c.used)
    && Plan(c.control, c.controlId, q, c.clock).Do?
  }

  function Commit(c: Sys, m: Mutation): Sys
    requires Guard(c.control, m, c.clock) && PassesChecks(DeltaOf(c.control, m, c.clock))
  {
    MutationRefines(c.control, m, c.clock);
    var w := Auth.Changed(World(c), ChangeOf(c.control, m, c.clock));
    c.(control := Performed(c.control, m, c.clock), removed := w.removed, dual := w.dual,
       used := c.used + if m.AddInvite? then {m.record.invite.id} else {},
       claims := c.claims + if m.Enroll? then {(m.inviteId, m.endpoint)} else {})
  }

  /** The mutation a served request commits, if it commits one. */
  ghost function Effective(c: Sys, q: Request): (r: Option<Mutation>)
    ensures r.Some? ==> Serves(c, q) && r.value == Plan(c.control, c.controlId, q, c.clock).mutation
    ensures r.Some? ==> Guard(c.control, r.value, c.clock) && PassesChecks(DeltaOf(c.control, r.value, c.clock))
    ensures r.Some? && r.value.AddInvite? ==> r.value.record.invite.id !in c.used
  {
    if !Serves(c, q) then None
    else
      PlansAreGuarded(c.control, c.controlId, q, c.clock);
      var m := Plan(c.control, c.controlId, q, c.clock).mutation;
      assert m.AddInvite? ==> m.record.invite.id !in c.used by {
        if m.AddInvite? { NewInvitesAreFresh(c.control, c.controlId, q, c.clock); }
      }
      if PassesChecks(DeltaOf(c.control, m, c.clock)) then Some(m) else None
  }

  predicate IsRelaySide(step: Auth.Step) {
    step.Tick? || step.Boot? || step.Lose? || step.Stage? || step.Activate? || step.Forge? || step.Connect?
        || step.Disconnect? || step.Crash?
  }

  /** The role whose credential a map carries: an edge's before a client's. */
  function RoleOf(s: ControlState, e: Id): Option<Auth.Enrollment> {
    if e in s.edges then Some(Auth.Enrollment(e, SubjectKind.Edge))
    else if e in s.clients then Some(Auth.Enrollment(e, SubjectKind.Client))
    else None
  }

  function Moved(c: Sys, a: Auth.System): Sys {
    c.(clock := a.world.clock, nodes := a.nodes)
  }

  ghost function Next(c: Sys, step: Step): Sys {
    match step
    case Serve(q, commits) =>
      var m := Effective(c, q);
      if commits && m.Some? then Commit(c, m.value) else c
    case Fetch(e) =>
      var fetched := MapFor(c.control, c.controlId, e);
      if fetched.Some? && fetched.value.credential.Some?
      then c.(issued := c.issued + {fetched.value.credential.value}) else c
    case Poll(id, order) =>
      if id in c.control.relays then Moved(c, Auth.Next(Project(c), Auth.Answer(id, order)))
      else Moved(c, Auth.Next(Project(c), Auth.Expel(id)))
    case Elsewhere(a) => if IsRelaySide(a) then Moved(c, Auth.Next(Project(c), a)) else c
  }

  ghost function Execute(c: Sys, steps: seq<Step>): Sys {
    if steps == [] then c else Next(Execute(c, steps[..|steps| - 1]), steps[|steps| - 1])
  }

  /** The state `init` leaves, with no Relay running yet. */
  predicate Initial(c: Sys) {
    && c.control.network.audience != "" && c.clock <= I64_MAX
    && c.control == ControlState(c.control.network, 0, 1, map[], map[], map[], map[], map[], map[])
    && c.nodes == map[] && c.issued == {} && c.removed == {} && c.dual == {} && c.used == {} && c.claims == {}
  }

  /** Only a committing request touches Control's state and the invitation history. */
  lemma OnlyCommitsTouchControl(c: Sys, step: Step)
    ensures var c' := Next(c, step);
            && c'.controlId == c.controlId
            && (if step.Serve? && step.commits && Effective(c, step.request).Some?
                then c' == Commit(c, Effective(c, step.request).value)
                else c'.control == c.control && c'.used == c.used && c'.claims == c.claims)
  {}

  // ---------- refinement ----------

  /** The protocol step a system step amounts to. */
  ghost function Shadow(c: Sys, step: Step): Auth.Step {
    var idle := Auth.Tick(c.clock);
    match step
    case Serve(q, commits) =>
      var m := Effective(c, q);
      if commits && m.Some? then Auth.Step.Control(ChangeOf(c.control, m.value, c.clock)) else idle
    case Fetch(e) => if RoleOf(c.control, e).Some? then Auth.Issue(RoleOf(c.control, e).value) else idle
    case Poll(id, order) => if id in c.control.relays then Auth.Answer(id, order) else Auth.Expel(id)
    case Elsewhere(a) => if IsRelaySide(a) then a else idle
  }

  ghost function Shadows(c: Sys, steps: seq<Step>): seq<Auth.Step> {
    if steps == [] then []
    else Shadows(c, steps[..|steps| - 1]) + [Shadow(Execute(c, steps[..|steps| - 1]), steps[|steps| - 1])]
  }

  lemma StepRefines(c: Sys, step: Step)
    ensures Project(Next(c, step)) == Auth.Next(Project(c), Shadow(c, step))
  {
    match step
    case Serve(q, commits) =>
      var m := Effective(c, q);
      if commits && m.Some? {
        MutationRefines(c.control, m.value, c.clock);
        TombsAfter(c.control, m.value, c.clock);
      }
    case Fetch(e) =>
      if RoleOf(c.control, e).Some? {
        assert RoleOf(c.control, e).value in Roles(c.control);
      }
    case Poll(_, _) =>
    case Elsewhere(_) =>
  }

  /** Every run of the whole system is, step for step, a run of the authorization protocol. */
  lemma {:induction false} RunRefines(c: Sys, steps: seq<Step>)
    ensures Project(Execute(c, steps)) == Auth.Execute(Project(c), Shadows(c, steps))
  {
    if steps != [] {
      var init, last := steps[..|steps| - 1], steps[|steps| - 1];
      RunRefines(c, init);
      StepRefines(Execute(c, init), last);
      assert Shadows(c, steps)[..|Shadows(c, steps)| - 1] == Shadows(c, init);
    }
  }

  lemma InitialRefines(c: Sys)
    requires Initial(c)
    ensures Auth.Initial(Project(c))
  {
    assert Authority(c.control).live == map[];
  }
}
