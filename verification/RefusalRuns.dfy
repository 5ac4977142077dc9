/** Two runs of Control with its database that end in a request the handlers accept and the database refuses. */
module RefusalRuns {
  import opened Base
  import opened RelayApi
  import Auth = Authorization
  import opened Control
  import opened ControlProofs
  import Sys = ControlSystem
  import opened Database
  import opened Schema
  import opened Commits
  import opened ControlDatabase

  const NETWORK: Network := Network(6, "net", "https://control", [0])
  const SECRET: string := "0123456789abcdef0123456789abcdef"

  function Blank(): ControlState { ControlState(NETWORK, 0, 1, map[], map[], map[], map[], map[], map[]) }

  function Start(): Backed {
    Backed(Sys.Sys("control", 0, Blank(), map[], {}, {}, {}, {}, {}),
           Tables(NETWORK, 0, 1, map[], map[], map[], map[], map[], map[]))
  }

  lemma StartIsInitial()
    ensures Initial(Start())
  {
    assert LoadInvites(map[]) == map[] && LoadProvisioners(map[]) == map[];
  }

  /** One more request is carried out. */
  lemma Carried(run: seq<Step>, b: Backed, q: Request, m: Mutation) returns (run': seq<Step>, b': Backed)
    requires b == Execute(Start(), run) && InStep(b) && Decided(b, q)
    requires !Orphaned(b.sys.control, q) && !Collides(b.sys.control, q)
    requires Plan(b.sys.control, b.sys.controlId, q, b.sys.clock).mutation == m
    ensures b' == Execute(Start(), run') && InStep(b')
    ensures b'.sys.clock == b.sys.clock && b'.sys.controlId == b.sys.controlId
    ensures Guard(b.sys.control, m, b.sys.clock) && b'.sys.control == Performed(b.sys.control, m, b.sys.clock)
    ensures b'.sys.used == b.sys.used + if m.AddInvite? then {m.record.invite.id} else {}
  {
    AcceptsExactly(b, q);
    AskKeepsInStep(b, q);
    run', b' := run + [Ask(q)], Next(b, Ask(q));
  }

  lemma TextsAreValid()
    ensures ValidSecret(SECRET) && ValidName("laptop") && ValidName("box") && ValidName("phone")
    ensures ValidName("one") && ValidName("two") && ValidRequestId("r")
  {}

  lemma ProvisionerAdded(s: ControlState, p: Id, name: string, clock: int)
    requires Guard(s, AddProvisioner(p, name), clock)
    ensures Performed(s, AddProvisioner(p, name), clock) ==
            s.(revision := s.revision + 1, provisioners := s.provisioners[p := name])
  {
    Effect(s, AddProvisioner(p, name), clock);
  }

  lemma InviteAdded(s: ControlState, r: InviteRecord, clock: int)
    requires Guard(s, AddInvite(r), clock)
    ensures Performed(s, AddInvite(r), clock) == s.(revision := s.revision + 1, invites := s.invites[r.invite.id := r])
  {
    Effect(s, AddInvite(r), clock);
  }

  function Invitation(id: string, name: string, kind: InviteKind, expiresAt: int): Invite {
    Invite(id, "net", "https://control", "control", name, kind, SECRET, expiresAt)
  }

  function Pended(invite: Invite): InviteRecord { InviteRecord(invite, Pending, None, None, None, None, None) }

  // ---------- a request id two provisioners happen to share ----------

  const BY_ONE: Request := FromProvisioner("p1", "net", "r", None, InviteClient("box", 60, SECRET), "i")
  const BY_TWO: Request := FromProvisioner("p2", "net", "r", None, InviteClient("phone", 60, SECRET), "j")

  function Provisioned(): ControlState { Blank().(revision := 2, provisioners := map["p1" := "one", "p2" := "two"]) }

  function InvitedByOne(): InviteRecord {
    Pended(Invitation("i", "box", ForClient, 60)).(
      requestId := Some("r"), managedBy := Some("p1"), requestHash := Some(BY_ONE.action))
  }

  lemma Registering(s: ControlState, p: Id, name: string)
    requires ValidName(name) && forall q | q in s.provisioners :: q != p && s.provisioners[q] != name
    ensures Plan(s, "control", AdminAddProvisioner(name, p), 0) == Do(AddProvisioner(p, name), Acknowledged)
    ensures Guard(s, AddProvisioner(p, name), 0)
    ensures Performed(s, AddProvisioner(p, name), 0) ==
            s.(revision := s.revision + 1, provisioners := s.provisioners[p := name])
  {
    ProvisionerAdded(s, p, name, 0);
  }

  lemma OneRegisters() returns (run: seq<Step>, b: Backed)
    ensures b == Execute(Start(), run) && InStep(b)
    ensures b.sys.control == Blank().(revision := 1, provisioners := map["p1" := "one"])
    ensures b.sys.clock == 0 && b.sys.controlId == "control" && b.sys.used == {}
  {
    StartIsInitial();
    TextsAreValid();
    Registering(Blank(), "p1", "one");
    run, b := Carried([], Start(), AdminAddProvisioner("one", "p1"), AddProvisioner("p1", "one"));
  }

  lemma TwoRegisters() returns (run: seq<Step>, b: Backed)
    ensures b == Execute(Start(), run) && InStep(b) && b.sys.control == Provisioned()
    ensures b.sys.clock == 0 && b.sys.controlId == "control" && b.sys.used == {}
  {
    run, b := OneRegisters();
    TextsAreValid();
    Registering(b.sys.control, "p2", "two");
    run, b := Carried(run, b, AdminAddProvisioner("two", "p2"), AddProvisioner("p2", "two"));
  }

  lemma OneIsInvited()
    ensures var s := Provisioned();
            && Plan(s, "control", BY_ONE, 0).Do? && Plan(s, "control", BY_ONE, 0).mutation == AddInvite(InvitedByOne())
            && Guard(s, AddInvite(InvitedByOne()), 0)
            && Performed(s, AddInvite(InvitedByOne()), 0) == s.(revision := 3, invites := map["i" := InvitedByOne()])
  {
    TextsAreValid();
    InviteAdded(Provisioned(), InvitedByOne(), 0);
  }

  lemma TwoIsAccepted(s: ControlState)
    requires s == Provisioned().(revision := 3, invites := map["i" := InvitedByOne()])
    ensures Plan(s, "control", BY_TWO, 0).Do? && Collides(s, BY_TWO)
  {
    TextsAreValid();
    assert "i" in s.invites && s.invites["i"].requestId == Some("r");
    assert RequestRecord(s, "p2", "r").None?;
  }

  lemma OneInvites() returns (run: seq<Step>, b: Backed)
    ensures b == Execute(Start(), run) && InStep(b)
    ensures b.sys.control == Provisioned().(revision := 3, invites := map["i" := InvitedByOne()])
    ensures b.sys.clock == 0 && b.sys.controlId == "control" && b.sys.used == {"i"}
  {
    run, b := TwoRegisters();
    OneIsInvited();
    run, b := Carried(run, b, BY_ONE, AddInvite(InvitedByOne()));
  }

  /** The second provisioner's request is decided upon by its handler and refused by the database. */
  lemma CollisionWitness() returns (run: seq<Step>, b: Backed)
    ensures b == Execute(Start(), run) && Initial(Start())
    ensures Decided(b, BY_TWO) && !Accepts(b, BY_TWO)
  {
    StartIsInitial();
    run, b := OneInvites();
    TwoIsAccepted(b.sys.control);
    AcceptsExactly(b, BY_TWO);
  }

  // ---------- an edge invitation that outlives its owner ----------

  const CLAIM: Request := Claim(Invitation("c1", "laptop", ForClient, 60), "c", None, false, 0)

  function ForLaptop(): InviteRecord { Pended(Invitation("c1", "laptop", ForClient, 60)) }

  function ForBox(): InviteRecord { Pended(Invitation("i", "box", ForEdge("c"), 10)) }

  function Laptop(): ClientRecord { ClientRecord("laptop", None, Auth.Renewed(2, 0)) }

  function Enrolled(): ControlState {
    Blank().(revision := 2, clients := map["c" := Laptop()],
             invites := map["c1" := ForLaptop().(state := Claimed, claimedBy := Some("c"), terminalAt := Some(0))])
  }

  function Boxed(): ControlState { Enrolled().(revision := 3, invites := Enrolled().invites["i" := ForBox()]) }

  lemma LaptopInvited() returns (run: seq<Step>, b: Backed)
    ensures b == Execute(Start(), run) && InStep(b)
    ensures b.sys.control == Blank().(revision := 1, invites := map["c1" := ForLaptop()])
    ensures b.sys.clock == 0 && b.sys.controlId == "control" && b.sys.used == {"c1"}
  {
    StartIsInitial();
    TextsAreValid();
    run, b := [], Start();
    InviteAdded(Blank(), ForLaptop(), 0);
    run, b := Carried(run, b, AdminInvite("laptop", ForClient, None, 60, "c1", SECRET), AddInvite(ForLaptop()));
  }

  lemma LaptopClaims(s: ControlState)
    requires s == Blank().(revision := 1, invites := map["c1" := ForLaptop()])
    ensures Plan(s, "control", CLAIM, 0) == Do(Enroll("c1", "c", None, 0), Acknowledged)
    ensures Guard(s, Enroll("c1", "c", None, 0), 0) && Performed(s, Enroll("c1", "c", None, 0), 0) == Enrolled()
  {
    Effect(s, Enroll("c1", "c", None, 0), 0);
  }

  lemma BoxIsInvited()
    ensures var q := AdminInvite("box", ForEdge("c"), None, 10, "i", SECRET);
            && Plan(Enrolled(), "control", q, 0).Do?
                 && Plan(Enrolled(), "control", q, 0).mutation == AddInvite(ForBox())
            && !Orphaned(Enrolled(), q) && Guard(Enrolled(), AddInvite(ForBox()), 0)
            && Performed(Enrolled(), AddInvite(ForBox()), 0) == Boxed()
  {
    TextsAreValid();
    InviteAdded(Enrolled(), ForBox(), 0);
  }

  lemma LaptopIsRemoved()
    ensures Plan(Boxed(), "control", AdminRemoveClient("laptop"), 11) == Do(DropClient("c"), Acknowledged)
    ensures Guard(Boxed(), DropClient("c"), 11)
  {
    var s := Boxed();
    assert "c" in s.clients && s.clients["c"].name == "laptop";
    assert ClientNamed(s, "laptop") == Some("c");
  }

  lemma BoxIsOrphaned()
    requires Guard(Boxed(), DropClient("c"), 11)
    ensures var s := Performed(Boxed(), DropClient("c"), 11);
            && Plan(s, "control", AdminRevokeInvite("i"), 11) == Do(EndInvite("i", 11), Acknowledged)
            && Orphaned(s, AdminRevokeInvite("i")) && s.revision == 4 && s.relayRevision == 2
  {
    Effect(Boxed(), DropClient("c"), 11);
  }

  lemma LaptopEnrolls() returns (run: seq<Step>, b: Backed)
    ensures b == Execute(Start(), run) && InStep(b) && b.sys.control == Enrolled()
    ensures b.sys.clock == 0 && b.sys.controlId == "control" && b.sys.used == {"c1"}
  {
    run, b := LaptopInvited();
    LaptopClaims(b.sys.control);
    run, b := Carried(run, b, CLAIM, Enroll("c1", "c", None, 0));
  }

  lemma BoxInvited() returns (run: seq<Step>, b: Backed)
    ensures b == Execute(Start(), run) && InStep(b) && b.sys.control == Boxed()
    ensures b.sys.clock == 0 && b.sys.controlId == "control"
  {
    run, b := LaptopEnrolls();
    BoxIsInvited();
    run, b := Carried(run, b, AdminInvite("box", ForEdge("c"), None, 10, "i", SECRET), AddInvite(ForBox()));
  }

  lemma BoxExpires() returns (run: seq<Step>, b: Backed)
    ensures b == Execute(Start(), run) && InStep(b) && b.sys.control == Boxed()
    ensures b.sys.clock == 11 && b.sys.controlId == "control"
  {
    run, b := BoxInvited();
    var tick := Elsewhere(Sys.Elsewhere(Auth.Tick(11)));
    StepKeepsInStep(b, tick);
    run, b := run + [tick], Next(b, tick);
  }

  lemma OwnerRemoved() returns (run: seq<Step>, b: Backed)
    ensures Guard(Boxed(), DropClient("c"), 11)
    ensures b == Execute(Start(), run) && InStep(b) && b.sys.control == Performed(Boxed(), DropClient("c"), 11)
    ensures b.sys.clock == 11 && b.sys.controlId == "control"
  {
    run, b := BoxExpires();
    LaptopIsRemoved();
    run, b := Carried(run, b, AdminRemoveClient("laptop"), DropClient("c"));
  }

  /** After the owner is removed, the expired invitation passes the handler's checks and cannot be revoked. */
  lemma OrphanWitness() returns (run: seq<Step>, b: Backed)
    ensures b == Execute(Start(), run) && Initial(Start())
    ensures Decided(b, AdminRevokeInvite("i")) && !Accepts(b, AdminRevokeInvite("i"))
  {
    StartIsInitial();
    run, b := OwnerRemoved();
    BoxIsOrphaned();
    AcceptsExactly(b, AdminRevokeInvite("i"));
  }
}
