/**
 * The Edge's enforcement of ownership: which clients it accepts, and how signed maps change that
 * (crates/as-edge/src/iroh_edge.rs, the watch loop of crates/as-edge/src/main.rs).
 */
module EdgePin {
  import opened Base
  import opened RelayApi
  import Control

  type ConnId = nat

  datatype ClientAuth = Single(pinned: Option<Id>, hasStore: bool) | Managed(ids: set<Id>)

  /** `pinFile` is the trust-on-first-use record on disk. */
  datatype PinState = PinState(auth: ClientAuth, connections: map<Id, set<ConnId>>, closed: set<ConnId>,
      pinFile: Option<Id>)

  datatype IoError = WriteFailed

  datatype PinError = NotManaged

  function Allowed(auth: ClientAuth): set<Id> {
    match auth
    case Single(pinned, _) => if pinned.Some? then {pinned.value} else {}
    case Managed(ids) => ids
  }

  function Registered(p: PinState, remote: Id): set<ConnId> {
    if remote in p.connections then p.connections[remote] else {}
  }

  /** Only allowed clients hold registered connections, and no registered connection list is empty. */
  ghost predicate PinOk(p: PinState) {
    forall id | id in p.connections :: id in Allowed(p.auth) && p.connections[id] != {}
  }

  predicate FirstUse(auth: ClientAuth) { auth.Single? && auth.pinned.None? }

  /** An empty single pin trusts the first client, in memory and on disk alike. */
  function Trusted(p: PinState, remote: Id): PinState {
    if !FirstUse(p.auth) then p
    else p.(auth := p.auth.(pinned := Some(remote)), pinFile := if p.auth.hasStore then Some(remote) else p.pinFile)
  }

  function Registering(p: PinState, remote: Id, c: ConnId): PinState {
    if remote in Allowed(p.auth) then p.(connections := p.connections[remote := Registered(p, remote) + {c}]) else p
  }

  function Unregistering(p: PinState, remote: Id, c: ConnId): PinState {
    var left := Registered(p, remote) - {c};
    p.(connections := if left == {} then p.connections - {remote} else p.connections[remote := left])
  }

  function Closing(p: PinState, gone: set<Id>): PinState {
    p.(connections := p.connections - gone,
       closed := p.closed + set id, c | id in gone && id in p.connections && c in p.connections[id] :: c)
  }

  function Replaced(p: PinState, next: set<Id>): PinState
    requires p.auth.Managed?
  {
    Closing(p, p.auth.ids - next).(auth := Managed(next))
  }

  class ClientPin {
    var auth: ClientAuth
    var connections: map<Id, set<ConnId>>
    var closed: set<ConnId>
    var pinFile: Option<Id>

    ghost function View(): PinState reads this { PinState(auth, connections, closed, pinFile) }

    constructor (auth: ClientAuth, pinFile: Option<Id>)
      ensures View() == PinState(auth, map[], {}, pinFile) && PinOk(View())
    {
      this.auth, this.connections, this.closed, this.pinFile := auth, map[], {}, pinFile;
    }

    /** `writes` is the outcome of storing a first-use pin. */
    method AuthorizeAndRegister(remote: Id, c: ConnId, writes: bool) returns (r: Result<bool, IoError>)
      requires PinOk(View())
      modifies this
      ensures PinOk(View())
      ensures r.Ok? ==>
              r.value == (remote in Allowed(auth)) && View() == Registering(Trusted(old(View()), remote), remote, c)
      ensures r.Err? ==> FirstUse(old(auth)) && old(auth).hasStore && !writes && View() == old(View())
    {
      var authorized;
      match auth {
        case Single(pinned, hasStore) =>
          if pinned.Some? {
            authorized := pinned.value == remote;
          } else {
            if hasStore {
              if !writes { return Err(WriteFailed); }
              pinFile := Some(remote);
            }
            auth := Single(Some(remote), hasStore);
            authorized := true;
          }
        case Managed(ids) => authorized := remote in ids;
      }
      if authorized {
        var existing := if remote in connections then connections[remote] else {};
        connections := connections[remote := existing + {c}];
      }
      return Ok(authorized);
    }

    method Unregister(remote: Id, c: ConnId)
      requires PinOk(View())
      modifies this`connections
      ensures PinOk(View())
      ensures View() == Unregistering(old(View()), remote, c)
    {
      if remote in connections {
        connections := connections[remote := connections[remote] - {c}];
        if connections[remote] == {} { connections := connections - {remote}; }
      }
    }

    /** A new authority closes and forgets every connection of every client it drops. */
    method ReplaceManaged(next: set<Id>) returns (r: Result<(), PinError>)
      requires PinOk(View())
      modifies this
      ensures PinOk(View())
      ensures if old(auth).Managed? then r == Ok(()) && View() == Replaced(old(View()), next)
              else r == Err(NotManaged) && View() == old(View())
    {
      if !auth.Managed? { return Err(NotManaged); }
      var removed := auth.ids - next;
      auth := Managed(next);
      var todo := removed;
      while todo != {}
        invariant todo <= removed && auth == Managed(next) && pinFile == old(pinFile)
        invariant connections == old(connections) - (removed - todo)
        invariant closed == Closing(old(View()), removed - todo).closed
      {
        var id :| id in todo;
        ghost var done := removed - todo;
        if id in connections {
          closed := closed + connections[id];
          connections := connections - {id};
        }
        todo := todo - {id};
        assert removed - todo == done + {id};
      }
      return Ok(());
    }
  }

  // ---------- the watch loop ----------

  /** `applied` is the allowed set of the last map applied; `watching` ends when the enrollment is revoked. */
  datatype EdgeNode = EdgeNode(profile: Control.NodeMap, pin: PinState, applied: set<Id>, watching: bool)

  datatype Event =
    | Offered(next: Control.NodeMap, bound: bool, usable: bool)
    | Expelled
    | Incoming(remote: Id, conn: ConnId)
    | Gone(remote: Id, conn: ConnId)

  function AllowedIds(m: Control.NodeMap): set<Id> { set id | id in m.allowedClients }

  /** A map is taken only if it verifies and is bound to this network, does not roll back, and can be applied. */
  predicate Acceptable(e: EdgeNode, next: Control.NodeMap, bound: bool, usable: bool) {
    bound && next.revision >= e.profile.revision && next.credential.Some? && usable
  }

  function Next(e: EdgeNode, event: Event): EdgeNode {
    match event
    case Offered(next, bound, usable) =>
      if e.watching && e.pin.auth.Managed? && Acceptable(e, next, bound, usable)
      then EdgeNode(next, Replaced(e.pin, AllowedIds(next)), AllowedIds(next), true) else e
    case Expelled =>
      if e.watching && e.pin.auth.Managed? then e.(pin := Replaced(e.pin, {}), applied := {}, watching := false) else e
    case Incoming(remote, c) => e.(pin := Registering(e.pin, remote, c))
    case Gone(remote, c) => e.(pin := Unregistering(e.pin, remote, c))
  }

  function Execute(e: EdgeNode, events: seq<Event>): EdgeNode {
    if events == [] then e else Next(Execute(e, events[..|events| - 1]), events[|events| - 1])
  }

  /** A managed edge as it starts: pinned to the allowed set of its stored map. */
  function Started(profile: Control.NodeMap): EdgeNode {
    EdgeNode(profile, PinState(Managed(AllowedIds(profile)), map[], {}, None), AllowedIds(profile), true)
  }

  ghost predicate EdgeOk(e: EdgeNode) {
    && e.pin.auth == Managed(e.applied) && PinOk(e.pin)
    && e.applied == (if e.watching then AllowedIds(e.profile) else {})
  }

  lemma EventKeepsOk(e: EdgeNode, event: Event)
    requires EdgeOk(e)
    ensures EdgeOk(Next(e, event)) && Next(e, event).profile.revision >= e.profile.revision
    ensures !e.watching ==> !Next(e, event).watching
  {}

  /**
   * In every run, every registered connection belongs to the allowed set of the last applied map, the
   * applied revision never falls, and after a revocation nobody is connected, ever.
   */
  lemma {:induction false} OwnershipIsEnforced(profile: Control.NodeMap, events: seq<Event>)
    ensures var e := Execute(Started(profile), events);
            && EdgeOk(e) && e.profile.revision >= profile.revision
            && (forall id | id in e.pin.connections :: e.watching && id in AllowedIds(e.profile))
  {
    if events != [] {
      OwnershipIsEnforced(profile, events[..|events| - 1]);
      EventKeepsOk(Execute(Started(profile), events[..|events| - 1]), events[|events| - 1]);
    }
  }

  /** A transfer takes effect with the next map: every connection of a client that is not the owner is closed. */
  lemma TransferClosesTheOldOwner(e: EdgeNode, s: Control.ControlState, controlId: Id, endpoint: Id, id: Id, c: ConnId)
    requires EdgeOk(e) && e.watching && endpoint in s.edges && s.revision >= e.profile.revision
    requires id in e.pin.connections && c in e.pin.connections[id]
    ensures var after := Next(e, Offered(Control.MapFor(s, controlId, endpoint).value, true, true)).pin;
            if id == s.edges[endpoint].owner then c in Registered(after, id)
                else c in after.closed && id !in after.connections
  {
    var m := Control.MapFor(s, controlId, endpoint).value;
    assert AllowedIds(m) == {s.edges[endpoint].owner};
    assert id in e.pin.auth.ids;
  }

  // ---------- what each event does ----------

  /** A connection that comes or goes changes one entry of one client. */
  lemma ConnectionsMoveExactly(p: PinState, remote: Id, c: ConnId, id: Id)
    ensures var q := Registering(p, remote, c);
            && q == p.(connections := q.connections)
            && Registered(q, id) == Registered(p, id) + if id == remote && id in Allowed(p.auth) then {c} else {}
    ensures var q := Unregistering(p, remote, c);
            && q == p.(connections := q.connections)
            && Registered(q, id) == Registered(p, id) - if id == remote then {c} else {}
  {}

  /** The connection belongs to a client the map no longer allows. */
  ghost predicate Dropped(p: PinState, next: Control.NodeMap, c: ConnId) {
    exists id :: id in p.connections && id !in next.allowedClients && c in p.connections[id]
  }

  /**
   * An offered map is taken exactly if it verifies, does not roll back, carries a credential and can be applied;
   * then exactly the connections of clients it no longer allows are closed and forgotten.
   */
  lemma MapsAreTakenExactly(e: EdgeNode, next: Control.NodeMap, bound: bool, usable: bool)
    requires EdgeOk(e)
    ensures var e' := Next(e, Offered(next, bound, usable));
            if e.watching && bound && e.profile.revision <= next.revision && next.credential.Some? && usable
            then && e'.profile == next && e'.watching
                 && (forall id ::
                       Registered(e'.pin, id) == if id in next.allowedClients then Registered(e.pin, id) else {})
                 && (forall c :: c in e'.pin.closed <==> c in e.pin.closed || Dropped(e.pin, next, c))
            else e' == e
  {
    forall c ensures c in Closing(e.pin, e.pin.auth.ids - AllowedIds(next)).closed <==>
                     c in e.pin.closed || Dropped(e.pin, next, c) {
      if Dropped(e.pin, next, c) {
        var id :| id in e.pin.connections && id !in next.allowedClients && c in e.pin.connections[id];
        assert id in e.pin.auth.ids - AllowedIds(next);
      }
    }
  }

  /** A revoked edge closes every connection and stops watching. */
  lemma ExpulsionClosesAll(e: EdgeNode, id: Id)
    requires EdgeOk(e) && e.watching
    ensures var e' := Next(e, Expelled);
            !e'.watching && e'.pin.connections == map[] && Allowed(e'.pin.auth) == {}
            && Registered(e.pin, id) <= e'.pin.closed
  {
    assert e.pin.connections - (e.pin.auth.ids - {}) == map[];
  }

  // ---------- a standalone edge ----------

  /** `writes` is the outcome of storing a first-use pin; a restart reads the stored pin back. */
  datatype PinEvent = Comes(remote: Id, conn: ConnId, writes: bool) | Leaves(remote: Id, conn: ConnId) | Restarts

  function NextPin(p: PinState, event: PinEvent): PinState
    requires p.auth.Single?
  {
    match event
    case Comes(remote, c, writes) =>
      if FirstUse(p.auth) && p.auth.hasStore && !writes then p else Registering(Trusted(p, remote), remote, c)
    case Leaves(remote, c) => Unregistering(p, remote, c)
    case Restarts =>
      p.(auth := if p.auth.hasStore then Single(p.pinFile, true) else p.auth, connections := map[])
  }

  function ExecutePin(p: PinState, events: seq<PinEvent>): (q: PinState)
    requires p.auth.Single?
    ensures q.auth.Single?
  {
    if events == [] then p else NextPin(ExecutePin(p, events[..|events| - 1]), events[|events| - 1])
  }

  /** Memory and file name the same client, and only that client is connected. */
  ghost predicate PinAgrees(p: PinState) {
    && p.auth.Single? && (if p.auth.hasStore then p.auth.pinned == p.pinFile else p.auth.pinned.Some?)
    && forall id | id in p.connections :: p.auth.pinned == Some(id)
  }

  lemma EventKeepsPin(p: PinState, event: PinEvent)
    requires PinAgrees(p)
    ensures var q := NextPin(p, event);
            && PinAgrees(q) && q.auth.hasStore == p.auth.hasStore
            && (p.auth.pinned.Some? ==> q.auth.pinned == p.auth.pinned)
            && (p.auth.pinned.None? && q.auth.pinned.Some? ==>
                  event.Comes? && q.auth.pinned == Some(event.remote) && event.conn in Registered(q, event.remote))
  {}

  /**
   * Trust on first use is for life: in every run of a standalone edge, failed writes and restarts included, memory
   * and file agree, the first client ever trusted stays the only one, and nobody else is ever connected.
   */
  lemma {:induction false} FirstClientStays(p: PinState, events: seq<PinEvent>)
    requires PinAgrees(p)
    ensures var q := ExecutePin(p, events);
            PinAgrees(q) && (p.auth.pinned.Some? ==> q.auth.pinned == p.auth.pinned)
  {
    if events != [] {
      FirstClientStays(p, events[..|events| - 1]);
      EventKeepsPin(ExecutePin(p, events[..|events| - 1]), events[|events| - 1]);
    }
  }

  /** And an edge that trusts nobody yet trusts whoever comes first, as soon as that can be stored. */
  lemma FirstClientIsTrusted(p: PinState, remote: Id, c: ConnId)
    requires PinAgrees(p) && p.auth.pinned.None?
    ensures var q := NextPin(p, Comes(remote, c, true));
            q.auth.pinned == q.pinFile == Some(remote) && Registered(q, remote) == {c}
  {}
}
