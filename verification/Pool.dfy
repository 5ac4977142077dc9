/**
 * The daemon's connection cache: singleflight dialing raced against policy reloads
 * (crates/agent-scale/src/daemon/connection_pool.rs, reload_edges in daemon.rs).
 */
module Pool {
  import opened Base

  type ConnId = nat
  type TaskId = nat

  /** The policy names an endpoint id per edge; None is one that does not parse. */
  type Policy = map<string, Option<Id>>

  /** What the cache and policy locks protect; connections carry their remote id and may close at any time. */
  datatype Cache = Cache(edges: Policy, conns: map<string, ConnId>, remote: map<ConnId, Id>, closed: set<ConnId>)

  predicate Authorizes(edges: Policy, name: string, id: Id) {
    name in edges && edges[name] == Some(id)
  }

  /** A cached connection that still works. */
  function Lookup(k: Cache, name: string): Option<ConnId> {
    if name in k.conns && k.conns[name] !in k.closed then Some(k.conns[name]) else None
  }

  function Publish(k: Cache, name: string, id: Id, c: ConnId): Cache {
    if Authorizes(k.edges, name, id) then k.(conns := k.conns[name := c]) else k.(closed := k.closed + {c})
  }

  function EvictDead(k: Cache, name: string): Cache {
    if name in k.conns && k.conns[name] in k.closed then k.(conns := k.conns - {name}) else k
  }

  predicate Matches(k: Cache, next: Policy, name: string)
    requires name in k.conns
  {
    k.conns[name] in k.remote && Authorizes(next, name, k.remote[k.conns[name]])
  }

  function Evicted(k: Cache, next: Policy): set<string> {
    set name | name in k.conns && !Matches(k, next, name)
  }

  function Cached(conns: map<string, ConnId>, names: set<string>): set<ConnId> {
    set name | name in names && name in conns :: conns[name]
  }

  lemma CachedGrows(conns: map<string, ConnId>, names: set<string>, name: string)
    requires name in conns
    ensures Cached(conns, names + {name}) == Cached(conns, names) + {conns[name]}
  {}

  /** The policy swap and the eviction, in one critical section. */
  function Reload(k: Cache, next: Policy): Cache {
    var evicted := Evicted(k, next);
    Cache(next, k.conns - evicted, k.remote, k.closed + Cached(k.conns, evicted))
  }

  ghost predicate CacheOk(k: Cache) {
    forall name | name in k.conns :: k.conns[name] in k.remote && Authorizes(k.edges, name, k.remote[k.conns[name]])
  }

  // ---------- the daemon's own code ----------

  class Daemon {
    var edges: Policy
    var conns: map<string, ConnId>
    var remote: map<ConnId, Id>
    var closed: set<ConnId>

    ghost function View(): Cache reads this { Cache(edges, conns, remote, closed) }

    method GetCached(name: string) returns (r: Option<ConnId>)
      ensures r.Some? <==> name in conns && conns[name] !in closed
      ensures r.Some? ==> r.value == conns[name]
    {
      if name in conns && conns[name] !in closed { return Some(conns[name]); }
      return None;
    }

    /** The publication step of `get_conn`; false means the policy changed during the dial. */
    method PublishDial(name: string, id: Id, c: ConnId) returns (ok: bool)
      modifies this`conns, this`closed
      ensures View() == Publish(old(View()), name, id, c)
      ensures ok == Authorizes(edges, name, id)
    {
      if name in edges && edges[name] == Some(id) {
        conns := conns[name := c];
        return true;
      }
      closed := closed + {c};
      return false;
    }

    method EvictClosed(name: string)
      modifies this`conns
      ensures View() == EvictDead(old(View()), name)
    {
      if name in conns && conns[name] in closed { conns := conns - {name}; }
    }

    method ReloadEdges(next: Policy)
      modifies this`edges, this`conns, this`closed
      ensures View() == Reload(old(View()), next)
      ensures CacheOk(View())
    {
      var evicted := set name | name in conns &&
        !(conns[name] in remote && name in next && next[name] == Some(remote[conns[name]]));
      assert evicted == Evicted(View(), next);
      var todo := evicted;
      while todo != {}
        invariant todo <= evicted && edges == old(edges) && remote == old(remote)
        invariant conns == old(conns) - (evicted - todo)
        invariant closed == old(closed) + Cached(old(conns), evicted - todo)
      {
        var name :| name in todo;
        ghost var done := evicted - todo;
        closed := closed + {conns[name]};
        conns := conns - {name};
        todo := todo - {name};
        assert evicted - todo == done + {name};
        CachedGrows(old(conns), done, name);
      }
      edges := next;
    }
  }

  // ---------- all interleavings ----------

  /** Where a `get_conn` task is; from Holding to Dialed it owns its edge's dial lock. */
  datatype Phase = Start | Waiting | Holding | Dialing | Dialed(conn: ConnId) | Returned(result: Option<ConnId>)

  /** `target` is the id in the configuration the task was given, which may be old by now. */
  datatype Task = Task(name: string, target: Option<Id>, phase: Phase)

  datatype System = System(
    cache: Cache,
    tasks: map<TaskId, Task>,
    locks: map<string, TaskId>,
    watchers: set<(string, ConnId)>)

  datatype Step =
    | Spawn(task: TaskId, name: string, target: Option<Id>)
    | Check(task: TaskId)
    | Acquire(task: TaskId)
    | Recheck(task: TaskId)
    | Connected(task: TaskId, conn: ConnId, remote: Id)
    | DialFailed(task: TaskId)
    | Publishes(task: TaskId)
    | Closes(conn: ConnId)
    | Watched(name: string, conn: ConnId)
    | Reloads(policy: Policy)

  predicate InPhase(s: System, t: TaskId, f: Phase) { t in s.tasks && s.tasks[t].phase == f }

  predicate Enabled(s: System, step: Step) {
    match step
    case Spawn(t, _, _) => t !in s.tasks
    case Check(t) => InPhase(s, t, Start)
    case Acquire(t) => InPhase(s, t, Waiting) && s.tasks[t].name !in s.locks
    case Recheck(t) => InPhase(s, t, Holding)
    case Connected(t, c, _) => InPhase(s, t, Dialing) && c !in s.cache.remote && c !in s.cache.closed
    case DialFailed(t) => InPhase(s, t, Dialing)
    case Publishes(t) => t in s.tasks && s.tasks[t].phase.Dialed?
    case Closes(c) => c in s.cache.remote
    case Watched(name, c) => (name, c) in s.watchers && c in s.cache.closed
    case Reloads(_) => true
  }

  function Goes(s: System, t: TaskId, f: Phase): System
    requires t in s.tasks
  {
    s.(tasks := s.tasks[t := s.tasks[t].(phase := f)])
  }

  /** The task returns and drops its dial lock. */
  function Leaves(s: System, t: TaskId, result: Option<ConnId>): System
    requires t in s.tasks
  {
    Goes(s, t, Returned(result)).(locks := s.locks - {s.tasks[t].name})
  }

  function Next(s: System, step: Step): System {
    if !Enabled(s, step) then s
    else
      match step
      case Spawn(t, name, target) => s.(tasks := s.tasks[t := Task(name, target, Start)])
      case Check(t) =>
        var cached := Lookup(s.cache, s.tasks[t].name);
        Goes(s, t, if cached.Some? then Returned(cached) else Waiting)
      case Acquire(t) => Goes(s, t, Holding).(locks := s.locks[s.tasks[t].name := t])
      case Recheck(t) =>
        var cached := Lookup(s.cache, s.tasks[t].name);
        if cached.Some? then Leaves(s, t, cached)
        else if s.tasks[t].target.None? then Leaves(s, t, None)
        else Goes(s, t, Dialing)
      case Connected(t, c, id) =>
        var s' := s.(cache := s.cache.(remote := s.cache.remote[c := id]));
        if Some(id) == s.tasks[t].target then Goes(s', t, Dialed(c)) else Leaves(s', t, None)
      case DialFailed(t) => Leaves(s, t, None)
      case Publishes(t) =>
        var name, c, target := s.tasks[t].name, s.tasks[t].phase.conn, s.tasks[t].target;
        if target.Some? && Authorizes(s.cache.edges, name, target.value)
        then Leaves(s, t, Some(c)).(
               cache := Publish(s.cache, name, target.value, c), watchers := s.watchers + {(name, c)})
        else Leaves(s, t, None).(cache := s.cache.(closed := s.cache.closed + {c}))
      case Closes(c) => s.(cache := s.cache.(closed := s.cache.closed + {c}))
      case Watched(name, c) => s.(cache := EvictDead(s.cache, name), watchers := s.watchers - {(name, c)})
      case Reloads(policy) => s.(cache := Reload(s.cache, policy))
  }

  function Execute(s: System, steps: seq<Step>): System {
    if steps == [] then s else Next(Execute(s, steps[..|steps| - 1]), steps[|steps| - 1])
  }

  predicate Initial(s: System) {
    s.cache.conns == map[] && s.cache.remote == map[] && s.cache.closed == {} && s.tasks == map[] && s.locks == map[]
        && s.watchers == {}
  }

  /** A dial for this task's edge may be under way. */
  predicate Owns(f: Phase) { f.Holding? || f.Dialing? || f.Dialed? }

  ghost predicate Holders(tasks: map<TaskId, Task>, locks: map<string, TaskId>) {
    && (forall t | t in tasks && Owns(tasks[t].phase) :: tasks[t].name in locks && locks[tasks[t].name] == t)
    && (forall name | name in locks ::
          locks[name] in tasks && tasks[locks[name]].name == name && Owns(tasks[locks[name]].phase))
  }

  ghost predicate LocksOk(s: System) { Holders(s.tasks, s.locks) }

  /** Every cached connection has a watcher, which will drop it once it is closed. */
  ghost predicate WatchedOk(s: System) {
    forall name | name in s.cache.conns :: (name, s.cache.conns[name]) in s.watchers
  }

  /** Nobody dials an edge that has a working connection. */
  ghost predicate DialsOk(s: System) {
    forall t | t in s.tasks && (s.tasks[t].phase.Dialing? || s.tasks[t].phase.Dialed?) ::
      s.tasks[t].target.Some? && Lookup(s.cache, s.tasks[t].name).None?
  }

  ghost predicate DialedOk(s: System) {
    forall t | t in s.tasks && s.tasks[t].phase.Dialed? ::
      s.tasks[t].phase.conn in s.cache.remote && Some(s.cache.remote[s.tasks[t].phase.conn]) == s.tasks[t].target
  }

  ghost predicate Inv(s: System) { CacheOk(s.cache) && LocksOk(s) && DialsOk(s) && DialedOk(s) && WatchedOk(s) }

  lemma StepKeepsCache(s: System, step: Step)
    requires CacheOk(s.cache) && DialedOk(s)
    ensures CacheOk(Next(s, step).cache) && DialedOk(Next(s, step))
  {}

  /** A task that moves keeps its lock, takes a free one, or gives its own up. */
  lemma MoveKeepsHolders(tasks: map<TaskId, Task>, locks: map<string, TaskId>, t: TaskId, f: Phase)
    requires Holders(tasks, locks) && t in tasks
    ensures var tasks', name := tasks[t := tasks[t].(phase := f)], tasks[t].name;
            && (Owns(f) == Owns(tasks[t].phase) ==> Holders(tasks', locks))
            && (Owns(f) && name !in locks ==> Holders(tasks', locks[name := t]))
            && (!Owns(f) && Owns(tasks[t].phase) ==> Holders(tasks', locks - {name}))
  {}

  lemma StepKeepsLocks(s: System, step: Step)
    requires LocksOk(s)
    ensures LocksOk(Next(s, step))
  {
    if Enabled(s, step) && !(step.Spawn? || step.Closes? || step.Watched? || step.Reloads?) {
      MoveKeepsHolders(s.tasks, s.locks, step.task, Next(s, step).tasks[step.task].phase);
    }
  }

  lemma StepKeepsWatchers(s: System, step: Step)
    requires WatchedOk(s)
    ensures WatchedOk(Next(s, step))
  {}

  /** Only the lock's owner publishes, so a dial under way never finds a working connection. */
  lemma PublishKeepsDials(s: System, t: TaskId)
    requires LocksOk(s) && DialsOk(s) && Enabled(s, Publishes(t))
    ensures DialsOk(Next(s, Publishes(t)))
  {
    var s' := Next(s, Publishes(t));
    forall u | u in s'.tasks && (s'.tasks[u].phase.Dialing? || s'.tasks[u].phase.Dialed?)
      ensures s'.tasks[u].target.Some? && Lookup(s'.cache, s'.tasks[u].name).None?
    {
      assert u != t && s'.tasks[u] == s.tasks[u] && s.locks[s.tasks[u].name] == u && s.locks[s.tasks[t].name] == t;
    }
  }

  lemma StepKeepsDials(s: System, step: Step)
    requires LocksOk(s) && DialsOk(s)
    ensures DialsOk(Next(s, step))
  {
    if Enabled(s, step) {
      match step
      case Publishes(t) => PublishKeepsDials(s, t);
      case _ =>
    }
  }

  lemma StepKeepsInv(s: System, step: Step)
    requires Inv(s)
    ensures Inv(Next(s, step))
  {
    StepKeepsCache(s, step);
    StepKeepsLocks(s, step);
    StepKeepsWatchers(s, step);
    StepKeepsDials(s, step);
  }

  lemma {:induction false} RunKeepsInv(s: System, steps: seq<Step>)
    requires Inv(s)
    ensures Inv(Execute(s, steps))
  {
    if steps != [] {
      RunKeepsInv(s, steps[..|steps| - 1]);
      StepKeepsInv(Execute(s, steps[..|steps| - 1]), steps[|steps| - 1]);
    }
  }

  /**
   * In every interleaving, each cached connection leads to the identity the policy names now and is watched, and
   * an edge's dial lock is held exactly while one task is between acquiring it and returning.
   */
  lemma PoolIsSafe(s0: System, steps: seq<Step>, name: string, t: TaskId, u: TaskId)
    requires Initial(s0)
    ensures var s := Execute(s0, steps);
            && (name in s.cache.conns ==>
                  && s.cache.conns[name] in s.cache.remote && (name, s.cache.conns[name]) in s.watchers
                  && Authorizes(s.cache.edges, name, s.cache.remote[s.cache.conns[name]]))
            && ((t in s.tasks && u in s.tasks && s.tasks[t].name == s.tasks[u].name &&
                 Owns(s.tasks[t].phase) && Owns(s.tasks[u].phase)) ==> t == u)
            && (name in s.locks <==> exists v :: v in s.tasks && s.tasks[v].name == name && Owns(s.tasks[v].phase))
  {
    RunKeepsInv(s0, steps);
  }

  /**
   * A working cached connection stays cached through every step of every run: no publication, no
   * watcher and no unrelated reload displaces it. Only a reload whose policy no longer names its
   * identity removes it, and that closes it.
   */
  lemma WorkingConnectionsStay(s0: System, steps: seq<Step>, step: Step, name: string)
    requires Initial(s0) && Lookup(Execute(s0, steps).cache, name).Some?
    ensures var s := Execute(s0, steps);
            var k, k', c := s.cache, Next(s, step).cache, Lookup(s.cache, name).value;
            || (name in k'.conns && k'.conns[name] == c)
            || (step.Reloads? && !(c in k.remote && Authorizes(step.policy, name, k.remote[c])) && name !in k'.conns
                 && c in k'.closed)
  {
    RunKeepsInv(s0, steps);
  }

  /** A watcher that fires leaves no closed connection cached under its name. */
  lemma DeadConnectionsGo(s: System, name: string, c: ConnId)
    requires Enabled(s, Watched(name, c))
    ensures var k := Next(s, Watched(name, c)).cache;
            && (name in k.conns ==> k.conns[name] !in k.closed && name in s.cache.conns)
            && k.conns - {name} == s.cache.conns - {name} && k.edges == s.cache.edges && k.closed == s.cache.closed
  {}

  // ---------- what a task returns ----------

  /** At this step the task is given the working connection that is cached for its edge. */
  predicate GetsCached(s: System, step: Step, t: TaskId)
    requires t in s.tasks
  {
    && ((step == Check(t) && s.tasks[t].phase == Start) || (step == Recheck(t) && s.tasks[t].phase == Holding))
    && s.tasks[t].name in s.cache.conns && s.cache.conns[s.tasks[t].name] !in s.cache.closed
  }

  predicate StillNamed(s: System, t: TaskId)
    requires t in s.tasks
  {
    s.tasks[t].target.Some? && s.tasks[t].name in s.cache.edges
        && s.cache.edges[s.tasks[t].name] == s.tasks[t].target
  }

  /** At this step the task publishes its own dial, and the policy still names the identity it dialed. */
  predicate GetsDialed(s: System, step: Step, t: TaskId)
    requires t in s.tasks
  {
    step == Publishes(t) && s.tasks[t].phase.Dialed? && StillNamed(s, t)
  }

  /**
   * At this step the task fails: its target does not parse, the dial failed or met another identity, or the policy
   * changed before publication.
   */
  predicate Fails(s: System, step: Step, t: TaskId)
    requires t in s.tasks
  {
    match s.tasks[t].phase
    case Holding => step == Recheck(t) && s.tasks[t].target.None? && !GetsCached(s, step, t)
    case Dialing =>
      || step == DialFailed(t)
      || (step.Connected? && step.task == t && Enabled(s, step) && Some(step.remote) != s.tasks[t].target)
    case Dialed(_) => step == Publishes(t) && !StillNamed(s, t)
    case _ => false
  }

  /** What the task returns at this step, if it returns. */
  function Answer(s: System, step: Step, t: TaskId): Option<Option<ConnId>>
    requires t in s.tasks
  {
    if GetsCached(s, step, t) then Some(Some(s.cache.conns[s.tasks[t].name]))
    else if GetsDialed(s, step, t) then Some(Some(s.tasks[t].phase.conn))
    else if Fails(s, step, t) then Some(None)
    else None
  }

  /** A task keeps its edge and target, returns exactly when it is answered, and its result is final. */
  lemma TasksReturnExactly(s: System, step: Step, t: TaskId)
    requires t in s.tasks
    ensures var s' := Next(s, step);
            && t in s'.tasks && s'.tasks[t].name == s.tasks[t].name && s'.tasks[t].target == s.tasks[t].target
            && if s.tasks[t].phase.Returned? then s'.tasks[t] == s.tasks[t]
               else if Answer(s, step, t).Some? then s'.tasks[t].phase == Returned(Answer(s, step, t).value)
               else !s'.tasks[t].phase.Returned?
  {}

  /** What publication does to the cache: the dial is cached, or closed and nothing else changes. */
  lemma PublicationsShow(s: System, t: TaskId)
    requires Enabled(s, Publishes(t))
    ensures var k, k', name, c := s.cache, Next(s, Publishes(t)).cache, s.tasks[t].name, s.tasks[t].phase.conn;
            if StillNamed(s, t) then k' == k.(conns := k.conns[name := c])
            else k' == k.(closed := k.closed + {c})
  {}

  /** The task itself made this connection, and it led to the identity the task was asked for. */
  ghost predicate WasDialed(s0: System, steps: seq<Step>, t: TaskId, c: ConnId) {
    exists k :: 0 <= k < |steps| && steps[k].Connected? && steps[k].task == t && steps[k].conn == c
                && t in Execute(s0, steps[..k]).tasks
                && Execute(s0, steps[..k]).tasks[t].target == Some(steps[k].remote)
  }

  lemma DialStep(s: System, step: Step, t: TaskId)
    requires t in Next(s, step).tasks && Next(s, step).tasks[t].phase.Dialed?
    ensures t in s.tasks
    ensures s.tasks[t] == Next(s, step).tasks[t] ||
            (step.Connected? && step.task == t && step.conn == Next(s, step).tasks[t].phase.conn
             && s.tasks[t].target == Some(step.remote))
  {}

  lemma {:induction false} DialsWereMade(s0: System, steps: seq<Step>, t: TaskId)
    requires Initial(s0) && t in Execute(s0, steps).tasks && Execute(s0, steps).tasks[t].phase.Dialed?
    ensures WasDialed(s0, steps, t, Execute(s0, steps).tasks[t].phase.conn)
  {
    var init, last := steps[..|steps| - 1], steps[|steps| - 1];
    DialStep(Execute(s0, init), last, t);
    if Execute(s0, init).tasks[t] == Execute(s0, steps).tasks[t] {
      DialsWereMade(s0, init, t);
      var c := Execute(s0, steps).tasks[t].phase.conn;
      var k :| 0 <= k < |init| && init[k].Connected? && init[k].task == t && init[k].conn == c
               && t in Execute(s0, init[..k]).tasks
               && Execute(s0, init[..k]).tasks[t].target == Some(init[k].remote);
      assert steps[..k] == init[..k] && steps[k] == init[k];
    } else {
      assert steps[|init|] == last;
    }
  }

  /** The step of a run at which a task got its result, with what it was given. */
  ghost predicate AnsweredAt(s0: System, steps: seq<Step>, k: nat, t: TaskId, result: Option<ConnId>)
    requires k < |steps|
  {
    var s := Execute(s0, steps[..k]);
    && t in s.tasks && Answer(s, steps[k], t) == Some(result)
    && (GetsDialed(s, steps[k], t) && !GetsCached(s, steps[k], t) ==>
          WasDialed(s0, steps[..k], t, s.tasks[t].phase.conn))
  }

  ghost predicate WasAnswered(s0: System, steps: seq<Step>, t: TaskId, result: Option<ConnId>) {
    exists k :: 0 <= k < |steps| && AnsweredAt(s0, steps, k, t, result)
  }

  /**
   * In every run, a task that returned a connection was given, at one step, the working connection cached for its
   * edge, or the one it had dialed itself and whose identity the policy named then; one that returned nothing
   * failed at one step for one of the reasons above.
   */
  lemma {:induction false} TasksWereAnswered(s0: System, steps: seq<Step>, t: TaskId)
    requires Initial(s0) && t in Execute(s0, steps).tasks && Execute(s0, steps).tasks[t].phase.Returned?
    ensures WasAnswered(s0, steps, t, Execute(s0, steps).tasks[t].phase.result)
  {
    var init, last := steps[..|steps| - 1], steps[|steps| - 1];
    var s, result := Execute(s0, init), Execute(s0, steps).tasks[t].phase.result;
    assert t in s.tasks;
    TasksReturnExactly(s, last, t);
    if s.tasks[t].phase.Returned? {
      TasksWereAnswered(s0, init, t);
      var k :| 0 <= k < |init| && AnsweredAt(s0, init, k, t, result);
      assert steps[..k] == init[..k] && steps[k] == init[k];
      assert AnsweredAt(s0, steps, k, t, result);
    } else {
      if GetsDialed(s, last, t) { DialsWereMade(s0, init, t); }
      assert steps[..|init|] == init && steps[|init|] == last;
      assert AnsweredAt(s0, steps, |init|, t, result);
    }
  }
}
