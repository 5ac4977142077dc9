/**
 * Which client configuration entries `mcp sync` creates, replaces and removes
 * (crates/agent-scale/src/mcp_sync.rs). `fingerprint` stands for the digest of an entry; nothing is assumed of it.
 */
module Reconcile {
  import opened Base

  type Alias = string
  type Hash = string

  datatype Target = Target(edge: string, server: string)

  datatype Entry = Proxy(target: Target) | Other(text: string)

  datatype Action = Put(alias: Alias, target: Target) | Remove(alias: Alias)

  datatype ReconcileError =
    | ModifiedOnRemove(alias: Alias)
    | Unmanaged(alias: Alias)
    | ModifiedOnPut(alias: Alias)
    | Collision(alias: Alias)

  type Desired = map<Alias, Target>

  // ---------- the desired aliases ----------

  function AliasOf(t: Target): Alias { t.edge + "__" + t.server }

  /** An alias begins with its edge's name and ends with its server's, two underscores between them. */
  lemma AliasReads(t: Target)
    ensures var a, n := AliasOf(t), |t.edge|;
            |a| == n + 2 + |t.server| && a[..n] == t.edge && a[n..n + 2] == "__" && a[n + 2..] == t.server
  {}

  /** Two targets can share an alias only if one edge's name begins the other's. */
  lemma CollidingEdgesNest(t: Target, u: Target)
    requires t != u && AliasOf(t) == AliasOf(u)
    ensures t.edge < u.edge || u.edge < t.edge
  {
    AliasReads(t);
    AliasReads(u);
    if |t.edge| <= |u.edge| {
      assert t.edge == AliasOf(u)[..|t.edge|] == u.edge[..|t.edge|];
    } else {
      assert u.edge == AliasOf(t)[..|u.edge|] == t.edge[..|u.edge|];
    }
  }

  function Targets(edges: seq<string>, catalog: map<string, set<string>>): set<Target> {
    set e, s | e in edges && e in catalog && s in catalog[e] :: Target(e, s)
  }

  predicate Unambiguous(targets: set<Target>) {
    forall t, u | t in targets && u in targets && AliasOf(t) == AliasOf(u) :: t == u
  }

  /** So aliases are unambiguous as long as no edge's name begins another's. */
  lemma UnambiguousWhenApart(targets: set<Target>)
    requires forall t, u | t in targets && u in targets :: !(t.edge < u.edge)
    ensures Unambiguous(targets)
  {
    forall t, u | t in targets && u in targets && AliasOf(t) == AliasOf(u) ensures t == u {
      if t != u { CollidingEdgesNest(t, u); }
    }
  }

  ghost predicate Names(desired: Desired, targets: set<Target>) {
    && (forall t | t in targets :: AliasOf(t) in desired && desired[AliasOf(t)] == t)
    && (forall a | a in desired :: desired[a] in targets && AliasOf(desired[a]) == a)
  }

  /** Adds one edge's servers, stopping at the first alias already taken. */
  method AddEdge(desired: Desired, edge: string, servers: set<string>, ghost before: set<Target>)
    returns (r: Result<Desired, ReconcileError>)
    requires Names(desired, before) && forall t | t in before :: t.edge != edge
    ensures var all := before + set s | s in servers :: Target(edge, s);
            if r.Ok? then Names(r.value, all) else !Unambiguous(all)
  {
    var todo, out := servers, desired;
    ghost var all := before + set s | s in servers :: Target(edge, s);
    ghost var done := before;
    while todo != {}
      invariant todo <= servers && done <= all && Names(out, done)
      invariant done == before + set s | s in servers - todo :: Target(edge, s)
    {
      var server :| server in todo;
      var target := Target(edge, server);
      assert target in all && target !in done;
      var alias := AliasOf(target);
      if alias in out {
        assert out[alias] in all && AliasOf(out[alias]) == alias;
        return Err(Collision(alias));
      }
      out := out[alias := target];
      todo := todo - {server};
      done := done + {target};
    }
    assert done == all;
    return Ok(out);
  }

  /** Succeeds exactly when no two targets share an alias; then every target is desired under its own alias. */
  method BuildDesired(edges: seq<string>, catalog: map<string, set<string>>)
      returns (r: Result<Desired, ReconcileError>)
    requires forall i, j | 0 <= i < j < |edges| :: edges[i] != edges[j]
    requires forall e | e in edges :: e in catalog
    ensures r.Ok? <==> Unambiguous(Targets(edges, catalog))
    ensures r.Ok? ==> Names(r.value, Targets(edges, catalog))
  {
    var desired: Desired := map[];
    var i := 0;
    while i < |edges|
      invariant 0 <= i <= |edges| && Names(desired, Targets(edges[..i], catalog))
    {
      var edge := edges[i];
      ghost var all := Targets(edges[..i], catalog) + set s | s in catalog[edge] :: Target(edge, s);
      assert Targets(edges[..i + 1], catalog) == all by { assert edges[..i + 1] == edges[..i] + [edge]; }
      assert forall t | t in Targets(edges[..i], catalog) :: t.edge != edge;
      var next := AddEdge(desired, edge, catalog[edge], Targets(edges[..i], catalog));
      if next.Err? {
        assert all <= Targets(edges, catalog);
        return next;
      }
      desired := next.value;
      i := i + 1;
    }
    assert edges[..i] == edges;
    return Ok(desired);
  }

  // ---------- reconcile ----------

  /** An entry sync may replace or remove: absent, or owned and unmodified. */
  predicate Accepted(a: Alias, owned: map<Alias, Hash>, current: map<Alias, Hash>) {
    a in current ==> a in owned && current[a] == owned[a]
  }

  /** Whatever sync would replace or remove is still exactly what an earlier sync wrote. */
  predicate Untampered(desired: Desired, owned: map<Alias, Hash>, current: map<Alias, Hash>) {
    (forall a | a in owned :: Accepted(a, owned, current)) && (forall a | a in desired :: Accepted(a, owned, current))
  }

  /** A refusal names an entry that sync must not touch, and why. */
  predicate Explains(error: ReconcileError, desired: Desired, owned: map<Alias, Hash>, current: map<Alias, Hash>) {
    && error.alias in current
    && match error
       case ModifiedOnRemove(a) => a in owned && a !in desired && current[a] != owned[a]
       case Unmanaged(a) => a in desired && a !in owned
       case ModifiedOnPut(a) => a in desired && a in owned && current[a] != owned[a]
       case Collision(_) => false
  }

  function Hashes(desired: Desired, fingerprint: Entry -> Hash): map<Alias, Hash> {
    map a | a in desired :: fingerprint(Proxy(desired[a]))
  }

  predicate Settled(a: Alias, owned: map<Alias, Hash>, current: map<Alias, Hash>, hash: Hash) {
    a in owned && a in current && owned[a] == hash
  }

  function Removals(desired: Desired, owned: map<Alias, Hash>, current: map<Alias, Hash>): set<Alias> {
    set a | a in owned && a !in desired && a in current
  }

  function Puts(desired: Desired, owned: map<Alias, Hash>, current: map<Alias, Hash>,
      fingerprint: Entry -> Hash): set<Alias> {
    set a | a in desired && !Settled(a, owned, current, fingerprint(Proxy(desired[a])))
  }

  ghost predicate Plans(actions: seq<Action>, desired: Desired, removals: set<Alias>, puts: set<Alias>) {
    && (forall x | x in actions :: if x.Remove? then x.alias in removals
         else x.alias in puts && x.alias in desired && x.target == desired[x.alias])
    && (forall a | a in removals :: Remove(a) in actions)
    && (forall a | a in puts :: a in desired && Put(a, desired[a]) in actions)
  }

  lemma PlanPut(actions: seq<Action>, desired: Desired, puts: set<Alias>, a: Alias)
    requires Plans(actions, desired, {}, puts) && a in desired
    ensures Plans(actions + [Put(a, desired[a])], desired, {}, puts + {a})
  {}

  lemma HashesGrow(owned: map<Alias, Hash>, hashes: map<Alias, Hash>, todo: set<Alias>, a: Alias)
    requires a in todo && a in hashes
    ensures owned + (hashes - (todo - {a})) == (owned + (hashes - todo))[a := hashes[a]]
  {}

  lemma PlansJoin(removing: seq<Action>, putting: seq<Action>, desired: Desired, removals: set<Alias>, puts: set<Alias>)
    requires Plans(removing, desired, removals, {}) && Plans(putting, desired, {}, puts)
    ensures Plans(removing + putting, desired, removals, puts)
  {}

  /** The first loop: previously owned entries that are no longer wanted. */
  method ReleaseOwned(desired: Desired, owned: map<Alias, Hash>, current: map<Alias, Hash>)
    returns (r: Result<seq<Action>, ReconcileError>, owned': map<Alias, Hash>)
    ensures r.Ok? ==>
              && owned' == (map a | a in owned && a in desired :: owned[a])
              && Plans(r.value, desired, Removals(desired, owned, current), {})
              && forall a | a in Removals(desired, owned, current) :: current[a] == owned[a]
    ensures r.Err? ==> r.error.ModifiedOnRemove? && Explains(r.error, desired, owned, current)
  {
    var actions: seq<Action> := [];
    owned' := owned;
    var todo := owned.Keys;
    while todo != {}
      invariant todo <= owned.Keys
      invariant owned' == map a | a in owned && (a in todo || a in desired) :: owned[a]
      invariant Plans(actions, desired, Removals(desired, owned, current) - todo, {})
      invariant forall a | a in Removals(desired, owned, current) - todo :: current[a] == owned[a]
    {
      var alias :| alias in todo;
      todo := todo - {alias};
      if alias in desired { continue; }
      if alias in current {
        if current[alias] != owned[alias] {
          assert alias in Removals(desired, owned, current);
          return Err(ModifiedOnRemove(alias)), owned';
        }
        actions := actions + [Remove(alias)];
      }
      owned' := owned' - {alias};
    }
    return Ok(actions), owned';
  }

  /** What holds before the entries in `todo` have been visited. */
  ghost predicate PutSoFar(desired: Desired, owned: map<Alias, Hash>, current: map<Alias, Hash>,
      fingerprint: Entry -> Hash, todo: set<Alias>, actions: seq<Action>, owned': map<Alias, Hash>) {
    && (forall a | a in desired && a !in todo :: Accepted(a, owned, current))
    && owned' == owned + (Hashes(desired, fingerprint) - todo)
    && Plans(actions, desired, {}, Puts(desired, owned, current, fingerprint) - todo)
  }

  lemma PutTurn(desired: Desired, owned: map<Alias, Hash>, current: map<Alias, Hash>, fingerprint: Entry -> Hash,
      todo: set<Alias>, actions: seq<Action>, owned': map<Alias, Hash>, a: Alias)
    requires PutSoFar(desired, owned, current, fingerprint, todo, actions, owned') && a in todo && a in desired
    ensures (a in owned' <==> a in owned) && (a in owned ==> owned'[a] == owned[a])
    ensures var next := fingerprint(Proxy(desired[a]));
            Accepted(a, owned, current) ==>
              if Settled(a, owned, current, next)
              then PutSoFar(desired, owned, current, fingerprint, todo - {a}, actions, owned')
              else PutSoFar(desired, owned, current, fingerprint, todo - {a}, actions + [Put(a, desired[a])],
                     owned'[a := next])
  {
    var puts := Puts(desired, owned, current, fingerprint);
    HashesGrow(owned, Hashes(desired, fingerprint), todo, a);
    if Settled(a, owned, current, fingerprint(Proxy(desired[a]))) {
      assert puts - (todo - {a}) == puts - todo;
    } else {
      assert puts - (todo - {a}) == (puts - todo) + {a};
      PlanPut(actions, desired, puts - todo, a);
    }
  }

  lemma PutStarts(desired: Desired, owned: map<Alias, Hash>, current: map<Alias, Hash>, fingerprint: Entry -> Hash)
    ensures PutSoFar(desired, owned, current, fingerprint, desired.Keys, [], owned)
  {
    assert owned + (Hashes(desired, fingerprint) - desired.Keys) == owned;
  }

  lemma PutEnds(desired: Desired, owned: map<Alias, Hash>, current: map<Alias, Hash>, fingerprint: Entry -> Hash,
      actions: seq<Action>, owned': map<Alias, Hash>)
    requires PutSoFar(desired, owned, current, fingerprint, {}, actions, owned') && owned.Keys <= desired.Keys
    ensures forall a | a in desired :: Accepted(a, owned, current)
    ensures owned' == Hashes(desired, fingerprint)
    ensures Plans(actions, desired, {}, Puts(desired, owned, current, fingerprint))
  {
    assert Puts(desired, owned, current, fingerprint) - {} == Puts(desired, owned, current, fingerprint);
    assert Hashes(desired, fingerprint) - {} == Hashes(desired, fingerprint);
  }

  /** The second loop: every desired entry, given the ownership the first loop left. */
  method PutDesired(desired: Desired, owned: map<Alias, Hash>, current: map<Alias, Hash>, fingerprint: Entry -> Hash)
    returns (r: Result<seq<Action>, ReconcileError>, owned': map<Alias, Hash>)
    requires owned.Keys <= desired.Keys
    ensures r.Ok? <==> forall a | a in desired :: Accepted(a, owned, current)
    ensures r.Err? ==> !r.error.ModifiedOnRemove? && Explains(r.error, desired, owned, current)
    ensures r.Ok? ==> owned' == Hashes(desired, fingerprint)
    ensures r.Ok? ==> Plans(r.value, desired, {}, Puts(desired, owned, current, fingerprint))
  {
    var out: seq<Action> := [];
    owned' := owned;
    var todo := desired.Keys;
    PutStarts(desired, owned, current, fingerprint);
    while todo != {}
      invariant todo <= desired.Keys && PutSoFar(desired, owned, current, fingerprint, todo, out, owned')
    {
      var alias :| alias in todo;
      var next := fingerprint(Proxy(desired[alias]));
      PutTurn(desired, owned, current, fingerprint, todo, out, owned', alias);
      if alias !in owned' && alias in current {
        return Err(Unmanaged(alias)), owned';
      }
      if alias in owned' && alias in current && current[alias] != owned'[alias] {
        return Err(ModifiedOnPut(alias)), owned';
      }
      todo := todo - {alias};
      if alias in owned' && alias in current && owned'[alias] == next { continue; }
      out := out + [Put(alias, desired[alias])];
      owned' := owned'[alias := next];
    }
    PutEnds(desired, owned, current, fingerprint, out, owned');
    return Ok(out), owned';
  }

  /**
   * Succeeds exactly on untampered configurations; then plans exactly the needed actions and owns exactly the
   * desired set.
   */
  method Reconcile(desired: Desired, owned: map<Alias, Hash>, current: map<Alias, Hash>, fingerprint: Entry -> Hash)
    returns (r: Result<seq<Action>, ReconcileError>, owned': map<Alias, Hash>)
    ensures r.Ok? <==> Untampered(desired, owned, current)
    ensures r.Err? ==> Explains(r.error, desired, owned, current)
    ensures r.Ok? ==> owned' == Hashes(desired, fingerprint)
                      && Plans(r.value, desired, Removals(desired, owned, current),
                           Puts(desired, owned, current, fingerprint))
  {
    r, owned' := ReleaseOwned(desired, owned, current);
    if r.Err? { return; }
    var released := owned';
    var removing := r.value;
    r, owned' := PutDesired(desired, released, current, fingerprint);
    if r.Err? { return; }
    assert Puts(desired, released, current, fingerprint) == Puts(desired, owned, current, fingerprint);
    PlansJoin(removing, r.value, desired, Removals(desired, owned, current),
        Puts(desired, owned, current, fingerprint));
    r := Ok(removing + r.value);
  }

  // ---------- the configuration afterwards ----------

  function Current(servers: map<Alias, Entry>, fingerprint: Entry -> Hash): map<Alias, Hash> {
    map a | a in servers :: fingerprint(servers[a])
  }

  function Configured(servers: map<Alias, Entry>, desired: Desired, removals: set<Alias>,
      puts: set<Alias>): map<Alias, Entry>
    requires puts <= desired.Keys
  {
    (servers - removals) + map a | a in puts :: Proxy(desired[a])
  }

  function Carried(servers: map<Alias, Entry>, actions: seq<Action>): map<Alias, Entry> {
    if actions == [] then servers
    else
      var before := Carried(servers, actions[..|actions| - 1]);
      match actions[|actions| - 1]
      case Put(alias, target) => before[alias := Proxy(target)]
      case Remove(alias) => before - {alias}
  }

  method CarryOut(servers: map<Alias, Entry>, actions: seq<Action>) returns (out: map<Alias, Entry>)
    ensures out == Carried(servers, actions)
  {
    out := servers;
    var i := 0;
    while i < |actions|
      invariant 0 <= i <= |actions| && out == Carried(servers, actions[..i])
    {
      assert actions[..i + 1][..i] == actions[..i];
      match actions[i] {
        case Put(alias, target) => out := out[alias := Proxy(target)];
        case Remove(alias) => out := out - {alias};
      }
      i := i + 1;
    }
    assert actions[..i] == actions;
  }

  /** Where one alias ends up, when the actions agree on what to do with it. */
  lemma {:induction false} CarriedAt(servers: map<Alias, Entry>, actions: seq<Action>, desired: Desired, a: Alias)
    requires forall x | x in actions && x.Put? && x.alias == a ::
            Remove(a) !in actions && a in desired && x.target == desired[a]
    ensures var out := Carried(servers, actions);
            if Remove(a) in actions then a !in out
            else if a in desired && Put(a, desired[a]) in actions then a in out && out[a] == Proxy(desired[a])
            else (a in out <==> a in servers) && (a in servers ==> out[a] == servers[a])
  {
    if actions != [] {
      var n := |actions| - 1;
      assert actions == actions[..n] + [actions[n]];
      CarriedAt(servers, actions[..n], desired, a);
    }
  }

  lemma CarriedOut(servers: map<Alias, Entry>, actions: seq<Action>, desired: Desired, removals: set<Alias>,
      puts: set<Alias>)
    requires Plans(actions, desired, removals, puts) && removals !! puts && puts <= desired.Keys
    ensures Carried(servers, actions) == Configured(servers, desired, removals, puts)
  {
    var out, want := Carried(servers, actions), Configured(servers, desired, removals, puts);
    forall a ensures (a in out <==> a in want) && (a in out ==> out[a] == want[a]) {
      CarriedAt(servers, actions, desired, a);
    }
  }

  /** Reads the entries, reconciles them and carries out the actions. */
  method Prepare(servers: map<Alias, Entry>, desired: Desired, owned: map<Alias, Hash>, fingerprint: Entry -> Hash)
    returns (r: Result<map<Alias, Entry>, ReconcileError>, owned': map<Alias, Hash>)
    ensures r.Ok? <==> Untampered(desired, owned, Current(servers, fingerprint))
    ensures r.Ok? ==>
            owned' == Hashes(desired, fingerprint) && r.value == Prepared(servers, desired, owned, fingerprint)
  {
    var current := Current(servers, fingerprint);
    var plan;
    plan, owned' := Reconcile(desired, owned, current, fingerprint);
    if plan.Err? { return Err(plan.error), owned'; }
    var out := CarryOut(servers, plan.value);
    CarriedOut(servers, plan.value, desired, Removals(desired, owned, current),
        Puts(desired, owned, current, fingerprint));
    return Ok(out), owned';
  }

  function Prepared(servers: map<Alias, Entry>, desired: Desired, owned: map<Alias, Hash>,
      fingerprint: Entry -> Hash): map<Alias, Entry> {
    var current := Current(servers, fingerprint);
    Configured(servers, desired, Removals(desired, owned, current), Puts(desired, owned, current, fingerprint))
  }

  /**
   * What a successful sync leaves: every desired alias carries the generated fingerprint, entries never owned
   * are untouched, entries owned before and no longer desired are gone, and nothing else appears.
   */
  lemma SyncedConfiguration(servers: map<Alias, Entry>, desired: Desired, owned: map<Alias, Hash>,
      fingerprint: Entry -> Hash)
    requires Untampered(desired, owned, Current(servers, fingerprint))
    ensures var after := Prepared(servers, desired, owned, fingerprint);
            && after.Keys == (servers.Keys - owned.Keys) + desired.Keys
            && (forall a | a in desired :: fingerprint(after[a]) == fingerprint(Proxy(desired[a])))
            && (forall a | a in servers && a !in owned :: after[a] == servers[a])
  {
    var current := Current(servers, fingerprint);
    forall a | a in servers && a !in owned ensures a !in desired { assert a in current; }
    forall a | a in desired && a !in Puts(desired, owned, current, fingerprint)
        ensures fingerprint(servers[a]) == fingerprint(Proxy(desired[a])) {
      assert a in current;
    }
  }

  /** Every owned entry is there, with the fingerprint on record. */
  ghost predicate Agrees(servers: map<Alias, Entry>, owned: map<Alias, Hash>, fingerprint: Entry -> Hash) {
    forall a | a in owned :: a in servers && fingerprint(servers[a]) == owned[a]
  }

  /** Where configuration and manifest agree, only entries nobody manages can stand in the way of a sync. */
  lemma AgreedIsUntampered(servers: map<Alias, Entry>, desired: Desired, owned: map<Alias, Hash>,
      fingerprint: Entry -> Hash)
    requires Agrees(servers, owned, fingerprint)
    ensures Untampered(desired, owned, Current(servers, fingerprint)) <==>
            forall a | a in desired && a in servers :: a in owned
  {
    var current := Current(servers, fingerprint);
    forall a | a in owned ensures Accepted(a, owned, current) {}
    if Untampered(desired, owned, current) {
      forall a | a in desired && a in servers ensures a in owned { assert Accepted(a, owned, current); }
    }
  }

  /** Where they agree and nothing new is desired, a sync plans nothing and changes nothing. */
  lemma AgreedIsQuiet(servers: map<Alias, Entry>, desired: Desired, fingerprint: Entry -> Hash)
    requires Agrees(servers, Hashes(desired, fingerprint), fingerprint)
    ensures var owned, current := Hashes(desired, fingerprint), Current(servers, fingerprint);
            && Untampered(desired, owned, current)
            && Removals(desired, owned, current) == {} && Puts(desired, owned, current, fingerprint) == {}
            && Prepared(servers, desired, owned, fingerprint) == servers
  {
    AgreedIsUntampered(servers, desired, Hashes(desired, fingerprint), fingerprint);
    var owned, current := Hashes(desired, fingerprint), Current(servers, fingerprint);
    forall a | a in desired ensures Settled(a, owned, current, fingerprint(Proxy(desired[a]))) {
      assert a in owned && a in servers;
    }
  }

  /** A successful sync leaves configuration and manifest in agreement. */
  lemma SyncAgrees(servers: map<Alias, Entry>, desired: Desired, owned: map<Alias, Hash>, fingerprint: Entry -> Hash)
    requires Untampered(desired, owned, Current(servers, fingerprint))
    ensures Agrees(Prepared(servers, desired, owned, fingerprint), Hashes(desired, fingerprint), fingerprint)
  {
    SyncedConfiguration(servers, desired, owned, fingerprint);
  }

  /** Running sync again at once succeeds, plans nothing and leaves everything as it is. */
  lemma SecondSyncIsQuiet(servers: map<Alias, Entry>, desired: Desired, owned: map<Alias, Hash>,
      fingerprint: Entry -> Hash)
    requires Untampered(desired, owned, Current(servers, fingerprint))
    ensures var after, owned' := Prepared(servers, desired, owned, fingerprint), Hashes(desired, fingerprint);
            var current := Current(after, fingerprint);
            && Untampered(desired, owned', current)
            && Removals(desired, owned', current) == {} && Puts(desired, owned', current, fingerprint) == {}
            && Prepared(after, desired, owned', fingerprint) == after
  {
    SyncAgrees(servers, desired, owned, fingerprint);
    AgreedIsQuiet(Prepared(servers, desired, owned, fingerprint), desired, fingerprint);
  }

  // ---------- every run of syncs and user edits ----------

  /** `generated` remembers every entry any sync has asked for. */
  datatype Config = Config(servers: map<Alias, Entry>, owned: map<Alias, Hash>, generated: set<(Alias, Target)>)

  datatype Step = Sync(desired: Desired) | Edit(alias: Alias, entry: Option<Entry>)

  function Next(c: Config, step: Step, fingerprint: Entry -> Hash): Config {
    match step
    case Sync(desired) =>
      if !Untampered(desired, c.owned, Current(c.servers, fingerprint)) then c
      else Config(Prepared(c.servers, desired, c.owned, fingerprint), Hashes(desired, fingerprint),
                  c.generated + set a | a in desired :: (a, desired[a]))
    case Edit(alias, entry) =>
      c.(servers := if entry.Some? then c.servers[alias := entry.value] else c.servers - {alias})
  }

  function Execute(c: Config, steps: seq<Step>, fingerprint: Entry -> Hash): Config {
    if steps == [] then c else Next(Execute(c, steps[..|steps| - 1], fingerprint), steps[|steps| - 1], fingerprint)
  }

  ghost predicate GeneratedAt(c: Config, a: Alias, h: Hash, fingerprint: Entry -> Hash) {
    exists t :: (a, t) in c.generated && fingerprint(Proxy(t)) == h
  }

  ghost predicate OwnsOnlyGenerated(c: Config, fingerprint: Entry -> Hash) {
    forall a | a in c.owned :: GeneratedAt(c, a, c.owned[a], fingerprint)
  }

  lemma StepOwnsOnlyGenerated(c: Config, step: Step, fingerprint: Entry -> Hash)
    requires OwnsOnlyGenerated(c, fingerprint)
    ensures OwnsOnlyGenerated(Next(c, step, fingerprint), fingerprint)
  {
    var after := Next(c, step, fingerprint);
    forall a | a in after.owned ensures GeneratedAt(after, a, after.owned[a], fingerprint) {
      if step.Sync? && Untampered(step.desired, c.owned, Current(c.servers, fingerprint)) {
        assert (a, step.desired[a]) in after.generated;
      } else {
        var t :| (a, t) in c.generated && fingerprint(Proxy(t)) == c.owned[a];
        assert (a, t) in after.generated;
      }
    }
  }

  lemma {:induction false} RunOwnsOnlyGenerated(steps: seq<Step>, servers: map<Alias, Entry>,
      fingerprint: Entry -> Hash)
    ensures OwnsOnlyGenerated(Execute(Config(servers, map[], {}), steps, fingerprint), fingerprint)
  {
    if steps != [] {
      RunOwnsOnlyGenerated(steps[..|steps| - 1], servers, fingerprint);
      StepOwnsOnlyGenerated(Execute(Config(servers, map[], {}), steps[..|steps| - 1], fingerprint),
          steps[|steps| - 1], fingerprint);
    }
  }

  /**
   * However syncs and user edits interleave, a sync removes or replaces an entry only if that entry still has
   * the fingerprint of one an earlier sync generated under the same alias: user work is never lost.
   */
  lemma UserWorkIsNeverLost(steps: seq<Step>, servers: map<Alias, Entry>, desired: Desired,
      fingerprint: Entry -> Hash, a: Alias)
    requires var c := Execute(Config(servers, map[], {}), steps, fingerprint);
             var after := Next(c, Sync(desired), fingerprint).servers;
             a in c.servers && (a in after ==> after[a] != c.servers[a])
    ensures var c := Execute(Config(servers, map[], {}), steps, fingerprint);
            GeneratedAt(c, a, fingerprint(c.servers[a]), fingerprint)
  {
    var c := Execute(Config(servers, map[], {}), steps, fingerprint);
    RunOwnsOnlyGenerated(steps, servers, fingerprint);
    assert a in Current(c.servers, fingerprint);
  }
}
