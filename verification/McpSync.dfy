/**
 * The whole of `mcp sync` on a project directory (crates/agent-scale/src/mcp_sync.rs): recovery of a pending
 * journal, the entries of `Reconcile` read from and written to the client configurations, and the commit of
 * `Journal`. Parsing and printing are parameters of which only the round trip is assumed.
 */
module McpSync {
  import opened Base
  import J = Journal
  import R = Reconcile

  type Files = map<J.Path, J.Bytes>

  datatype Kind = Claude | Codex

  /** A client configuration: its server entries and everything else it holds. */
  datatype Doc = Doc(rest: string, servers: map<R.Alias, R.Entry>)

  datatype Manifest = Manifest(version: nat, clients: map<string, map<R.Alias, R.Hash>>)

  datatype Format = Format(parse: J.Bytes -> Option<Doc>, text: Doc -> J.Bytes, fingerprint: R.Entry -> R.Hash)

  datatype Tools = Tools(claude: Format, codex: Format, read: J.Bytes -> Option<Manifest>, write: Manifest -> J.Bytes) {
    function For(k: Kind): Format { match k case Claude => claude case Codex => codex }

    ghost predicate Faithful() {
      && (forall k: Kind, doc: Doc :: For(k).parse(For(k).text(doc)) == Some(doc))
      && (forall m: Manifest :: read(write(m)) == Some(m))
    }
  }

  const MANIFEST: J.Path := [J.Normal(".agent-scale"), J.Normal("mcp-sync.json")]

  function ConfigPath(k: Kind): J.Path {
    match k
    case Claude => [J.Normal(".mcp.json")]
    case Codex => [J.Normal(".codex"), J.Normal("config.toml")]
  }

  function Key(k: Kind): string { match k case Claude => "claude" case Codex => "codex" }

  lemma PlacesDiffer(k: Kind, l: Kind)
    ensures ConfigPath(k) != MANIFEST && J.SafePath(ConfigPath(k)) && J.SafePath(MANIFEST)
    ensures k != l ==> ConfigPath(k) != ConfigPath(l) && Key(k) != Key(l)
  {
    assert |ConfigPath(Claude)| == 1 && |ConfigPath(Codex)| == 2 == |MANIFEST|;
    assert |ConfigPath(Codex)[0].name| == 6 && |MANIFEST[0].name| == 12;
    assert |Key(Claude)| == 6 && |Key(Codex)| == 5;
  }

  // ---------- what one sync reads and writes ----------

  function ReadManifest(t: Tools, files: Files): Option<Manifest> {
    if MANIFEST in files then t.read(files[MANIFEST]) else Some(Manifest(0, map[]))
  }

  function ReadDoc(t: Tools, files: Files, k: Kind): Option<Doc> {
    if ConfigPath(k) in files then t.For(k).parse(files[ConfigPath(k)]) else Some(Doc("", map[]))
  }

  function Owned(m: Manifest, k: Kind): map<R.Alias, R.Hash> {
    if Key(k) in m.clients then m.clients[Key(k)] else map[]
  }

  predicate Clear(t: Tools, files: Files, m: Manifest, desired: R.Desired, k: Kind) {
    var doc, fingerprint := ReadDoc(t, files, k), t.For(k).fingerprint;
    doc.Some? && R.Untampered(desired, Owned(m, k), R.Current(doc.value.servers, fingerprint))
  }

  predicate ManifestOk(m: Option<Manifest>) { m.Some? && m.value.version <= 1 }

  predicate Ready(t: Tools, files: Files, kinds: seq<Kind>, desired: R.Desired) {
    && ManifestOk(ReadManifest(t, files))
    && forall k | k in kinds :: Clear(t, files, ReadManifest(t, files).value, desired, k)
  }

  function DocAfter(t: Tools, files: Files, m: Manifest, desired: R.Desired, k: Kind): Doc
    requires ReadDoc(t, files, k).Some?
  {
    var doc := ReadDoc(t, files, k).value;
    doc.(servers := R.Prepared(doc.servers, desired, Owned(m, k), t.For(k).fingerprint))
  }

  function DocOutput(t: Tools, files: Files, m: Manifest, desired: R.Desired, k: Kind): J.Output
    requires ReadDoc(t, files, k).Some?
  {
    J.Output(ConfigPath(k), t.For(k).text(DocAfter(t, files, m, desired, k)))
  }

  function Recorded(t: Tools, m: Manifest, kinds: seq<Kind>, desired: R.Desired): Manifest {
    if kinds == [] then m.(version := 1)
    else
      var last := kinds[|kinds| - 1];
      var before := Recorded(t, m, kinds[..|kinds| - 1], desired);
      before.(clients := before.clients[Key(last) := R.Hashes(desired, t.For(last).fingerprint)])
  }

  function Docs(t: Tools, files: Files, m: Manifest, kinds: seq<Kind>, desired: R.Desired): (r: seq<J.Output>)
    requires forall k | k in kinds :: ReadDoc(t, files, k).Some?
    ensures |r| == |kinds|
  {
    seq(|kinds|, i requires 0 <= i < |kinds| => DocOutput(t, files, m, desired, kinds[i]))
  }

  function Outputs(t: Tools, files: Files, kinds: seq<Kind>, desired: R.Desired): seq<J.Output>
    requires Ready(t, files, kinds, desired)
  {
    var m := ReadManifest(t, files).value;
    Docs(t, files, m, kinds, desired) + [J.Output(MANIFEST, t.write(Recorded(t, m, kinds, desired)))]
  }

  predicate Distinct(kinds: seq<Kind>) { forall i, j | 0 <= i < j < |kinds| :: kinds[i] != kinds[j] }

  /**
   * One process of `mcp sync`, of whose disk operations `left` land. One that fails to read a catalog after its
   * recovery is one of which only the recovery's operations land.
   */
  function AfterSync(t: Tools, d: J.Disk, kinds: seq<Kind>, desired: R.Desired, left: nat): J.Disk {
    var r := J.RecoverTo(d, left);
    if kinds == [] then d
    else if r.journal.Some? || !Ready(t, r.files, kinds, desired) then r
    else J.CommitTo(r, Outputs(t, r.files, kinds, desired), J.LeftAfter(d, left))
  }

  // ---------- the method ----------

  datatype Outcome =
    | Synced
    | Stopped
    | NoClients
    | BadJournal(error: J.SyncError)
    | BadManifest
    | BadDocument(kind: Kind)
    | Conflict(kind: Kind, reason: R.ReconcileError)

  function Absolute(root: J.Path, outputs: seq<J.Output>): (r: seq<J.Output>)
    ensures |r| == |outputs|
  {
    seq(|outputs|, i requires 0 <= i < |outputs| => J.Output(root + outputs[i].path, outputs[i].bytes))
  }

  lemma AbsoluteIsUnder(root: J.Path, outputs: seq<J.Output>)
    requires J.AllSafe(outputs)
    ensures J.Relative(root, Absolute(root, outputs)) == outputs
    ensures forall f | f in Absolute(root, outputs) :: root <= f.path && J.SafePath(f.path[|root|..])
  {
    var absolute := Absolute(root, outputs);
    forall i | 0 <= i < |outputs| ensures root <= absolute[i].path && absolute[i].path[|root|..] == outputs[i].path {
      assert absolute[i].path == root + outputs[i].path;
    }
    forall f | f in absolute ensures root <= f.path && J.SafePath(f.path[|root|..]) {
      var i :| 0 <= i < |absolute| && absolute[i] == f;
      assert outputs[i] in outputs;
    }
  }

  lemma OutputsAreSafe(t: Tools, files: Files, kinds: seq<Kind>, desired: R.Desired)
    requires Ready(t, files, kinds, desired)
    ensures J.AllSafe(Outputs(t, files, kinds, desired))
  {
    forall k: Kind { PlacesDiffer(k, k); }
  }

  /** Prepares one client's configuration, as `prepare_claude` and `prepare_codex` do. */
  method PrepareKind(t: Tools, files: Files, m: Manifest, desired: R.Desired, k: Kind)
    returns (outcome: Outcome, output: J.Output, owned: map<R.Alias, R.Hash>)
    ensures outcome.Synced? <==> Clear(t, files, m, desired, k)
    ensures outcome.Synced? || outcome == BadDocument(k) || (outcome.Conflict? && outcome.kind == k)
    ensures outcome.BadDocument? <==> ReadDoc(t, files, k).None?
    ensures outcome.Synced? ==>
              && output == DocOutput(t, files, m, desired, k)
              && owned == R.Hashes(desired, t.For(k).fingerprint)
  {
    output, owned := J.Output(ConfigPath(k), []), map[];
    var doc := ReadDoc(t, files, k);
    if doc.None? { return BadDocument(k), output, owned; }
    var r;
    r, owned := R.Prepare(doc.value.servers, desired, Owned(m, k), t.For(k).fingerprint);
    if r.Err? { return Conflict(k, r.error), output, owned; }
    output := J.Output(ConfigPath(k), t.For(k).text(doc.value.(servers := r.value)));
    return Synced, output, owned;
  }

  ghost predicate PreparedSoFar(t: Tools, files: Files, m: Manifest, kinds: seq<Kind>, desired: R.Desired,
      outputs: seq<J.Output>, manifest: Manifest) {
    && (forall k | k in kinds :: Clear(t, files, m, desired, k))
    && outputs == Docs(t, files, m, kinds, desired) && manifest == Recorded(t, m, kinds, desired)
  }

  lemma {:induction false} RecordedElsewhere(t: Tools, m: Manifest, kinds: seq<Kind>, desired: R.Desired, k: Kind)
    ensures Recorded(t, m, kinds, desired).version == 1
    ensures Owned(Recorded(t, m, kinds, desired), k) ==
            if k in kinds then R.Hashes(desired, t.For(k).fingerprint) else Owned(m, k)
  {
    if kinds != [] {
      var n := |kinds| - 1;
      assert kinds == kinds[..n] + [kinds[n]];
      PlacesDiffer(k, kinds[n]);
      RecordedElsewhere(t, m, kinds[..n], desired, k);
    }
  }

  lemma PreparedTurn(t: Tools, files: Files, m: Manifest, kinds: seq<Kind>, desired: R.Desired,
      outputs: seq<J.Output>, manifest: Manifest, k: Kind)
    requires PreparedSoFar(t, files, m, kinds, desired, outputs, manifest) && Clear(t, files, m, desired, k)
    ensures PreparedSoFar(t, files, m, kinds + [k], desired, outputs + [DocOutput(t, files, m, desired, k)],
              manifest.(clients := manifest.clients[Key(k) := R.Hashes(desired, t.For(k).fingerprint)]))
  {
    assert (kinds + [k])[..|kinds|] == kinds;
  }

  /** The loop over the clients: each is prepared against what the manifest said before any of them. */
  method PrepareAll(t: Tools, files: Files, m: Manifest, kinds: seq<Kind>, desired: R.Desired)
    returns (outcome: Outcome, outputs: seq<J.Output>, manifest: Manifest)
    requires Distinct(kinds)
    ensures outcome.Synced? <==> forall k | k in kinds :: Clear(t, files, m, desired, k)
    ensures outcome.Synced? ==> PreparedSoFar(t, files, m, kinds, desired, outputs, manifest)
    ensures outcome.Synced? || outcome.BadDocument? || outcome.Conflict?
    ensures !outcome.Synced? ==> outcome.kind in kinds && !Clear(t, files, m, desired, outcome.kind)
  {
    outputs, manifest := [], m.(version := 1);
    var i := 0;
    while i < |kinds|
      invariant 0 <= i <= |kinds| && PreparedSoFar(t, files, m, kinds[..i], desired, outputs, manifest)
    {
      RecordedElsewhere(t, m, kinds[..i], desired, kinds[i]);
      var output, owned;
      assert Clear(t, files, manifest, desired, kinds[i]) <==> Clear(t, files, m, desired, kinds[i]);
      outcome, output, owned := PrepareKind(t, files, manifest, desired, kinds[i]);
      if !outcome.Synced? { return; }
      PreparedTurn(t, files, m, kinds[..i], desired, outputs, manifest, kinds[i]);
      assert kinds[..i + 1] == kinds[..i] + [kinds[i]];
      outputs, manifest := outputs + [output], manifest.(clients := manifest.clients[Key(kinds[i]) := owned]);
      i := i + 1;
    }
    assert kinds[..i] == kinds;
    outcome := Synced;
  }

  /** A sync recovers, prepares and commits; it leaves exactly the disk of `AfterSync`. */
  method Sync(p: J.Project, root: J.Path, t: Tools, kinds: seq<Kind>, desired: R.Desired) returns (outcome: Outcome)
    requires Distinct(kinds)
    modifies p
    ensures p.View() == AfterSync(t, old(p.View()), kinds, desired, old(p.left))
    ensures outcome.NoClients? <==> kinds == []
    ensures outcome.BadManifest? || outcome.BadDocument? || outcome.Conflict? <==>
            && kinds != []
            && var r := J.RecoverTo(old(p.View()), old(p.left));
               r.journal.None? && !Ready(t, r.files, kinds, desired)
  {
    if kinds == [] { return NoClients; }
    var recovery := p.RecoverJournal();
    match recovery {
      case Stopped => return Stopped;
      case Refused(error) => return BadJournal(error);
      case Done =>
    }
    var m := ReadManifest(t, p.files);
    if m.None? || m.value.version > 1 { return BadManifest; }
    var outputs, manifest;
    outcome, outputs, manifest := PrepareAll(t, p.files, m.value, kinds, desired);
    if !outcome.Synced? { return; }
    outputs := outputs + [J.Output(MANIFEST, t.write(manifest))];
    OutputsAreSafe(t, p.files, kinds, desired);
    AbsoluteIsUnder(root, outputs);
    var ending := p.CommitPrepared(root, Absolute(root, outputs));
    outcome := if ending.Done? then Synced else Stopped;
  }
}
