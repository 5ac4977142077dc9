/**
 * The crash-recoverable multi-file commit of `mcp sync` (crates/agent-scale/src/mcp_sync.rs). Every file
 * replacement is an atomic rename, so a crash or an I/O error shows as a number of replacements that landed.
 */
module Journal {
  import opened Base

  type Bytes = seq<bv8>

  datatype Component = Normal(name: string) | ParentDir | CurDir | RootDir

  type Path = seq<Component>

  datatype Output = Output(path: Path, bytes: Bytes)

  datatype JournalDoc = Unreadable | Document(version: nat, files: seq<Output>)

  /** The project as it lies on disk; paths are relative to the project root. */
  datatype Disk = Disk(files: map<Path, Bytes>, journal: Option<JournalDoc>)

  datatype SyncError = EscapedRoot | UnsafePath | BadJournal | BadVersion

  datatype Ending = Done | Stopped | Refused(error: SyncError)

  predicate SafePath(path: Path) { path != [] && forall part | part in path :: part.Normal? }

  /** Where a path leads from a directory; the root's parent is the root. */
  function Resolved(at: seq<string>, path: Path): seq<string>
    decreases |path|
  {
    if path == [] then at
    else
      var next := match path[0]
        case Normal(name) => at + [name]
        case ParentDir => if at == [] then at else at[..|at| - 1]
        case CurDir => at
        case RootDir => [];
      Resolved(next, path[1..])
  }

  /** A safe path leads strictly below wherever it starts, one level per component. */
  lemma {:induction false} SafePathsStayBelow(root: seq<string>, path: Path)
    requires SafePath(path)
    ensures root < Resolved(root, path) && |Resolved(root, path)| == |root| + |path|
    decreases |path|
  {
    assert path[0] in path;
    var next := root + [path[0].name];
    if |path| > 1 {
      assert forall part | part in path[1..] :: part in path;
      SafePathsStayBelow(next, path[1..]);
    }
  }

  /** And only safe paths do so wherever they start: any other stays, climbs, or forgets where it started. */
  lemma {:induction false} UnsafePathsDoNot(root: seq<string>, path: Path)
    requires !SafePath(path)
    ensures |Resolved(root, path)| != |root| + |path| || path == []
    decreases |path|
  {
    if path != [] { ShorterUnlessNormal(root, path); }
  }

  lemma {:induction false} ShorterUnlessNormal(at: seq<string>, path: Path)
    ensures |Resolved(at, path)| <= |at| + |path|
    ensures |Resolved(at, path)| == |at| + |path| ==> forall part | part in path :: part.Normal?
    decreases |path|
  {
    if path != [] {
      var next := match path[0]
        case Normal(name) => at + [name]
        case ParentDir => if at == [] then at else at[..|at| - 1]
        case CurDir => at
        case RootDir => [];
      ShorterUnlessNormal(next, path[1..]);
      assert path == [path[0]] + path[1..];
    }
  }

  predicate AllSafe(files: seq<Output>) { forall f | f in files :: SafePath(f.path) }

  function Paths(files: seq<Output>): set<Path> { set f | f in files :: f.path }

  /** The files after writing every output, in order. */
  function Overlaid(files: map<Path, Bytes>, outputs: seq<Output>): map<Path, Bytes> {
    if outputs == [] then files
    else
      var last := outputs[|outputs| - 1];
      Overlaid(files, outputs[..|outputs| - 1])[last.path := last.bytes]
  }

  /** How many outputs come before the first unsafe path. */
  function SafePrefix(outputs: seq<Output>): (n: nat)
    ensures n <= |outputs| && AllSafe(outputs[..n])
    ensures n == |outputs| || !SafePath(outputs[n].path)
  {
    if outputs == [] || !SafePath(outputs[0].path) then 0
    else
      var n := SafePrefix(outputs[1..]);
      assert outputs[..1 + n] == [outputs[0]] + outputs[1..][..n];
      1 + n
  }

  predicate Recoverable(d: Disk) { d.journal.Some? && d.journal.value.Document? && d.journal.value.version == 1 }

  /** `recover_journal`, cut off after `k` disk operations. */
  function RecoverTo(d: Disk, k: nat): Disk {
    if !Recoverable(d) then d
    else
      var outputs := d.journal.value.files;
      var safe := SafePrefix(outputs);
      if k <= safe then d.(files := Overlaid(d.files, outputs[..k]))
      else if safe < |outputs| then d.(files := Overlaid(d.files, outputs[..safe]))
      else Disk(Overlaid(d.files, outputs), None)
  }

  /** How many of `k` disk operations a completed recovery leaves. */
  function LeftAfter(d: Disk, k: nat): nat {
    if Recoverable(d) && k > |d.journal.value.files| then k - |d.journal.value.files| - 1 else k
  }

  /** `commit_prepared` on safe outputs, cut off after `k` disk operations. */
  function CommitTo(d: Disk, outputs: seq<Output>, k: nat): Disk {
    if k == 0 then d
    else if k <= |outputs| + 1 then Disk(Overlaid(d.files, outputs[..k - 1]), Some(Document(1, outputs)))
    else Disk(Overlaid(d.files, outputs), None)
  }

  /** A project directory; `left` is the number of disk operations that still land before the process dies. */
  class Project {
    var files: map<Path, Bytes>
    var journal: Option<JournalDoc>
    var left: nat

    ghost function View(): Disk reads this { Disk(files, journal) }

    method WriteIfChanged(path: Path, bytes: Bytes) returns (landed: bool)
      modifies this`files, this`left
      ensures landed == (old(left) > 0) && left == (if landed then old(left) - 1 else 0)
      ensures files == if landed then old(files)[path := bytes] else old(files)
    {
      if left == 0 { return false; }
      left := left - 1;
      if path in files && files[path] == bytes {
        assert files == files[path := bytes];
        return true;
      }
      files := files[path := bytes];
      return true;
    }

    method ApplyJournal(outputs: seq<Output>) returns (ending: Ending)
      modifies this`files, this`left
      ensures var safe := SafePrefix(outputs);
              && (ending.Done? <==> safe == |outputs| && old(left) >= safe)
              && (ending.Refused? <==> safe < |outputs| && old(left) >= safe)
              && (ending.Refused? ==> ending.error == UnsafePath)
              && files == Overlaid(old(files), outputs[..if old(left) <= safe then old(left) else safe])
              && left == (if old(left) <= safe then 0 else old(left) - safe)
    {
      ghost var safe := SafePrefix(outputs);
      var i := 0;
      while i < |outputs|
        invariant 0 <= i <= safe && i <= old(left)
        invariant files == Overlaid(old(files), outputs[..i]) && left == old(left) - i
      {
        if !SafePath(outputs[i].path) {
          SafePrefixIsFirst(outputs, i);
          return Refused(UnsafePath);
        }
        SafePrefixIsFirst(outputs, i);
        var landed := WriteIfChanged(outputs[i].path, outputs[i].bytes);
        if !landed { return Stopped; }
        assert outputs[..i + 1][..i] == outputs[..i];
        i := i + 1;
      }
      assert outputs[..i] == outputs;
      return Done;
    }

    /** Absent journals are success; a journal that cannot be read, or is of another version, changes nothing. */
    method RecoverJournal() returns (ending: Ending)
      modifies this
      ensures View() == RecoverTo(old(View()), old(left))
      ensures ending.Done? <==> journal == None
      ensures ending.Done? ==> left == LeftAfter(old(View()), old(left))
      ensures old(journal).None? ==> ending == Done
      ensures ending.Refused? ==> journal == old(journal) && journal.Some?
    {
      if journal.None? { return Done; }
      match journal.value {
        case Unreadable => return Refused(BadJournal);
        case Document(version, outputs) =>
          if version != 1 { return Refused(BadVersion); }
          ending := ApplyJournal(outputs);
          if !ending.Done? { return ending; }
          assert outputs[..|outputs|] == outputs;
          if left == 0 { return Stopped; }
          left := left - 1;
          journal := None;
      }
    }

    /** Nothing is written unless every output lies safely below the root. `prepared` holds absolute paths. */
    method CommitPrepared(root: Path, prepared: seq<Output>) returns (ending: Ending)
      modifies this
      ensures ending.Refused? <==> !(forall f | f in prepared :: root <= f.path && SafePath(f.path[|root|..]))
      ensures ending.Refused? ==> View() == old(View())
      ensures !ending.Refused? ==>
                && AllSafe(Relative(root, prepared))
                && View() == CommitTo(old(View()), Relative(root, prepared), old(left))
                && (ending.Done? <==> old(left) >= |prepared| + 2)
    {
      var outputs: seq<Output> := [];
      var i := 0;
      while i < |prepared|
        invariant 0 <= i <= |prepared| && View() == old(View()) && left == old(left)
        invariant forall f | f in prepared[..i] :: root <= f.path && SafePath(f.path[|root|..])
        invariant outputs == Relative(root, prepared[..i]) && AllSafe(outputs)
      {
        if !(root <= prepared[i].path) { return Refused(EscapedRoot); }
        var relative := prepared[i].path[|root|..];
        if !SafePath(relative) { return Refused(UnsafePath); }
        outputs := outputs + [Output(relative, prepared[i].bytes)];
        assert prepared[..i + 1] == prepared[..i] + [prepared[i]];
        i := i + 1;
      }
      assert prepared[..i] == prepared;
      if left == 0 { return Stopped; }
      left := left - 1;
      journal := Some(Document(1, outputs));
      AllSafePrefix(outputs);
      ending := ApplyJournal(outputs);
      assert outputs[..|outputs|] == outputs;
      if !ending.Done? { return ending; }
      if left == 0 { return Stopped; }
      left := left - 1;
      journal := None;
    }
  }

  function Relative(root: Path, prepared: seq<Output>): (r: seq<Output>)
    ensures |r| == |prepared|
  {
    seq(|prepared|, i requires 0 <= i < |prepared| =>
      if root <= prepared[i].path then Output(prepared[i].path[|root|..], prepared[i].bytes) else prepared[i])
  }

  lemma {:induction false} SafePrefixIsFirst(outputs: seq<Output>, i: nat)
    requires i < |outputs| && i <= SafePrefix(outputs)
    ensures SafePath(outputs[i].path) <==> i < SafePrefix(outputs)
  {
    if i < SafePrefix(outputs) { assert outputs[i] in outputs[..SafePrefix(outputs)]; }
  }

  lemma AllSafePrefix(outputs: seq<Output>)
    requires AllSafe(outputs)
    ensures SafePrefix(outputs) == |outputs|
  {}

  // ---------- what an overlay depends on ----------

  /** Outside the written paths the overlay changes nothing; inside, the old contents do not matter. */
  lemma {:induction false} OverlayForgets(f: map<Path, Bytes>, g: map<Path, Bytes>, outputs: seq<Output>)
    requires f - Paths(outputs) == g - Paths(outputs)
    ensures Overlaid(f, outputs) == Overlaid(g, outputs)
  {
    UntouchedOutside(f, outputs);
    UntouchedOutside(g, outputs);
    assert f.Keys + Paths(outputs) == (f - Paths(outputs)).Keys + Paths(outputs) == g.Keys + Paths(outputs);
    forall p | p in Overlaid(f, outputs) ensures Overlaid(f, outputs)[p] == Overlaid(g, outputs)[p] {
      if p in Paths(outputs) {
        WrittenInside(f, g, outputs, p);
      } else {
        assert p in f - Paths(outputs) && p in g - Paths(outputs) && (f - Paths(outputs))[p] == (g - Paths(outputs))[p];
      }
    }
  }

  lemma {:induction false} WrittenInside(f: map<Path, Bytes>, g: map<Path, Bytes>, outputs: seq<Output>, p: Path)
    requires p in Paths(outputs)
    ensures p in Overlaid(f, outputs) && p in Overlaid(g, outputs) && Overlaid(f, outputs)[p] == Overlaid(g, outputs)[p]
  {
    var n := |outputs| - 1;
    if outputs[n].path != p {
      assert outputs == outputs[..n] + [outputs[n]];
      WrittenInside(f, g, outputs[..n], p);
    }
  }

  lemma {:induction false} UntouchedOutside(f: map<Path, Bytes>, outputs: seq<Output>)
    ensures Overlaid(f, outputs).Keys == f.Keys + Paths(outputs)
    ensures forall p | p in f && p !in Paths(outputs) :: Overlaid(f, outputs)[p] == f[p]
  {
    if outputs != [] {
      var n := |outputs| - 1;
      assert outputs == outputs[..n] + [outputs[n]];
      assert Paths(outputs) == Paths(outputs[..n]) + {outputs[n].path};
      UntouchedOutside(f, outputs[..n]);
    }
  }

  /** A path written once holds what was written there. */
  lemma {:induction false} OverlayHolds(f: map<Path, Bytes>, outputs: seq<Output>, i: nat)
    requires i < |outputs| && forall j | i < j < |outputs| :: outputs[j].path != outputs[i].path
    ensures outputs[i].path in Overlaid(f, outputs) && Overlaid(f, outputs)[outputs[i].path] == outputs[i].bytes
  {
    if i < |outputs| - 1 { OverlayHolds(f, outputs[..|outputs| - 1], i); }
  }

  /** Replaying the whole journal over any partial replay gives the complete result. */
  lemma ReplayAbsorbs(f: map<Path, Bytes>, outputs: seq<Output>, k: nat)
    requires k <= |outputs|
    ensures Overlaid(Overlaid(f, outputs[..k]), outputs) == Overlaid(f, outputs)
  {
    UntouchedOutside(f, outputs[..k]);
    assert Paths(outputs[..k]) <= Paths(outputs) by {
      forall p | p in Paths(outputs[..k]) ensures p in Paths(outputs) {
        var o :| o in outputs[..k] && o.path == p;
        assert o in outputs;
      }
    }
    OverlayForgets(Overlaid(f, outputs[..k]), f, outputs);
  }

  // ---------- every run is atomic ----------

  /** One process: a recovery, or a commit by a process whose recovery found no journal left. */
  datatype Attempt = Recover(k: nat) | Commit(outputs: seq<Output>, k: nat)

  function Next(d: Disk, a: Attempt): Disk {
    match a
    case Recover(k) => RecoverTo(d, k)
    case Commit(outputs, k) => if d.journal.None? && AllSafe(outputs) then CommitTo(d, outputs, k) else d
  }

  function Execute(d: Disk, attempts: seq<Attempt>): Disk {
    if attempts == [] then d else Next(Execute(d, attempts[..|attempts| - 1]), attempts[|attempts| - 1])
  }

  /** What the project means: its files with a pending journal carried out. */
  function Meaning(d: Disk): map<Path, Bytes> {
    if Recoverable(d) then Overlaid(d.files, d.journal.value.files) else d.files
  }

  /** A commit takes effect exactly when its journal has landed. */
  predicate Lands(d: Disk, a: Attempt) { a.Commit? && d.journal.None? && AllSafe(a.outputs) && a.k > 0 }

  /** The commits of a run that landed, in order. */
  function Landed(d: Disk, attempts: seq<Attempt>): seq<seq<Output>> {
    if attempts == [] then []
    else
      var before := attempts[..|attempts| - 1];
      var a := attempts[|attempts| - 1];
      if Lands(Execute(d, before), a) then Landed(d, before) + [a.outputs] else Landed(d, before)
  }

  /** Whole commits, one after another, with nothing in between. */
  function Atomically(files: map<Path, Bytes>, commits: seq<seq<Output>>): map<Path, Bytes> {
    if commits == [] then files else Overlaid(Atomically(files, commits[..|commits| - 1]), commits[|commits| - 1])
  }

  ghost predicate DiskOk(d: Disk) { d.journal.Some? ==> Recoverable(d) && AllSafe(d.journal.value.files) }

  lemma RecoveryKeepsMeaning(d: Disk, k: nat)
    requires DiskOk(d)
    ensures DiskOk(RecoverTo(d, k)) && Meaning(RecoverTo(d, k)) == Meaning(d)
    ensures d.journal.Some? && k > |d.journal.value.files| ==> RecoverTo(d, k) == Disk(Meaning(d), None)
  {
    if Recoverable(d) {
      var outputs := d.journal.value.files;
      AllSafePrefix(outputs);
      if k <= |outputs| { ReplayAbsorbs(d.files, outputs, k); }
    }
  }

  lemma CommitIsAtomic(d: Disk, outputs: seq<Output>, k: nat)
    requires d.journal.None? && AllSafe(outputs)
    ensures DiskOk(CommitTo(d, outputs, k))
    ensures Meaning(CommitTo(d, outputs, k)) == if k == 0 then d.files else Overlaid(d.files, outputs)
  {
    if 0 < k <= |outputs| + 1 { ReplayAbsorbs(d.files, outputs, k - 1); }
  }

  /**
   * Every run of commits and recoveries, each cut off anywhere, means the same as the landed commits
   * performed whole. With no journal left, the files themselves are that result.
   */
  lemma {:induction false} EveryRunIsAtomic(d: Disk, attempts: seq<Attempt>)
    requires DiskOk(d)
    ensures var e := Execute(d, attempts);
            && DiskOk(e) && Meaning(e) == Atomically(Meaning(d), Landed(d, attempts))
            && (e.journal.None? ==> e.files == Atomically(Meaning(d), Landed(d, attempts)))
  {
    if attempts != [] {
      var before := attempts[..|attempts| - 1];
      EveryRunIsAtomic(d, before);
      var e := Execute(d, before);
      match attempts[|attempts| - 1]
      case Recover(k) => RecoveryKeepsMeaning(e, k);
      case Commit(outputs, k) =>
        if e.journal.None? && AllSafe(outputs) {
          CommitIsAtomic(e, outputs, k);
          if k > 0 { assert (Landed(d, before) + [outputs])[..|Landed(d, before)|] == Landed(d, before); }
        }
    }
  }

  lemma {:induction false} RecoveriesCommitNothing(d: Disk, attempts: seq<Attempt>)
    requires forall a | a in attempts :: a.Recover?
    ensures Landed(d, attempts) == []
  {
    if attempts != [] {
      assert attempts[|attempts| - 1] in attempts;
      RecoveriesCommitNothing(d, attempts[..|attempts| - 1]);
    }
  }

  /**
   * A commit cut off anywhere, then any number of recoveries cut off anywhere, then one that completes:
   * all outputs are old or all are new, no other file changed, and a further recovery does nothing.
   */
  lemma CrashesAreAllOrNothing(d: Disk, outputs: seq<Output>, k: nat, crashes: seq<Attempt>, last: nat, again: nat)
    requires d.journal.None? && AllSafe(outputs) && last > |outputs|
    requires forall a | a in crashes :: a.Recover?
    ensures var e := RecoverTo(Execute(CommitTo(d, outputs, k), crashes), last);
            && e == Disk(if k == 0 then d.files else Overlaid(d.files, outputs), None)
            && RecoverTo(e, again) == e
            && forall p | p !in Paths(outputs) ::
                 (p in e.files <==> p in d.files) && (p in d.files ==> e.files[p] == d.files[p])
  {
    var c := CommitTo(d, outputs, k);
    CommitIsAtomic(d, outputs, k);
    EveryRunIsAtomic(c, crashes);
    RecoveriesCommitNothing(c, crashes);
    JournalsDoNotGrow(c, crashes, |outputs|);
    RecoveryKeepsMeaning(Execute(c, crashes), last);
    UntouchedOutside(d.files, outputs);
  }

  lemma {:induction false} JournalsDoNotGrow(d: Disk, crashes: seq<Attempt>, n: nat)
    requires forall a | a in crashes :: a.Recover?
    requires Recoverable(d) ==> |d.journal.value.files| <= n
    ensures var e := Execute(d, crashes); Recoverable(e) ==> |e.journal.value.files| <= n
  {
    if crashes != [] { JournalsDoNotGrow(d, crashes[..|crashes| - 1], n); }
  }

  // ---------- edits while a journal is pending ----------

  lemma OverlayEdited(f: map<Path, Bytes>, outputs: seq<Output>, path: Path, bytes: Bytes)
    ensures Overlaid(f[path := bytes], outputs) ==
            if path in Paths(outputs) then Overlaid(f, outputs) else Overlaid(f, outputs)[path := bytes]
  {
    if path in Paths(outputs) {
      assert f[path := bytes] - Paths(outputs) == f - Paths(outputs);
      OverlayForgets(f[path := bytes], f, outputs);
    } else {
      WriteOutside(f, outputs, path, bytes);
    }
  }

  lemma {:induction false} WriteOutside(f: map<Path, Bytes>, outputs: seq<Output>, path: Path, bytes: Bytes)
    requires path !in Paths(outputs)
    ensures Overlaid(f[path := bytes], outputs) == Overlaid(f, outputs)[path := bytes]
  {
    if outputs != [] {
      var init, last := outputs[..|outputs| - 1], outputs[|outputs| - 1];
      assert outputs == init + [last] && last in outputs;
      assert forall o | o in init :: o in outputs;
      WriteOutside(f, init, path, bytes);
      assert last.path != path;
    }
  }

  /**
   * An edit made between a crash and its recovery survives exactly when its file is not among the outputs:
   * recovery overwrites outputs, whatever they hold by then, and touches nothing else.
   */
  lemma EditMeans(d: Disk, path: Path, bytes: Bytes)
    ensures var e := d.(files := d.files[path := bytes]);
            Meaning(e) == if Recoverable(d) && path in Paths(d.journal.value.files) then Meaning(d)
                          else Meaning(d)[path := bytes]
  {
    if Recoverable(d) { OverlayEdited(d.files, d.journal.value.files, path, bytes); }
  }
}
