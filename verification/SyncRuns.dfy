/** Runs of `mcp sync` processes, each cut off anywhere, and of user edits, on one project directory. */
module SyncRuns {
  import opened Base
  import J = Journal
  import R = Reconcile
  import opened McpSync

  // ---------- what a committed sync leaves ----------

  /** The file of every synced client, and the manifest, read back what was written; the rest is as before. */
  lemma CommittedReads(t: Tools, files: Files, kinds: seq<Kind>, desired: R.Desired, k: Kind)
    requires t.Faithful() && Distinct(kinds) && Ready(t, files, kinds, desired)
    ensures var m, after := ReadManifest(t, files).value, J.Overlaid(files, Outputs(t, files, kinds, desired));
            && ReadManifest(t, after) == Some(Recorded(t, m, kinds, desired))
            && ReadDoc(t, after, k) ==
               if k in kinds then Some(DocAfter(t, files, m, desired, k)) else ReadDoc(t, files, k)
  {
    var m, outputs := ReadManifest(t, files).value, Outputs(t, files, kinds, desired);
    J.OverlayHolds(files, outputs, |kinds|);
    if k in kinds {
      var i :| 0 <= i < |kinds| && kinds[i] == k;
      forall j | i < j < |outputs| ensures outputs[j].path != outputs[i].path {
        PlacesDiffer(k, if j < |kinds| then kinds[j] else k);
      }
      J.OverlayHolds(files, outputs, i);
      assert outputs[i] == DocOutput(t, files, m, desired, k);
    } else {
      UnlistedIsUntouched(t, files, kinds, desired, k);
      J.UntouchedOutside(files, outputs);
    }
  }

  lemma UnlistedIsUntouched(t: Tools, files: Files, kinds: seq<Kind>, desired: R.Desired, k: Kind)
    requires Ready(t, files, kinds, desired) && k !in kinds
    ensures ConfigPath(k) !in J.Paths(Outputs(t, files, kinds, desired))
  {
    var outputs := Outputs(t, files, kinds, desired);
    forall o | o in outputs ensures o.path != ConfigPath(k) {
      var i :| 0 <= i < |outputs| && outputs[i] == o;
      PlacesDiffer(k, if i < |kinds| then kinds[i] else k);
    }
  }

  /** The entries a client's configuration and the manifest hold, where both can be read. */
  function Servers(t: Tools, files: Files, k: Kind): map<R.Alias, R.Entry> {
    var doc := ReadDoc(t, files, k);
    if doc.Some? then doc.value.servers else map[]
  }

  function OwnedOf(t: Tools, files: Files, k: Kind): map<R.Alias, R.Hash> {
    var m := ReadManifest(t, files);
    if m.Some? then Owned(m.value, k) else map[]
  }

  /** After a committed sync, a synced client's owned entries are the desired ones and all agree. */
  lemma CommittedAgrees(t: Tools, files: Files, kinds: seq<Kind>, desired: R.Desired, k: Kind)
    requires t.Faithful() && Distinct(kinds) && Ready(t, files, kinds, desired)
    ensures var after := J.Overlaid(files, Outputs(t, files, kinds, desired));
            && ManifestOk(ReadManifest(t, after))
            && (ReadDoc(t, files, k).Some? ==> ReadDoc(t, after, k).Some?)
            && if k in kinds
               then OwnedOf(t, after, k) == R.Hashes(desired, t.For(k).fingerprint)
                    && R.Agrees(Servers(t, after, k), OwnedOf(t, after, k), t.For(k).fingerprint)
               else OwnedOf(t, after, k) == OwnedOf(t, files, k) && Servers(t, after, k) == Servers(t, files, k)
  {
    var m := ReadManifest(t, files).value;
    CommittedReads(t, files, kinds, desired, k);
    RecordedElsewhere(t, m, kinds, desired, k);
    if k in kinds {
      assert Clear(t, files, m, desired, k);
      R.SyncAgrees(Servers(t, files, k), desired, Owned(m, k), t.For(k).fingerprint);
    }
  }

  /**
   * What the user sees afterwards: of a synced client, the desired aliases with the generated fingerprint and every
   * entry that was not owned, as it was; the rest of the document and every other client as before.
   */
  lemma CommittedShows(t: Tools, files: Files, kinds: seq<Kind>, desired: R.Desired, k: Kind)
    requires t.Faithful() && Distinct(kinds) && Ready(t, files, kinds, desired) && ReadDoc(t, files, k).Some?
    ensures var after := J.Overlaid(files, Outputs(t, files, kinds, desired));
            && ReadDoc(t, after, k).Some?
            && var was, now, owned := ReadDoc(t, files, k).value, ReadDoc(t, after, k).value, OwnedOf(t, files, k);
               if k !in kinds then now == was
               else && now.rest == was.rest && now.servers.Keys == (was.servers.Keys - owned.Keys) + desired.Keys
                    && (forall a | a in was.servers && a !in owned :: now.servers[a] == was.servers[a])
                    && (forall a | a in desired ::
                          t.For(k).fingerprint(now.servers[a]) == t.For(k).fingerprint(R.Proxy(desired[a])))
  {
    CommittedReads(t, files, kinds, desired, k);
    if k in kinds {
      var m := ReadManifest(t, files).value;
      assert Clear(t, files, m, desired, k);
      R.SyncedConfiguration(Servers(t, files, k), desired, Owned(m, k), t.For(k).fingerprint);
    }
  }

  // ---------- the same sync again ----------

  lemma {:induction false} RecordedTwice(t: Tools, n: Manifest, kinds: seq<Kind>, desired: R.Desired)
    requires n.version == 1
    requires forall k | k in kinds ::
            Key(k) in n.clients && n.clients[Key(k)] == R.Hashes(desired, t.For(k).fingerprint)
    ensures Recorded(t, n, kinds, desired) == n
  {
    if kinds != [] {
      var i := |kinds| - 1;
      assert kinds == kinds[..i] + [kinds[i]];
      RecordedTwice(t, n, kinds[..i], desired);
      assert n.clients == n.clients[Key(kinds[i]) := R.Hashes(desired, t.For(kinds[i]).fingerprint)];
    }
  }

  lemma {:induction false} RecordedHas(t: Tools, m: Manifest, kinds: seq<Kind>, desired: R.Desired, k: Kind)
    requires k in kinds
    ensures var n := Recorded(t, m, kinds, desired);
            Key(k) in n.clients && n.clients[Key(k)] == R.Hashes(desired, t.For(k).fingerprint)
  {
    var i := |kinds| - 1;
    assert kinds == kinds[..i] + [kinds[i]];
    PlacesDiffer(k, kinds[i]);
    if k != kinds[i] { RecordedHas(t, m, kinds[..i], desired, k); }
  }

  lemma SameDocAgain(t: Tools, files: Files, kinds: seq<Kind>, desired: R.Desired, k: Kind)
    requires t.Faithful() && Distinct(kinds) && Ready(t, files, kinds, desired) && k in kinds
    ensures var m, after := ReadManifest(t, files).value, J.Overlaid(files, Outputs(t, files, kinds, desired));
            var n := Recorded(t, m, kinds, desired);
            && Clear(t, after, n, desired, k)
            && DocOutput(t, after, n, desired, k) == DocOutput(t, files, m, desired, k)
  {
    var m := ReadManifest(t, files).value;
    CommittedReads(t, files, kinds, desired, k);
    CommittedAgrees(t, files, kinds, desired, k);
    assert Clear(t, files, m, desired, k);
    R.AgreedIsQuiet(DocAfter(t, files, m, desired, k).servers, desired, t.For(k).fingerprint);
  }

  lemma SameManifestAgain(t: Tools, m: Manifest, kinds: seq<Kind>, desired: R.Desired, k: Kind)
    ensures var n := Recorded(t, m, kinds, desired); n.version == 1 && Recorded(t, n, kinds, desired) == n
  {
    RecordedElsewhere(t, m, kinds, desired, k);
    forall l | l in kinds
      ensures var n := Recorded(t, m, kinds, desired);
              Key(l) in n.clients && n.clients[Key(l)] == R.Hashes(desired, t.For(l).fingerprint) {
      RecordedHas(t, m, kinds, desired, l);
    }
    RecordedTwice(t, Recorded(t, m, kinds, desired), kinds, desired);
  }

  lemma SameDocsAgain(t: Tools, files: Files, kinds: seq<Kind>, desired: R.Desired)
    requires t.Faithful() && Distinct(kinds) && Ready(t, files, kinds, desired)
    ensures var m, after := ReadManifest(t, files).value, J.Overlaid(files, Outputs(t, files, kinds, desired));
            var n := Recorded(t, m, kinds, desired);
            && (forall k | k in kinds :: Clear(t, after, n, desired, k))
            && Docs(t, after, n, kinds, desired) == Docs(t, files, m, kinds, desired)
  {
    var m, after := ReadManifest(t, files).value, J.Overlaid(files, Outputs(t, files, kinds, desired));
    var n := Recorded(t, m, kinds, desired);
    forall k | k in kinds
      ensures Clear(t, after, n, desired, k)
              && DocOutput(t, after, n, desired, k) == DocOutput(t, files, m, desired, k) {
      SameDocAgain(t, files, kinds, desired, k);
    }
  }

  lemma SameOutputsAgain(t: Tools, files: Files, kinds: seq<Kind>, desired: R.Desired)
    requires t.Faithful() && Distinct(kinds) && kinds != [] && Ready(t, files, kinds, desired)
    ensures var after := J.Overlaid(files, Outputs(t, files, kinds, desired));
            && Ready(t, after, kinds, desired)
            && Outputs(t, after, kinds, desired) == Outputs(t, files, kinds, desired)
  {
    SameManifestAgain(t, ReadManifest(t, files).value, kinds, desired, kinds[0]);
    CommittedReads(t, files, kinds, desired, kinds[0]);
    SameDocsAgain(t, files, kinds, desired);
  }

  /** Committing a sync settles it: the same sync is accepted again, and would write the same bytes. */
  lemma CommittedIsSettled(t: Tools, files: Files, kinds: seq<Kind>, desired: R.Desired)
    requires t.Faithful() && Distinct(kinds) && kinds != [] && Ready(t, files, kinds, desired)
    ensures Settled(t, J.Overlaid(files, Outputs(t, files, kinds, desired)), kinds, desired)
  {
    var outputs := Outputs(t, files, kinds, desired);
    SameOutputsAgain(t, files, kinds, desired);
    assert outputs[..|outputs|] == outputs;
    J.ReplayAbsorbs(files, outputs, |outputs|);
  }

  ghost predicate Settled(t: Tools, files: Files, kinds: seq<Kind>, desired: R.Desired) {
    Ready(t, files, kinds, desired) && J.Overlaid(files, Outputs(t, files, kinds, desired)) == files
  }

  /** Processes of one and the same sync, each cut off anywhere. */
  function Retried(t: Tools, d: J.Disk, kinds: seq<Kind>, desired: R.Desired, lefts: seq<nat>): J.Disk {
    if lefts == [] then d
    else AfterSync(t, Retried(t, d, kinds, desired, lefts[..|lefts| - 1]), kinds, desired, lefts[|lefts| - 1])
  }

  lemma RetryStep(t: Tools, d: J.Disk, kinds: seq<Kind>, desired: R.Desired, left: nat)
    requires J.DiskOk(d) && kinds != [] && Settled(t, J.Meaning(d), kinds, desired)
    ensures var e := AfterSync(t, d, kinds, desired, left);
            && J.DiskOk(e) && J.Meaning(e) == J.Meaning(d)
            && (left >= Pending(d) + |kinds| + 3 ==> e == J.Disk(J.Meaning(d), None))
  {
    RunMeans(t, d, kinds, desired, left);
    J.RecoveryKeepsMeaning(d, left);
  }

  /** The disk operations a pending journal still needs. */
  function Pending(d: J.Disk): nat { if J.Recoverable(d) then |d.journal.value.files| + 1 else 0 }

  lemma {:induction false} RetriesKeepMeaning(t: Tools, d: J.Disk, kinds: seq<Kind>, desired: R.Desired,
      lefts: seq<nat>)
    requires J.DiskOk(d) && kinds != [] && Settled(t, J.Meaning(d), kinds, desired)
    ensures var e := Retried(t, d, kinds, desired, lefts); J.DiskOk(e) && J.Meaning(e) == J.Meaning(d)
  {
    if lefts != [] {
      RetriesKeepMeaning(t, d, kinds, desired, lefts[..|lefts| - 1]);
      RetryStep(t, Retried(t, d, kinds, desired, lefts[..|lefts| - 1]), kinds, desired, lefts[|lefts| - 1]);
    }
  }

  /**
   * Once the journal of a sync has landed, running that sync again any number of times, each cut off anywhere,
   * and then once to the end, gives the files the first run meant, byte for byte; running it once more is quiet.
   */
  lemma RetriesConverge(t: Tools, d: J.Disk, kinds: seq<Kind>, desired: R.Desired, left: nat, lefts: seq<nat>,
      last: nat, again: nat)
    requires t.Faithful() && Distinct(kinds) && kinds != [] && J.DiskOk(d) && Ready(t, J.Meaning(d), kinds, desired)
    requires left > Pending(d)
    requires last >= Pending(Retried(t, AfterSync(t, d, kinds, desired, left), kinds, desired, lefts)) + |kinds| + 3
    ensures var first := AfterSync(t, d, kinds, desired, left);
            var e := AfterSync(t, Retried(t, first, kinds, desired, lefts), kinds, desired, last);
            && e == J.Disk(J.Overlaid(J.Meaning(d), Outputs(t, J.Meaning(d), kinds, desired)), None)
            && J.Meaning(AfterSync(t, e, kinds, desired, again)) == e.files
            && forall k | k in kinds ::
                 var owned, current := OwnedOf(t, e.files, k), R.Current(Servers(t, e.files, k), t.For(k).fingerprint);
                 && R.Removals(desired, owned, current) == {}
                 && R.Puts(desired, owned, current, t.For(k).fingerprint) == {}
  {
    var first := AfterSync(t, d, kinds, desired, left);
    RunMeans(t, d, kinds, desired, left);
    J.RecoveryKeepsMeaning(d, left);
    CommittedIsSettled(t, J.Meaning(d), kinds, desired);
    RetriesKeepMeaning(t, first, kinds, desired, lefts);
    var f := Retried(t, first, kinds, desired, lefts);
    RetryStep(t, f, kinds, desired, last);
    var e := AfterSync(t, f, kinds, desired, last);
    RetryStep(t, e, kinds, desired, again);
    forall k | k in kinds
      ensures var owned, current := OwnedOf(t, e.files, k), R.Current(Servers(t, e.files, k), t.For(k).fingerprint);
              R.Removals(desired, owned, current) == {} && R.Puts(desired, owned, current, t.For(k).fingerprint) == {}
    {
      CommittedAgrees(t, J.Meaning(d), kinds, desired, k);
      R.AgreedIsQuiet(Servers(t, e.files, k), desired, t.For(k).fingerprint);
    }
  }

  // ---------- every run of syncs, crashes and edits ----------

  /** `touched` holds the entries a user changed since the last sync of that client took effect. */
  datatype State = State(disk: J.Disk, touched: set<(Kind, R.Alias)>)

  /** A process cut off after `left` operations, or a user replacing a client's configuration. */
  datatype Step = Run(kinds: seq<Kind>, desired: R.Desired, left: nat) | Edit(kind: Kind, doc: Doc)

  function Changed(k: Kind, was: map<R.Alias, R.Entry>, now: map<R.Alias, R.Entry>): set<(Kind, R.Alias)> {
    set a | a in was.Keys + now.Keys && !(a in was && a in now && was[a] == now[a]) :: (k, a)
  }

  /** A pending journal will replace the file, whatever it holds by then. */
  predicate Doomed(d: J.Disk, path: J.Path) { J.Recoverable(d) && path in J.Paths(d.journal.value.files) }

  predicate TakesEffect(t: Tools, d: J.Disk, kinds: seq<Kind>, desired: R.Desired, left: nat) {
    var r := J.RecoverTo(d, left);
    kinds != [] && r.journal.None? && Ready(t, r.files, kinds, desired) && J.LeftAfter(d, left) > 0
  }

  function Next(t: Tools, s: State, step: Step): State {
    match step
    case Run(kinds, desired, left) =>
      if !Distinct(kinds) then s
      else State(AfterSync(t, s.disk, kinds, desired, left),
                 if TakesEffect(t, s.disk, kinds, desired, left) then set x | x in s.touched && x.0 !in kinds
                 else s.touched)
    case Edit(k, doc) =>
      State(s.disk.(files := s.disk.files[ConfigPath(k) := t.For(k).text(doc)]),
            if Doomed(s.disk, ConfigPath(k)) then s.touched
            else s.touched + Changed(k, Servers(t, s.disk.files, k), doc.servers))
  }

  function Execute(t: Tools, s: State, steps: seq<Step>): State {
    if steps == [] then s else Next(t, Execute(t, s, steps[..|steps| - 1]), steps[|steps| - 1])
  }

  /** Every entry the manifest claims is in the configuration as recorded, unless a user changed it. */
  ghost predicate SoundAt(t: Tools, files: Files, touched: set<(Kind, R.Alias)>, k: Kind) {
    && ReadDoc(t, files, k).Some?
    && var owned, servers := OwnedOf(t, files, k), Servers(t, files, k);
       forall a | a in owned && (k, a) !in touched :: a in servers && t.For(k).fingerprint(servers[a]) == owned[a]
  }

  ghost predicate FilesSound(t: Tools, files: Files, touched: set<(Kind, R.Alias)>) {
    ManifestOk(ReadManifest(t, files)) && SoundAt(t, files, touched, Claude) && SoundAt(t, files, touched, Codex)
  }

  ghost predicate Sound(t: Tools, s: State) { J.DiskOk(s.disk) && FilesSound(t, J.Meaning(s.disk), s.touched) }

  lemma CommitIsSoundAt(t: Tools, files: Files, touched: set<(Kind, R.Alias)>, kinds: seq<Kind>, desired: R.Desired,
      k: Kind)
    requires t.Faithful() && Distinct(kinds) && Ready(t, files, kinds, desired) && SoundAt(t, files, touched, k)
    ensures var rest := set x | x in touched && x.0 !in kinds;
            SoundAt(t, J.Overlaid(files, Outputs(t, files, kinds, desired)), rest, k)
  {
    CommittedAgrees(t, files, kinds, desired, k);
  }

  lemma CommitIsSound(t: Tools, files: Files, touched: set<(Kind, R.Alias)>, kinds: seq<Kind>, desired: R.Desired)
    requires t.Faithful() && Distinct(kinds) && Ready(t, files, kinds, desired) && FilesSound(t, files, touched)
    ensures var rest := set x | x in touched && x.0 !in kinds;
            FilesSound(t, J.Overlaid(files, Outputs(t, files, kinds, desired)), rest)
  {
    CommittedAgrees(t, files, kinds, desired, Claude);
    CommitIsSoundAt(t, files, touched, kinds, desired, Claude);
    CommitIsSoundAt(t, files, touched, kinds, desired, Codex);
  }

  /** What a process makes of the project: nothing, or the whole sync. */
  lemma RunMeans(t: Tools, d: J.Disk, kinds: seq<Kind>, desired: R.Desired, left: nat)
    requires J.DiskOk(d)
    ensures var e := AfterSync(t, d, kinds, desired, left);
            && J.DiskOk(e)
            && (TakesEffect(t, d, kinds, desired, left) ==> Ready(t, J.Meaning(d), kinds, desired))
            && J.Meaning(e) == if TakesEffect(t, d, kinds, desired, left)
                               then J.Overlaid(J.Meaning(d), Outputs(t, J.Meaning(d), kinds, desired))
                               else J.Meaning(d)
  {
    var r := J.RecoverTo(d, left);
    J.RecoveryKeepsMeaning(d, left);
    if kinds != [] && r.journal.None? && Ready(t, r.files, kinds, desired) {
      OutputsAreSafe(t, r.files, kinds, desired);
      J.CommitIsAtomic(r, Outputs(t, r.files, kinds, desired), J.LeftAfter(d, left));
    }
  }

  lemma RunIsSound(t: Tools, s: State, kinds: seq<Kind>, desired: R.Desired, left: nat)
    requires t.Faithful() && Sound(t, s)
    ensures Sound(t, Next(t, s, Run(kinds, desired, left)))
  {
    RunMeans(t, s.disk, kinds, desired, left);
    if Distinct(kinds) && TakesEffect(t, s.disk, kinds, desired, left) {
      CommitIsSound(t, J.Meaning(s.disk), s.touched, kinds, desired);
    }
  }

  /** Outside a pending journal's outputs the files already are what the project means. */
  lemma MeaningOutside(d: J.Disk, path: J.Path)
    requires !Doomed(d, path)
    ensures path in d.files <==> path in J.Meaning(d)
    ensures path in d.files ==> d.files[path] == J.Meaning(d)[path]
  {
    if J.Recoverable(d) { J.UntouchedOutside(d.files, d.journal.value.files); }
  }

  lemma EditedReads(t: Tools, files: Files, k: Kind, doc: Doc, l: Kind)
    requires t.Faithful()
    ensures var after := files[ConfigPath(k) := t.For(k).text(doc)];
            && ReadManifest(t, after) == ReadManifest(t, files)
            && ReadDoc(t, after, l) == if l == k then Some(doc) else ReadDoc(t, files, l)
  {
    PlacesDiffer(k, l);
  }

  lemma EditIsSoundAt(t: Tools, files: Files, touched: set<(Kind, R.Alias)>, k: Kind, doc: Doc, l: Kind)
    requires t.Faithful() && SoundAt(t, files, touched, l)
    ensures SoundAt(t, files[ConfigPath(k) := t.For(k).text(doc)],
              touched + Changed(k, Servers(t, files, k), doc.servers), l)
  {
    EditedReads(t, files, k, doc, l);
    var was := Servers(t, files, k);
    forall a | a in was && (k, a) !in Changed(k, was, doc.servers)
        ensures a in doc.servers && doc.servers[a] == was[a] {
    }
  }

  lemma EditedFilesSound(t: Tools, files: Files, touched: set<(Kind, R.Alias)>, k: Kind, doc: Doc)
    requires t.Faithful() && FilesSound(t, files, touched)
    ensures FilesSound(t, files[ConfigPath(k) := t.For(k).text(doc)],
              touched + Changed(k, Servers(t, files, k), doc.servers))
  {
    EditedReads(t, files, k, doc, k);
    EditIsSoundAt(t, files, touched, k, doc, Claude);
    EditIsSoundAt(t, files, touched, k, doc, Codex);
  }

  lemma EditIsSound(t: Tools, s: State, k: Kind, doc: Doc)
    requires t.Faithful() && Sound(t, s)
    ensures Sound(t, Next(t, s, Edit(k, doc)))
  {
    J.EditMeans(s.disk, ConfigPath(k), t.For(k).text(doc));
    if !Doomed(s.disk, ConfigPath(k)) {
      MeaningOutside(s.disk, ConfigPath(k));
      EditedFilesSound(t, J.Meaning(s.disk), s.touched, k, doc);
    }
  }

  /**
   * However syncs, crashes, recoveries and edits interleave, the project as recovery completes it has a manifest
   * and configurations that can be read and that agree on every claimed entry no user has changed since.
   */
  lemma {:induction false} RunsStaySound(t: Tools, s: State, steps: seq<Step>)
    requires t.Faithful() && Sound(t, s)
    ensures Sound(t, Execute(t, s, steps))
  {
    if steps != [] {
      RunsStaySound(t, s, steps[..|steps| - 1]);
      match steps[|steps| - 1]
      case Run(kinds, desired, left) => RunIsSound(t, Execute(t, s, steps[..|steps| - 1]), kinds, desired, left);
      case Edit(k, doc) => EditIsSound(t, Execute(t, s, steps[..|steps| - 1]), k, doc);
    }
  }

  /** A project no sync has ever visited is sound, as long as its configurations can be read. */
  lemma UnsyncedIsSound(t: Tools, files: Files)
    requires MANIFEST !in files && forall k: Kind :: ReadDoc(t, files, k).Some?
    ensures Sound(t, State(J.Disk(files, None), {}))
  {}

  /** Nobody changed an entry the manifest claims for one of these clients. */
  ghost predicate Unedited(t: Tools, s: State, kinds: seq<Kind>) {
    forall x | x in s.touched && x.0 in kinds :: x.1 !in OwnedOf(t, J.Meaning(s.disk), x.0)
  }

  /** No desired name is taken by an entry the manifest does not claim. */
  ghost predicate NoStrangers(t: Tools, files: Files, desired: R.Desired, k: Kind) {
    forall a | a in desired && a in Servers(t, files, k) :: a in OwnedOf(t, files, k)
  }

  lemma ClearUnlessStrangers(t: Tools, files: Files, touched: set<(Kind, R.Alias)>, desired: R.Desired, k: Kind)
    requires ManifestOk(ReadManifest(t, files)) && SoundAt(t, files, touched, k)
    requires forall x | x in touched && x.0 == k :: x.1 !in OwnedOf(t, files, k)
    ensures Clear(t, files, ReadManifest(t, files).value, desired, k) <==> NoStrangers(t, files, desired, k)
  {
    R.AgreedIsUntampered(Servers(t, files, k), desired, OwnedOf(t, files, k), t.For(k).fingerprint);
  }

  /**
   * So, after any run, a sync of clients whose claimed entries nobody changed is refused exactly when a desired
   * name is taken by an entry the manifest does not claim.
   */
  lemma RefusedOnlyForStrangers(t: Tools, s: State, steps: seq<Step>, kinds: seq<Kind>, desired: R.Desired)
    requires t.Faithful() && Sound(t, s) && Unedited(t, Execute(t, s, steps), kinds)
    ensures var files := J.Meaning(Execute(t, s, steps).disk);
            Ready(t, files, kinds, desired) <==> forall k | k in kinds :: NoStrangers(t, files, desired, k)
  {
    RunsStaySound(t, s, steps);
    var e := Execute(t, s, steps);
    forall k | k in kinds
      ensures Clear(t, J.Meaning(e.disk), ReadManifest(t, J.Meaning(e.disk)).value, desired, k) <==>
              NoStrangers(t, J.Meaning(e.disk), desired, k) {
      assert SoundAt(t, J.Meaning(e.disk), e.touched, k);
      ClearUnlessStrangers(t, J.Meaning(e.disk), e.touched, desired, k);
    }
  }

  /**
   * An edit counts exactly when no pending journal is about to replace that client's configuration: made between
   * a crash and its recovery, it is overwritten by what the crashed sync had decided.
   */
  lemma EditIsKeptUnlessDoomed(t: Tools, s: State, k: Kind, doc: Doc)
    requires t.Faithful()
    ensures ReadDoc(t, J.Meaning(Next(t, s, Edit(k, doc)).disk), k) ==
            if Doomed(s.disk, ConfigPath(k)) then ReadDoc(t, J.Meaning(s.disk), k) else Some(doc)
  {
    J.EditMeans(s.disk, ConfigPath(k), t.For(k).text(doc));
    EditedReads(t, J.Meaning(s.disk), k, doc, k);
  }
}
