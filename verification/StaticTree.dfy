/** A tree that nobody touches: the witnesses a walk collects keep standing, at any later tick. */
module StaticTree {
  import opened Wrappers
  import opened Paths
  import opened FileTree

  /** Nothing changes, and the root can be used: it is safe and can always be cloned. */
  ghost predicate Unmoved(fs: Fs) {
    && fs.Static() && (forall t :: fs.clones(t))
    && fs.stat(0, fs.root).Some? && fs.Safe(fs.stat(0, fs.root).value) && fs.denies(0, fs.root)
  }

  /** The directory below the root that safe, unchanged directories lead to. */
  function Chain(fs: Fs, comps: seq<Name>): Option<Handle> {
    if comps == [] then Some(fs.root)
    else
      match Chain(fs, comps[..|comps| - 1])
      case None => None
      case Some(dir) => Below(fs, dir, comps[|comps| - 1])
  }

  function Below(fs: Fs, dir: Handle, name: Name): Option<Handle> {
    match fs.lookup(0, dir, name)
    case Found(meta) =>
      if meta.kind.Directory? && fs.CheckedOpen(0, dir, name, meta).Ok?
      then Some(fs.CheckedOpen(0, dir, name, meta).value) else None
    case _ => None
  }

  ghost predicate PrefixesIn(comps: seq<Name>, count: nat, dirs: map<string, DirectoryWitness>)
    requires count <= |comps| + 1
  {
    forall k | 0 <= k < count :: Under("", comps[..k]) in dirs
  }

  /** The witness of a directory says what the tree says. */
  ghost predicate SolidDirectory(fs: Fs, dirs: map<string, DirectoryWitness>, relative: string, comps: seq<Name>) {
    && relative == Under("", comps) && relative in dirs && PrefixesIn(comps, |comps|, dirs)
    && Chain(fs, comps).Some?
    && var dir := Chain(fs, comps).value;
       && fs.stat(0, dir) == Some(dirs[relative].meta) && fs.Safe(dirs[relative].meta)
       && (if comps == [] then dirs[relative].markers == None
           else fs.MarkersAt(0, dir).Ok? && dirs[relative].markers == Some(fs.MarkersAt(0, dir).value))
  }

  ghost predicate SolidFile(fs: Fs, dirs: map<string, DirectoryWitness>, file: FileWitness, comps: seq<Name>, name: Name) {
    && file.locator == Scope(Under("", comps + [name])) && PrefixesIn(comps, |comps| + 1, dirs)
    && Chain(fs, comps).Some?
    && var dir := Chain(fs, comps).value;
       file.meta.kind.Regular? && fs.lookup(0, dir, name) == Found(file.meta) && fs.CheckedOpen(0, dir, name, file.meta).Ok?
  }

  ghost predicate SolidFor(fs: Fs, dirs: map<string, DirectoryWitness>, file: FileWitness) {
    exists comps: seq<Name>, name: Name :: SolidFile(fs, dirs, file, comps, name)
  }

  ghost predicate SolidAt(fs: Fs, dirs: map<string, DirectoryWitness>, relative: string) {
    exists comps: seq<Name> :: SolidDirectory(fs, dirs, relative, comps)
  }

  ghost predicate AllSolid(fs: Fs, dirs: map<string, DirectoryWitness>, files: seq<FileWitness>) {
    && (forall d | d in dirs :: SolidAt(fs, dirs, d))
    && (forall f | f in files :: SolidFor(fs, dirs, f))
  }

  /** On an untouched tree nothing was withdrawn and every witness is solid. */
  ghost predicate Solid(fs: Fs, dirs: map<string, DirectoryWitness>, files: seq<FileWitness>, changed: bool, completed: bool) {
    Unmoved(fs) ==> !changed && completed && AllSolid(fs, dirs, files)
  }

  /** A visit stands on witnessed directories; `count` of them are recorded. */
  ghost predicate Standing(fs: Fs, dirs: map<string, DirectoryWitness>, dir: Handle, comps: seq<Name>, count: nat) {
    Unmoved(fs) ==> Chain(fs, comps) == Some(dir) && count <= |comps| + 1 && PrefixesIn(comps, count, dirs)
  }

  // ---- answers do not depend on the tick ----

  lemma CheckedOpenStatic(fs: Fs, t: nat, dir: Handle, name: string, meta: Meta)
    requires fs.Static()
    ensures fs.CheckedOpen(t, dir, name, meta) == fs.CheckedOpen(0, dir, name, meta)
  {
    assert fs.open(t, dir, name) == fs.open(0, dir, name);
    if fs.open(0, dir, name).Some? {
      var file := fs.open(0, dir, name).value;
      assert fs.stat(t + 1, file) == fs.stat(0, file) && fs.stat(0 + 1, file) == fs.stat(0, file);
      assert fs.lookup(t + 2, dir, name) == fs.lookup(0, dir, name) && fs.lookup(0 + 2, dir, name) == fs.lookup(0, dir, name);
      assert fs.denies(t + 3, file) == fs.denies(0, file) && fs.denies(0 + 3, file) == fs.denies(0, file);
    }
  }

  lemma MarkerStatic(fs: Fs, t: nat, u: nat, dir: Handle, name: string)
    requires fs.Static()
    ensures fs.MarkerAt(t, dir, name) == fs.MarkerAt(u, dir, name)
    ensures fs.MarkerAt(t, dir, name).Ok? && fs.MarkerAt(t, dir, name).value.Present? ==> fs.Safe(fs.MarkerAt(t, dir, name).value.meta)
  {
    hide Fs.CheckedOpen;
    assert fs.lookup(t, dir, name) == fs.lookup(0, dir, name) && fs.lookup(u, dir, name) == fs.lookup(0, dir, name);
    if fs.lookup(0, dir, name).Found? {
      CheckedOpenStatic(fs, t + 1, dir, name, fs.lookup(0, dir, name).meta);
      CheckedOpenStatic(fs, u + 1, dir, name, fs.lookup(0, dir, name).meta);
    }
  }

  lemma MarkersStatic(fs: Fs, t: nat, dir: Handle)
    requires fs.Static()
    ensures fs.MarkersAt(t, dir) == fs.MarkersAt(0, dir)
    ensures fs.MarkersAt(t, dir).Ok? ==> fs.MarkersSame(fs.MarkersAt(t, dir).value, fs.MarkersAt(t, dir).value)
  {
    hide Fs.MarkerAt;
    MarkerStatic(fs, t, 0, dir, ".gdignore");
    MarkerStatic(fs, t + 5, 5, dir, "project.godot");
  }

  lemma OpenedIsSafe(fs: Fs, dir: Handle, name: string, meta: Meta)
    requires fs.Static() && fs.CheckedOpen(0, dir, name, meta).Ok? && fs.lookup(0, dir, name) == Found(meta)
    ensures var h := fs.CheckedOpen(0, dir, name, meta).value;
            fs.stat(0, h).Some? && fs.Safe(fs.stat(0, h).value) && fs.Same(fs.stat(0, h).value, meta) && fs.Same(meta, meta)
  {
    var h := fs.CheckedOpen(0, dir, name, meta).value;
    assert fs.stat(0 + 1, h) == fs.stat(0, h) && fs.lookup(0 + 2, dir, name) == fs.lookup(0, dir, name);
  }

  // ---- reopening ----

  lemma {:induction false} ChainPrefix(fs: Fs, comps: seq<Name>, k: nat)
    requires k <= |comps| && Chain(fs, comps).Some?
    ensures Chain(fs, comps[..k]).Some?
  {
    if k < |comps| {
      ChainPrefix(fs, comps[..|comps| - 1], k);
      assert comps[..|comps| - 1][..k] == comps[..k];
    } else {
      assert comps[..k] == comps;
    }
  }

  /** The witness recorded under a path is the one of that path. */
  lemma WitnessOf(fs: Fs, dirs: map<string, DirectoryWitness>, comps: seq<Name>)
    requires AllSolid(fs, dirs, []) && Under("", comps) in dirs
    ensures SolidDirectory(fs, dirs, Under("", comps), comps)
  {
    hide SolidDirectory, Under;
    assert SolidAt(fs, dirs, Under("", comps));
    var other: seq<Name> :| SolidDirectory(fs, dirs, Under("", comps), other);
    SolidNamed(fs, dirs, Under("", comps), other);
    UnderInjective(comps, other);
  }

  lemma SolidNamed(fs: Fs, dirs: map<string, DirectoryWitness>, relative: string, comps: seq<Name>)
    requires SolidDirectory(fs, dirs, relative, comps)
    ensures relative == Under("", comps)
  {
  }

  lemma SolidAlone(fs: Fs, dirs: map<string, DirectoryWitness>, files: seq<FileWitness>)
    requires AllSolid(fs, dirs, files)
    ensures AllSolid(fs, dirs, [])
  {
  }

  lemma StepSolid(fs: Fs, t: nat, dirs: map<string, DirectoryWitness>, comps: seq<Name>)
    requires Unmoved(fs) && comps != [] && SolidDirectory(fs, dirs, Under("", comps), comps)
    requires Chain(fs, comps[..|comps| - 1]).Some?
    ensures fs.Step(t, dirs, Chain(fs, comps[..|comps| - 1]).value, Under("", comps), comps[|comps| - 1]) == Ok(Chain(fs, comps).value)
  {
    hide Under, Fs.CheckedOpen, Fs.MarkersAt, Fs.MarkersSame, PrefixesIn;
    var dir, name := Chain(fs, comps[..|comps| - 1]).value, comps[|comps| - 1];
    var meta := fs.lookup(0, dir, name).meta;
    var below := Chain(fs, comps).value;
    assert fs.lookup(t, dir, name) == fs.lookup(0, dir, name);
    CheckedOpenStatic(fs, t + 1, dir, name, meta);
    OpenedIsSafe(fs, dir, name, meta);
    MarkersStatic(fs, t + 5, below);
    MarkersStatic(fs, 0, below);
  }

  lemma {:induction false} DescendSolid(fs: Fs, t: nat, dirs: map<string, DirectoryWitness>, comps: seq<Name>, k: nat)
    requires Unmoved(fs) && AllSolid(fs, dirs, []) && k <= |comps| && PrefixesIn(comps, |comps| + 1, dirs)
    requires Chain(fs, comps).Some? && Chain(fs, comps[..k]).Some?
    ensures fs.Descend(t, dirs, Chain(fs, comps[..k]).value, Under("", comps[..k]), comps[k..]) == Ok(Chain(fs, comps).value)
    decreases |comps| - k
  {
    hide Fs.Step, SolidDirectory, AllSolid, Under, Unmoved, Chain;
    if k == |comps| {
      assert comps[..k] == comps;
    } else {
      var next := comps[..k + 1];
      assert next[..k] == comps[..k] && next[k] == comps[k] && comps[k..][0] == comps[k] && comps[k..][1..] == comps[k + 1..];
      ChainPrefix(fs, comps, k + 1);
      assert Under("", next) in dirs;
      WitnessOf(fs, dirs, next);
      assert next == comps[..k] + [comps[k]];
      ParentUnder(comps[..k], comps[k]);
      StepSolid(fs, t, dirs, next);
      DescendSolid(fs, t + STEP, dirs, comps, k + 1);
    }
  }

  /** A witnessed directory reopens as itself at any tick, with the metadata it was witnessed with. */
  lemma ReopenSolid(fs: Fs, t: nat, dirs: map<string, DirectoryWitness>, comps: seq<Name>)
    requires Unmoved(fs) && AllSolid(fs, dirs, []) && PrefixesIn(comps, |comps| + 1, dirs) && Chain(fs, comps).Some?
    ensures fs.ReopenAt(t, dirs, Under("", comps)) == Ok(Chain(fs, comps).value)
  {
    hide Fs.Descend, AllSolid, Under, SolidDirectory, Segments, NonEmpty;
    ComponentsUnder(comps);
    assert comps[..0] == [] && comps[0..] == comps;
    DescendSolid(fs, t + 3, dirs, comps, 0);
    RootSolid(fs, t, dirs, comps);
  }

  lemma RootSolid(fs: Fs, t: nat, dirs: map<string, DirectoryWitness>, comps: seq<Name>)
    requires Unmoved(fs) && AllSolid(fs, dirs, []) && PrefixesIn(comps, |comps| + 1, dirs)
    ensures fs.RootHandle(t, dirs) == Ok(fs.root) && Under("", comps[..0]) == ""
  {
    hide AllSolid;
    assert comps[..0] == [];
    assert Under("", comps[..0]) in dirs;
    WitnessOf(fs, dirs, []);
    assert fs.stat(t + 1, fs.root) == fs.stat(0, fs.root) && fs.denies(t + 2, fs.root) == fs.denies(0, fs.root);
  }

  /** No recheck of a directory fails. */
  lemma DirectorySolid(fs: Fs, t: nat, u: nat, dirs: map<string, DirectoryWitness>, files: seq<FileWitness>, relative: string)
    requires Unmoved(fs) && AllSolid(fs, dirs, files) && relative in dirs
    ensures fs.ReopenAt(t, dirs, relative).Ok?
    ensures var dir := fs.ReopenAt(t, dirs, relative).value;
            fs.stat(u, dir).Some? && fs.Membership(dirs[relative].meta, fs.stat(u, dir).value)
  {
    SolidAlone(fs, dirs, files);
    hide AllSolid, Under, Fs.ReopenAt, Chain, Fs.MarkersAt;
    assert SolidAt(fs, dirs, relative) by { SolidEach(fs, dirs, relative); }
    var comps: seq<Name> :| SolidDirectory(fs, dirs, relative, comps);
    assert comps[..|comps|] == comps;
    ReopenSolid(fs, t, dirs, comps);
    var dir := Chain(fs, comps).value;
    assert fs.stat(u, dir) == fs.stat(0, dir);
  }

  lemma SolidEach(fs: Fs, dirs: map<string, DirectoryWitness>, relative: string)
    requires AllSolid(fs, dirs, []) && relative in dirs
    ensures SolidAt(fs, dirs, relative)
  {
  }

  /** No check of a file fails. */
  lemma FileSolid(fs: Fs, t: nat, dirs: map<string, DirectoryWitness>, files: seq<FileWitness>, file: FileWitness)
    requires Unmoved(fs) && AllSolid(fs, dirs, files) && file in files
    ensures "res://" <= file.locator && fs.CheckFileAt(t, dirs, file).Ok?
  {
    assert SolidFor(fs, dirs, file);
    SolidAlone(fs, dirs, files);
    hide AllSolid, SolidFile, Unmoved, Fs.CheckFileAt;
    var comps: seq<Name>, name: Name :| SolidFile(fs, dirs, file, comps, name);
    FileStandsFirm(fs, t, dirs, file, comps, name);
  }

  lemma FileStandsFirm(fs: Fs, t: nat, dirs: map<string, DirectoryWitness>, file: FileWitness, comps: seq<Name>, name: Name)
    requires Unmoved(fs) && AllSolid(fs, dirs, []) && SolidFile(fs, dirs, file, comps, name)
    ensures "res://" <= file.locator && fs.CheckFileAt(t, dirs, file).Ok?
  {
    hide AllSolid, Under, Fs.ReopenAt, Chain, Segments, NonEmpty, Fs.FileAt, PrefixesIn, Components, ParentAndName,
         Unmoved, Fs.CheckedOpen, Fs.CheckFileAt, Scope, SolidFile;
    SolidParts(fs, dirs, file, comps, name);
    LocatorParts(file.locator, comps, name);
    var parent, dir := Under("", comps), Chain(fs, comps).value;
    ReopenSolid(fs, t, dirs, comps);
    FileAtFirm(fs, t + 3 + STEP * |Components(parent)|, dir, name, file.locator[6..], file.meta);
    FileChecked(fs, t, dirs, file, parent, name, dir);
  }

  lemma SolidParts(fs: Fs, dirs: map<string, DirectoryWitness>, file: FileWitness, comps: seq<Name>, name: Name)
    requires SolidFile(fs, dirs, file, comps, name)
    ensures file.locator == Scope(Under("", comps + [name])) && PrefixesIn(comps, |comps| + 1, dirs) && Chain(fs, comps).Some?
    ensures var dir := Chain(fs, comps).value;
            file.meta.kind.Regular? && fs.lookup(0, dir, name) == Found(file.meta) && fs.CheckedOpen(0, dir, name, file.meta).Ok?
  {
  }

  lemma FileChecked(fs: Fs, t: nat, dirs: map<string, DirectoryWitness>, file: FileWitness, parent: string, name: string, dir: Handle)
    requires "res://" <= file.locator && ParentAndName(file.locator[6..]) == (parent, name)
    requires fs.ReopenAt(t, dirs, parent) == Ok(dir)
    requires fs.FileAt(t + 3 + STEP * |Components(parent)|, dir, name, file.locator[6..], file.meta).Ok?
    ensures fs.CheckFileAt(t, dirs, file).Ok?
  {
    hide Fs.ReopenAt, Fs.FileAt, Components, ParentAndName;
  }

  lemma FileAtFirm(fs: Fs, u: nat, dir: Handle, name: Name, relative: string, meta: Meta)
    requires Unmoved(fs) && meta.kind.Regular? && fs.lookup(0, dir, name) == Found(meta) && fs.CheckedOpen(0, dir, name, meta).Ok?
    ensures fs.FileAt(u, dir, name, relative, meta).Ok?
  {
    hide Fs.CheckedOpen;
    assert fs.lookup(u, dir, name) == fs.lookup(0, dir, name);
    CheckedOpenStatic(fs, u + 1, dir, name, meta);
    OpenedIsSafe(fs, dir, name, meta);
  }

  lemma LocatorParts(locator: string, comps: seq<Name>, name: Name)
    requires locator == Scope(Under("", comps + [name]))
    ensures "res://" <= locator && ParentAndName(locator[6..]) == (Under("", comps), name)
  {
    assert locator[6..] == Under("", comps + [name]);
    ParentUnder(comps, name);
    if comps == [] {
      assert Under("", comps) == "";
      assert Under("", comps + [name]) == name;
    }
  }

  // ---- recording ----

  lemma MorePrefixes(comps: seq<Name>, count: nat, dirs: map<string, DirectoryWitness>, more: map<string, DirectoryWitness>)
    requires count <= |comps| + 1 && PrefixesIn(comps, count, dirs) && dirs.Keys <= more.Keys
    ensures PrefixesIn(comps, count, more)
  {
    forall k | 0 <= k < count ensures Under("", comps[..k]) in more { assert Under("", comps[..k]) in dirs; }
  }

  lemma StandingStays(fs: Fs, dirs: map<string, DirectoryWitness>, more: map<string, DirectoryWitness>, dir: Handle, comps: seq<Name>,
                      count: nat)
    requires Standing(fs, dirs, dir, comps, count) && dirs.Keys <= more.Keys
    ensures Standing(fs, more, dir, comps, count)
  {
    hide Unmoved, Chain;
    if Unmoved(fs) { MorePrefixes(comps, count, dirs, more); }
  }

  /** Recording the directory a visit stands in keeps everything solid. */
  lemma RecordSolid(fs: Fs, dirs: map<string, DirectoryWitness>, files: seq<FileWitness>, dir: Handle, comps: seq<Name>, w: DirectoryWitness)
    requires Unmoved(fs) && AllSolid(fs, dirs, files) && Chain(fs, comps) == Some(dir) && PrefixesIn(comps, |comps|, dirs)
    requires fs.stat(0, dir) == Some(w.meta)
    requires if comps == [] then w.markers == None else fs.MarkersAt(0, dir).Ok? && w.markers == Some(fs.MarkersAt(0, dir).value)
    ensures AllSolid(fs, dirs[Under("", comps) := w], files)
  {
    var relative := Under("", comps);
    var more := dirs[relative := w];
    StoodIsSafe(fs, dir, comps);
    SolidAlone(fs, dirs, files);
    MorePrefixes(comps, |comps|, dirs, more);
    NewIsSolid(fs, more, dir, comps);
    hide Under, Chain, Fs.MarkersAt, PrefixesIn, Unmoved, SolidFor, SolidAt, SolidDirectory;
    if relative in dirs { SameWitness(fs, dirs, dir, comps, w); }
    forall d | d in more
      ensures SolidAt(fs, more, d)
    {
      if d != relative { SolidAtMoves(fs, dirs, more, d); }
    }
    forall f | f in files
      ensures SolidFor(fs, more, f)
    {
      SolidForMoves(fs, dirs, more, f);
    }
  }

  lemma NewIsSolid(fs: Fs, more: map<string, DirectoryWitness>, dir: Handle, comps: seq<Name>)
    requires Under("", comps) in more && Chain(fs, comps) == Some(dir) && PrefixesIn(comps, |comps|, more)
    requires var w := more[Under("", comps)];
             && fs.stat(0, dir) == Some(w.meta) && fs.Safe(w.meta)
             && if comps == [] then w.markers == None else fs.MarkersAt(0, dir).Ok? && w.markers == Some(fs.MarkersAt(0, dir).value)
    ensures SolidAt(fs, more, Under("", comps))
  {
    hide Under, Chain, Fs.MarkersAt, PrefixesIn;
    assert SolidDirectory(fs, more, Under("", comps), comps);
  }

  lemma SameWitness(fs: Fs, dirs: map<string, DirectoryWitness>, dir: Handle, comps: seq<Name>, w: DirectoryWitness)
    requires AllSolid(fs, dirs, []) && Under("", comps) in dirs && Chain(fs, comps) == Some(dir) && fs.stat(0, dir) == Some(w.meta)
    requires if comps == [] then w.markers == None else fs.MarkersAt(0, dir).Ok? && w.markers == Some(fs.MarkersAt(0, dir).value)
    ensures dirs[Under("", comps)] == w
  {
    hide Under, Chain, Fs.MarkersAt, PrefixesIn, AllSolid;
    WitnessOf(fs, dirs, comps);
  }

  lemma SolidAtMoves(fs: Fs, dirs: map<string, DirectoryWitness>, more: map<string, DirectoryWitness>, relative: string)
    requires SolidAt(fs, dirs, relative) && dirs.Keys <= more.Keys && relative in dirs && more[relative] == dirs[relative]
    ensures SolidAt(fs, more, relative)
  {
    hide Under, Chain, Fs.MarkersAt, PrefixesIn;
    var c: seq<Name> :| SolidDirectory(fs, dirs, relative, c);
    MorePrefixes(c, |c|, dirs, more);
    assert SolidDirectory(fs, more, relative, c);
  }

  lemma SolidForMoves(fs: Fs, dirs: map<string, DirectoryWitness>, more: map<string, DirectoryWitness>, file: FileWitness)
    requires SolidFor(fs, dirs, file) && dirs.Keys <= more.Keys
    ensures SolidFor(fs, more, file)
  {
    hide Under, Chain, Fs.CheckedOpen, PrefixesIn;
    var c: seq<Name>, n: Name :| SolidFile(fs, dirs, file, c, n);
    MorePrefixes(c, |c| + 1, dirs, more);
    assert SolidFile(fs, more, file, c, n);
  }

  lemma StoodIsSafe(fs: Fs, dir: Handle, comps: seq<Name>)
    requires Unmoved(fs) && Chain(fs, comps) == Some(dir)
    ensures fs.stat(0, dir).Some? && fs.Safe(fs.stat(0, dir).value)
  {
    if comps != [] {
      var parent, name := Chain(fs, comps[..|comps| - 1]).value, comps[|comps| - 1];
      OpenedIsSafe(fs, parent, name, fs.lookup(0, parent, name).meta);
    }
  }

  /** The next directory down is stood on as soon as it was opened. */
  lemma StepDown(fs: Fs, t: nat, u: nat, dirs: map<string, DirectoryWitness>, dir: Handle, comps: seq<Name>, name: Name, meta: Meta)
    requires Standing(fs, dirs, dir, comps, |comps| + 1)
    requires fs.lookup(u, dir, name) == Found(meta) && meta.kind.Directory? && fs.CheckedOpen(t, dir, name, meta).Ok?
    ensures Standing(fs, dirs, fs.CheckedOpen(t, dir, name, meta).value, comps + [name], |comps| + 1)
  {
    hide Fs.CheckedOpen, Under;
    if Unmoved(fs) {
      var more := comps + [name];
      assert more[..|more| - 1] == comps;
      assert fs.lookup(u, dir, name) == fs.lookup(0, dir, name);
      CheckedOpenStatic(fs, t, dir, name, meta);
      forall k | 0 <= k < |comps| + 1
        ensures Under("", more[..k]) in dirs
      {
        assert more[..k] == comps[..k];
      }
    }
  }

  lemma RecordFileSolid(fs: Fs, t: nat, u: nat, dirs: map<string, DirectoryWitness>, files: seq<FileWitness>, dir: Handle, comps: seq<Name>,
                        name: Name, file: FileWitness)
    requires Unmoved(fs) ==> AllSolid(fs, dirs, files)
    requires Standing(fs, dirs, dir, comps, |comps| + 1)
    requires fs.lookup(u, dir, name) == Found(file.meta) && file.meta.kind.Regular? && fs.CheckedOpen(t, dir, name, file.meta).Ok?
    requires file.locator == Scope(Under("", comps + [name]))
    ensures Unmoved(fs) ==> AllSolid(fs, dirs, files + [file])
  {
    hide Fs.CheckedOpen, Under, Chain, SolidDirectory, PrefixesIn;
    if Unmoved(fs) {
      assert fs.lookup(u, dir, name) == fs.lookup(0, dir, name);
      CheckedOpenStatic(fs, t, dir, name, file.meta);
      assert SolidFile(fs, dirs, file, comps, name);
    }
  }

  /** After a directory was read its metadata and markers are what they were. */
  lemma SettleSolid(fs: Fs, t: nat, u: nat, dirs: map<string, DirectoryWitness>, files: seq<FileWitness>, dir: Handle, comps: seq<Name>)
    requires Unmoved(fs) && AllSolid(fs, dirs, files) && Chain(fs, comps) == Some(dir) && Under("", comps) in dirs
    ensures var w := dirs[Under("", comps)];
            && fs.stat(t, dir) == Some(w.meta) && fs.Membership(w.meta, w.meta)
            && (w.markers.Some? ==> fs.MarkersAt(u, dir).Ok? && fs.MarkersSame(w.markers.value, fs.MarkersAt(u, dir).value))
  {
    SolidAlone(fs, dirs, files);
    hide AllSolid, Under, Fs.MarkersAt, Fs.MarkersSame;
    WitnessOf(fs, dirs, comps);
    assert fs.stat(t, dir) == fs.stat(0, dir);
    MarkersStatic(fs, u, dir);
    MarkersStatic(fs, 0, dir);
  }
}
