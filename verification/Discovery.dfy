/** The bounded discovery walk: batches, prefix invalidation and the final recheck. */
module Discovery {
  import opened Wrappers
  import opened Paths
  import opened FileTree
  import opened StaticTree
  import opened Visible
  import opened Inventory

  /** What the walk reports to its consumer while it runs. */
  datatype Progress =
    | Entries(paths: seq<string>, visitedEntries: nat, visitedDirectories: nat)
    | Invalidate(scope: string)

  datatype Collection = Collection(
    visitedEntries: nat,
    visitedDirectories: nat,
    gaps: seq<Gap>,
    omittedGaps: nat,
    exhausted: bool,
    recheckCompleted: bool,
    changed: bool)
  {
    /** Nothing was skipped, cut short or seen to change. */
    predicate Clean() {
      exhausted && !changed && gaps == [] && omittedGaps == 0
    }
  }

  predicate Later(a: Collection, b: Collection) {
    && a.visitedEntries <= b.visitedEntries
    && a.visitedDirectories <= b.visitedDirectories
    && a.gaps <= b.gaps
    && a.omittedGaps <= b.omittedGaps
    && (b.exhausted ==> a.exhausted)
    && (b.recheckCompleted ==> a.recheckCompleted)
    && (a.changed ==> b.changed)
  }

  // ---- the consumer: it keeps what was listed and drops what a prefix withdraws ----

  function Receive(entries: set<string>, p: Progress): set<string> {
    match p
    case Entries(paths, _, _) => entries + (set e | e in paths)
    case Invalidate(scope) => set e | e in entries && !Withdraws(scope, e)
  }

  predicate Withdraws(scope: string, path: string) {
    |scope| >= 6 && |path| >= 6 && Affected(path[6..], scope[6..])
  }

  function Consumed(log: seq<Progress>): set<string> {
    if log == [] then {} else Receive(Consumed(log[..|log| - 1]), log[|log| - 1])
  }

  function Emitted(log: seq<Progress>): seq<string> {
    if log == [] then []
    else
      Emitted(log[..|log| - 1]) +
      match log[|log| - 1]
      case Entries(paths, _, _) => paths
      case Invalidate(_) => []
  }

  function Withdrawn(log: seq<Progress>): seq<string> {
    if log == [] then []
    else
      Withdrawn(log[..|log| - 1]) +
      match log[|log| - 1]
      case Entries(_, _, _) => []
      case Invalidate(scope) => [scope]
  }

  /** No message lists a path that an earlier message withdrew. */
  ghost predicate LogSafe(log: seq<Progress>) {
    forall i, j, e | 0 <= i < j < |log| && log[i].Invalidate? && log[j].Entries? && e in log[j].paths ::
      !Withdraws(log[i].scope, e)
  }

  ghost predicate MessageBounded(p: Progress) {
    match p
    case Entries(paths, visitedEntries, visitedDirectories) =>
      0 < |paths| <= BATCH_LIMIT && visitedEntries <= WORK_LIMIT && visitedDirectories <= DIRECTORY_LIMIT
    case Invalidate(_) => true
  }

  lemma LogStep(log: seq<Progress>, p: Progress)
    ensures Emitted(log + [p]) == Emitted(log) + (if p.Entries? then p.paths else [])
    ensures Withdrawn(log + [p]) == Withdrawn(log) + (if p.Invalidate? then [p.scope] else [])
    ensures Consumed(log + [p]) == Receive(Consumed(log), p)
  {
    assert (log + [p])[..|log|] == log;
  }

  lemma {:induction false} WithdrawnHas(log: seq<Progress>, scope: string) returns (i: nat)
    requires scope in Withdrawn(log)
    ensures i < |log| && log[i] == Invalidate(scope)
  {
    var init := log[..|log| - 1];
    if scope in Withdrawn(init) {
      i := WithdrawnHas(init, scope);
    } else {
      i := |log| - 1;
    }
  }

  /** After every message the consumer holds no path that any message so far withdrew. */
  lemma {:induction false} ConsumerDropsWithdrawn(log: seq<Progress>, k: nat, path: string, scope: string)
    requires LogSafe(log) && k <= |log|
    requires path in Consumed(log[..k]) && scope in Withdrawn(log[..k])
    ensures !Withdraws(scope, path)
    decreases k
  {
    var init := log[..k][..k - 1];
    assert init == log[..k - 1];
    var last := log[..k][k - 1];
    if last.Invalidate? {
      if scope != last.scope {
        ConsumerDropsWithdrawn(log, k - 1, path, scope);
      }
    } else if path in last.paths {
      var i := WithdrawnHas(init, scope);
      assert log[i] == Invalidate(scope) && log[k - 1] == last;
    } else {
      ConsumerDropsWithdrawn(log, k - 1, path, scope);
    }
  }

  /** The consumer holds only listed paths, and all of them when nothing was withdrawn. */
  lemma {:induction false} ConsumedIsEmitted(log: seq<Progress>)
    ensures forall p :: p in Consumed(log) ==> p in Emitted(log)
    ensures Withdrawn(log) == [] ==> forall p :: p in Emitted(log) ==> p in Consumed(log)
  {
    if log != [] {
      ConsumedIsEmitted(log[..|log| - 1]);
    }
  }

  lemma AffectedTransitive(x: string, y: string, z: string)
    requires Affected(x, y) && Affected(y, z)
    ensures Affected(x, z)
  {
    if y != "" && z != "" {
      AffectedIsSlashPrefix(x, y);
      AffectedIsSlashPrefix(y, z);
      AffectedIsSlashPrefix(x, z);
    }
  }

  // ---- what the walk maintains ----

  function Locators(files: seq<FileWitness>): (r: seq<string>)
    ensures |r| == |files|
  {
    seq(|files|, i requires 0 <= i < |files| => files[i].locator)
  }

  /** A recorded file: a path built from plain components that the consumer admits. */
  ghost predicate WalkedFile(data: Name, file: FileWitness) {
    exists dirs: seq<Name>, name: Name ::
      |dirs| <= DEPTH_LIMIT && file.locator == Scope(Under("", dirs + [name])) && Eligible(file.locator, Scope(data))
  }

  /** Few enough directories above the file for the consumer to admit it. */
  predicate Shallow(locator: string) {
    |locator| >= 6 && |Segments(locator[6..])| <= DEPTH_LIMIT + 1
  }

  ghost predicate WalkedDirectory(relative: string) {
    exists dirs: seq<Name> :: |dirs| <= DEPTH_LIMIT && relative == Under("", dirs)
  }

  /** Every witness carries a path built from plain components. */
  ghost predicate Recorded(data: Name, files: seq<FileWitness>, directories: map<string, DirectoryWitness>) {
    && (forall f | f in files :: WalkedFile(data, f))
    && (forall d | d in directories :: WalkedDirectory(d))
  }

  lemma RecordFile(data: Name, files: seq<FileWitness>, directories: map<string, DirectoryWitness>, file: FileWitness)
    requires Recorded(data, files, directories) && WalkedFile(data, file)
    ensures Recorded(data, files + [file], directories)
  {
  }

  lemma RecordDirectory(data: Name, files: seq<FileWitness>, directories: map<string, DirectoryWitness>,
                        relative: string, evidence: DirectoryWitness)
    requires Recorded(data, files, directories) && WalkedDirectory(relative)
    ensures Recorded(data, files, directories[relative := evidence])
  {
  }

  lemma WithinLimits(result: Collection, files: seq<FileWitness>)
    requires Bounded(result, files)
    ensures result.visitedEntries <= WORK_LIMIT && result.visitedDirectories <= DIRECTORY_LIMIT && |files| <= ENTRY_LIMIT
  {
  }

  lemma RoomForDirectory(result: Collection, files: seq<FileWitness>)
    requires Bounded(result, files) && result.visitedDirectories < DIRECTORY_LIMIT
    ensures Bounded(result.(visitedDirectories := result.visitedDirectories + 1), files)
  {
  }

  ghost predicate Bounded(result: Collection, files: seq<FileWitness>) {
    && result.visitedEntries <= WORK_LIMIT
    && result.visitedDirectories <= DIRECTORY_LIMIT
    && |files| <= ENTRY_LIMIT
  }

  /** The first gaps reported are kept and the rest counted; the listing is exhaustive unless a limit was reported. */
  ghost predicate Reports(result: Collection, reported: seq<Gap>) {
    && result.gaps == (if |reported| <= GAP_LIMIT then reported else reported[..GAP_LIMIT])
    && result.omittedGaps == (if |reported| <= GAP_LIMIT then 0
                              else if |reported| - GAP_LIMIT <= 0xFFFF_FFFF then |reported| - GAP_LIMIT else 0xFFFF_FFFF)
    && (result.exhausted <==> forall g | g in reported :: !g.code.Limit())
  }

  /** A limit is reported only where it was reached. */
  ghost predicate Reached(g: Gap, result: Collection, files: seq<FileWitness>) {
    match g.code
    case WorkLimit => result.visitedEntries >= WORK_LIMIT
    case EntryLimit => |files| >= ENTRY_LIMIT
    case DirectoryLimit => result.visitedDirectories >= DIRECTORY_LIMIT
    case DepthLimit => exists comps: seq<Name> :: |comps| == DEPTH_LIMIT + 1 && g.scope == Scope(Under("", comps))
    case _ => true
  }

  ghost predicate Accounted(result: Collection, files: seq<FileWitness>, reported: seq<Gap>, need: nat, deepest: nat) {
    && Reports(result, reported)
    && (forall g | g in reported :: Reached(g, result, files))
    && need <= DIRECTORY_LIMIT && deepest <= DEPTH_LIMIT
  }

  /** Counting on keeps every reported limit reached. */
  lemma StaysAccounted(a: Collection, b: Collection, files: seq<FileWitness>, more: seq<FileWitness>, reported: seq<Gap>,
                       need: nat, deepest: nat)
    requires Accounted(a, files, reported, need, deepest) && |files| <= |more|
    requires a.gaps == b.gaps && a.omittedGaps == b.omittedGaps && a.exhausted == b.exhausted
    requires a.visitedEntries <= b.visitedEntries && a.visitedDirectories <= b.visitedDirectories
    ensures Accounted(b, more, reported, need, deepest)
  {
    forall g | g in reported
      ensures Reached(g, b, more)
    {
      assert Reached(g, a, files);
    }
  }

  lemma OneMoreGap(a: Collection, b: Collection, files: seq<FileWitness>, reported: seq<Gap>, need: nat, deepest: nat, gap: Gap)
    requires Accounted(a, files, reported, need, deepest) && Reached(gap, a, files)
    requires b.exhausted == (a.exhausted && !gap.code.Limit())
    requires a.visitedEntries == b.visitedEntries && a.visitedDirectories == b.visitedDirectories
    requires b.gaps == if |a.gaps| < GAP_LIMIT then a.gaps + [gap] else a.gaps
    requires b.omittedGaps == if |a.gaps| < GAP_LIMIT || a.omittedGaps >= 0xFFFF_FFFF then a.omittedGaps else a.omittedGaps + 1
    ensures Accounted(b, files, reported + [gap], need, deepest)
    ensures reported + [gap] != [] && !b.Clean()
  {
    forall g | g in reported + [gap]
      ensures Reached(g, b, files)
    {
      if g in reported { assert Reached(g, a, files); }
    }
    forall g | g in reported && !b.exhausted && a.exhausted
      ensures !g.code.Limit()
    {
    }
    assert gap in reported + [gap];
    assert forall g | g in reported :: g in reported + [gap];
  }

  ghost predicate LogInv(files: seq<FileWitness>, pending: seq<nat>, invalidated: seq<string>,
                         changed: bool, log: seq<Progress>)
  {
    && |Emitted(log)| + |pending| <= |files|
    && (forall k | 0 <= k < |pending| :: pending[k] == |files| - |pending| + k)
    && |Withdrawn(log)| == |invalidated|
    && (forall k | 0 <= k < |invalidated| :: Withdrawn(log)[k] == Scope(invalidated[k]))
    && (changed <==> invalidated != [])
    && LogSafe(log)
    && (forall p | p in log :: MessageBounded(p))
    && (forall p | p in Emitted(log) :: p in Locators(files))
  }

  lemma FreshFile(files: seq<FileWitness>, file: FileWitness)
    ensures Locators(files + [file]) == Locators(files) + [file.locator]
  {
  }

  lemma NothingFresh(files: seq<FileWitness>)
    ensures Locators(files[|files|..]) == []
  {
  }

  lemma NoLocators(files: seq<FileWitness>, start: nat)
    requires start <= |files|
    ensures Locators(files[start..start]) == []
  {
  }

  lemma NextLocator(files: seq<FileWitness>, start: nat, i: nat)
    requires start + i < |files|
    ensures Locators(files[start..start + i + 1]) == Locators(files[start..start + i]) + [files[start + i].locator]
    ensures files[start + i].locator in Locators(files)
  {
    assert files[start..start + i + 1] == files[start..start + i] + [files[start + i]];
    assert files[start + i].locator == Locators(files)[start + i];
  }

  lemma OneFresh(files: seq<FileWitness>, file: FileWitness)
    ensures Locators((files + [file])[|files|..]) == [file.locator]
  {
    assert (files + [file])[|files|..] == [file];
  }

  lemma Delivery(files: seq<FileWitness>, start: nat, emitted: seq<string>, kept: seq<string>)
    requires start <= |files|
    requires emitted == Locators(files[..start]) && kept == Locators(files[start..])
    ensures emitted + kept == Locators(files[..|files|])
  {
    assert files[..|files|] == files;
  }

  /** Listing a batch that avoids every withdrawn prefix keeps the log safe. */
  lemma SafeBatch(log: seq<Progress>, invalidated: seq<string>, m: Progress)
    requires LogSafe(log)
    requires |Withdrawn(log)| == |invalidated|
    requires forall k | 0 <= k < |invalidated| :: Withdrawn(log)[k] == Scope(invalidated[k])
    requires m.Entries? ==> forall e, p | e in m.paths && p in invalidated :: "res://" <= e && !Affected(e[6..], p)
    ensures LogSafe(log + [m])
  {
    var all := log + [m];
    forall i, j, e | 0 <= i < j < |all| && all[i].Invalidate? && all[j].Entries? && e in all[j].paths
      ensures !Withdraws(all[i].scope, e)
    {
      if j < |log| {
        assert all[i] == log[i] && all[j] == log[j];
      } else {
        WithdrawnAll(log, i);
        var k :| 0 <= k < |invalidated| && Withdrawn(log)[k] == log[i].scope;
        assert Scope(invalidated[k])[6..] == invalidated[k];
        assert invalidated[k] in invalidated;
      }
    }
  }

  lemma {:induction false} WithdrawnAll(log: seq<Progress>, i: nat)
    requires i < |log| && log[i].Invalidate?
    ensures log[i].scope in Withdrawn(log)
  {
    if i < |log| - 1 {
      WithdrawnAll(log[..|log| - 1], i);
    }
  }

  predicate Covered(relative: string, invalidated: seq<string>) {
    exists p :: p in invalidated && Affected(relative, p)
  }

  lemma CoveredChanged(relative: string, invalidated: seq<string>)
    requires Covered(relative, invalidated)
    ensures invalidated != []
  {
  }

  lemma WithdrawStep(files: seq<FileWitness>, pending: seq<nat>, invalidated: seq<string>,
                     changed: bool, log: seq<Progress>, relative: string)
    requires LogInv(files, pending, invalidated, changed, log)
    ensures LogInv(files, pending, invalidated + [relative], true, log + [Invalidate(Scope(relative))])
    ensures Covered(relative, invalidated + [relative])
    ensures Emitted(log + [Invalidate(Scope(relative))]) == Emitted(log)
  {
    SafeBatch(log, invalidated, Invalidate(Scope(relative)));
    LogStep(log, Invalidate(Scope(relative)));
    var all := invalidated + [relative];
    assert all[|invalidated|] == relative && Affected(relative, relative);
    assert relative in all;
  }

  /** The batch without the paths that some withdrawn prefix covers. */
  function Retain(entries: seq<string>, invalidated: seq<string>): (r: seq<string>)
    ensures |r| <= |entries|
    ensures forall e :: e in r <==> e in entries && !("res://" <= e && Covered(e[6..], invalidated))
    ensures invalidated == [] ==> r == entries
  {
    if entries == [] then []
    else
      var init := Retain(entries[..|entries| - 1], invalidated);
      var last := entries[|entries| - 1];
      if "res://" <= last && Covered(last[6..], invalidated) then init else init + [last]
  }

  lemma BatchStep(files: seq<FileWitness>, invalidated: seq<string>, result: Collection, log: seq<Progress>,
                  kept: seq<string>)
    requires LogInv(files, [], invalidated, result.changed, log) && |Emitted(log)| + |kept| <= |files|
    requires 0 < |kept| <= BATCH_LIMIT && result.visitedEntries <= WORK_LIMIT && result.visitedDirectories <= DIRECTORY_LIMIT
    requires forall e | e in kept :: e in Locators(files) && "res://" <= e && !Covered(e[6..], invalidated)
    ensures LogInv(files, [], invalidated, result.changed,
                   log + [Entries(kept, result.visitedEntries, result.visitedDirectories)])
    ensures Emitted(log + [Entries(kept, result.visitedEntries, result.visitedDirectories)]) == Emitted(log) + kept
  {
    var m := Entries(kept, result.visitedEntries, result.visitedDirectories);
    forall e, p | e in m.paths && p in invalidated
      ensures "res://" <= e && !Affected(e[6..], p)
    {
      assert !Covered(e[6..], invalidated);
    }
    SafeBatch(log, invalidated, m);
    LogStep(log, m);
  }

  lemma WalkedLocators(data: Name, files: seq<FileWitness>, directories: map<string, DirectoryWitness>)
    requires Recorded(data, files, directories)
    ensures forall e | e in Locators(files) :: "res://" <= e && Eligible(e, Scope(data)) && Shallow(e)
  {
    forall e | e in Locators(files)
      ensures "res://" <= e && Eligible(e, Scope(data)) && Shallow(e)
    {
      var k :| 0 <= k < |files| && files[k].locator == e;
      assert WalkedFile(data, files[k]);
      var dirs: seq<Name>, name: Name :| |dirs| <= DEPTH_LIMIT && e == Scope(Under("", dirs + [name])) && Eligible(e, Scope(data));
      SegmentsUnder(dirs + [name]);
      assert e[6..] == Under("", dirs + [name]);
    }
  }

  lemma FailureCovers(fs: Fs, t: nat, dirs: map<string, DirectoryWitness>, data: Name, files: seq<FileWitness>, index: nat)
    requires Recorded(data, files, dirs) && index < |files|
    ensures "res://" <= files[index].locator
    ensures fs.CheckFileAt(t, dirs, files[index]).Err? ==>
              Affected(files[index].locator[6..], fs.CheckFileAt(t, dirs, files[index]).error.relative)
  {
    assert WalkedFile(data, files[index]);
    var parent: seq<Name>, name: Name :| |parent| <= DEPTH_LIMIT && files[index].locator == Scope(Under("", parent + [name])) && Eligible(files[index].locator, Scope(data));
    if fs.CheckFileAt(t, dirs, files[index]).Err? {
      FailureCoversFile(fs, t, dirs, files[index], parent, name);
    }
  }

  lemma ClearPending(files: seq<FileWitness>, pending: seq<nat>, invalidated: seq<string>, changed: bool, log: seq<Progress>)
    requires LogInv(files, pending, invalidated, changed, log)
    ensures LogInv(files, [], invalidated, changed, log)
    ensures |Emitted(log)| + |pending| <= |files|
    ensures !changed ==> invalidated == []
    ensures invalidated != [] ==> changed
  {
  }

  lemma OpenedHandle(fs: Fs, t: nat, dir: Handle, name: string, meta: Meta)
    requires fs.CheckedOpen(t, dir, name, meta).Ok?
    ensures fs.open(t, dir, name) == Some(fs.CheckedOpen(t, dir, name, meta).value)
  {
  }

  lemma AdmitStep(files: seq<FileWitness>, pending: seq<nat>, invalidated: seq<string>,
                  changed: bool, log: seq<Progress>, file: FileWitness)
    requires LogInv(files, pending, invalidated, changed, log)
    ensures LogInv(files + [file], pending + [|files|], invalidated, changed, log)
    ensures (files + [file])[..|files| - |pending|] == files[..|files| - |pending|]
  {
    FreshFile(files, file);
  }

  // ---- what one visit promises about a static tree ----

  ghost predicate Steady(fs: Fs, result: Collection) {
    fs.Static() && UniqueNames(fs) && result.Clean()
  }

  lemma MarkersDecide(fs: Fs, t: nat, dir: Handle)
    requires fs.Static() && fs.MarkersAt(t, dir).Ok?
    ensures Excluded(fs.MarkersAt(t, dir).value) <==> IgnoredDirectory(fs, dir)
  {
    assert fs.lookup(t, dir, ".gdignore") == fs.lookup(0, dir, ".gdignore");
    assert fs.lookup(t + 5, dir, "project.godot") == fs.lookup(0, dir, "project.godot");
  }

  lemma StaticNext(fs: Fs, t: nat, dir: Handle, i: nat)
    requires fs.Static()
    ensures fs.next(t, dir, i) == fs.next(0, dir, i)
  {
  }

  /** What one step of the iterator adds to the listing. */
  ghost predicate Contributes(fs: Fs, data: Name, dir: Handle, base: seq<Name>, entry: Next, more: seq<string>) {
    if entry.Named? then EntryExact(fs, data, dir, base, entry.name, more) else more == []
  }

  /** How far an enumeration has come: the first `i` entries are listed exactly. */
  ghost predicate Reading(fs: Fs, data: Name, dir: Handle, base: seq<Name>, i: nat, done: bool, paths: seq<string>) {
    && (forall k | 0 <= k < i :: fs.next(0, dir, k) != End)
    && ExactBefore(fs, data, dir, base, i, paths)
    && (done ==> fs.next(0, dir, i) == End)
  }

  lemma ReadingEnds(fs: Fs, data: Name, dir: Handle, base: seq<Name>, i: nat, paths: seq<string>)
    requires Reading(fs, data, dir, base, i, false, paths) && fs.next(0, dir, i) == End
    ensures Reading(fs, data, dir, base, i, true, paths)
  {
  }

  lemma ReadingName(fs: Fs, data: Name, dir: Handle, base: seq<Name>, i: nat, entry: Next, paths: seq<string>)
    requires Reading(fs, data, dir, base, i, false, paths) && fs.next(0, dir, i) == entry != End
    ensures entry.Named? ==> ListsName(fs, dir, entry.name)
  {
    if entry.Named? {
      assert Listed(fs, dir, i);
    }
  }

  lemma Extend(fs: Fs, data: Name, dir: Handle, base: seq<Name>, i: nat, entry: Next, paths: seq<string>, more: seq<string>)
    requires UniqueNames(fs) && fs.next(0, dir, i) == entry != End
    requires Reading(fs, data, dir, base, i, false, paths) && Contributes(fs, data, dir, base, entry, more)
    ensures Reading(fs, data, dir, base, i + 1, false, paths + more)
  {
    hide ExactBefore, EntryExact, UniqueNames;
    if entry.Named? {
      ExtendExact(fs, data, dir, base, i, entry.name, paths, more);
    } else {
      assert paths + more == paths;
      SkipUnnamed(fs, data, dir, base, i, paths);
    }
  }

  lemma SplitFresh(had: seq<FileWitness>, files: seq<FileWitness>, start: nat)
    requires start <= |had| && had <= files
    ensures Locators(files[start..]) == Locators(had[start..]) + Locators(files[|had|..])
  {
  }

  /** Where a visit stands: `relative` was reached through visible names outside the data directory. */
  ghost predicate At(fs: Fs, data: Name, dir: Handle, relative: string, base: seq<Name>) {
    && relative == Under("", base)
    && (forall n | n in base :: n[0] != '.')
    && (base != [] ==> base[0] != data)
    && (base == [] ==> dir == fs.root)
  }

  lemma AtRoot(fs: Fs, data: Name, dir: Handle, relative: string, base: seq<Name>)
    requires At(fs, data, dir, relative, base) && |base| <= DEPTH_LIMIT
    ensures relative == "" <==> base == []
    ensures WalkedDirectory(relative)
  {
    EmptyRelative(relative, base);
  }

  lemma ReachableHere(fs: Fs, data: Name, dir: Handle, base: seq<Name>, name: Name, effective: Option<Meta>, meta: Meta)
    requires base == [] ==> dir == fs.root
    requires effective == DataMeta(fs, data, base == []) && fs.lookup(0, dir, name) == Found(meta)
    requires name[0] != '.'
    ensures Reachable(fs, data, dir, base == [], name) <==> !(base == [] && name == data) && !AliasOf(effective, meta)
  {
  }

  lemma WalkedFileIntro(data: Name, base: seq<Name>, name: Name, file: FileWitness)
    requires |base| <= DEPTH_LIMIT && file.locator == Scope(Under("", base + [name])) && Eligible(file.locator, Scope(data))
    ensures WalkedFile(data, file)
  {
  }

  lemma StaticAnswers(fs: Fs, t: nat, dir: Handle, name: string)
    requires fs.Static()
    ensures fs.lookup(t, dir, name) == fs.lookup(0, dir, name)
    ensures fs.open(t, dir, name) == fs.open(0, dir, name)
  {
  }

  lemma SkipData(fs: Fs, data: Name, dir: Handle, base: seq<Name>)
    requires base == []
    ensures EntryExact(fs, data, dir, base, data, [])
  {
    SkipEntry(fs, data, dir, base, data);
  }

  lemma EmptyRelative(relative: string, base: seq<Name>)
    requires relative == Under("", base)
    ensures relative == "" <==> base == []
  {
    if base != [] { UnderTerminated("", base); }
  }

  /** A directory reopened by name at tick `t`, with the membership times it was witnessed with. */
  ghost predicate DirectoryStandsAt(fs: Fs, dirs: map<string, DirectoryWitness>, t: nat, relative: string) {
    && relative in dirs
    && fs.ReopenAt(t, dirs, relative).Ok?
    && var current := fs.stat(t + 3 + STEP * |Components(relative)|, fs.ReopenAt(t, dirs, relative).value);
       current.Some? && fs.Membership(dirs[relative].meta, current.value)
  }

  ghost predicate DirectoryStands(fs: Fs, dirs: map<string, DirectoryWitness>, since: nat, relative: string) {
    exists t: nat :: since <= t && DirectoryStandsAt(fs, dirs, t, relative)
  }

  /** A file that passed its final test no earlier than tick `since`. */
  ghost predicate FileStands(fs: Fs, dirs: map<string, DirectoryWitness>, since: nat, file: FileWitness)
    requires "res://" <= file.locator
  {
    exists t: nat :: since <= t && fs.CheckFileAt(t, dirs, file).Ok?
  }

  ghost predicate AllDirectoriesStand(fs: Fs, dirs: map<string, DirectoryWitness>, invalidated: seq<string>, since: nat,
                                      keys: set<string>)
  {
    forall d | d in keys :: Covered(d, invalidated) || DirectoryStands(fs, dirs, since, d)
  }

  ghost predicate FilesStand(fs: Fs, dirs: map<string, DirectoryWitness>, invalidated: seq<string>, since: nat,
                             files: seq<FileWitness>)
  {
    forall f | f in files ::
      "res://" <= f.locator && (Covered(f.locator[6..], invalidated) || FileStands(fs, dirs, since, f))
  }

  lemma CoveredStays(relative: string, had: seq<string>, now: seq<string>)
    requires had <= now && Covered(relative, had)
    ensures Covered(relative, now)
  {
    var p :| p in had && Affected(relative, p);
    assert p in now;
  }

  lemma DirectoriesStay(fs: Fs, dirs: map<string, DirectoryWitness>, had: seq<string>, now: seq<string>, since: nat, keys: set<string>)
    requires had <= now && AllDirectoriesStand(fs, dirs, had, since, keys)
    ensures AllDirectoriesStand(fs, dirs, now, since, keys)
  {
    forall d | d in keys && Covered(d, had) {
      CoveredStays(d, had, now);
    }
  }

  lemma FilesStay(fs: Fs, dirs: map<string, DirectoryWitness>, had: seq<string>, now: seq<string>, since: nat, files: seq<FileWitness>)
    requires had <= now && FilesStand(fs, dirs, had, since, files)
    ensures FilesStand(fs, dirs, now, since, files)
  {
    forall f | f in files && Covered(f.locator[6..], had) {
      CoveredStays(f.locator[6..], had, now);
    }
  }

  /** What a finished walk says about a path its consumer still holds: some recorded file carries
      that path and passed its own final test after enumeration ended, and so did every witnessed
      directory above it. */
  ghost predicate Retained(fs: Fs, log: seq<Progress>, files: seq<FileWitness>, dirs: map<string, DirectoryWitness>, since: nat) {
    forall p | p in Consumed(log) ::
      && (exists f | f in files :: f.locator == p && "res://" <= p && FileStands(fs, dirs, since, f))
      && (forall d | d in dirs && Affected(p[6..], d) :: DirectoryStands(fs, dirs, since, d))
  }

  lemma DirectoryFailureCovers(fs: Fs, t: nat, dirs: map<string, DirectoryWitness>, data: Name, files: seq<FileWitness>,
                               relative: string)
    requires Recorded(data, files, dirs) && relative in dirs
    ensures fs.ReopenAt(t, dirs, relative).Err? ==> Affected(relative, fs.ReopenAt(t, dirs, relative).error.relative)
    ensures Affected(relative, relative)
  {
    assert WalkedDirectory(relative);
    var comps: seq<Name> :| |comps| <= DEPTH_LIMIT && relative == Under("", comps);
    ComponentsUnder(comps);
    match fs.RootHandle(t, dirs)
    case Err(_) =>
    case Ok(dir) =>
      var r := fs.Descend(t + 3, dirs, dir, "", comps);
      if r.Err? {
        DescendFailure(fs, t + 3, dirs, dir, [], comps);
        var reached: seq<Name> :| reached <= [] + comps && r.error.relative == Under("", reached);
        AffectedIsComponentPrefix(comps, reached);
      }
  }

  lemma CoveredBy(relative: string, prefix: string, invalidated: seq<string>)
    requires Affected(relative, prefix) && Covered(prefix, invalidated)
    ensures Covered(relative, invalidated)
  {
    var p :| p in invalidated && Affected(prefix, p);
    AffectedTransitive(relative, prefix, p);
  }

  lemma Incomplete(result: Collection, files: seq<FileWitness>)
    requires Bounded(result, files)
    ensures Bounded(result.(recheckCompleted := false), files)
  {
  }

  lemma Fresh(files: seq<FileWitness>, log: seq<Progress>)
    requires files == [] && log == []
    ensures Emitted(log) == Locators(files) == []
  {
  }

  lemma Audit(data: Name, files: seq<FileWitness>, dirs: map<string, DirectoryWitness>, pending: seq<nat>,
              invalidated: seq<string>, result: Collection, log: seq<Progress>)
    requires Recorded(data, files, dirs) && Bounded(result, files) && LogInv(files, pending, invalidated, result.changed, log)
    ensures forall m | m in log :: MessageBounded(m)
    ensures result.visitedEntries <= WORK_LIMIT && result.visitedDirectories <= DIRECTORY_LIMIT
    ensures |Emitted(log)| <= |files| <= ENTRY_LIMIT
    ensures LogSafe(log)
    ensures forall p | p in Emitted(log) :: p in Locators(files) && Eligible(p, Scope(data)) && Shallow(p)
  {
    hide LogSafe, Eligible, Emitted, Locators, MessageBounded, Shallow;
    WalkedLocators(data, files, dirs);
  }

  lemma StaticListing(fs: Fs, data: Name, files: seq<FileWitness>, pending: seq<nat>, invalidated: seq<string>,
                      result: Collection, log: seq<Progress>)
    requires LogInv(files, pending, invalidated, result.changed, log) && !result.changed
    requires Exact(fs, data, fs.root, [], Emitted(log))
    ensures NoDuplicates(Emitted(log))
    ensures forall p :: p in Consumed(log) <==> VisibleScript(fs, data, p)
  {
    hide LogSafe, Under, VisibleFrom;
    ConsumedIsEmitted(log);
    assert Withdrawn(log) == [];
    forall p
      ensures p in Emitted(log) <==> VisibleScript(fs, data, p)
    {
      if p in Emitted(log) {
        assert ExplainedBy(fs, data, fs.root, [], p);
        var comps: seq<Name> :| VisibleFrom(fs, data, fs.root, true, comps) && p == Scope(Under("", [] + comps));
        assert [] + comps == comps;
      }
      if VisibleScript(fs, data, p) {
        var comps: seq<Name> :| VisibleFrom(fs, data, fs.root, true, comps) && p == Scope(Under("", comps));
        assert [] + comps == comps;
      }
    }
  }

  /** A path the consumer still holds is under no withdrawn prefix. */
  lemma HeldUncovered(files: seq<FileWitness>, pending: seq<nat>, invalidated: seq<string>, changed: bool,
                      log: seq<Progress>, p: string)
    requires LogInv(files, pending, invalidated, changed, log) && p in Consumed(log) && "res://" <= p
    ensures !Covered(p[6..], invalidated)
  {
    hide Affected, Consumed;
    if Covered(p[6..], invalidated) {
      var q :| q in invalidated && Affected(p[6..], q);
      var k :| 0 <= k < |invalidated| && invalidated[k] == q;
      assert log[..|log|] == log && Scope(q)[6..] == q;
      ConsumerDropsWithdrawn(log, |log|, p, Scope(q));
    }
  }

  lemma Settled(fs: Fs, data: Name, files: seq<FileWitness>, dirs: map<string, DirectoryWitness>, pending: seq<nat>,
                invalidated: seq<string>, changed: bool, log: seq<Progress>, since: nat)
    requires Recorded(data, files, dirs) && LogInv(files, pending, invalidated, changed, log)
    requires FilesStand(fs, dirs, invalidated, since, files)
    requires AllDirectoriesStand(fs, dirs, invalidated, since, dirs.Keys)
    ensures Retained(fs, log, files, dirs, since)
  {
    hide Affected, DirectoryStands, FileStands, Consumed, Eligible;
    forall p | p in Consumed(log)
      ensures exists f | f in files :: f.locator == p && "res://" <= p && FileStands(fs, dirs, since, f)
      ensures forall d | d in dirs && Affected(p[6..], d) :: DirectoryStands(fs, dirs, since, d)
    {
      ConsumedIsEmitted(log);
      WalkedLocators(data, files, dirs);
      assert p in Locators(files);
      var k :| 0 <= k < |files| && files[k].locator == p;
      HeldUncovered(files, pending, invalidated, changed, log, p);
      assert files[k] in files;
      forall d | d in dirs && Affected(p[6..], d)
        ensures DirectoryStands(fs, dirs, since, d)
      {
        if Covered(d, invalidated) {
          CoveredBy(p[6..], d, invalidated);
          assert false;
        }
      }
    }
  }

  // ---- a tree nobody touches ----

  /** No deadline passes, the binding holds and the consumer takes every message. */
  ghost predicate Willing(fs: Fs) {
    forall t :: !fs.expired(t) && fs.bound(t) && fs.accepts(t) && fs.clones(t)
  }

  lemma WillingAt(fs: Fs, t: nat)
    ensures Willing(fs) ==> !fs.expired(t) && fs.bound(t) && fs.accepts(t) && fs.clones(t)
  {
  }

  lemma MovedSolid(fs: Fs, dirs: map<string, DirectoryWitness>, files: seq<FileWitness>, changed: bool, completed: bool)
    requires !Unmoved(fs)
    ensures Solid(fs, dirs, files, changed, completed)
  {
    hide Unmoved;
  }

  lemma FileMoved(fs: Fs, t: nat, dirs: map<string, DirectoryWitness>, files: seq<FileWitness>, changed: bool, completed: bool, index: nat)
    requires Solid(fs, dirs, files, changed, completed) && index < |files| && "res://" <= files[index].locator
    requires fs.CheckFileAt(t, dirs, files[index]).Err?
    ensures !Unmoved(fs)
  {
    hide Unmoved, Fs.CheckFileAt, AllSolid;
    if Unmoved(fs) { FileSolid(fs, t, dirs, files, files[index]); }
  }

  lemma DirectoryMoved(fs: Fs, t: nat, u: nat, dirs: map<string, DirectoryWitness>, files: seq<FileWitness>, changed: bool, completed: bool,
                       relative: string)
    requires Solid(fs, dirs, files, changed, completed) && relative in dirs
    requires fs.ReopenAt(t, dirs, relative).Ok? ==>
               var current := fs.stat(u, fs.ReopenAt(t, dirs, relative).value);
               current.None? || !fs.Membership(dirs[relative].meta, current.value)
    ensures !Unmoved(fs)
  {
    hide Unmoved, Fs.ReopenAt, AllSolid;
    if Unmoved(fs) { DirectorySolid(fs, t, u, dirs, files, relative); }
  }

  lemma ArriveSolid(fs: Fs, dirs: map<string, DirectoryWitness>, files: seq<FileWitness>, changed: bool, completed: bool, dir: Handle,
                    base: seq<Name>, w: DirectoryWitness)
    requires Solid(fs, dirs, files, changed, completed) && Standing(fs, dirs, dir, base, |base|)
    requires fs.Static() ==> fs.stat(0, dir) == Some(w.meta)
    requires fs.Static() ==>
               if base == [] then w.markers == None else fs.MarkersAt(0, dir).Ok? && w.markers == Some(fs.MarkersAt(0, dir).value)
    ensures Solid(fs, dirs[Under("", base) := w], files, changed, completed)
    ensures Standing(fs, dirs[Under("", base) := w], dir, base, |base| + 1)
  {
    hide Fs.Static, Fs.MarkersAt, AllSolid, Under, Chain;
    if Unmoved(fs) {
      RecordSolid(fs, dirs, files, dir, base, w);
      var more := dirs[Under("", base) := w];
      MorePrefixes(base, |base|, dirs, more);
      assert base[..|base|] == base;
    }
  }

  lemma AdmitSolid(fs: Fs, t: nat, u: nat, dirs: map<string, DirectoryWitness>, files: seq<FileWitness>, changed: bool, completed: bool,
                   dir: Handle, base: seq<Name>, name: Name, file: FileWitness)
    requires Solid(fs, dirs, files, changed, completed) && Standing(fs, dirs, dir, base, |base| + 1)
    requires fs.lookup(u, dir, name) == Found(file.meta) && file.meta.kind.Regular? && fs.CheckedOpen(t, dir, name, file.meta).Ok?
    requires file.locator == Scope(Under("", base + [name]))
    ensures Solid(fs, dirs, files + [file], changed, completed)
  {
    hide Unmoved, AllSolid, Standing, Fs.CheckedOpen, Under;
    RecordFileSolid(fs, t, u, dirs, files, dir, base, name, file);
  }

  /** A directory that no longer reads as it was witnessed was touched. */
  lemma SettledMoved(fs: Fs, t: nat, u: nat, dirs: map<string, DirectoryWitness>, files: seq<FileWitness>, changed: bool, completed: bool,
                     dir: Handle, base: seq<Name>, before: Meta)
    requires Solid(fs, dirs, files, changed, completed) && Standing(fs, dirs, dir, base, |base| + 1)
    requires fs.Static() ==> fs.stat(0, dir) == Some(before)
    ensures fs.stat(t, dir).None? || !fs.Membership(before, fs.stat(t, dir).value) ==> !Unmoved(fs)
    ensures (&& Under("", base) in dirs && dirs[Under("", base)].markers.Some?
             && (fs.MarkersAt(u, dir).Err? || !fs.MarkersSame(dirs[Under("", base)].markers.value, fs.MarkersAt(u, dir).value))) ==> !Unmoved(fs)
  {
    hide Fs.Static, AllSolid, Under, Chain, Fs.MarkersAt, Fs.MarkersSame, Fs.Membership;
    if Unmoved(fs) {
      assert base[..|base|] == base;
      assert Under("", base[..|base|]) in dirs;
      SettleSolid(fs, t, u, dirs, files, dir, base);
      SettleSolid(fs, 0, u, dirs, files, dir, base);
    }
  }

  /** An untouched tree gives no reason to withdraw anything. */
  lemma Untouched(fs: Fs, dirs: map<string, DirectoryWitness>, files: seq<FileWitness>, pending: seq<nat>, invalidated: seq<string>,
                  result: Collection, log: seq<Progress>)
    requires Solid(fs, dirs, files, result.changed, result.recheckCompleted)
    requires LogInv(files, pending, invalidated, result.changed, log)
    ensures Unmoved(fs) ==> !result.changed && result.recheckCompleted && Withdrawn(log) == []
  {
    hide Unmoved, AllSolid;
  }

  lemma RootStanding(fs: Fs, dirs: map<string, DirectoryWitness>)
    ensures Standing(fs, dirs, fs.root, [], 0)
  {
  }

  lemma StaticMarkers(fs: Fs, t: nat, dir: Handle)
    ensures fs.Static() ==> fs.MarkersAt(t, dir) == fs.MarkersAt(0, dir)
  {
    hide Fs.MarkersAt, Fs.Static;
    if fs.Static() { MarkersStatic(fs, t, dir); }
  }

  lemma StaticStat(fs: Fs, t: nat, dir: Handle)
    ensures fs.Static() ==> fs.stat(t, dir) == fs.stat(0, dir)
  {
  }

  lemma AtNamed(fs: Fs, data: Name, dir: Handle, relative: string, base: seq<Name>)
    requires At(fs, data, dir, relative, base)
    ensures relative == Under("", base)
  {
  }

  lemma OpenUnmoved(fs: Fs, t: nat, dir: Handle, name: string, meta: Meta)
    ensures Unmoved(fs) ==> fs.CheckedOpen(t, dir, name, meta) == fs.CheckedOpen(0, dir, name, meta)
  {
    hide Fs.CheckedOpen, Fs.Static;
    if Unmoved(fs) { CheckedOpenStatic(fs, t, dir, name, meta); }
  }

  lemma UnmovedStatic(fs: Fs)
    ensures Unmoved(fs) ==> fs.Static()
  {
  }

  lemma FileRoom(result: Collection, files: seq<FileWitness>, child: string)
    requires |files| == ENTRY_LIMIT
    ensures Reached(Gap(EntryLimit, Scope(child), Enumerate), result, files)
  {
  }

  lemma NoRoomForFile(a: Ledger, b: Ledger, path: string)
    requires !b.open && |a.tally.paths| >= ENTRY_LIMIT
    ensures Pays(a, b, Cost(Taken(path)))
  {
    PaysLimit(a, b, Cost(Taken(path)));
  }

  lemma NoRoomForDirectory(a: Ledger, b: Ledger, depth: nat, t: Tally)
    requires !b.open && (a.tally.directories >= DIRECTORY_LIMIT || depth > DEPTH_LIMIT)
    ensures Pays(a, b, Join(Asked(depth), t))
  {
    PaysLimit(a, b, Join(Asked(depth), t));
  }

  lemma NoRoomForEntry(a: Ledger, b: Ledger)
    requires !b.open && a.tally.entries >= WORK_LIMIT
    ensures Pays(a, b, SEEN)
  {
    PaysLimit(a, b, SEEN);
  }

  const EMPTY := Folder(0, [], Nil)

  lemma Audited(result: Collection, files: seq<FileWitness>, reported: seq<Gap>, need: nat, deepest: nat)
    requires Accounted(result, files, reported, need, deepest)
    ensures Reports(result, reported) && forall g | g in reported :: Reached(g, result, files)
  {
    hide Reports, Reached;
  }

  lemma AskedAccounted(result: Collection, files: seq<FileWitness>, reported: seq<Gap>, need: nat, deepest: nat, depth: nat)
    requires Accounted(result, files, reported, need, deepest) && result.visitedDirectories <= DIRECTORY_LIMIT && depth <= DEPTH_LIMIT
    ensures Accounted(result, files, reported, Max(need, result.visitedDirectories), Max(deepest, depth))
    ensures result.visitedDirectories < DIRECTORY_LIMIT ==>
              Accounted(result, files, reported, Max(need, result.visitedDirectories + 1), Max(deepest, depth))
  {
    hide Reports, Reached;
  }

  lemma GapsNothing(a: Ledger)
    ensures Pays(a, a, Gaps([]))
  {
    PaysNothing(a);
  }

  lemma CostPlain(row: Row)
    ensures row.Passed? ==> Cost(row) == NOTHING
    ensures row.Missed? ==> Cost(row) == Gaps([row.gap])
  {
  }

  /** What a directory costs once it was asked for. */
  function Inside(row: Row): Tally {
    if row.Shut? then Gaps([row.gap]) else if row.Entered? then Total(row.folder) else NOTHING
  }

  lemma DirectoryRow(fs: Fs, data: Name, dir: Handle, base: seq<Name>, name: Name, meta: Meta, row: Row)
    requires OpeningFits(fs, data, dir, base, name, meta, row)
    ensures Cost(row) == Join(Asked(|base| + 1), Inside(row))
    ensures var opening := fs.CheckedOpen(0, dir, name, meta);
            if opening.Err? then Inside(row) == Gaps([Here(base + [name], DirectoryFault(opening.error))])
            else row.Entered? && Fits(fs, data, opening.value, base + [name], row.folder) && Inside(row) == Total(row.folder)
  {
    hide Fs.CheckedOpen, Under, Total;
    if row.Entered? {
      assert Fits(fs, data, fs.CheckedOpen(0, dir, name, meta).value, base + [name], row.folder);
      AskedFirst(row.folder);
    }
  }

  lemma DirectoryRoom(result: Collection, files: seq<FileWitness>, child: string, comps: seq<Name>)
    requires child == Under("", comps)
    ensures |comps| == DEPTH_LIMIT + 1 ==> Reached(Gap(DepthLimit, Scope(child), Enumerate), result, files)
    ensures result.visitedDirectories == DIRECTORY_LIMIT ==> Reached(Gap(DirectoryLimit, Scope(child), Enumerate), result, files)
  {
  }

  lemma NoDirectory(a: Ledger, b: Ledger, depth: nat, row: Row)
    requires !b.open && (a.tally.directories >= DIRECTORY_LIMIT || depth > DEPTH_LIMIT)
    ensures Pays(a, b, Join(Asked(depth), Inside(row)))
  {
    hide Inside;
    NoRoomForDirectory(a, b, depth, Inside(row));
  }

  function ReadTrouble(fs: Fs, data: Name, dir: Handle, base: seq<Name>): seq<Gap> {
    DataTrouble(fs, data, base) + if Skips(fs, dir, base) then [] else ListTrouble(fs, dir, base)
  }

  /** The rows of a directory that was witnessed. */
  ghost predicate DirectoryPlan(fs: Fs, data: Name, dir: Handle, base: seq<Name>, rows: Rows) {
    if !Skips(fs, dir, base) && fs.lists(0, dir) then RowsFit(fs, data, dir, base, 0, rows) else rows == Nil
  }

  lemma FolderParts(fs: Fs, data: Name, dir: Handle, base: seq<Name>, plan: Folder)
    ensures Fits(fs, data, dir, base, plan) && ArrivalTrouble(fs, dir, base) == [] ==> DirectoryPlan(fs, data, dir, base, plan.rows)
    ensures Fits(fs, data, dir, base, plan) && ArrivalTrouble(fs, dir, base) != [] ==>
              Total(plan) == Arrival(|base|, ArrivalTrouble(fs, dir, base))
  {
    hide ArrivalTrouble, Skips, RowsFit;
    if Fits(fs, data, dir, base, plan) && ArrivalTrouble(fs, dir, base) != [] {
      JoinNothing(Arrival(|base|, ArrivalTrouble(fs, dir, base)));
    }
  }

  lemma FolderPaid(fs: Fs, data: Name, dir: Handle, base: seq<Name>, plan: Folder, a: Ledger, b: Ledger, c: Ledger)
    requires fs.Static() ==> Pays(a, b, Arrival(|base|, ArrivalTrouble(fs, dir, base)))
    ensures (&& fs.Static() && Fits(fs, data, dir, base, plan) && ArrivalTrouble(fs, dir, base) == []
             && Pays(b, c, Join(Gaps(ReadTrouble(fs, data, dir, base)), Sum(plan.rows)))) ==> Pays(a, c, Total(plan))
  {
    hide ArrivalTrouble, Skips, RowsFit, Fs.Static, Pays, Join, Sum, DataTrouble, ListTrouble;
    if && fs.Static() && Fits(fs, data, dir, base, plan) && ArrivalTrouble(fs, dir, base) == []
       && Pays(b, c, Join(Gaps(ReadTrouble(fs, data, dir, base)), Sum(plan.rows)))
    {
      PaysBoth(a, b, c, Arrival(|base|, []), Join(Gaps(ReadTrouble(fs, data, dir, base)), Sum(plan.rows)));
      ArrivalSplits(|base|, [], ReadTrouble(fs, data, dir, base), Sum(plan.rows));
      assert [] + ReadTrouble(fs, data, dir, base) == plan.trouble;
    }
  }

  lemma ArrivalParts(fs: Fs, dir: Handle, base: seq<Name>)
    ensures fs.stat(0, dir).None? ==> ArrivalTrouble(fs, dir, base) == [Here(base, DirectoryUnreadable)]
    ensures fs.stat(0, dir).Some? && base != [] && fs.MarkersAt(0, dir).Err? ==>
              ArrivalTrouble(fs, dir, base) == [Here(base, Host(fs.MarkersAt(0, dir).error))]
    ensures fs.stat(0, dir).Some? && (base == [] || fs.MarkersAt(0, dir).Ok?) ==> ArrivalTrouble(fs, dir, base) == []
  {
  }

  lemma ArrivalPaid(fs: Fs, dir: Handle, base: seq<Name>, a: Ledger, b: Ledger, c: Ledger)
    requires Pays(a, b, Arrival(|base|, []))
    ensures Pays(b, c, Gaps(ArrivalTrouble(fs, dir, base))) ==> Pays(a, c, Arrival(|base|, ArrivalTrouble(fs, dir, base)))
  {
    hide ArrivalTrouble, Pays, Join;
    var trouble := ArrivalTrouble(fs, dir, base);
    if Pays(b, c, Gaps(trouble)) {
      PaysBoth(a, b, c, Arrival(|base|, []), Gaps(trouble));
      JoinNothing(Gaps(trouble));
      ArrivalSplits(|base|, [], trouble, NOTHING);
      JoinNothing(Arrival(|base|, trouble));
      assert [] + trouble == trouble;
    }
  }

  lemma ReadPaid(fs: Fs, data: Name, dir: Handle, base: seq<Name>, rows: Rows, a: Ledger, b: Ledger, c: Ledger)
    requires fs.Static() ==> Pays(a, b, Gaps(DataTrouble(fs, data, base)))
    ensures (fs.Static() && !Skips(fs, dir, base) && Pays(b, c, Join(Gaps(ListTrouble(fs, dir, base)), Sum(rows)))) ==>
              Pays(a, c, Join(Gaps(ReadTrouble(fs, data, dir, base)), Sum(rows)))
  {
    hide DataTrouble, ListTrouble, Skips, Pays, Join, Sum, Fs.Static, Gaps;
    if fs.Static() && !Skips(fs, dir, base) && Pays(b, c, Join(Gaps(ListTrouble(fs, dir, base)), Sum(rows))) {
      PaysBoth(a, b, c, Gaps(DataTrouble(fs, data, base)), Join(Gaps(ListTrouble(fs, dir, base)), Sum(rows)));
      GapsSplit(DataTrouble(fs, data, base), ListTrouble(fs, dir, base), Sum(rows));
    }
  }

  lemma SkipPaid(fs: Fs, data: Name, dir: Handle, base: seq<Name>, rows: Rows, a: Ledger, b: Ledger)
    requires fs.Static() ==> Pays(a, b, Gaps(DataTrouble(fs, data, base)))
    ensures fs.Static() && Skips(fs, dir, base) && rows == Nil ==> Pays(a, b, Join(Gaps(ReadTrouble(fs, data, dir, base)), Sum(rows)))
  {
    hide DataTrouble, Skips, Pays, Join, Fs.Static, Gaps;
    if fs.Static() && Skips(fs, dir, base) && rows == Nil {
      JoinNothing(Gaps(DataTrouble(fs, data, base)));
      assert DataTrouble(fs, data, base) + [] == DataTrouble(fs, data, base);
    }
  }

  lemma UnmovedLists(fs: Fs, t: nat, dir: Handle)
    ensures Unmoved(fs) ==> fs.lists(t, dir) == fs.lists(0, dir)
  {
  }

  lemma UnlistedPaid(fs: Fs, dir: Handle, base: seq<Name>, rows: Rows, a: Ledger, b: Ledger)
    requires Pays(a, b, Gaps([Here(base, DirectoryUnreadable)]))
    ensures !fs.lists(0, dir) && rows == Nil ==> Pays(a, b, Join(Gaps(ListTrouble(fs, dir, base)), Sum(rows)))
  {
    hide Pays, Join, Gaps;
    JoinNothing(Gaps([Here(base, DirectoryUnreadable)]));
  }

  lemma ListedPaid(fs: Fs, dir: Handle, base: seq<Name>, rows: Rows)
    ensures fs.lists(0, dir) ==> Join(Gaps(ListTrouble(fs, dir, base)), Sum(rows)) == Sum(rows)
  {
    JoinNothing(Sum(rows));
  }

  /** The first `i` entries are paid for; `rest` is still to come, unless a limit ended the enumeration. */
  ghost predicate Spending(fs: Fs, data: Name, dir: Handle, base: seq<Name>, i: nat, done: bool, rows: Rows, spent: Tally, rest: Rows,
                           a: Ledger, b: Ledger)
  {
    && Pays(a, b, spent) && Join(spent, Sum(rest)) == Sum(rows)
    && (if done then rest == Nil || !b.open else RowsFit(fs, data, dir, base, i, rest))
  }

  ghost predicate Turned(rows: Rows, done: bool, a: Ledger, b: Ledger) {
    match rows
    case Nil => done && a == b
    case Cons(row, _) => Pays(a, b, Join(SEEN, Cost(row))) && (done ==> !b.open)
  }

  lemma StartPaid(fs: Fs, data: Name, dir: Handle, base: seq<Name>, rows: Rows, a: Ledger)
    ensures RowsFit(fs, data, dir, base, 0, rows) ==> Spending(fs, data, dir, base, 0, false, rows, NOTHING, rows, a, a)
  {
    hide Sum, RowsFit, Pays, Join;
    PaysNothing(a);
    JoinNothing(Sum(rows));
  }

  function Rest(rows: Rows): Rows {
    if rows.Cons? then rows.rest else rows
  }

  function Spent(spent: Tally, rows: Rows): Tally {
    if rows.Cons? then Join(spent, Join(SEEN, Cost(rows.row))) else spent
  }

  lemma SpendMore(fs: Fs, data: Name, dir: Handle, base: seq<Name>, i: nat, done: bool, rows: Rows, spent: Tally, rest: Rows,
                  a: Ledger, b: Ledger, c: Ledger)
    requires Spending(fs, data, dir, base, i, false, rows, spent, rest, a, b) && Turned(rest, done, b, c)
    ensures Spending(fs, data, dir, base, if done then i else i + 1, done, rows, Spent(spent, rest), Rest(rest), a, c)
  {
    hide RowFits, Pays, Join, Cost;
    if rest.Cons? {
      PaysBoth(a, b, c, spent, Join(SEEN, Cost(rest.row)));
      JoinAssociative(spent, Join(SEEN, Cost(rest.row)), Sum(rest.rest));
    }
  }

  lemma SpentAll(fs: Fs, data: Name, dir: Handle, base: seq<Name>, i: nat, rows: Rows, spent: Tally, rest: Rows, a: Ledger, b: Ledger)
    ensures Spending(fs, data, dir, base, i, true, rows, spent, rest, a, b) ==> Pays(a, b, Sum(rows))
  {
    hide Pays, Join, RowsFit;
    if Spending(fs, data, dir, base, i, true, rows, spent, rest, a, b) {
      JoinNothing(spent);
      if rest != Nil { PaysClosed(a, b, spent, Sum(rest)); }
    }
  }

  lemma RowsEnd(fs: Fs, data: Name, dir: Handle, base: seq<Name>, i: nat, rows: Rows)
    requires fs.Static() ==> fs.next(0, dir, i) == End
    ensures fs.Static() && RowsFit(fs, data, dir, base, i, rows) ==> rows == Nil
  {
    if fs.Static() && rows.Cons? { assert !RowFits(fs, data, dir, base, fs.next(0, dir, i), rows.row); }
  }

  class Walker {
    const fs: Fs
    const data: Name
    var now: nat
    var directories: map<string, DirectoryWitness>
    var files: seq<FileWitness>
    var pending: seq<nat>
    var invalidated: seq<string>
    var result: Collection
    var stop: bool
    var log: seq<Progress>
    /** Every gap so far, kept or counted. */
    ghost var reported: seq<Gap>
    /** The most directories asked for at once, and the deepest of them. */
    ghost var need: nat
    ghost var deepest: nat

    ghost predicate Valid()
      reads this`files, this`pending, this`invalidated, this`result, this`stop, this`log, this`directories, this`reported, this`need,
            this`deepest
    {
      && Accounted(result, files, reported, need, deepest)
      && (data == "godot" || data == ".godot")
      && Bounded(result, files)
      && Recorded(data, files, directories)
      && LogInv(files, pending, invalidated, result.changed, log)
      && (stop ==> !result.exhausted)
      && Solid(fs, directories, files, result.changed, result.recheckCompleted)
    }

    /** The books of the walk so far. */
    ghost function Books(): Ledger
      reads this`files, this`result, this`reported, this`need, this`deepest
    {
      Ledger(result.exhausted,
             Tally(result.visitedEntries, result.visitedDirectories, need, deepest, Locators(files), reported))
    }

    lemma Counters()
      requires Valid()
      ensures result.visitedEntries <= WORK_LIMIT
    {
    }

    twostate predicate Grown()
      reads this
    {
      && Later(old(result), result)
      && old(files) <= files
      && old(directories).Keys <= directories.Keys
      && old(log) <= log
      && old(now) <= now
      && (old(stop) ==> stop)
    }

    constructor (fs: Fs, data: Name)
      requires data == "godot" || data == ".godot"
      ensures Valid() && this.fs == fs && this.data == data
      ensures files == [] && log == [] && pending == [] && directories == map[] && !stop
      ensures result == Collection(0, 0, [], 0, true, true, false) && Books() == Ledger(true, NOTHING)
    {
      this.fs := fs;
      this.data := data;
      now := 0;
      directories := map[];
      files, pending, invalidated, log := [], [], [], [];
      result := Collection(0, 0, [], 0, true, true, false);
      stop := false;
      reported, need, deepest := [], 0, 0;
    }

    /** While nothing changed, every recorded file has been listed except the pending batch. */
    ghost predicate Delivered()
      requires Valid()
      reads this
    {
      !result.changed ==> Emitted(log) == Locators(files[..|files| - |pending|])
    }

    method RecordGap(code: Code, relative: string, stage: Stage)
      requires Valid()
      requires !code.Limit()
      modifies this`result, this`reported
      ensures Valid() && Grown()
      ensures !result.Clean()
      ensures result.(gaps := [], omittedGaps := 0) == old(result).(gaps := [], omittedGaps := 0)
      ensures Pays(old(Books()), Books(), Gaps([Gap(code, Scope(relative), stage)]))
    {
      hide Solid, Recorded, LogInv, Pays, Gaps, Accounted, Locators;
      Report(Gap(code, Scope(relative), stage), true);
      PaysGaps(old(Books()), Books(), [Gap(code, Scope(relative), stage)]);
    }

    /** Keeps a gap while there is room and counts it otherwise. */
    method Report(gap: Gap, exhaustive: bool)
      requires Valid() && Reached(gap, result, files) && exhaustive == !gap.code.Limit()
      modifies this`result, this`reported
      ensures Valid() && Later(old(result), result) && !result.Clean() && reported == old(reported) + [gap]
      ensures result.(gaps := [], omittedGaps := 0) ==
              old(result).(gaps := [], omittedGaps := 0, exhausted := old(result).exhausted && exhaustive)
    {
      hide Solid, Recorded, LogInv, Accounted, Reached;
      if |result.gaps| < GAP_LIMIT {
        result := result.(gaps := result.gaps + [gap]);
      } else if result.omittedGaps < 0xFFFF_FFFF {
        result := result.(omittedGaps := result.omittedGaps + 1);
      }
      if !exhaustive { result := result.(exhausted := false); }
      OneMoreGap(old(result), result, files, reported, need, deepest, gap);
      reported := reported + [gap];
    }

    /** A limit was reached: the listing is no longer exhaustive. */
    method RecordLimit(code: Code, relative: string)
      requires Valid() && code.Limit() && Reached(Gap(code, Scope(relative), Enumerate), result, files)
      modifies this`result, this`reported
      ensures Valid() && Grown()
      ensures !result.exhausted
      ensures result.(gaps := [], omittedGaps := 0) == old(result).(gaps := [], omittedGaps := 0, exhausted := false)
    {
      hide Solid, Recorded, LogInv, Accounted, Reached;
      Report(Gap(code, Scope(relative), Enumerate), false);
    }

    /** Withdraws a prefix, telling the consumer unless an earlier prefix already covers it. */
    method Withdraw(relative: string, fault: Fault, stage: Stage) returns (ok: bool)
      requires Valid() && !Unmoved(fs)
      modifies this`result, this`reported, this`invalidated, this`log, this`now
      ensures Valid() && Grown()
      ensures Willing(fs) ==> ok
      ensures result.changed
      ensures result.(gaps := [], omittedGaps := 0) == old(result).(gaps := [], omittedGaps := 0, changed := true)
      ensures old(invalidated) <= invalidated && Emitted(log) == Emitted(old(log))
      ensures Covered(relative, invalidated)
      ensures if Covered(relative, old(invalidated))
              then log == old(log) && ok
              else log == old(log) + [Invalidate(Scope(relative))] && invalidated == old(invalidated) + [relative]
    {
      hide Accounted, Pays, Solid, Standing, Unmoved, Willing, Recorded, WalkedFile, WalkedDirectory, LogInv, Affected,
           Emitted, Gaps,
           Walker.Books, Covered;
      ClearPending(files, pending, invalidated, result.changed, log);
      var uncovered := !Covered(relative, invalidated);
      if uncovered { Announce(relative); } else { CoveredChanged(relative, invalidated); }
      RecordGap(Host(fault), relative, stage);
      ok := true;
      if uncovered {
        WillingAt(fs, now);
        ok := fs.accepts(now);
        now := now + 1;
      }
    }

    /** The first withdrawal of a prefix: from here on the listing counts as changed. */
    method Announce(relative: string)
      requires Valid() && !Unmoved(fs)
      modifies this`result, this`invalidated, this`log
      ensures Valid() && Grown()
      ensures result == old(result).(changed := true) && invalidated == old(invalidated) + [relative]
      ensures log == old(log) + [Invalidate(Scope(relative))] && Emitted(log) == Emitted(old(log))
      ensures Covered(relative, invalidated)
    {
      hide Accounted, Solid, Unmoved, Recorded, LogInv, Affected, Emitted, Covered;
      WithdrawStep(files, pending, invalidated, result.changed, log, relative);
      StaysAccounted(result, result.(changed := true), files, files, reported, need, deepest);
      MovedSolid(fs, directories, files, true, result.recheckCompleted);
      invalidated := invalidated + [relative];
      log := log + [Invalidate(Scope(relative))];
      result := result.(changed := true);
    }

    /** Reopens every named component, comparing it with its witness. */
    method Reopen(relative: string) returns (r: Result<Handle, CheckFailure>)
      modifies this`now
      ensures old(now) <= now
      ensures r == fs.ReopenAt(old(now), directories, relative)
      ensures r.Ok? ==> now == old(now) + 3 + STEP * |Components(relative)|
    {
      hide Fs.Step, Fs.RootHandle, Segments, NonEmpty, Child;
      var root := fs.RootHandle(now, directories);
      now := now + 3;
      if root.Err? { return Err(root.error); }
      var dir, prefix, rest := root.value, "", Components(relative);
      while rest != []
        invariant |rest| <= |Components(relative)|
        invariant now == old(now) + 3 + STEP * (|Components(relative)| - |rest|)
        invariant fs.ReopenAt(old(now), directories, relative) == fs.Descend(now, directories, dir, prefix, rest)
        decreases |rest|
      {
        prefix := Child(prefix, rest[0]);
        var step := fs.Step(now, directories, dir, prefix, rest[0]);
        now := now + STEP;
        if step.Err? { return Err(CheckFailure(step.error, prefix)); }
        dir, rest := step.value, rest[1..];
      }
      return Ok(dir);
    }

    method CheckFile(index: nat) returns (r: Result<Handle, CheckFailure>)
      requires index < |files| && "res://" <= files[index].locator
      modifies this`now
      ensures old(now) <= now
      ensures r == fs.CheckFileAt(old(now), directories, files[index])
    {
      hide Fs.Descend, Fs.FileAt, Fs.RootHandle, RSplit, Segments;
      var relative := files[index].locator[6..];
      var (parent, name) := ParentAndName(relative);
      var reopened := Reopen(parent);
      if reopened.Err? { return Err(reopened.error); }
      r := fs.FileAt(now, reopened.value, name, relative, files[index].meta);
      now := now + 5;
    }

    /** Checks one file of a batch and withdraws what has gone. */
    method CheckOne(index: nat) returns (ok: bool, stands: bool)
      requires Valid() && pending == [] && index < |files| && "res://" <= files[index].locator
      modifies this`now, this`invalidated, this`result, this`reported, this`log
      ensures Valid() && Grown() && old(invalidated) <= invalidated
      ensures result.(gaps := [], omittedGaps := 0, changed := false) == old(result).(gaps := [], omittedGaps := 0, changed := false)
      ensures Emitted(log) == Emitted(old(log))
      ensures stands ==> log == old(log) && invalidated == old(invalidated)
      ensures Unmoved(fs) || stands ==> result == old(result) && reported == old(reported)
      ensures !stands ==> result.changed
      ensures Willing(fs) ==> ok
    {
      hide Accounted, Pays, Solid, Standing, Unmoved, Willing, Recorded, WalkedFile, WalkedDirectory, LogInv, Bounded, Affected,
           Fs.CheckFileAt, Locators, Emitted, Covered;
      ghost var tick := now;
      var checked := CheckFile(index);
      if checked.Ok? { return true, true; }
      FileMoved(fs, tick, directories, files, result.changed, result.recheckCompleted, index);
      ok := Withdraw(checked.error.relative, checked.error.code, Enumerate);
      return ok, false;
    }

    /** Rechecks one batch; a file already covered by a withdrawn prefix is passed over. */
    method CheckBatch(start: nat, count: nat) returns (ok: bool, entries: seq<string>)
      requires Valid() && pending == [] && start + count == |files|
      modifies this`now, this`invalidated, this`result, this`reported, this`log
      ensures Valid() && Grown()
      ensures old(invalidated) <= invalidated
      ensures result.exhausted == old(result).exhausted
      ensures result.visitedEntries == old(result).visitedEntries
      ensures result.visitedDirectories == old(result).visitedDirectories
      ensures |entries| <= count
      ensures forall e | e in entries :: e in Locators(files)
      ensures ok && !result.changed ==> log == old(log) && entries == Locators(files[start..])
      ensures Emitted(log) == Emitted(old(log))
      ensures Unmoved(fs) ==> result == old(result) && reported == old(reported)
      ensures Willing(fs) ==> ok
    {
      hide Accounted, Pays, Solid, Standing, Unmoved, Willing, Recorded, WalkedFile, WalkedDirectory, LogInv, Bounded, Affected,
           Eligible, Fs.CheckFileAt, Locators, Emitted, Covered, Shallow;
      WalkedLocators(data, files, directories);
      entries := [];
      NoLocators(files, start);
      var i := 0;
      while i < count
        invariant 0 <= i <= count
        invariant Valid() && Grown()
        invariant old(invalidated) <= invalidated
        invariant result.exhausted == old(result).exhausted
        invariant result.visitedEntries == old(result).visitedEntries
        invariant result.visitedDirectories == old(result).visitedDirectories
        invariant Emitted(log) == Emitted(old(log))
        invariant Unmoved(fs) ==> result == old(result) && reported == old(reported)
        invariant |entries| <= i
        invariant forall e | e in entries :: e in Locators(files)
        invariant !result.changed ==> log == old(log) && entries == Locators(files[start..start + i])
      {
        var index := start + i;
        var locator := files[index].locator;
        NextLocator(files, start, i);
        ClearPending(files, pending, invalidated, result.changed, log);
        if !Covered(locator[6..], invalidated) {
          var told, stands := CheckOne(index);
          if !told { return false, entries; }
          if stands { entries := entries + [locator]; }
        } else {
          CoveredChanged(locator[6..], invalidated);
        }
        i := i + 1;
      }
      assert files[start..start + count] == files[start..];
      return true, entries;
    }

    /** Rechecks the pending batch and reports the files that still stand. */
    method Flush() returns (ok: bool)
      requires Valid() && Delivered() && |pending| <= BATCH_LIMIT
      modifies this`now, this`pending, this`invalidated, this`result, this`reported, this`log
      ensures Valid() && Grown()
      ensures old(invalidated) <= invalidated
      ensures result.visitedEntries == old(result).visitedEntries
      ensures result.visitedDirectories == old(result).visitedDirectories
      ensures result.exhausted == old(result).exhausted
      ensures Unmoved(fs) ==> result == old(result) && reported == old(reported)
      ensures ok ==> Delivered() && pending == []
      ensures Willing(fs) ==> ok
    {
      hide Accounted, Pays, Solid, Standing, Unmoved, Willing, Recorded, WalkedFile, WalkedDirectory, LogInv, Bounded, Eligible,
           Emitted, Locators, Affected, Retain, Covered;
      WithinLimits(result, files);
      ClearPending(files, pending, invalidated, result.changed, log);
      if pending == [] { return true; }
      WillingAt(fs, now);
      if fs.expired(now) { return false; }
      if !fs.bound(now) { return false; }
      now := now + 1;
      var count := |pending|;
      var start := |files| - count;
      pending := [];
      var checked, entries := CheckBatch(start, count);
      if !checked { return false; }
      WillingAt(fs, now);
      if !fs.bound(now) { return false; }
      now := now + 1;
      ok := Emit(entries, start);
    }

    /** Reports the entries of a batch that no prefix has withdrawn meanwhile. */
    method Emit(entries: seq<string>, ghost start: nat) returns (ok: bool)
      requires Valid() && pending == [] && start <= |files| && |entries| <= BATCH_LIMIT && |Emitted(log)| + |entries| <= |files|
      requires forall e | e in entries :: e in Locators(files)
      requires !result.changed ==> Emitted(log) == Locators(files[..start]) && entries == Locators(files[start..])
      modifies this`now, this`log
      ensures Valid() && Grown() && Delivered()
      ensures Willing(fs) ==> ok
    {
      hide Accounted, Pays, Solid, Standing, Unmoved, Willing, Recorded, WalkedFile, WalkedDirectory, LogInv, Bounded, Eligible,
           Emitted, Locators, Affected, Retain, Covered, Shallow;
      WithinLimits(result, files);
      ClearPending(files, pending, invalidated, result.changed, log);
      var kept := Retain(entries, invalidated);
      WalkedLocators(data, files, directories);
      if !result.changed { Delivery(files, start, Emitted(log), kept); }
      if kept == [] { return true; }
      BatchStep(files, invalidated, result, log, kept);
      log := log + [Entries(kept, result.visitedEntries, result.visitedDirectories)];
      WillingAt(fs, now);
      ok := fs.accepts(now);
      now := now + 1;
    }

    /** Records a script whose name was just enumerated. */
    method Admit(dir: Handle, child: string, name: Name, meta: Meta, ghost base: seq<Name>, ghost seen: nat) returns (ok: bool)
      requires Standing(fs, directories, dir, base, |base| + 1) && fs.lookup(seen, dir, name) == Found(meta) && meta.kind.Regular?
      requires Valid() && Delivered() && |pending| < BATCH_LIMIT
      requires child == Under("", base + [name])
      requires WalkedFile(data, FileWitness(Scope(child), meta))
      modifies this`now, this`files, this`pending, this`invalidated, this`result, this`reported, this`stop, this`log
      ensures Valid() && Grown()
      ensures result.visitedEntries == old(result).visitedEntries
      ensures ok ==> Delivered() && |pending| < BATCH_LIMIT
      ensures ok && result.Clean() ==> files == old(files) + [FileWitness(Scope(child), meta)]
      ensures Willing(fs) ==> ok
      ensures ok && Unmoved(fs) ==>
                if fs.CheckedOpen(0, dir, name, meta).Err?
                then Pays(old(Books()), Books(), Gaps([Here(base + [name], Host(fs.CheckedOpen(0, dir, name, meta).error))]))
                else Pays(old(Books()), Books(), Cost(Taken(Scope(child))))
    {
      hide Accounted, Pays, Solid, Standing, Unmoved, Willing, Recorded, WalkedFile, WalkedDirectory, LogInv, Under,
           Fs.CheckedOpen,
           Gaps, Locators, Reached, Cost, Walker.Books, Emitted;
      OpenUnmoved(fs, now, dir, name, meta);
      var opening := fs.CheckedOpen(now, dir, name, meta);
      now := now + 4;
      if opening.Err? {
        RecordGap(Host(opening.error), child, Enumerate);
        return true;
      }
      if |files| == ENTRY_LIMIT {
        TooMany(child);
        return true;
      }
      var file := FileWitness(Scope(child), meta);
      AdmitSolid(fs, now - 4, seen, directories, files, result.changed, result.recheckCompleted, dir, base, name, file);
      Keep(file);
      ok := true;
      if |pending| == BATCH_LIMIT {
        ok := Flush();
      }
    }

    /** One script too many ends the walk. */
    method TooMany(child: string)
      requires Valid() && |files| == ENTRY_LIMIT
      modifies this`result, this`reported, this`stop
      ensures Valid() && Grown() && !result.exhausted
      ensures result.(gaps := [], omittedGaps := 0) == old(result).(gaps := [], omittedGaps := 0, exhausted := false)
      ensures Pays(old(Books()), Books(), Cost(Taken(Scope(child))))
    {
      hide Accounted, Pays, Solid, Recorded, LogInv, Bounded, Locators, Reached, Cost;
      FileRoom(result, files, child);
      RecordLimit(EntryLimit, child);
      stop := true;
      NoRoomForFile(old(Books()), Books(), Scope(child));
    }

    /** Adds a witness to the files and to the pending batch. */
    method Keep(file: FileWitness)
      requires Valid() && Delivered() && |pending| < BATCH_LIMIT && |files| < ENTRY_LIMIT && WalkedFile(data, file)
      requires Solid(fs, directories, files + [file], result.changed, result.recheckCompleted)
      modifies this`files, this`pending
      ensures Valid() && Grown() && Delivered()
      ensures files == old(files) + [file] && |pending| == |old(pending)| + 1
      ensures Pays(old(Books()), Books(), Cost(Taken(file.locator)))
    {
      hide Accounted, Pays, Cost, Locators, Solid, Standing, Unmoved, Willing, Recorded, WalkedFile, WalkedDirectory,
           LogInv, Under;
      StaysAccounted(result, result, files, files + [file], reported, need, deepest);
      AdmitStep(files, pending, invalidated, result.changed, log, file);
      RecordFile(data, files, directories, file);
      FreshFile(files, file);
      pending := pending + [|files|];
      files := files + [file];
      PaysTaken(old(Books()), Books(), file.locator);
    }

    /** Opens an enumerated directory and walks it, within the depth and directory limits. */
    method Enter(dir: Handle, child: string, name: Name, meta: Meta, depth: nat, ghost base: seq<Name>, ghost seen: nat, ghost row: Row)
      returns (ok: bool)
      requires Standing(fs, directories, dir, base, |base| + 1) && fs.lookup(seen, dir, name) == Found(meta)
      requires Valid() && Delivered() && |pending| < BATCH_LIMIT
      requires depth == |base| <= DEPTH_LIMIT && child == Under("", base + [name])
      requires forall n | n in base + [name] :: n[0] != '.'
      requires (base + [name])[0] != data
      requires meta.kind.Directory?
      requires Steady(fs, result) ==>
                 ListsName(fs, dir, name) && Reachable(fs, data, dir, base == [], name) && fs.lookup(0, dir, name) == Found(meta)
      modifies this
      ensures Valid() && Grown()
      ensures ok ==> Delivered() && |pending| < BATCH_LIMIT
      ensures ok && Steady(fs, result) ==> EntryExact(fs, data, dir, base, name, Locators(files[|old(files)|..]))
      ensures Willing(fs) ==> ok
      ensures ok && Unmoved(fs) && OpeningFits(fs, data, dir, base, name, meta, row) ==> Pays(old(Books()), Books(), Cost(row))
      decreases DEPTH_LIMIT - depth, 0
    {
      hide Accounted, Pays, Solid, Standing, Unmoved, Willing, Recorded, WalkedFile, WalkedDirectory, LogInv, Bounded, Under,
           Fs.CheckedOpen, Fs.Static, UniqueNames, Exact, EntryExact, Emitted, Locators, Reachable, ListsName,
           IgnoredDirectory, Fits, Total, Join, OpeningFits, Gaps, Asked, Walker.Books, Cost, Inside;
      if Unmoved(fs) && OpeningFits(fs, data, dir, base, name, meta, row) { DirectoryRow(fs, data, dir, base, name, meta, row); }
      WithinLimits(result, files);
      if depth == DEPTH_LIMIT || result.visitedDirectories == DIRECTORY_LIMIT {
        StopHere(child, depth, base + [name], row);
        return true;
      }
      Ask(depth + 1);
      ghost var asked := Books();
      OpenUnmoved(fs, now, dir, name, meta);
      var opening := fs.CheckedOpen(now, dir, name, meta);
      now := now + 4;
      if opening.Err? {
        RecordGap(DirectoryFault(opening.error), child, Enumerate);
        PaysBoth(old(Books()), asked, Books(), Asked(depth + 1), Gaps([Gap(DirectoryFault(opening.error), Scope(child), Enumerate)]));
        return true;
      }
      ok := EnterOpened(dir, opening.value, child, name, meta, depth, base, seen, now - 4, row);
      if Pays(asked, Books(), Inside(row)) { PaysBoth(old(Books()), asked, Books(), Asked(depth + 1), Inside(row)); }
    }

    /** Walks a directory that was just opened. */
    method EnterOpened(dir: Handle, below: Handle, child: string, name: Name, meta: Meta, depth: nat, ghost base: seq<Name>,
                       ghost seen: nat, ghost tick: nat, ghost row: Row)
      returns (ok: bool)
      requires Standing(fs, directories, dir, base, |base| + 1) && fs.lookup(seen, dir, name) == Found(meta) && meta.kind.Directory?
      requires Valid() && Delivered() && |pending| < BATCH_LIMIT && result.visitedDirectories < DIRECTORY_LIMIT
      requires depth == |base| < DEPTH_LIMIT && child == Under("", base + [name])
      requires (forall n | n in base + [name] :: n[0] != '.') && (base + [name])[0] != data
      requires fs.CheckedOpen(tick, dir, name, meta) == Ok(below)
      requires Steady(fs, result) ==>
                 ListsName(fs, dir, name) && Reachable(fs, data, dir, base == [], name) && fs.lookup(0, dir, name) == Found(meta)
      modifies this
      ensures Valid() && Grown()
      ensures ok ==> Delivered() && |pending| < BATCH_LIMIT
      ensures ok && Steady(fs, result) ==> EntryExact(fs, data, dir, base, name, Locators(files[|old(files)|..]))
      ensures Willing(fs) ==> ok
      ensures ok && Unmoved(fs) && row.Entered? && Fits(fs, data, below, base + [name], row.folder) ==>
                Pays(old(Books()), Books(), Total(row.folder))
      decreases DEPTH_LIMIT - depth - 1, 8
    {
      hide Walker.Valid, Accounted, Pays, Solid, Standing, Unmoved, Willing, Recorded, WalkedFile, WalkedDirectory,
           LogInv, Bounded, Under,
           Fs.CheckedOpen, Fs.Static, UniqueNames, Exact, EntryExact, Emitted, Locators, Reachable, ListsName, IgnoredDirectory, Fits,
           Total, Walker.Books;
      OpenedHandle(fs, tick, dir, name, meta);
      if fs.Static() { StaticAnswers(fs, tick, dir, name); }
      StepDown(fs, tick, seen, directories, dir, base, name, meta);
      ok := Visit(below, child, depth + 1, base + [name], if row.Entered? then row.folder else EMPTY);
      if ok && Steady(fs, result) {
        DirectoryEntry(fs, data, dir, base, name, below, Locators(files[|old(files)|..]));
      }
    }

    /** A directory beyond the depth limit or the directory limit is not opened. */
    method StopHere(child: string, depth: nat, ghost comps: seq<Name>, ghost row: Row)
      requires Valid() && child == Under("", comps) && |comps| == depth + 1
      requires depth == DEPTH_LIMIT || result.visitedDirectories == DIRECTORY_LIMIT
      modifies this`result, this`reported
      ensures Valid() && Grown() && !result.exhausted
      ensures result.changed == old(result).changed
      ensures Pays(old(Books()), Books(), Join(Asked(depth + 1), Inside(row)))
    {
      hide Inside, Accounted, Pays, Solid, Recorded, LogInv, Bounded, Under, Total, Join, Gaps, Asked, Reached;
      DirectoryRoom(result, files, child, comps);
      RecordLimit(if depth == DEPTH_LIMIT then DepthLimit else DirectoryLimit, child);
      NoDirectory(old(Books()), Books(), depth + 1, row);
    }

    /** Notes that one more directory is asked for, at this depth. */
    ghost method Ask(depth: nat)
      requires Valid() && result.visitedDirectories < DIRECTORY_LIMIT && depth <= DEPTH_LIMIT
      modifies this`need, this`deepest
      ensures Valid() && Pays(old(Books()), Books(), Asked(depth))
      ensures need == Max(old(need), result.visitedDirectories + 1) && deepest == Max(old(deepest), depth)
    {
      hide Solid, Recorded, LogInv, Locators, Accounted, Pays, Asked;
      var more, deeper := Max(need, result.visitedDirectories + 1), Max(deepest, depth);
      AskedAccounted(result, files, reported, need, deepest, depth);
      need, deepest := more, deeper;
      PaysAsked(old(Books()), Books(), depth);
    }

    method Visit(dir: Handle, relative: string, depth: nat, ghost base: seq<Name>, ghost plan: Folder) returns (ok: bool)
      requires Valid() && Delivered() && |pending| < BATCH_LIMIT
      requires depth == |base| <= DEPTH_LIMIT && result.visitedDirectories < DIRECTORY_LIMIT
      requires At(fs, data, dir, relative, base) && Standing(fs, directories, dir, base, |base|)
      modifies this
      ensures Valid() && Grown()
      ensures Willing(fs) ==> ok
      ensures ok ==> Delivered() && |pending| < BATCH_LIMIT
      ensures ok && Steady(fs, result) ==>
                if base != [] && IgnoredDirectory(fs, dir) then files == old(files)
                else Exact(fs, data, dir, base, Locators(files[|old(files)|..]))
      ensures ok && Unmoved(fs) && Fits(fs, data, dir, base, plan) ==> Pays(old(Books()), Books(), Total(plan))
      decreases DEPTH_LIMIT - depth, 7
    {
      hide Walker.Valid, Accounted, Pays, Solid, Standing, Unmoved, Willing, Recorded, WalkedFile, WalkedDirectory,
           LogInv, Bounded, Under, Fs.Static,
           UniqueNames, Exact, Emitted, Locators, At, IgnoredDirectory, DataMeta, Eligible, Fits, RowsFit, Total, Sum, Join,
           ArrivalTrouble, DirectoryPlan, Gaps, Arrival, Walker.Books;
      WillingAt(fs, now);
      if fs.expired(now) { return false; }
      UnmovedStatic(fs);
      ghost var start := Books();
      FolderParts(fs, data, dir, base, plan);
      var before, skip := Arrive(dir, relative, base);
      if before.None? { return true; }
      ghost var arrived := Books();
      ok := ReadThrough(dir, relative, before.value, skip, depth, base, plan.rows);
      FolderPaid(fs, data, dir, base, plan, start, arrived, Books());
    }

    /** Reads a directory unless it is excluded, and checks that it stood still meanwhile. */
    method ReadThrough(dir: Handle, relative: string, before: Meta, skip: bool, depth: nat, ghost base: seq<Name>, ghost rows: Rows)
      returns (ok: bool)
      requires Valid() && Delivered() && |pending| < BATCH_LIMIT && depth == |base| <= DEPTH_LIMIT
      requires At(fs, data, dir, relative, base) && Standing(fs, directories, dir, base, |base| + 1)
      requires fs.Static() ==> fs.stat(0, dir) == Some(before) && (skip <==> base != [] && IgnoredDirectory(fs, dir))
      modifies this
      ensures Valid() && Grown()
      ensures Willing(fs) ==> ok
      ensures ok ==> Delivered() && |pending| < BATCH_LIMIT
      ensures ok && Steady(fs, result) ==>
                if base != [] && IgnoredDirectory(fs, dir) then files == old(files)
                else Exact(fs, data, dir, base, Locators(files[|old(files)|..]))
      ensures ok && Unmoved(fs) && DirectoryPlan(fs, data, dir, base, rows) ==>
                Pays(old(Books()), Books(), Join(Gaps(ReadTrouble(fs, data, dir, base)), Sum(rows)))
      decreases DEPTH_LIMIT - depth, 6, 1
    {
      hide Walker.Valid, Accounted, Pays, Solid, Standing, Unmoved, Willing, Recorded, WalkedFile, WalkedDirectory,
           LogInv, Bounded, Under, Fs.Static,
           UniqueNames, Exact, Emitted, Locators, At, IgnoredDirectory, DataMeta, Eligible, RowsFit, Sum, Join, Gaps, DataTrouble,
           ListTrouble, Walker.Books;
      UnmovedStatic(fs);
      ghost var start := Books();
      var effective := DataLookup(dir, relative, base);
      ghost var looked := Books();
      ghost var had := directories;
      ok := true;
      if !skip {
        var listed;
        ok, listed := List(dir, relative, effective, depth, base, rows);
        ReadPaid(fs, data, dir, base, rows, start, looked, Books());
        if !ok || !listed { return ok; }
      } else {
        SkipPaid(fs, data, dir, base, rows, start, looked);
      }
      StandingStays(fs, had, directories, dir, base, |base| + 1);
      AtNamed(fs, data, dir, relative, base);
      ok := Settle(dir, relative, before, base);
    }

    /** Counts and witnesses a directory before its entries are read. */
    method Arrive(dir: Handle, relative: string, ghost base: seq<Name>) returns (before: Option<Meta>, skip: bool)
      requires Valid() && At(fs, data, dir, relative, base) && result.visitedDirectories < DIRECTORY_LIMIT && |base| <= DEPTH_LIMIT
      requires Standing(fs, directories, dir, base, |base|)
      modifies this`result, this`reported, this`need, this`deepest, this`now, this`directories
      ensures Valid() && Grown()
      ensures result.visitedDirectories == old(result).visitedDirectories + 1
      ensures result.changed == old(result).changed
      ensures before.None? ==> !result.Clean()
      ensures before.Some? && fs.Static() ==> (skip <==> base != [] && IgnoredDirectory(fs, dir))
      ensures before.Some? ==> relative in directories && directories[relative].meta == before.value
      ensures before.Some? ==> Standing(fs, directories, dir, base, |base| + 1)
      ensures before.Some? && fs.Static() ==> fs.stat(0, dir) == before
      ensures fs.Static() ==> (before.None? <==> ArrivalTrouble(fs, dir, base) != [])
      ensures fs.Static() ==> Pays(old(Books()), Books(), Arrival(|base|, ArrivalTrouble(fs, dir, base)))
    {
      hide Walker.Valid, ArrivalTrouble, Arrival, Gaps, Walker.Books, Locators;
      hide Accounted, Pays, Solid, Standing, Unmoved, Willing, Recorded, WalkedFile, WalkedDirectory, LogInv, Bounded,
           Under, Fs.Static,
           At, Fs.MarkersAt, IgnoredDirectory, Excluded;
      AtRoot(fs, data, dir, relative, base);
      AtNamed(fs, data, dir, relative, base);
      ghost var start := Books();
      CountDirectory(|base|);
      ghost var counted := Books();
      before, skip := Inspect(dir, relative, base);
      if fs.Static() { ArrivalPaid(fs, dir, base, start, counted, Books()); }
    }

    /** Reads the metadata and the markers of a directory, and witnesses it when both can be read. */
    method Inspect(dir: Handle, relative: string, ghost base: seq<Name>) returns (before: Option<Meta>, skip: bool)
      requires Valid() && relative == Under("", base) && WalkedDirectory(relative) && (relative == "" <==> base == [])
      requires Standing(fs, directories, dir, base, |base|)
      modifies this`result, this`reported, this`now, this`directories
      ensures Valid() && Grown()
      ensures result.visitedDirectories == old(result).visitedDirectories && result.changed == old(result).changed
      ensures before.None? ==> !result.Clean()
      ensures before.Some? && fs.Static() ==> (skip <==> base != [] && IgnoredDirectory(fs, dir))
      ensures before.Some? ==> relative in directories && directories[relative].meta == before.value
      ensures before.Some? ==> Standing(fs, directories, dir, base, |base| + 1)
      ensures before.Some? && fs.Static() ==> fs.stat(0, dir) == before
      ensures fs.Static() ==> (before.None? <==> ArrivalTrouble(fs, dir, base) != [])
      ensures fs.Static() ==> Pays(old(Books()), Books(), Gaps(ArrivalTrouble(fs, dir, base)))
    {
      hide Walker.Valid, ArrivalTrouble, Gaps, Walker.Books, Locators;
      hide Accounted, Pays, Solid, Standing, Unmoved, Willing, Recorded, WalkedFile, WalkedDirectory, LogInv, Bounded,
           Under, Fs.Static,
           Fs.MarkersAt, IgnoredDirectory, Excluded;
      StaticStat(fs, now, dir);
      before := fs.stat(now, dir);
      now := now + 1;
      ArrivalParts(fs, dir, base);
      GapsNothing(Books());
      if before.None? {
        RecordGap(DirectoryUnreadable, relative, Enumerate);
        return None, false;
      }
      var known, markers := ReadMarkers(dir, relative, base);
      if !known { return None, false; }
      skip := markers.Some? && Excluded(markers.value);
      Witness(dir, relative, DirectoryWitness(before.value, markers), base);
    }

    method Witness(dir: Handle, relative: string, witnessed: DirectoryWitness, ghost base: seq<Name>)
      requires Valid() && relative == Under("", base) && WalkedDirectory(relative)
      requires Standing(fs, directories, dir, base, |base|)
      requires fs.Static() ==> fs.stat(0, dir) == Some(witnessed.meta)
      requires fs.Static() ==>
                 if base == [] then witnessed.markers == None
                 else fs.MarkersAt(0, dir).Ok? && witnessed.markers == Some(fs.MarkersAt(0, dir).value)
      modifies this`directories
      ensures Valid() && Grown()
      ensures directories == old(directories)[relative := witnessed]
      ensures Standing(fs, directories, dir, base, |base| + 1)
    {
      hide Accounted, Solid, Standing, Unmoved, Recorded, WalkedDirectory, LogInv, Bounded, Under, Fs.Static, Fs.MarkersAt;
      RecordDirectory(data, files, directories, relative, witnessed);
      ArriveSolid(fs, directories, files, result.changed, result.recheckCompleted, dir, base, witnessed);
      directories := directories[relative := witnessed];
    }

    method CountDirectory(ghost depth: nat)
      requires Valid() && result.visitedDirectories < DIRECTORY_LIMIT && depth <= DEPTH_LIMIT
      modifies this`result, this`need, this`deepest
      ensures Valid() && Grown()
      ensures result == old(result).(visitedDirectories := old(result).visitedDirectories + 1)
      ensures Pays(old(Books()), Books(), Arrival(depth, []))
    {
      hide Accounted, Pays, Solid, Recorded, LogInv, Locators, Arrival;
      RoomForDirectory(result, files);
      ghost var counted := result.(visitedDirectories := result.visitedDirectories + 1);
      StaysAccounted(result, counted, files, files, reported, need, deepest);
      AskedAccounted(counted, files, reported, need, deepest, depth);
      need, deepest := Max(need, result.visitedDirectories + 1), Max(deepest, depth);
      result := result.(visitedDirectories := result.visitedDirectories + 1);
      PaysArrival(old(Books()), Books(), depth);
    }

    method ReadMarkers(dir: Handle, relative: string, ghost base: seq<Name>) returns (known: bool, markers: Option<(Marker, Marker)>)
      requires Valid() && relative == Under("", base) && (relative == "" <==> base == [])
      modifies this`result, this`reported, this`now
      ensures Valid() && Grown()
      ensures known ==> result == old(result)
      ensures !known ==> !result.Clean()
      ensures result.changed == old(result).changed && result.visitedDirectories == old(result).visitedDirectories
      ensures known ==> (markers.Some? <==> relative != "")
      ensures known && relative != "" && fs.Static() ==> (Excluded(markers.value) <==> IgnoredDirectory(fs, dir))
      ensures known && relative != "" && fs.Static() ==> fs.MarkersAt(0, dir).Ok? && markers == Some(fs.MarkersAt(0, dir).value)
      ensures known ==> reported == old(reported)
      ensures !known && fs.Static() ==>
                && base != [] && fs.MarkersAt(0, dir).Err?
                && Pays(old(Books()), Books(), Gaps([Here(base, Host(fs.MarkersAt(0, dir).error))]))
    {
      hide Accounted, Pays, Solid, Standing, Unmoved, Willing, Recorded, WalkedFile, WalkedDirectory, LogInv, Bounded,
           Fs.Static,
           Fs.MarkersAt, IgnoredDirectory, Excluded;
      if relative == "" { return true, None; }
      var read := fs.MarkersAt(now, dir);
      now := now + 10;
      StaticMarkers(fs, now - 10, dir);
      if fs.Static() && read.Ok? { MarkersDecide(fs, now - 10, dir); }
      if read.Err? {
        RecordGap(Host(read.error), relative, Enumerate);
        return false, None;
      }
      return true, Some(read.value);
    }

    /** The identity of the data directory, looked up once at the root. */
    method DataLookup(dir: Handle, relative: string, ghost base: seq<Name>) returns (effective: Option<Meta>)
      requires Valid() && At(fs, data, dir, relative, base)
      modifies this`result, this`reported, this`now
      ensures Valid() && Grown()
      ensures result.changed == old(result).changed
      ensures Steady(fs, result) ==> result == old(result)
      ensures fs.Static() ==> effective == DataMeta(fs, data, base == [])
      ensures fs.Static() ==> Pays(old(Books()), Books(), Gaps(DataTrouble(fs, data, base)))
    {
      hide Accounted, Pays, Under, Fs.Static, LogInv, Solid, Gaps;
      GapsNothing(Books());
      EmptyRelative(relative, base);
      if relative != "" || data[0] == '.' { return None; }
      var found := fs.lookup(now, dir, data);
      now := now + 1;
      if fs.Static() { StaticAnswers(fs, now - 1, dir, data); }
      match found
      case Found(meta) => return Some(meta);
      case NotFound => return None;
      case Unreadable =>
        RecordGap(Host(EntryUnreadable), "", Enumerate);
        return None;
    }

    /** Enumerates one directory; `listed` is false when its entries cannot be read. */
    method List(dir: Handle, relative: string, effective: Option<Meta>, depth: nat, ghost base: seq<Name>, ghost rows: Rows)
      returns (ok: bool, listed: bool)
      requires Standing(fs, directories, dir, base, |base| + 1)
      requires Valid() && Delivered() && |pending| < BATCH_LIMIT
      requires depth == |base| <= DEPTH_LIMIT && At(fs, data, dir, relative, base)
      requires fs.Static() ==> effective == DataMeta(fs, data, base == [])
      modifies this
      ensures Valid() && Grown()
      ensures Willing(fs) ==> ok
      ensures ok ==> Delivered() && |pending| < BATCH_LIMIT
      ensures ok && Unmoved(fs) && (if fs.lists(0, dir) then RowsFit(fs, data, dir, base, 0, rows) else rows == Nil) ==>
                Pays(old(Books()), Books(), Join(Gaps(ListTrouble(fs, dir, base)), Sum(rows)))
      ensures ok && Steady(fs, result) ==> listed && Exact(fs, data, dir, base, Locators(files[|old(files)|..]))
      decreases DEPTH_LIMIT - depth, 6, 0
    {
      hide Walker.Valid, Accounted, Pays, Solid, Standing, Unmoved, Willing, Recorded, WalkedFile, WalkedDirectory,
           LogInv, Under, Fs.Static,
           UniqueNames, Exact, ExactBefore, Emitted, Locators, At, DataMeta, RowsFit, Sum, Join, Gaps, Walker.Books, Turned, Spent, Rest;
      AtNamed(fs, data, dir, relative, base);
      UnmovedLists(fs, now, dir);
      ghost var start := Books();
      if !fs.lists(now, dir) {
        RecordGap(DirectoryUnreadable, relative, Enumerate);
        UnlistedPaid(fs, dir, base, rows, start, Books());
        return true, false;
      }
      now := now + 1;
      ok := ReadAll(dir, relative, effective, depth, base, rows);
      ListedPaid(fs, dir, base, rows);
      return ok, true;
    }

    /** Runs the iterator of a directory to its end, or until a limit stops the walk. */
    method ReadAll(dir: Handle, relative: string, effective: Option<Meta>, depth: nat, ghost base: seq<Name>, ghost rows: Rows)
      returns (ok: bool)
      requires Standing(fs, directories, dir, base, |base| + 1)
      requires Valid() && Delivered() && |pending| < BATCH_LIMIT
      requires depth == |base| <= DEPTH_LIMIT && At(fs, data, dir, relative, base)
      requires fs.Static() ==> effective == DataMeta(fs, data, base == [])
      modifies this
      ensures Valid() && Grown()
      ensures Willing(fs) ==> ok
      ensures ok ==> Delivered() && |pending| < BATCH_LIMIT
      ensures ok && Unmoved(fs) && RowsFit(fs, data, dir, base, 0, rows) ==> Pays(old(Books()), Books(), Sum(rows))
      ensures ok && Steady(fs, result) ==> Exact(fs, data, dir, base, Locators(files[|old(files)|..]))
      decreases DEPTH_LIMIT - depth, 5, 1
    {
      hide Walker.Valid, Accounted, Pays, Solid, Standing, Unmoved, Willing, Recorded, WalkedFile, WalkedDirectory,
           LogInv, Under, Fs.Static,
           UniqueNames, Exact, ExactBefore, Emitted, Locators, At, DataMeta, RowsFit, Sum, Join, Walker.Books, Turned, Spent, Rest;
      ghost var start := Books();
      ghost var rest, spent := rows, NOTHING;
      StartPaid(fs, data, dir, base, rows, start);
      NothingYet(fs, data, dir, base);
      NothingFresh(files);
      var i, done := 0, false;
      ok := true;
      while !done
        invariant Valid() && Grown() && ok
        invariant Delivered() && |pending| < BATCH_LIMIT
        invariant Standing(fs, directories, dir, base, |base| + 1)
        invariant Steady(fs, result) ==> Reading(fs, data, dir, base, i, done, Locators(files[|old(files)|..]))
        invariant Unmoved(fs) && RowsFit(fs, data, dir, base, 0, rows) ==>
                    Spending(fs, data, dir, base, i, done, rows, spent, rest, start, Books())
        decreases WORK_LIMIT - result.visitedEntries, if done then 0 else 1
      {
        ghost var had, paid := directories, Books();
        ok, done := Turn(dir, relative, i, effective, depth, base, |old(files)|, rest);
        if !ok { return false; }
        Counters();
        StandingStays(fs, had, directories, dir, base, |base| + 1);
        if Unmoved(fs) && RowsFit(fs, data, dir, base, 0, rows) {
          SpendMore(fs, data, dir, base, i, done, rows, spent, rest, start, paid, Books());
          spent, rest := Spent(spent, rest), Rest(rest);
        }
        if !done { i := i + 1; }
      }
      SpentAll(fs, data, dir, base, i, rows, spent, rest, start, Books());
      if Steady(fs, result) {
        AllEntries(fs, data, dir, base, i, Locators(files[|old(files)|..]));
      }
      return true;
    }

    /** One turn of the enumeration; `done` when the iterator ended or a limit stopped the walk. */
    method Turn(dir: Handle, relative: string, i: nat, effective: Option<Meta>, depth: nat, ghost base: seq<Name>, ghost start: nat,
                ghost rows: Rows)
      returns (ok: bool, done: bool)
      requires Standing(fs, directories, dir, base, |base| + 1)
      requires Valid() && Delivered() && |pending| < BATCH_LIMIT && start <= |files|
      requires depth == |base| <= DEPTH_LIMIT && At(fs, data, dir, relative, base)
      requires fs.Static() ==> effective == DataMeta(fs, data, base == [])
      requires Steady(fs, result) ==> Reading(fs, data, dir, base, i, false, Locators(files[start..]))
      modifies this
      ensures Valid() && Grown()
      ensures Willing(fs) ==> ok
      ensures ok ==> Delivered() && |pending| < BATCH_LIMIT
      ensures ok && Steady(fs, result) ==>
                Reading(fs, data, dir, base, if done then i else i + 1, done, Locators(files[start..]))
      ensures ok && !done ==> WORK_LIMIT >= result.visitedEntries > old(result).visitedEntries
      ensures ok && Unmoved(fs) && RowsFit(fs, data, dir, base, i, rows) ==> Turned(rows, done, old(Books()), Books())
      decreases DEPTH_LIMIT - depth, 5, 0
    {
      hide Walker.Valid, Accounted, Pays, Solid, Standing, Unmoved, Willing, Recorded, WalkedFile, WalkedDirectory,
           LogInv, Bounded, Under, Fs.Static,
           UniqueNames, Reading, Emitted, Locators, At, DataMeta, Contributes, ListsName, RowFits, Cost, Join, Walker.Books;
      UnmovedStatic(fs);
      var entry := fs.next(now, dir, i);
      now := now + 1;
      if fs.Static() { StaticNext(fs, now - 1, dir, i); }
      if entry.End? {
        if Steady(fs, result) { ReadingEnds(fs, data, dir, base, i, Locators(files[start..])); }
        RowsEnd(fs, data, dir, base, i, rows);
        return true, true;
      }
      ghost var row := if rows.Cons? then rows.row else Passed;
      ok, done := Counted(dir, relative, i, entry, effective, depth, base, start, row);
    }

    /** An entry that was read: it is counted first, and only then looked at. */
    method Counted(dir: Handle, relative: string, ghost i: nat, entry: Next, effective: Option<Meta>, depth: nat,
                   ghost base: seq<Name>, ghost start: nat, ghost row: Row)
      returns (ok: bool, done: bool)
      requires Standing(fs, directories, dir, base, |base| + 1)
      requires Valid() && Delivered() && |pending| < BATCH_LIMIT && start <= |files|
      requires depth == |base| <= DEPTH_LIMIT && At(fs, data, dir, relative, base) && entry != End
      requires fs.Static() ==> effective == DataMeta(fs, data, base == [])
      requires Steady(fs, result) ==>
                 fs.next(0, dir, i) == entry && Reading(fs, data, dir, base, i, false, Locators(files[start..]))
      modifies this
      ensures Valid() && Grown()
      ensures Willing(fs) ==> ok
      ensures ok ==> Delivered() && |pending| < BATCH_LIMIT
      ensures ok && Steady(fs, result) ==> !done && Reading(fs, data, dir, base, i + 1, false, Locators(files[start..]))
      ensures ok && !done ==> WORK_LIMIT >= result.visitedEntries > old(result).visitedEntries
      ensures ok && Unmoved(fs) && RowFits(fs, data, dir, base, entry, row) ==>
                Pays(old(Books()), Books(), Join(SEEN, Cost(row))) && (done ==> !Books().open)
      decreases DEPTH_LIMIT - depth, 4, 1
    {
      hide Accounted, Pays, Solid, Standing, Unmoved, Willing, Recorded, WalkedFile, WalkedDirectory, LogInv, Bounded,
           Under, Fs.Static,
           UniqueNames, Reading, Emitted, Locators, At, DataMeta;
      WillingAt(fs, now);
      if fs.expired(now) { return false, true; }
      ghost var before := Books();
      var going := CountEntry(relative);
      ghost var counted := Books();
      if !going {
        PaysClosed(before, counted, SEEN, Cost(row));
        return true, true;
      }
      ok := Proceed(dir, relative, i, entry, effective, depth, base, start, row);
      done := stop;
      Counters();
      if Pays(counted, Books(), Cost(row)) { PaysBoth(before, counted, Books(), SEEN, Cost(row)); }
    }

    method Proceed(dir: Handle, relative: string, ghost i: nat, entry: Next, effective: Option<Meta>, depth: nat,
                   ghost base: seq<Name>, ghost start: nat, ghost row: Row)
      returns (ok: bool)
      requires Standing(fs, directories, dir, base, |base| + 1)
      requires Valid() && Delivered() && |pending| < BATCH_LIMIT && start <= |files|
      requires depth == |base| <= DEPTH_LIMIT && At(fs, data, dir, relative, base) && entry != End
      requires fs.Static() ==> effective == DataMeta(fs, data, base == [])
      requires Steady(fs, result) ==>
                 fs.next(0, dir, i) == entry && Reading(fs, data, dir, base, i, false, Locators(files[start..]))
      modifies this
      ensures Valid() && Grown()
      ensures Willing(fs) ==> ok
      ensures ok ==> Delivered() && |pending| < BATCH_LIMIT
      ensures ok && Steady(fs, result) ==> Reading(fs, data, dir, base, i + 1, false, Locators(files[start..]))
      ensures ok && Unmoved(fs) && RowFits(fs, data, dir, base, entry, row) ==> Pays(old(Books()), Books(), Cost(row))
      decreases DEPTH_LIMIT - depth, 4, 0
    {
      hide Walker.Valid, Accounted, Pays, Solid, Standing, Unmoved, Willing, Recorded, WalkedFile, WalkedDirectory,
           LogInv, Bounded, Under, Fs.Static,
           UniqueNames, Reading, Emitted, Locators, At, DataMeta, Contributes, ListsName;
      if Steady(fs, result) { ReadingName(fs, data, dir, base, i, entry, Locators(files[start..])); }
      ok := Advance(dir, relative, entry, effective, depth, base, row);
      if ok && Steady(fs, result) {
        Extend(fs, data, dir, base, i, entry, Locators(old(files)[start..]), Locators(files[|old(files)|..]));
        SplitFresh(old(files), files, start);
      }
    }

    /** Counts an entry before anything about it is read. */
    method CountEntry(relative: string) returns (going: bool)
      requires Valid()
      modifies this`result, this`reported, this`stop
      ensures Valid() && Grown()
      ensures Pays(old(Books()), Books(), SEEN) && (!going ==> !result.exhausted)
      ensures result.changed == old(result).changed
      ensures going ==> result == old(result).(visitedEntries := old(result).visitedEntries + 1) && stop == old(stop)
      ensures !going ==> stop && old(result).visitedEntries == WORK_LIMIT
      ensures going <==> old(result).visitedEntries < WORK_LIMIT
    {
      hide Accounted, Pays, LogInv, WalkedFile, Solid, Locators;
      if result.visitedEntries == WORK_LIMIT {
        RecordLimit(WorkLimit, relative);
        stop := true;
        NoRoomForEntry(old(Books()), Books());
        return false;
      }
      StaysAccounted(result, result.(visitedEntries := result.visitedEntries + 1), files, files, reported, need, deepest);
      result := result.(visitedEntries := result.visitedEntries + 1);
      PaysSeen(old(Books()), Books());
      return true;
    }

    /** One step of the directory iterator. */
    method Advance(dir: Handle, relative: string, entry: Next, effective: Option<Meta>, depth: nat, ghost base: seq<Name>, ghost row: Row)
      returns (ok: bool)
      requires Standing(fs, directories, dir, base, |base| + 1)
      requires Valid() && Delivered() && |pending| < BATCH_LIMIT
      requires depth == |base| <= DEPTH_LIMIT && At(fs, data, dir, relative, base) && entry != End
      requires fs.Static() ==> effective == DataMeta(fs, data, base == [])
      requires Steady(fs, result) && entry.Named? ==> ListsName(fs, dir, entry.name)
      modifies this
      ensures Valid() && Grown()
      ensures Willing(fs) ==> ok
      ensures ok ==> Delivered() && |pending| < BATCH_LIMIT
      ensures ok && Steady(fs, result) ==> Contributes(fs, data, dir, base, entry, Locators(files[|old(files)|..]))
      ensures ok && Unmoved(fs) && RowFits(fs, data, dir, base, entry, row) ==> Pays(old(Books()), Books(), Cost(row))
      decreases DEPTH_LIMIT - depth, 3
    {
      hide Walker.Valid, NameFits, Gaps, Walker.Books;
      hide Accounted, Pays, Solid, Standing, Unmoved, Willing, Recorded, WalkedFile, WalkedDirectory, LogInv, Bounded,
           Under, Fs.Static,
           UniqueNames, Emitted, Locators, At, DataMeta, EntryExact;
      AtNamed(fs, data, dir, relative, base);
      PaysNothing(Books());
      NothingFresh(files);
      match entry
      case Broken =>
        RecordGap(Host(EntryUnreadable), relative, Enumerate);
        ok := true;
      case Opaque(dot) =>
        if !dot { RecordGap(UnsupportedPath, relative, Enumerate); }
        ok := true;
      case Named(name) =>
        if name[0] == '.' {
          SkipEntry(fs, data, dir, base, name);
          ok := true;
        } else {
          ok := Entry(dir, relative, name, effective, depth, base, row);
        }
    }

    /** After a directory was read, its metadata and its markers must still be what they were. */
    method Settle(dir: Handle, relative: string, before: Meta, ghost base: seq<Name>) returns (ok: bool)
      requires Standing(fs, directories, dir, base, |base| + 1) && relative == Under("", base)
      requires fs.Static() ==> fs.stat(0, dir) == Some(before)
      requires Valid() && Delivered() && |pending| < BATCH_LIMIT
      modifies this`result, this`reported, this`invalidated, this`log, this`now
      ensures Valid() && Grown()
      ensures Willing(fs) ==> ok
      ensures ok ==> Delivered() && |pending| < BATCH_LIMIT
      ensures Unmoved(fs) ==> result == old(result) && reported == old(reported)
    {
      hide Accounted, Pays, Solid, Standing, Unmoved, Willing, Recorded, WalkedFile, WalkedDirectory, LogInv, Bounded, Emitted,
           Locators, Fs.MarkersAt, Fs.Static, Under;
      SettledMoved(fs, now, now, directories, files, result.changed, result.recheckCompleted, dir, base, before);
      var after := fs.stat(now, dir);
      now := now + 1;
      if after.None? || !fs.Membership(before, after.value) {
        ok := Withdraw(relative, if after.None? then RecheckUnavailable else NamespaceChanged, Enumerate);
        if !ok { return; }
      }
      ok := SettleMarkers(dir, relative, before, base);
    }

    method SettleMarkers(dir: Handle, relative: string, ghost before: Meta, ghost base: seq<Name>) returns (ok: bool)
      requires Standing(fs, directories, dir, base, |base| + 1) && relative == Under("", base)
      requires fs.Static() ==> fs.stat(0, dir) == Some(before)
      requires Valid() && Delivered() && |pending| < BATCH_LIMIT
      modifies this`result, this`reported, this`invalidated, this`log, this`now
      ensures Valid() && Grown()
      ensures Willing(fs) ==> ok
      ensures ok ==> Delivered() && |pending| < BATCH_LIMIT
      ensures Unmoved(fs) ==> result == old(result) && reported == old(reported)
    {
      hide Accounted, Pays, Solid, Standing, Unmoved, Willing, Recorded, WalkedFile, WalkedDirectory, LogInv, Bounded, Emitted,
           Locators, Fs.MarkersAt, Fs.Static, Under;
      SettledMoved(fs, now, now, directories, files, result.changed, result.recheckCompleted, dir, base, before);
      if relative in directories && directories[relative].markers.Some? {
        var current := fs.MarkersAt(now, dir);
        now := now + 10;
        if current.Err? || !fs.MarkersSame(directories[relative].markers.value, current.value) {
          ok := Withdraw(relative, if current.Err? then RecheckUnavailable else NamespaceChanged, Enumerate);
          return;
        }
      }
      return true;
    }

    /** One enumerated name that does not start with a dot. */
    method Entry(dir: Handle, relative: string, name: Name, effective: Option<Meta>, depth: nat, ghost base: seq<Name>, ghost row: Row)
      returns (ok: bool)
      requires Standing(fs, directories, dir, base, |base| + 1)
      requires Valid() && Delivered() && |pending| < BATCH_LIMIT
      requires depth == |base| <= DEPTH_LIMIT && At(fs, data, dir, relative, base) && name[0] != '.'
      requires fs.Static() ==> effective == DataMeta(fs, data, base == [])
      requires Steady(fs, result) ==> ListsName(fs, dir, name)
      modifies this
      ensures Valid() && Grown()
      ensures ok ==> Delivered() && |pending| < BATCH_LIMIT
      ensures ok && Steady(fs, result) ==> EntryExact(fs, data, dir, base, name, Locators(files[|old(files)|..]))
      ensures Willing(fs) ==> ok
      ensures ok && Unmoved(fs) && NameFits(fs, data, dir, base, name, row) ==> Pays(old(Books()), Books(), Cost(row))
      decreases DEPTH_LIMIT - depth, 2
    {
      hide Walker.Valid, MetaFits, Gaps, Walker.Books, AliasOf, Child, Cost;
      UnmovedStatic(fs);
      CostPlain(row);
      PaysNothing(Books());
      hide Accounted, Pays, Solid, Standing, Unmoved, Willing, Recorded, WalkedFile, WalkedDirectory, LogInv, Bounded,
           Under, Eligible,
           PlainLocator, EntryExact, Reachable, DataMeta, ListsName, GdExtension, Refused, Fs.Static, UniqueNames,
           Emitted, Locators;
      EmptyRelative(relative, base);
      NothingFresh(files);
      if relative == "" && name == data {
        SkipData(fs, data, dir, base);
        return true;
      }
      if ':' in name {
        RecordGap(UnsupportedPath, relative, Enumerate);
        return true;
      }
      var found := fs.lookup(now, dir, name);
      now := now + 1;
      if !found.Found? {
        RecordGap(Host(if found.NotFound? then NamespaceChanged else EntryUnreadable), relative, Enumerate);
        return true;
      }
      var meta := found.meta;
      if fs.Static() { StaticAnswers(fs, now - 1, dir, name); }
      if Steady(fs, result) { ReachableHere(fs, data, dir, base, name, effective, meta); }
      if AliasOf(effective, meta) || !Wanted(name, meta) {
        if Steady(fs, result) { SkipEntry(fs, data, dir, base, name); }
        return true;
      }
      ok := Take(dir, relative, name, meta, depth, base, now - 1, row);
    }

    /** An entry that names a directory, a link or a script. */
    method Take(dir: Handle, relative: string, name: Name, meta: Meta, depth: nat, ghost base: seq<Name>, ghost seen: nat, ghost row: Row)
      returns (ok: bool)
      requires fs.lookup(seen, dir, name) == Found(meta)
      requires Standing(fs, directories, dir, base, |base| + 1)
      requires Valid() && Delivered() && |pending| < BATCH_LIMIT
      requires depth == |base| <= DEPTH_LIMIT && At(fs, data, dir, relative, base) && name[0] != '.' && !(base == [] && name == data)
      requires Wanted(name, meta)
      requires Steady(fs, result) ==>
                 ListsName(fs, dir, name) && Reachable(fs, data, dir, base == [], name) && fs.lookup(0, dir, name) == Found(meta)
      modifies this
      ensures Valid() && Grown()
      ensures ok ==> Delivered() && |pending| < BATCH_LIMIT
      ensures ok && Steady(fs, result) ==> EntryExact(fs, data, dir, base, name, Locators(files[|old(files)|..]))
      ensures Willing(fs) ==> ok
      ensures ok && Unmoved(fs) && MetaFits(fs, data, dir, base, name, meta, row) ==> Pays(old(Books()), Books(), Cost(row))
      decreases DEPTH_LIMIT - depth, 1
    {
      hide Walker.Valid, OpeningFits, Gaps, Walker.Books, Fs.CheckedOpen;
      hide Accounted, Pays, Solid, Standing, Unmoved, Willing, Recorded, WalkedFile, WalkedDirectory, LogInv, Bounded,
           Under, Eligible,
           PlainLocator, EntryExact, Reachable, DataMeta, ListsName, GdExtension, Refused, Fs.Static, UniqueNames,
           Emitted, Locators;
      var child := Child(relative, name);
      ParentUnder(base, name);
      var refused := Refused(relative, name, meta);
      if refused.Some? {
        RecordGap(refused.value.0, refused.value.1, Enumerate);
        return true;
      }
      if meta.kind.Directory? {
        ok := Enter(dir, child, name, meta, depth, base, seen, row);
      } else {
        WalkedPathEligible(base, name, data);
        WalkedFileIntro(data, base, name, FileWitness(Scope(child), meta));
        ok := Admit(dir, child, name, meta, base, seen);
        if ok && Steady(fs, result) {
          FileEntry(fs, data, dir, base, name);
          OneFresh(old(files), FileWitness(Scope(child), meta));
        }
      }
    }

    /** Reopens one witnessed directory and compares its membership times. */
    method RecheckDirectory(relative: string, ghost since: nat) returns (ok: bool)
      requires Valid() && Delivered() && pending == [] && relative in directories && since <= now
      modifies this`now, this`result, this`reported, this`invalidated, this`log
      ensures Valid() && Grown() && old(invalidated) <= invalidated
      ensures result.exhausted == old(result).exhausted
      ensures Delivered()
      ensures ok ==> Covered(relative, invalidated) || DirectoryStands(fs, directories, since, relative)
      ensures Unmoved(fs) ==> result == old(result) && reported == old(reported)
      ensures Willing(fs) ==> ok
    {
      hide Accounted, Pays, Solid, Standing, Unmoved, Willing, Recorded, WalkedFile, WalkedDirectory, LogInv, Bounded, Affected,
           Emitted, Locators, Fs.ReopenAt, Covered, Components;
      ghost var start := now;
      var r := Reopen(relative);
      var failure := None;
      if r.Err? {
        failure := Some(r.error);
      } else {
        var current := fs.stat(now, r.value);
        now := now + 1;
        if current.None? {
          failure := Some(CheckFailure(RecheckUnavailable, relative));
        } else if !fs.Membership(directories[relative].meta, current.value) {
          failure := Some(CheckFailure(NamespaceChanged, relative));
        }
      }
      if failure.None? {
        assert DirectoryStandsAt(fs, directories, start, relative);
        return true;
      }
      DirectoryFailureCovers(fs, start, directories, data, files, relative);
      DirectoryMoved(fs, start, start + 3 + STEP * |Components(relative)|, directories, files, result.changed, result.recheckCompleted, relative);
      ok := Unsettled(failure.value);
      if ok { CoveredBy(relative, failure.value.relative, invalidated); }
    }

    /** A recheck failed: withdraw the failing prefix, and note when the check itself was impossible. */
    method Unsettled(failure: CheckFailure) returns (ok: bool)
      requires Valid() && pending == [] && !Unmoved(fs)
      modifies this`now, this`result, this`reported, this`invalidated, this`log
      ensures Valid() && Grown() && old(invalidated) <= invalidated
      ensures result.changed && result.exhausted == old(result).exhausted
      ensures result.recheckCompleted == (old(result).recheckCompleted && failure.code == NamespaceChanged)
      ensures Covered(failure.relative, invalidated)
      ensures Willing(fs) ==> ok
    {
      hide Accounted, Pays, Solid, Standing, Unmoved, Willing, Recorded, WalkedFile, WalkedDirectory, LogInv, Bounded,
           Affected, Covered;
      if failure.code != NamespaceChanged {
        Incomplete(result, files);
        StaysAccounted(result, result.(recheckCompleted := false), files, files, reported, need, deepest);
        result := result.(recheckCompleted := false);
        MovedSolid(fs, directories, files, result.changed, result.recheckCompleted);
      }
      ok := Withdraw(failure.relative, failure.code, Recheck);
    }

    method RecheckFile(index: nat, ghost since: nat) returns (ok: bool)
      requires Valid() && Delivered() && pending == [] && index < |files| && since <= now
      modifies this`now, this`result, this`reported, this`invalidated, this`log
      ensures Valid() && Grown() && old(invalidated) <= invalidated
      ensures result.exhausted == old(result).exhausted
      ensures Delivered() && "res://" <= files[index].locator
      ensures ok ==> Covered(files[index].locator[6..], invalidated) || FileStands(fs, directories, since, files[index])
      ensures Unmoved(fs) ==> result == old(result) && reported == old(reported)
      ensures Willing(fs) ==> ok
    {
      hide Accounted, Pays, Solid, Standing, Unmoved, Willing, Recorded, WalkedFile, WalkedDirectory, LogInv, Bounded, Affected,
           Emitted, Locators, Fs.CheckFileAt, Covered;
      ghost var start := now;
      FailureCovers(fs, now, directories, data, files, index);
      var r := CheckFile(index);
      if r.Ok? { return true; }
      FileMoved(fs, start, directories, files, result.changed, result.recheckCompleted, index);
      ok := Unsettled(r.error);
      if ok { CoveredBy(files[index].locator[6..], r.error.relative, invalidated); }
    }

    /** Rechecks every witnessed directory, in any order. */
    method RecheckDirectories(ghost since: nat) returns (ok: bool)
      requires Valid() && Delivered() && pending == [] && since <= now
      modifies this`now, this`result, this`reported, this`invalidated, this`log
      ensures Valid() && Grown() && old(invalidated) <= invalidated && Delivered()
      ensures ok ==> AllDirectoriesStand(fs, directories, invalidated, since, directories.Keys)
      ensures Unmoved(fs) ==> result == old(result) && reported == old(reported)
      ensures Willing(fs) ==> ok
    {
      hide Walker.Valid, Accounted, Pays, Solid, Standing, Unmoved, Willing, Recorded, WalkedFile, WalkedDirectory,
           LogInv, Bounded, Affected,
           Emitted, Locators, Covered, DirectoryStands;
      var unchecked := directories.Keys;
      while unchecked != {}
        invariant unchecked <= directories.Keys
        invariant Valid() && Grown() && old(invalidated) <= invalidated && Delivered()
        invariant Unmoved(fs) ==> result == old(result) && reported == old(reported)
        invariant AllDirectoriesStand(fs, directories, invalidated, since, directories.Keys - unchecked)
      {
        var relative :| relative in unchecked;
        WillingAt(fs, now);
        if fs.expired(now) { return false; }
        ghost var had := invalidated;
        ok := RecheckDirectory(relative, since);
        if !ok { return false; }
        DirectoriesStay(fs, directories, had, invalidated, since, directories.Keys - unchecked);
        unchecked := unchecked - {relative};
      }
      return true;
    }

    /** The final test of every recorded file. */
    method RecheckFiles(ghost since: nat) returns (ok: bool)
      requires Valid() && Delivered() && pending == [] && since <= now
      modifies this`now, this`result, this`reported, this`invalidated, this`log
      ensures Valid() && Grown() && old(invalidated) <= invalidated && Delivered()
      ensures Willing(fs) ==> ok
      ensures ok ==> FilesStand(fs, directories, invalidated, since, files)
      ensures Unmoved(fs) ==> result == old(result) && reported == old(reported)
    {
      hide Walker.Valid, Accounted, Pays, Solid, Standing, Unmoved, Willing, Recorded, WalkedFile, WalkedDirectory,
           LogInv, Bounded, Affected,
           Emitted, Locators, Covered, FileStands;
      var index := 0;
      while index < |files|
        invariant index <= |files|
        invariant Valid() && Grown() && old(invalidated) <= invalidated && Delivered()
        invariant Unmoved(fs) ==> result == old(result) && reported == old(reported)
        invariant FilesStand(fs, directories, invalidated, since, files[..index])
      {
        WillingAt(fs, now);
        if fs.expired(now) { return false; }
        ghost var had := invalidated;
        ok := RecheckFile(index, since);
        if !ok { return false; }
        FilesStay(fs, directories, had, invalidated, since, files[..index]);
        assert files[..index + 1] == files[..index] + [files[index]];
        index := index + 1;
      }
      assert files[..index] == files;
      return true;
    }

    /** Enumerates the tree and reports the last batch. */
    method Enumerated(ghost plan: Folder) returns (ok: bool)
      requires Valid() && Delivered() && pending == [] && files == [] && result.visitedDirectories == 0
      requires Standing(fs, directories, fs.root, [], 0)
      modifies this
      ensures Valid() && Grown()
      ensures ok ==> Delivered() && pending == []
      ensures ok && Unmoved(fs) && Fits(fs, data, fs.root, [], plan) ==> Pays(old(Books()), Books(), Total(plan))
      ensures ok && Steady(fs, result) ==> Exact(fs, data, fs.root, [], Emitted(log))
      ensures Willing(fs) ==> ok
    {
      hide Walker.Valid, Accounted, Pays, Solid, Standing, Unmoved, Willing, Recorded, LogInv, Bounded,
           Emitted, Locators, Exact, Fs.Static, UniqueNames, Fits, Total;
      ok := Visit(fs.root, "", 0, [], plan);
      if !ok { return; }
      assert files[|old(files)|..] == files;
      ok := Flush();
      if !ok { return; }
      assert files[..|files| - |pending|] == files;
    }

    /** The whole walk: enumerate, flush, then recheck every directory and every file. */
    method Run(ghost plan: Folder) returns (ok: bool, ghost since: nat)
      requires Valid() && Delivered() && pending == [] && files == [] && result.visitedDirectories == 0
      modifies this
      ensures Valid() && Grown()
      ensures ok ==> Delivered() && pending == []
      ensures ok && Unmoved(fs) && Fits(fs, data, fs.root, [], plan) ==> Pays(old(Books()), Books(), Total(plan))
      ensures ok && Steady(fs, result) ==> Exact(fs, data, fs.root, [], Emitted(log))
      ensures ok ==> AllDirectoriesStand(fs, directories, invalidated, since, directories.Keys)
      ensures Willing(fs) ==> ok
      ensures ok ==> FilesStand(fs, directories, invalidated, since, files)
    {
      hide Walker.Valid, Accounted, Pays, Solid, Standing, Unmoved, Willing, Recorded, WalkedFile, WalkedDirectory,
           LogInv, Bounded, Affected,
           Emitted, Locators, Covered, Exact, Fs.Static, UniqueNames, Fits, Total;
      since := now;
      WillingAt(fs, now);
      if fs.expired(now) || !fs.bound(now) || !fs.clones(now) { return false, since; }
      now := now + 3;
      RootStanding(fs, directories);
      ok := Enumerated(plan);
      if !ok { return; }
      WillingAt(fs, now);
      if fs.expired(now) || !fs.bound(now) { return false, since; }
      now := now + 1;
      since := now;
      ok := RecheckDirectories(since);
      if !ok { return; }
      ghost var had := invalidated;
      ok := RecheckFiles(since);
      if !ok { return; }
      DirectoriesStay(fs, directories, had, invalidated, since, directories.Keys);
      WillingAt(fs, now);
      ok := fs.bound(now);
    }
  }

  /** The plan of a tree, if it has one. */
  ghost function PlanOf(fs: Fs, data: Name): (plan: Folder)
    ensures forall p: Folder | Fits(fs, data, fs.root, [], p) :: p == plan
  {
    if exists p: Folder :: Fits(fs, data, fs.root, [], p) then
      var p: Folder :| Fits(fs, data, fs.root, [], p);
      assert forall q: Folder | Fits(fs, data, fs.root, [], q) :: q == p by {
        forall q: Folder | Fits(fs, data, fs.root, [], q) ensures q == p { FitsOnce(fs, data, fs.root, [], p, q); }
      }
      p
    else EMPTY
  }

  /** A walk that did exactly what the plan says. */
  ghost predicate AsPlanned(plan: Folder, result: Collection, log: seq<Progress>, reported: seq<Gap>) {
    var t := Total(plan);
    && result.visitedEntries == t.entries && result.visitedDirectories == t.directories
    && Emitted(log) == t.paths && reported == t.gaps
  }

  lemma Planned(plan: Folder, result: Collection, files: seq<FileWitness>, log: seq<Progress>, reported: seq<Gap>, need: nat,
                deepest: nat)
    requires Bounded(result, files) && Accounted(result, files, reported, need, deepest) && Emitted(log) == Locators(files)
    requires Pays(Ledger(true, NOTHING),
                  Ledger(result.exhausted,
                         Tally(result.visitedEntries, result.visitedDirectories, need, deepest, Locators(files), reported)),
                  Total(plan))
    ensures result.exhausted <==> Within(Total(plan))
    ensures result.exhausted ==> AsPlanned(plan, result, log, reported)
    ensures !result.changed ==> (result.Clean() <==> Within(Total(plan)) && Total(plan).gaps == [])
  {
    hide Total, Locators, Emitted, Reached;
    JoinNothing(Total(plan));
    assert result.gaps == [] && result.omittedGaps == 0 <==> reported == [];
  }

  /** A whole walk from an empty start, and what its consumer may rely on. */
  method Collect(fs: Fs, data: Name)
    returns (ok: bool, result: Collection, log: seq<Progress>, ghost files: seq<FileWitness>,
             ghost directories: map<string, DirectoryWitness>, ghost reported: seq<Gap>, ghost since: nat)
    requires data == "godot" || data == ".godot"
    ensures forall m | m in log :: MessageBounded(m)
    ensures result.visitedEntries <= WORK_LIMIT && result.visitedDirectories <= DIRECTORY_LIMIT
    ensures |Emitted(log)| <= |files| <= ENTRY_LIMIT
    ensures Reports(result, reported) && forall g | g in reported :: Reached(g, result, files)
    ensures LogSafe(log)
    ensures forall p | p in Emitted(log) :: p in Locators(files) && Eligible(p, Scope(data)) && Shallow(p)
    ensures ok && Steady(fs, result) ==>
              NoDuplicates(Emitted(log)) && forall p :: p in Consumed(log) <==> VisibleScript(fs, data, p)
    ensures ok ==> Retained(fs, log, files, directories, since)
    ensures Unmoved(fs) ==> !result.changed && result.recheckCompleted && Withdrawn(log) == []
    ensures Willing(fs) ==> ok
    ensures ok && Unmoved(fs) ==>
              forall plan: Folder | Fits(fs, data, fs.root, [], plan) ::
                && (result.exhausted <==> Within(Total(plan)))
                && (result.exhausted ==> AsPlanned(plan, result, log, reported))
                && (result.Clean() <==> Within(Total(plan)) && Total(plan).gaps == [])
  {
    hide Accounted, Pays, Solid, Standing, Unmoved, Willing, Recorded, LogInv, Exact, NoDuplicates, VisibleScript,
         Bounded, Eligible,
         LogSafe, Fs.Static, UniqueNames, Retained, Locators, FilesStand, AllDirectoriesStand, Emitted, Consumed, Fits, Total,
         AsPlanned, Reached, Reports, Within, Shallow;
    var walker := new Walker(fs, data);
    Fresh(walker.files, walker.log);
    ghost var plan := PlanOf(fs, data);
    ok, since := walker.Run(plan);
    result, log := walker.result, walker.log;
    files, directories, reported := walker.files, walker.directories, walker.reported;
    Audit(data, files, directories, walker.pending, walker.invalidated, result, log);
    Audited(result, files, reported, walker.need, walker.deepest);
    Untouched(fs, directories, files, walker.pending, walker.invalidated, result, log);
    if ok && Steady(fs, result) {
      StaticListing(fs, data, files, walker.pending, walker.invalidated, result, log);
    }
    if ok {
      Settled(fs, data, files, directories, walker.pending, walker.invalidated, result.changed, log, since);
      if Unmoved(fs) && Fits(fs, data, fs.root, [], plan) {
        assert files[..|files| - |walker.pending|] == files;
        Planned(plan, result, files, log, reported, walker.need, walker.deepest);
      }
    }
  }
}
