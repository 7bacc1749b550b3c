/** What a walk of an untouched tree should report, stated without the walk. A plan lays the tree out as
    the directory iterators deliver it, with one row for every entry; its tally gives the counts, the
    listed paths and the gaps. */
module Inventory {
  import opened Wrappers
  import opened Paths
  import opened FileTree
  import opened Visible

  const ENTRY_LIMIT: nat := 1024
  const DIRECTORY_LIMIT: nat := 1024
  const DEPTH_LIMIT: nat := 64
  const WORK_LIMIT: nat := 16384
  const BATCH_LIMIT: nat := 64
  const GAP_LIMIT: nat := 63

  datatype Code =
    | Host(fault: Fault)
    | DirectoryUnreadable
    | UnsupportedPath
    | DepthLimit
    | DirectoryLimit
    | EntryLimit
    | WorkLimit
  {
    predicate Limit() {
      DepthLimit? || DirectoryLimit? || EntryLimit? || WorkLimit?
    }
  }

  datatype Stage = Enumerate | Recheck

  datatype Gap = Gap(code: Code, scope: string, stage: Stage)

  function DataMeta(fs: Fs, data: Name, atRoot: bool): Option<Meta> {
    if atRoot && data[0] != '.' && fs.lookup(0, fs.root, data).Found?
    then Some(fs.lookup(0, fs.root, data).meta) else None
  }

  predicate AliasOf(effective: Option<Meta>, meta: Meta) {
    && effective.Some? && effective.value.kind.Directory?
    && effective.value.dev == meta.dev && effective.value.ino == meta.ino
  }

  predicate Script(name: Name, meta: Meta) {
    meta.kind.Regular? && GdExtension(name)
  }

  /** Why an admitted kind of entry cannot be reported, and where the gap is recorded. */
  function Refused(relative: string, name: Name, meta: Meta): (r: Option<(Code, string)>)
    ensures r.Some? ==> !r.value.0.Limit()
    ensures r.None? ==> PlainLocator(Scope(Child(relative, name))) && !meta.kind.Symlink?
  {
    if 6 + |relative| + (if relative == "" then 0 else 1) + |name| > 2048 then Some((UnsupportedPath, relative))
    else if !PlainLocator(Scope(Child(relative, name))) then Some((UnsupportedPath, relative))
    else if meta.kind.Symlink? then Some((Host(UnsafeEntry), Child(relative, name)))
    else None
  }

  // ---- the plan of a tree ----

  /** One entry of a directory: passed over, listed, reported as a gap, a directory that cannot be
      opened, or a directory that is walked. */
  datatype Row =
    | Passed
    | Taken(path: string)
    | Missed(gap: Gap)
    | Shut(depth: nat, gap: Gap)
    | Entered(folder: Folder)

  datatype Rows = Nil | Cons(row: Row, rest: Rows)

  datatype Folder = Folder(depth: nat, trouble: seq<Gap>, rows: Rows)

  function Here(base: seq<Name>, code: Code): Gap {
    Gap(code, Scope(Under("", base)), Enumerate)
  }

  /** Why a directory cannot be witnessed; its entries are then not read. */
  function ArrivalTrouble(fs: Fs, dir: Handle, base: seq<Name>): seq<Gap> {
    if fs.stat(0, dir).None? then [Here(base, DirectoryUnreadable)]
    else if base != [] && fs.MarkersAt(0, dir).Err? then [Here(base, Host(fs.MarkersAt(0, dir).error))]
    else []
  }

  function DataTrouble(fs: Fs, data: Name, base: seq<Name>): seq<Gap> {
    if base == [] && data[0] != '.' && fs.lookup(0, fs.root, data).Unreadable? then [Here([], Host(EntryUnreadable))] else []
  }

  function ListTrouble(fs: Fs, dir: Handle, base: seq<Name>): seq<Gap> {
    if fs.lists(0, dir) then [] else [Here(base, DirectoryUnreadable)]
  }

  predicate Skips(fs: Fs, dir: Handle, base: seq<Name>) {
    base != [] && IgnoredDirectory(fs, dir)
  }

  function Trouble(fs: Fs, data: Name, dir: Handle, base: seq<Name>): seq<Gap> {
    if ArrivalTrouble(fs, dir, base) != [] then ArrivalTrouble(fs, dir, base)
    else DataTrouble(fs, data, base) + if Skips(fs, dir, base) then [] else ListTrouble(fs, dir, base)
  }

  predicate Reads(fs: Fs, dir: Handle, base: seq<Name>) {
    ArrivalTrouble(fs, dir, base) == [] && !Skips(fs, dir, base) && fs.lists(0, dir)
  }

  /** `folder` is the plan of the directory `dir`, reached through `base`. */
  ghost predicate Fits(fs: Fs, data: Name, dir: Handle, base: seq<Name>, folder: Folder)
    decreases folder
  {
    && folder.depth == |base|
    && folder.trouble == Trouble(fs, data, dir, base)
    && if Reads(fs, dir, base) then RowsFit(fs, data, dir, base, 0, folder.rows) else folder.rows == Nil
  }

  /** `rows` lay out the entries of a directory from the `i`-th on, to the end of its iterator. */
  ghost predicate RowsFit(fs: Fs, data: Name, dir: Handle, base: seq<Name>, i: nat, rows: Rows)
    decreases rows
  {
    match rows
    case Nil => fs.next(0, dir, i) == End
    case Cons(row, rest) => RowFits(fs, data, dir, base, fs.next(0, dir, i), row) && RowsFit(fs, data, dir, base, i + 1, rest)
  }

  ghost predicate RowFits(fs: Fs, data: Name, dir: Handle, base: seq<Name>, entry: Next, row: Row)
    decreases row, 3
  {
    match entry
    case End => false
    case Broken => row == Missed(Here(base, Host(EntryUnreadable)))
    case Opaque(dot) => row == if dot then Passed else Missed(Here(base, UnsupportedPath))
    case Named(name) => if name[0] == '.' then row == Passed else NameFits(fs, data, dir, base, name, row)
  }

  ghost predicate NameFits(fs: Fs, data: Name, dir: Handle, base: seq<Name>, name: Name, row: Row)
    decreases row, 2
  {
    if base == [] && name == data then row == Passed
    else if ':' in name then row == Missed(Here(base, UnsupportedPath))
    else
      match fs.lookup(0, dir, name)
      case NotFound => row == Missed(Here(base, Host(NamespaceChanged)))
      case Unreadable => row == Missed(Here(base, Host(EntryUnreadable)))
      case Found(meta) =>
        if AliasOf(DataMeta(fs, data, base == []), meta) || !Wanted(name, meta) then row == Passed
        else MetaFits(fs, data, dir, base, name, meta, row)
  }

  predicate Wanted(name: Name, meta: Meta) {
    meta.kind.Directory? || meta.kind.Symlink? || Script(name, meta)
  }

  ghost predicate MetaFits(fs: Fs, data: Name, dir: Handle, base: seq<Name>, name: Name, meta: Meta, row: Row)
    decreases row, 1
  {
    var refused := Refused(Under("", base), name, meta);
    var opening := fs.CheckedOpen(0, dir, name, meta);
    if refused.Some? then row == Missed(Gap(refused.value.0, Scope(refused.value.1), Enumerate))
    else if meta.kind.Directory? then OpeningFits(fs, data, dir, base, name, meta, row)
    else if opening.Err? then row == Missed(Here(base + [name], Host(opening.error)))
    else row == Taken(Scope(Under("", base + [name])))
  }

  /** A directory becomes a plan of its own unless it cannot be opened. */
  ghost predicate OpeningFits(fs: Fs, data: Name, dir: Handle, base: seq<Name>, name: Name, meta: Meta, row: Row)
    decreases row, 0
  {
    var opening := fs.CheckedOpen(0, dir, name, meta);
    if opening.Err? then row == Shut(|base| + 1, Here(base + [name], DirectoryFault(opening.error)))
    else row.Entered? && Fits(fs, data, opening.value, base + [name], row.folder)
  }

  function DirectoryFault(fault: Fault): Code {
    if fault.EntryUnreadable? then DirectoryUnreadable else Host(fault)
  }

  /** A tree has at most one plan. */
  lemma {:induction false} FitsOnce(fs: Fs, data: Name, dir: Handle, base: seq<Name>, a: Folder, b: Folder)
    requires Fits(fs, data, dir, base, a) && Fits(fs, data, dir, base, b)
    ensures a == b
    decreases a
  {
    hide Trouble, Reads, RowFits;
    if Reads(fs, dir, base) { RowsFitOnce(fs, data, dir, base, 0, a.rows, b.rows); }
  }

  lemma {:induction false} RowsFitOnce(fs: Fs, data: Name, dir: Handle, base: seq<Name>, i: nat, a: Rows, b: Rows)
    requires RowsFit(fs, data, dir, base, i, a) && RowsFit(fs, data, dir, base, i, b)
    ensures a == b
    decreases a
  {
    if a.Cons? && b.Cons? {
      RowFitsOnce(fs, data, dir, base, fs.next(0, dir, i), a.row, b.row);
      RowsFitOnce(fs, data, dir, base, i + 1, a.rest, b.rest);
    }
  }

  lemma {:induction false} RowFitsOnce(fs: Fs, data: Name, dir: Handle, base: seq<Name>, entry: Next, a: Row, b: Row)
    requires RowFits(fs, data, dir, base, entry, a) && RowFits(fs, data, dir, base, entry, b)
    ensures a == b
    decreases a, 2
  {
    hide AliasOf, DataMeta, Wanted, MetaFits, Under;
    if entry.Named? && entry.name[0] != '.' {
      assert NameFits(fs, data, dir, base, entry.name, a) && NameFits(fs, data, dir, base, entry.name, b);
      if a != b { MetaFitsOnce(fs, data, dir, base, entry.name, fs.lookup(0, dir, entry.name).meta, a, b); }
    }
  }

  lemma {:induction false} MetaFitsOnce(fs: Fs, data: Name, dir: Handle, base: seq<Name>, name: Name, meta: Meta, a: Row, b: Row)
    requires MetaFits(fs, data, dir, base, name, meta, a) && MetaFits(fs, data, dir, base, name, meta, b)
    ensures a == b
    decreases a, 1
  {
    hide Refused, Fs.CheckedOpen, Fits, Under;
    if meta.kind.Directory? && a != b {
      assert OpeningFits(fs, data, dir, base, name, meta, a) && OpeningFits(fs, data, dir, base, name, meta, b);
      FitsOnce(fs, data, fs.CheckedOpen(0, dir, name, meta).value, base + [name], a.folder, b.folder);
    }
  }

  // ---- every finite tree has one ----

  ghost predicate ListingEnds(fs: Fs, dir: Handle, n: nat) {
    fs.next(0, dir, n) == End && forall k | 0 <= k < n :: fs.next(0, dir, k) != End
  }

  ghost predicate Subdirectory(fs: Fs, dir: Handle, name: Name, below: Handle) {
    && fs.lookup(0, dir, name).Found? && fs.lookup(0, dir, name).meta.kind.Directory?
    && fs.CheckedOpen(0, dir, name, fs.lookup(0, dir, name).meta) == Ok(below)
  }

  /** Every listing ends, and directories are nested at most `height` deep. */
  ghost predicate Finite(fs: Fs, dir: Handle, height: nat)
    decreases height
  {
    && (exists n: nat :: ListingEnds(fs, dir, n))
    && forall name: Name, below: Handle | Subdirectory(fs, dir, name, below) :: height > 0 && Finite(fs, below, height - 1)
  }

  lemma {:induction false} MakePlan(fs: Fs, data: Name, dir: Handle, base: seq<Name>, height: nat) returns (folder: Folder)
    requires Finite(fs, dir, height)
    ensures Fits(fs, data, dir, base, folder)
    decreases height, 3
  {
    hide Trouble, Reads, RowFits;
    var rows := Nil;
    if Reads(fs, dir, base) {
      var n: nat :| ListingEnds(fs, dir, n);
      rows := MakeRows(fs, data, dir, base, 0, n, height);
    }
    folder := Folder(|base|, Trouble(fs, data, dir, base), rows);
  }

  lemma {:induction false} MakeRows(fs: Fs, data: Name, dir: Handle, base: seq<Name>, i: nat, n: nat, height: nat) returns (rows: Rows)
    requires Finite(fs, dir, height) && ListingEnds(fs, dir, n) && i <= n
    ensures RowsFit(fs, data, dir, base, i, rows)
    decreases height, 2, n - i
  {
    hide RowFits, Finite;
    if i == n { return Nil; }
    var row := MakeRow(fs, data, dir, base, fs.next(0, dir, i), height);
    var rest := MakeRows(fs, data, dir, base, i + 1, n, height);
    return Cons(row, rest);
  }

  lemma {:induction false} MakeRow(fs: Fs, data: Name, dir: Handle, base: seq<Name>, entry: Next, height: nat) returns (row: Row)
    requires Finite(fs, dir, height) && entry != End
    ensures RowFits(fs, data, dir, base, entry, row)
    decreases height, 1
  {
    hide AliasOf, DataMeta, Wanted, MetaFits, Under, Finite;
    match entry
    case Broken => return Missed(Here(base, Host(EntryUnreadable)));
    case Opaque(dot) => return if dot then Passed else Missed(Here(base, UnsupportedPath));
    case Named(name) =>
      if name[0] == '.' || (base == [] && name == data) { return Passed; }
      if ':' in name { return Missed(Here(base, UnsupportedPath)); }
      match fs.lookup(0, dir, name) {
        case NotFound => return Missed(Here(base, Host(NamespaceChanged)));
        case Unreadable => return Missed(Here(base, Host(EntryUnreadable)));
        case Found(meta) =>
          if AliasOf(DataMeta(fs, data, base == []), meta) || !Wanted(name, meta) { return Passed; }
          row := MakeMeta(fs, data, dir, base, name, meta, height);
      }
  }

  lemma {:induction false} MakeMeta(fs: Fs, data: Name, dir: Handle, base: seq<Name>, name: Name, meta: Meta, height: nat)
    returns (row: Row)
    requires Finite(fs, dir, height) && fs.lookup(0, dir, name) == Found(meta)
    ensures MetaFits(fs, data, dir, base, name, meta, row)
    decreases height, 0
  {
    hide Refused, Fs.CheckedOpen, Fits, Under;
    var refused := Refused(Under("", base), name, meta);
    var opening := fs.CheckedOpen(0, dir, name, meta);
    if refused.Some? { return Missed(Gap(refused.value.0, Scope(refused.value.1), Enumerate)); }
    if meta.kind.Directory? {
      if opening.Err? { return Shut(|base| + 1, Here(base + [name], DirectoryFault(opening.error))); }
      assert Subdirectory(fs, dir, name, opening.value);
      var folder := MakePlan(fs, data, opening.value, base + [name], height - 1);
      row := Entered(folder);
      assert OpeningFits(fs, data, dir, base, name, meta, row);
    } else if opening.Err? {
      return Missed(Here(base + [name], Host(opening.error)));
    } else {
      return Taken(Scope(Under("", base + [name])));
    }
  }

  /** So a finite tree has exactly one plan. */
  lemma PlanExists(fs: Fs, data: Name, dir: Handle, base: seq<Name>, height: nat)
    requires Finite(fs, dir, height)
    ensures exists folder: Folder ::
              Fits(fs, data, dir, base, folder) && forall other: Folder | Fits(fs, data, dir, base, other) :: other == folder
  {
    hide Fits;
    var folder := MakePlan(fs, data, dir, base, height);
    forall other: Folder | Fits(fs, data, dir, base, other)
      ensures other == folder
    {
      FitsOnce(fs, data, dir, base, folder, other);
    }
  }

  // ---- tallies ----

  /** What a walk counts: entries, directories, how many directories it had to ask for at once, how deep it
      had to go, the scripts it listed and the gaps it reported. */
  datatype Tally = Tally(entries: nat, directories: nat, need: nat, depth: nat, paths: seq<string>, gaps: seq<Gap>)

  const NOTHING := Tally(0, 0, 0, 0, [], [])

  /** One entry of a directory. */
  const SEEN := Tally(1, 0, 0, 0, [], [])

  function Max(a: nat, b: nat): nat {
    if a < b then b else a
  }

  /** One walk after another: the second needs its directories on top of those of the first. */
  function Join(a: Tally, b: Tally): Tally {
    var need := if b.need == 0 then a.need else Max(a.need, a.directories + b.need);
    Tally(a.entries + b.entries, a.directories + b.directories, need, Max(a.depth, b.depth), a.paths + b.paths, a.gaps + b.gaps)
  }

  function Gaps(gaps: seq<Gap>): Tally {
    Tally(0, 0, 0, 0, [], gaps)
  }

  function Arrival(depth: nat, trouble: seq<Gap>): Tally {
    Tally(0, 1, 1, depth, [], trouble)
  }

  function Asked(depth: nat): Tally {
    Tally(0, 0, 1, depth, [], [])
  }

  function Cost(row: Row): Tally {
    match row
    case Passed => NOTHING
    case Taken(path) => Tally(0, 0, 0, 0, [path], [])
    case Missed(gap) => Gaps([gap])
    case Shut(depth, gap) => Join(Asked(depth), Gaps([gap]))
    case Entered(folder) => Total(folder)
  }

  function Sum(rows: Rows): Tally {
    match rows
    case Nil => NOTHING
    case Cons(row, rest) => Join(Join(SEEN, Cost(row)), Sum(rest))
  }

  function Total(folder: Folder): Tally {
    Join(Arrival(folder.depth, folder.trouble), Sum(folder.rows))
  }

  /** No limit of the walk is exceeded. */
  predicate Within(t: Tally) {
    t.entries <= WORK_LIMIT && t.need <= DIRECTORY_LIMIT && t.depth <= DEPTH_LIMIT && |t.paths| <= ENTRY_LIMIT
  }

  lemma JoinAssociative(a: Tally, b: Tally, c: Tally)
    ensures Join(Join(a, b), c) == Join(a, Join(b, c))
  {
  }

  lemma JoinNothing(a: Tally)
    ensures Join(a, NOTHING) == a && Join(NOTHING, a) == a
  {
    assert a.paths + [] == a.paths && a.gaps + [] == a.gaps;
    assert [] + a.paths == a.paths && [] + a.gaps == a.gaps;
  }

  lemma WithinBefore(a: Tally, b: Tally)
    requires Within(Join(a, b))
    ensures Within(a)
  {
  }

  /** The books of a walk; they stay open while no limit was reached. */
  datatype Ledger = Ledger(open: bool, tally: Tally)

  /** From `a` to `b` the walk did what `t` says: exactly, while the books are open, and they stay open
      as long as no limit is exceeded. */
  predicate Pays(a: Ledger, b: Ledger, t: Tally) {
    && (b.open ==> a.open && b.tally == Join(a.tally, t))
    && (a.open && Within(Join(a.tally, t)) ==> b.open)
  }

  lemma PaysBoth(a: Ledger, b: Ledger, c: Ledger, t: Tally, u: Tally)
    requires Pays(a, b, t) && Pays(b, c, u)
    ensures Pays(a, c, Join(t, u))
  {
    hide Join, Within;
    JoinAssociative(a.tally, t, u);
    if Within(Join(a.tally, Join(t, u))) { WithinBefore(Join(a.tally, t), u); }
  }

  lemma PaysNothing(a: Ledger)
    ensures Pays(a, a, NOTHING)
  {
    JoinNothing(a.tally);
  }

  lemma PaysGaps(a: Ledger, b: Ledger, gaps: seq<Gap>)
    requires b == a.(tally := a.tally.(gaps := a.tally.gaps + gaps))
    ensures Pays(a, b, Gaps(gaps))
  {
    assert b.tally.paths == a.tally.paths + [];
  }

  lemma PaysSeen(a: Ledger, b: Ledger)
    requires b == a.(tally := a.tally.(entries := a.tally.entries + 1))
    ensures Pays(a, b, SEEN)
  {
    assert b.tally.paths == a.tally.paths + [] && b.tally.gaps == a.tally.gaps + [];
  }

  lemma PaysTaken(a: Ledger, b: Ledger, path: string)
    requires b == a.(tally := a.tally.(paths := a.tally.paths + [path]))
    ensures Pays(a, b, Cost(Taken(path)))
  {
    assert b.tally.gaps == a.tally.gaps + [];
  }

  lemma PaysAsked(a: Ledger, b: Ledger, depth: nat)
    requires b == a.(tally := a.tally.(need := Max(a.tally.need, a.tally.directories + 1), depth := Max(a.tally.depth, depth)))
    ensures Pays(a, b, Asked(depth))
  {
    assert b.tally.paths == a.tally.paths + [] && b.tally.gaps == a.tally.gaps + [];
  }

  lemma PaysArrival(a: Ledger, b: Ledger, depth: nat)
    requires b == a.(tally := a.tally.(directories := a.tally.directories + 1, need := Max(a.tally.need, a.tally.directories + 1),
                                       depth := Max(a.tally.depth, depth)))
    ensures Pays(a, b, Arrival(depth, []))
  {
    assert b.tally.paths == a.tally.paths + [] && b.tally.gaps == a.tally.gaps + [];
  }

  /** Reaching a limit closes the books, and only an excess does. */
  lemma PaysLimit(a: Ledger, b: Ledger, t: Tally)
    requires !b.open && !Within(Join(a.tally, t))
    ensures Pays(a, b, t)
  {
  }

  /** Books that closed early are accounted for by whatever was still to come. */
  lemma PaysClosed(a: Ledger, b: Ledger, t: Tally, u: Tally)
    requires Pays(a, b, t) && !b.open
    ensures Pays(a, b, Join(t, u))
  {
    hide Join, Within;
    JoinAssociative(a.tally, t, u);
    if Within(Join(a.tally, Join(t, u))) { WithinBefore(Join(a.tally, t), u); }
  }

  lemma ArrivalSplits(depth: nat, first: seq<Gap>, rest: seq<Gap>, rows: Tally)
    ensures Join(Arrival(depth, first), Join(Gaps(rest), rows)) == Join(Arrival(depth, first + rest), rows)
  {
    assert [] + rows.paths == rows.paths;
  }

  lemma GapsSplit(first: seq<Gap>, rest: seq<Gap>, rows: Tally)
    ensures Join(Gaps(first), Join(Gaps(rest), rows)) == Join(Gaps(first + rest), rows)
  {
    assert [] + rows.paths == rows.paths;
  }

  /** A directory that is walked was asked for. */
  lemma AskedFirst(folder: Folder)
    ensures Join(Asked(folder.depth), Total(folder)) == Total(folder)
  {
    hide Sum;
    var t := Total(folder);
    assert [] + t.paths == t.paths && [] + t.gaps == t.gaps;
  }
}
