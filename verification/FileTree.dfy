/** The directory tree as the walk observes it: every system call is answered by an
    oracle indexed by a call counter, so the tree may change between any two calls.
    A tree is static when the answers do not depend on that counter. */
module FileTree {
  import opened Wrappers
  import opened Paths

  type Handle = nat

  datatype Kind = Directory | Regular | Symlink | Special

  datatype Meta = Meta(dev: nat, ino: nat, uid: nat, mode: nat, kind: Kind, mtime: int, ctime: int)

  datatype Lookup = Found(meta: Meta) | NotFound | Unreadable

  /** One step of a directory iterator; `Opaque` is a name that is not UTF-8. */
  datatype Next = End | Broken | Opaque(dot: bool) | Named(name: Name)

  datatype Fs = Fs(
    euid: nat,
    root: Handle,
    /** Metadata of an open handle. */
    stat: (nat, Handle) -> Option<Meta>,
    /** Metadata of a name inside a directory, without following a link. */
    lookup: (nat, Handle, string) -> Lookup,
    open: (nat, Handle, string) -> Option<Handle>,
    denies: (nat, Handle) -> bool,
    lists: (nat, Handle) -> bool,
    next: (nat, Handle, nat) -> Next,
    clones: nat -> bool,
    bound: nat -> bool,
    expired: nat -> bool,
    accepts: nat -> bool)
  {
    predicate Safe(meta: Meta) {
      (meta.uid == euid || meta.uid == 0) && meta.mode / 2 % 2 == 0 && meta.mode / 16 % 2 == 0
    }

    /** The same object with the same ownership, mode and type; content changes do not matter. */
    predicate Same(a: Meta, b: Meta) {
      a.dev == b.dev && a.ino == b.ino && a.uid == b.uid && a.mode == b.mode && a.kind == b.kind && Safe(b)
    }

    predicate Membership(a: Meta, b: Meta) {
      Same(a, b) && a.mtime == b.mtime && a.ctime == b.ctime
    }

    ghost predicate Static() {
      && (forall t, h :: stat(t, h) == stat(0, h))
      && (forall t, h, n :: lookup(t, h, n) == lookup(0, h, n))
      && (forall t, h, n :: open(t, h, n) == open(0, h, n))
      && (forall t, h :: denies(t, h) == denies(0, h))
      && (forall t, h :: lists(t, h) == lists(0, h))
      && (forall t, h, i :: next(t, h, i) == next(0, h, i))
    }

    /** Opens a name whose metadata was just read, and checks that it is still that object. */
    function CheckedOpen(t: nat, parent: Handle, name: string, before: Meta): Result<Handle, Fault> {
      if !Safe(before) || before.kind.Symlink? then Err(UnsafeEntry)
      else match open(t, parent, name)
        case None => Err(EntryUnreadable)
        case Some(file) =>
          match stat(t + 1, file)
          case None => Err(EntryUnreadable)
          case Some(actual) =>
            match lookup(t + 2, parent, name)
            case Found(named) =>
              if !Same(before, actual) || !Same(before, named) then Err(NamespaceChanged)
              else if !denies(t + 3, file) then Err(UnsafeEntry)
              else Ok(file)
            case _ => Err(NamespaceChanged)
    }

    function MarkerAt(t: nat, dir: Handle, name: string): Result<Marker, Fault> {
      match lookup(t, dir, name)
      case NotFound => Ok(Absent)
      case Unreadable => Err(UnsupportedMarker)
      case Found(meta) =>
        if meta.kind.Symlink? || !Safe(meta) then Err(UnsupportedMarker)
        else if (meta.kind.Regular? || meta.kind.Directory?) && CheckedOpen(t + 1, dir, name, meta).Err? then
          Err(UnsupportedMarker)
        else Ok(Present(meta))
    }

    /** The ignore marker and the nested-project marker of a directory. */
    function MarkersAt(t: nat, dir: Handle): Result<(Marker, Marker), Fault> {
      match MarkerAt(t, dir, ".gdignore")
      case Err(code) => Err(code)
      case Ok(ignore) =>
        match MarkerAt(t + 5, dir, "project.godot")
        case Err(code) => Err(code)
        case Ok(project) => Ok((ignore, project))
    }

    predicate MarkerSame(a: Marker, b: Marker) {
      match (a, b)
      case (Absent, Absent) => true
      case (Present(x), Present(y)) => Same(x, y)
      case _ => false
    }

    predicate MarkersSame(a: (Marker, Marker), b: (Marker, Marker)) {
      MarkerSame(a.0, b.0) && MarkerSame(a.1, b.1)
    }

    /** Reopens the named components below `dir`, comparing each with its witness. */
    function Descend(t: nat, dirs: map<string, DirectoryWitness>, dir: Handle, prefix: string, comps: seq<string>)
      : Result<Handle, CheckFailure>
      decreases |comps|
    {
      if comps == [] then Ok(dir)
      else
        var prefix' := Child(prefix, comps[0]);
        match Step(t, dirs, dir, prefix', comps[0])
        case Err(code) => Err(CheckFailure(code, prefix'))
        case Ok(below) => Descend(t + STEP, dirs, below, prefix', comps[1..])
    }

    function Step(t: nat, dirs: map<string, DirectoryWitness>, dir: Handle, prefix: string, component: string)
      : Result<Handle, Fault>
    {
      if prefix !in dirs then Err(RecheckUnavailable)
      else match lookup(t, dir, component)
        case Found(meta) =>
          if !Same(dirs[prefix].meta, meta) || !meta.kind.Directory? then Err(NamespaceChanged)
          else (
            match CheckedOpen(t + 1, dir, component, meta)
            case Err(code) => Err(code)
            case Ok(below) =>
              if dirs[prefix].markers.None? then Ok(below)
              else match MarkersAt(t + 5, below)
                case Err(code) => Err(code)
                case Ok(current) =>
                  if MarkersSame(dirs[prefix].markers.value, current) then Ok(below) else Err(NamespaceChanged))
        case _ => Err(NamespaceChanged)
    }

    function RootHandle(t: nat, dirs: map<string, DirectoryWitness>): Result<Handle, CheckFailure> {
      if !clones(t) || "" !in dirs || stat(t + 1, root).None? then Err(CheckFailure(RecheckUnavailable, ""))
      else if !Same(dirs[""].meta, stat(t + 1, root).value) || !denies(t + 2, root) then
        Err(CheckFailure(NamespaceChanged, ""))
      else Ok(root)
    }

    function ReopenAt(t: nat, dirs: map<string, DirectoryWitness>, relative: string): Result<Handle, CheckFailure> {
      match RootHandle(t, dirs)
      case Err(failure) => Err(failure)
      case Ok(dir) => Descend(t + 3, dirs, dir, "", Components(relative))
    }

    /** The final test of one listed file: its directory chain, then the file itself. */
    function CheckFileAt(t: nat, dirs: map<string, DirectoryWitness>, file: FileWitness): Result<Handle, CheckFailure>
      requires "res://" <= file.locator
    {
      var relative := file.locator[6..];
      var (parent, name) := ParentAndName(relative);
      match ReopenAt(t, dirs, parent)
      case Err(failure) => Err(failure)
      case Ok(dir) =>
        FileAt(t + 3 + STEP * |Components(parent)|, dir, name, relative, file.meta)
    }

    function FileAt(t: nat, dir: Handle, name: string, relative: string, before: Meta): Result<Handle, CheckFailure> {
      match lookup(t, dir, name)
      case Found(meta) =>
        if !meta.kind.Regular? || !Same(before, meta) then Err(CheckFailure(NamespaceChanged, relative))
        else (
          match CheckedOpen(t + 1, dir, name, meta)
          case Err(code) => Err(CheckFailure(code, relative))
          case Ok(handle) => Ok(handle))
      case _ => Err(CheckFailure(NamespaceChanged, relative))
    }
  }

  const STEP: nat := 15

  datatype Fault = UnsafeEntry | EntryUnreadable | NamespaceChanged | UnsupportedMarker | RecheckUnavailable

  datatype Marker = Absent | Present(meta: Meta)

  datatype DirectoryWitness = DirectoryWitness(meta: Meta, markers: Option<(Marker, Marker)>)

  datatype FileWitness = FileWitness(locator: string, meta: Meta)

  datatype CheckFailure = CheckFailure(code: Fault, relative: string)

  predicate Excluded(markers: (Marker, Marker)) {
    || (markers.0.Present? && markers.0.meta.kind.Regular?)
    || (markers.1.Present? && markers.1.meta.kind.Regular?)
  }

  function NonEmpty(parts: seq<string>): seq<string> {
    if parts == [] then []
    else if parts[0] == "" then NonEmpty(parts[1..])
    else [parts[0]] + NonEmpty(parts[1..])
  }

  function Components(relative: string): seq<string> {
    NonEmpty(Segments(relative))
  }

  function ParentAndName(relative: string): (string, string) {
    match RSplit(relative, '/')
    case Some(parts) => parts
    case None => ("", relative)
  }

  lemma {:induction false} NonEmptyOfNames(comps: seq<Name>)
    ensures NonEmpty(comps) == comps
    decreases |comps|
  {
    if comps != [] {
      NonEmptyOfNames(comps[1..]);
      assert comps == [comps[0]] + comps[1..];
    }
  }

  lemma ComponentsUnder(comps: seq<Name>)
    ensures Components(Under("", comps)) == comps
  {
    if comps != [] {
      SegmentsUnder(comps);
      NonEmptyOfNames(comps);
    } else {
      assert Segments("") == [""];
      assert NonEmpty([""]) == NonEmpty([]) == [];
    }
  }

  /** A failed descent reports a path it had reached, on the way to its goal. */
  lemma {:induction false} DescendFailure(fs: Fs, t: nat, dirs: map<string, DirectoryWitness>, dir: Handle,
                                          done: seq<Name>, comps: seq<Name>)
    requires fs.Descend(t, dirs, dir, Under("", done), comps).Err?
    ensures exists reached: seq<Name> ::
              && reached <= done + comps
              && fs.Descend(t, dirs, dir, Under("", done), comps).error.relative == Under("", reached)
    decreases |comps|
  {
    var prefix := Child(Under("", done), comps[0]);
    var done' := done + [comps[0]];
    ParentUnder(done, comps[0]);
    assert done' + comps[1..] == done + comps;
    match fs.Step(t, dirs, dir, prefix, comps[0])
    case Err(_) =>
      assert done' <= done + comps;
    case Ok(below) =>
      DescendFailure(fs, t + STEP, dirs, below, done', comps[1..]);
  }

  /** A failing final check withdraws at least the file that was checked: the reported
      prefix is an ancestor of the file or the file itself. */
  lemma FailureCoversFile(fs: Fs, t: nat, dirs: map<string, DirectoryWitness>, file: FileWitness,
                          parent: seq<Name>, name: Name)
    requires file.locator == Scope(Under("", parent + [name]))
    requires fs.CheckFileAt(t, dirs, file).Err?
    ensures Affected(file.locator[6..], fs.CheckFileAt(t, dirs, file).error.relative)
  {
    var all := parent + [name];
    var relative := Under("", all);
    assert file.locator[6..] == relative;
    ParentUnder(parent, name);
    if parent == [] {
      assert Under("", parent) == "";
      assert Under("", all) == name;
    }
    assert ParentAndName(relative) == (Under("", parent), name);
    ComponentsUnder(parent);
    match fs.RootHandle(t, dirs)
    case Err(_) =>
    case Ok(dir) =>
      var r := fs.Descend(t + 3, dirs, dir, "", parent);
      if r.Err? {
        DescendFailure(fs, t + 3, dirs, dir, [], parent);
        var reached: seq<Name> :| reached <= [] + parent && r.error.relative == Under("", reached);
        assert reached <= all;
        AffectedIsComponentPrefix(all, reached);
      }
  }
}
