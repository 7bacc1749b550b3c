/** What a listing of a static tree should contain, stated without the walk: a script is
    visible when a chain of listed, unexcluded directories leads to it. */
module Visible {
  import opened Wrappers
  import opened Paths
  import opened FileTree

  ghost predicate Listed(fs: Fs, dir: Handle, i: nat) {
    forall k | 0 <= k <= i :: fs.next(0, dir, k) != End
  }

  ghost predicate ListsName(fs: Fs, dir: Handle, name: Name) {
    exists i: nat :: Listed(fs, dir, i) && fs.next(0, dir, i) == Named(name)
  }

  ghost predicate UniqueNames(fs: Fs) {
    forall dir, i: nat, j: nat | fs.next(0, dir, i).Named? && fs.next(0, dir, i) == fs.next(0, dir, j) :: i == j
  }

  predicate HasKind(fs: Fs, dir: Handle, name: string, kind: Kind) {
    fs.lookup(0, dir, name).Found? && fs.lookup(0, dir, name).meta.kind == kind
  }

  /** The project data directory itself, or another name for that same directory. */
  predicate DataScope(fs: Fs, data: Name, name: string) {
    || name == data
    || (&& data[0] != '.'
        && HasKind(fs, fs.root, data, Directory)
        && fs.lookup(0, fs.root, name).Found?
        && fs.lookup(0, fs.root, data).meta.dev == fs.lookup(0, fs.root, name).meta.dev
        && fs.lookup(0, fs.root, data).meta.ino == fs.lookup(0, fs.root, name).meta.ino)
  }

  predicate IgnoredDirectory(fs: Fs, dir: Handle) {
    HasKind(fs, dir, ".gdignore", Regular) || HasKind(fs, dir, "project.godot", Regular)
  }

  predicate Reachable(fs: Fs, data: Name, dir: Handle, atRoot: bool, name: Name) {
    name[0] != '.' && !(atRoot && DataScope(fs, data, name))
  }

  /** `comps` leads from `dir` to a visible script. */
  ghost predicate VisibleFrom(fs: Fs, data: Name, dir: Handle, atRoot: bool, comps: seq<Name>)
    decreases |comps|
  {
    && comps != []
    && ListsName(fs, dir, comps[0])
    && Reachable(fs, data, dir, atRoot, comps[0])
    && if |comps| == 1 then
         HasKind(fs, dir, comps[0], Regular) && GdExtension(comps[0])
       else
         && HasKind(fs, dir, comps[0], Directory)
         && fs.open(0, dir, comps[0]).Some?
         && !IgnoredDirectory(fs, fs.open(0, dir, comps[0]).value)
         && VisibleFrom(fs, data, fs.open(0, dir, comps[0]).value, false, comps[1..])
  }

  /** The visible scripts of the whole project. */
  ghost predicate VisibleScript(fs: Fs, data: Name, path: string) {
    exists comps: seq<Name> :: VisibleFrom(fs, data, fs.root, true, comps) && path == Scope(Under("", comps))
  }

  // ---- exactness of a list of paths, for a directory, for the entries before one, for one entry ----

  ghost predicate NoDuplicates(paths: seq<string>) {
    forall i, j | 0 <= i < j < |paths| :: paths[i] != paths[j]
  }

  ghost predicate Via(fs: Fs, dir: Handle, i: nat, comps: seq<Name>) {
    comps != [] && exists k: nat :: k < i && fs.next(0, dir, k) == Named(comps[0])
  }

  /** `paths` lists, once each, the scripts visible from `dir` through its first `i` entries. */
  ghost predicate ExactBefore(fs: Fs, data: Name, dir: Handle, base: seq<Name>, i: nat, paths: seq<string>) {
    && (forall p | p in paths :: Explained(fs, data, dir, base, i, p))
    && (forall comps: seq<Name> | VisibleFrom(fs, data, dir, base == [], comps) && Via(fs, dir, i, comps) ::
          Scope(Under("", base + comps)) in paths)
    && NoDuplicates(paths)
  }

  ghost predicate Explained(fs: Fs, data: Name, dir: Handle, base: seq<Name>, i: nat, p: string) {
    exists comps: seq<Name> ::
      VisibleFrom(fs, data, dir, base == [], comps) && Via(fs, dir, i, comps) && p == Scope(Under("", base + comps))
  }

  ghost predicate Exact(fs: Fs, data: Name, dir: Handle, base: seq<Name>, paths: seq<string>) {
    && (forall p | p in paths :: ExplainedBy(fs, data, dir, base, p))
    && (forall comps: seq<Name> | VisibleFrom(fs, data, dir, base == [], comps) ::
          Scope(Under("", base + comps)) in paths)
    && NoDuplicates(paths)
  }

  ghost predicate ExplainedBy(fs: Fs, data: Name, dir: Handle, base: seq<Name>, p: string) {
    exists comps: seq<Name> :: VisibleFrom(fs, data, dir, base == [], comps) && p == Scope(Under("", base + comps))
  }

  /** `paths` lists, once each, the scripts visible from `dir` through the entry `name`. */
  ghost predicate EntryExact(fs: Fs, data: Name, dir: Handle, base: seq<Name>, name: Name, paths: seq<string>) {
    && (forall p | p in paths :: ExplainedVia(fs, data, dir, base, name, p))
    && (forall comps: seq<Name> | VisibleFrom(fs, data, dir, base == [], comps) && comps[0] == name ::
          Scope(Under("", base + comps)) in paths)
    && NoDuplicates(paths)
  }

  ghost predicate ExplainedVia(fs: Fs, data: Name, dir: Handle, base: seq<Name>, name: Name, p: string) {
    exists comps: seq<Name> ::
      VisibleFrom(fs, data, dir, base == [], comps) && comps[0] == name && p == Scope(Under("", base + comps))
  }

  lemma SamePath(base: seq<Name>, a: seq<Name>, b: seq<Name>)
    requires Scope(Under("", base + a)) == Scope(Under("", base + b))
    ensures a == b
  {
    ScopePrefix(Under("", base + a), Under("", base + b));
    UnderInjective(base + a, base + b);
    assert a == (base + a)[|base|..] && b == (base + b)[|base|..];
  }

  /** One more entry: distinct names keep the lists disjoint. */
  lemma ExtendExact(fs: Fs, data: Name, dir: Handle, base: seq<Name>, i: nat, name: Name,
                    paths: seq<string>, more: seq<string>)
    requires UniqueNames(fs)
    requires fs.next(0, dir, i) == Named(name)
    requires ExactBefore(fs, data, dir, base, i, paths)
    requires EntryExact(fs, data, dir, base, name, more)
    ensures ExactBefore(fs, data, dir, base, i + 1, paths + more)
  {
    var all := paths + more;
    forall p | p in all
      ensures Explained(fs, data, dir, base, i + 1, p)
    {
      if p in paths {
        assert Explained(fs, data, dir, base, i, p);
        var comps: seq<Name> :| VisibleFrom(fs, data, dir, base == [], comps) && Via(fs, dir, i, comps)
                                && p == Scope(Under("", base + comps));
        ViaStep(fs, dir, i, comps);
      } else {
        assert ExplainedVia(fs, data, dir, base, name, p);
        var comps: seq<Name> :| VisibleFrom(fs, data, dir, base == [], comps) && comps[0] == name
                                && p == Scope(Under("", base + comps));
        assert Via(fs, dir, i + 1, comps);
      }
    }
    forall comps: seq<Name> | VisibleFrom(fs, data, dir, base == [], comps) && Via(fs, dir, i + 1, comps)
      ensures Scope(Under("", base + comps)) in all
    {
      if !Via(fs, dir, i, comps) {
        assert comps[0] == name;
      }
    }
    forall x, y | 0 <= x < y < |all|
      ensures all[x] != all[y]
    {
      if x < |paths| && |paths| <= y {
        assert all[x] in paths && all[y] in more;
        Disjoint(fs, data, dir, base, i, name, all[x], all[y]);
      }
    }
  }

  lemma ViaStep(fs: Fs, dir: Handle, i: nat, comps: seq<Name>)
    requires Via(fs, dir, i, comps)
    ensures Via(fs, dir, i + 1, comps)
  {
    var k: nat :| k < i && fs.next(0, dir, k) == Named(comps[0]);
    assert k < i + 1;
  }

  lemma Disjoint(fs: Fs, data: Name, dir: Handle, base: seq<Name>, i: nat, name: Name, p: string, q: string)
    requires UniqueNames(fs)
    requires fs.next(0, dir, i) == Named(name)
    requires Explained(fs, data, dir, base, i, p)
    requires ExplainedVia(fs, data, dir, base, name, q)
    ensures p != q
  {
    var a: seq<Name> :| VisibleFrom(fs, data, dir, base == [], a) && Via(fs, dir, i, a) && p == Scope(Under("", base + a));
    var b: seq<Name> :| VisibleFrom(fs, data, dir, base == [], b) && b[0] == name && q == Scope(Under("", base + b));
    if p == q {
      SamePath(base, a, b);
    }
  }

  /** An entry that is not a name the walk can report leaves the list as it is. */
  lemma SkipUnnamed(fs: Fs, data: Name, dir: Handle, base: seq<Name>, i: nat, paths: seq<string>)
    requires !fs.next(0, dir, i).Named?
    requires ExactBefore(fs, data, dir, base, i, paths)
    ensures ExactBefore(fs, data, dir, base, i + 1, paths)
  {
    forall p | p in paths
      ensures Explained(fs, data, dir, base, i + 1, p)
    {
      assert Explained(fs, data, dir, base, i, p);
      var comps: seq<Name> :| VisibleFrom(fs, data, dir, base == [], comps) && Via(fs, dir, i, comps)
                              && p == Scope(Under("", base + comps));
      ViaStep(fs, dir, i, comps);
    }
    forall comps: seq<Name> | VisibleFrom(fs, data, dir, base == [], comps) && Via(fs, dir, i + 1, comps)
      ensures Scope(Under("", base + comps)) in paths
    {
      assert Via(fs, dir, i, comps);
    }
  }

  lemma SkipEntry(fs: Fs, data: Name, dir: Handle, base: seq<Name>, name: Name)
    requires !(Reachable(fs, data, dir, base == [], name) &&
               (HasKind(fs, dir, name, Directory) || (HasKind(fs, dir, name, Regular) && GdExtension(name))))
    ensures EntryExact(fs, data, dir, base, name, [])
  {
  }

  lemma FileEntry(fs: Fs, data: Name, dir: Handle, base: seq<Name>, name: Name)
    requires ListsName(fs, dir, name) && Reachable(fs, data, dir, base == [], name)
    requires HasKind(fs, dir, name, Regular) && GdExtension(name)
    ensures EntryExact(fs, data, dir, base, name, [Scope(Under("", base + [name]))])
  {
    var comps: seq<Name> := [name];
    assert VisibleFrom(fs, data, dir, base == [], comps);
    forall c: seq<Name> | VisibleFrom(fs, data, dir, base == [], c) && c[0] == name
      ensures c == [name]
    {
      assert |c| == 1;
    }
  }

  /** A directory entry contributes what its own walk lists, or nothing when it is ignored. */
  lemma DirectoryEntry(fs: Fs, data: Name, dir: Handle, base: seq<Name>, name: Name, below: Handle, paths: seq<string>)
    requires ListsName(fs, dir, name) && Reachable(fs, data, dir, base == [], name)
    requires HasKind(fs, dir, name, Directory) && fs.open(0, dir, name) == Some(below)
    requires if IgnoredDirectory(fs, below) then paths == [] else Exact(fs, data, below, base + [name], paths)
    ensures EntryExact(fs, data, dir, base, name, paths)
  {
    hide Under, ListsName, Reachable;
    forall p | p in paths
      ensures ExplainedVia(fs, data, dir, base, name, p)
    {
      assert ExplainedBy(fs, data, below, base + [name], p);
      DirectoryExplains(fs, data, dir, base, name, below, p);
    }
    forall comps: seq<Name> | VisibleFrom(fs, data, dir, base == [], comps) && comps[0] == name
      ensures Scope(Under("", base + comps)) in paths
    {
      assert |comps| > 1;
      assert base + [name] + comps[1..] == base + comps;
    }
  }

  lemma DirectoryExplains(fs: Fs, data: Name, dir: Handle, base: seq<Name>, name: Name, below: Handle, p: string)
    requires ListsName(fs, dir, name) && Reachable(fs, data, dir, base == [], name)
    requires HasKind(fs, dir, name, Directory) && fs.open(0, dir, name) == Some(below)
    requires !IgnoredDirectory(fs, below) && ExplainedBy(fs, data, below, base + [name], p)
    ensures ExplainedVia(fs, data, dir, base, name, p)
  {
    hide Under, ListsName, Reachable;
    var rest: seq<Name> :| VisibleFrom(fs, data, below, false, rest) && p == Scope(Under("", base + [name] + rest));
    var comps: seq<Name> := [name] + rest;
    assert comps[1..] == rest && comps[0] == name && |comps| > 1;
    assert base + [name] + rest == base + comps;
    assert VisibleFrom(fs, data, dir, base == [], comps);
  }

  /** Nothing is visible before the first entry, and everything once the iterator ended. */
  lemma NothingYet(fs: Fs, data: Name, dir: Handle, base: seq<Name>)
    ensures ExactBefore(fs, data, dir, base, 0, [])
  {
  }

  lemma AllEntries(fs: Fs, data: Name, dir: Handle, base: seq<Name>, i: nat, paths: seq<string>)
    requires fs.next(0, dir, i) == End
    requires ExactBefore(fs, data, dir, base, i, paths)
    ensures Exact(fs, data, dir, base, paths)
  {
    forall p | p in paths
      ensures ExplainedBy(fs, data, dir, base, p)
    {
      assert Explained(fs, data, dir, base, i, p);
    }
    forall comps: seq<Name> | VisibleFrom(fs, data, dir, base == [], comps)
      ensures Via(fs, dir, i, comps)
    {
      var k: nat :| Listed(fs, dir, k) && fs.next(0, dir, k) == Named(comps[0]);
      assert k < i;
    }
  }
}
