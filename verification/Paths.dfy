/** Project-relative paths as the discovery walk, the prefix invalidation and the
    locator checks see them.  A string holds one `char` per UTF-8 byte, so lengths
    are byte lengths. */
module Paths {
  import opened Wrappers

  /** A directory entry name: the host never reports an empty name or one with a slash. */
  type Name = s: string | s != "" && '/' !in s witness "a"

  function Child(relative: string, name: string): string {
    if relative == "" then name else relative + "/" + name
  }

  /** The relative path reached from `relative` through `comps`. */
  function Under(relative: string, comps: seq<Name>): string
    decreases |comps|
  {
    if comps == [] then relative else Under(Child(relative, comps[0]), comps[1..])
  }

  function Scope(relative: string): string {
    "res://" + relative
  }

  /** Whether invalidating `prefix` withdraws `relative`. */
  predicate Affected(relative: string, prefix: string) {
    || prefix == ""
    || relative == prefix
    || (prefix <= relative && |relative| > |prefix| && relative[|prefix|] == '/')
  }

  /** `split('/')`. */
  function Segments(s: string): (r: seq<string>)
    ensures r != []
  {
    if s == "" then [""]
    else
      var rest := Segments(s[1..]);
      if s[0] == '/' then [""] + rest else [[s[0]] + rest[0]] + rest[1..]
  }

  /** `rsplit_once(sep)`. */
  function RSplit(s: string, sep: char): Option<(string, string)> {
    if s == "" then None
    else if s[|s| - 1] == sep then Some((s[..|s| - 1], ""))
    else match RSplit(s[..|s| - 1], sep)
      case None => None
      case Some((left, right)) => Some((left, right + [s[|s| - 1]]))
  }

  predicate HasControl(s: string) {
    exists i :: 0 <= i < |s| &&
      (s[i] < 32 as char || s[i] == 127 as char ||
       (s[i] == 0xC2 as char && i + 1 < |s| && 0x80 as char <= s[i + 1] <= 0x9F as char))
  }

  predicate ValidComponent(part: string) {
    && part != "" && part != "." && part != ".."
    && '\\' !in part && !HasControl(part)
    && '?' !in part && '#' !in part && ':' !in part
  }

  predicate ValidComponents(value: string) {
    forall part :: part in Segments(value) ==> ValidComponent(part)
  }

  /** The locator constructor for paths without a `::` subresource. */
  predicate PlainLocator(path: string) {
    && "res://" <= path && |path| <= 2048
    && ValidComponents(path[6..])
  }

  predicate GdExtension(name: string) {
    match RSplit(name, '.')
    case None => false
    case Some((_, ext)) => |ext| == 2 && (ext[0] == 'g' || ext[0] == 'G') && (ext[1] == 'd' || ext[1] == 'D')
  }

  /** The consumer's own admission test for a listed locator. */
  predicate Eligible(path: string, data: string) {
    && PlainLocator(path)
    && ':' !in path[6..]
    && (forall p :: p in Segments(path[6..]) ==> !("." <= p))
    && path != data
    && !(data + "/" <= path)
    && GdExtension(path[6..])
  }

  // ---- slash-terminated form: every component followed by one slash ----

  function Terminated(comps: seq<Name>): string {
    if comps == [] then "" else comps[0] + "/" + Terminated(comps[1..])
  }

  lemma {:induction false} UnderTerminated(relative: string, comps: seq<Name>)
    requires relative != "" || comps != []
    ensures Under(relative, comps) != ""
    ensures Under(relative, comps) + "/" == (if relative == "" then "" else relative + "/") + Terminated(comps)
    decreases |comps|
  {
    if comps != [] {
      UnderTerminated(Child(relative, comps[0]), comps[1..]);
      if relative != "" {
        assert relative + "/" + comps[0] + "/" + Terminated(comps[1..])
            == relative + "/" + (comps[0] + "/" + Terminated(comps[1..]));
      }
    }
  }

  /** A slash-free string followed by a slash is fixed by whatever starts with it. */
  lemma FirstSlash(x: string, y: string, p: string, q: string)
    requires '/' !in x && '/' !in y
    requires x + "/" + p <= y + "/" + q
    ensures x == y && p <= q
  {
    var a, b := x + "/" + p, y + "/" + q;
    assert a[|x|] == '/' && b[|y|] == '/';
    assert forall i :: 0 <= i < |x| ==> a[i] == x[i];
    assert forall i :: 0 <= i < |y| ==> b[i] == y[i];
    assert |x| == |y|;
    assert x == a[..|x|] == b[..|y|] == y;
    assert p == a[|x| + 1..] && q == b[|y| + 1..];
  }

  lemma {:induction false} TerminatedPrefix(a: seq<Name>, b: seq<Name>)
    ensures Terminated(b) <= Terminated(a) <==> b <= a
    decreases |b|
  {
    if b == [] {
    } else if a == [] {
      assert |Terminated(b)| > 0;
    } else {
      TerminatedPrefix(a[1..], b[1..]);
      if Terminated(b) <= Terminated(a) {
        FirstSlash(b[0], a[0], Terminated(b[1..]), Terminated(a[1..]));
        assert b == [b[0]] + b[1..] && a == [a[0]] + a[1..];
      }
      if b <= a {
        assert b[1..] <= a[1..];
        assert Terminated(a) == a[0] + "/" + Terminated(b[1..]) + Terminated(a[1..])[|Terminated(b[1..])|..];
      }
    }
  }

  lemma AffectedIsSlashPrefix(x: string, y: string)
    requires y != ""
    ensures Affected(x, y) <==> y + "/" <= x + "/"
  {
    var p, q := y + "/", x + "/";
    if Affected(x, y) && x != y {
      assert forall i :: 0 <= i < |y| ==> q[i] == x[i] == y[i];
      assert p == q[..|y| + 1];
    }
    if p <= q {
      assert forall i :: 0 <= i < |y| ==> q[i] == p[i] == y[i];
      assert q[|y|] == p[|y|] == '/';
      if |x| > |y| {
        assert y == x[..|y|];
      } else {
        assert x == y;
      }
    }
  }

  /** Invalidating a path withdraws exactly the paths whose components extend its own. */
  lemma AffectedIsComponentPrefix(a: seq<Name>, b: seq<Name>)
    ensures Affected(Under("", a), Under("", b)) <==> b <= a
  {
    if b != [] {
      UnderTerminated("", b);
      if a != [] {
        NonEmptyAffected(a, b);
      }
    }
  }

  lemma RootTerminated(comps: seq<Name>)
    requires comps != []
    ensures Under("", comps) != "" && Under("", comps) + "/" == Terminated(comps)
  {
    UnderTerminated("", comps);
    assert "" + Terminated(comps) == Terminated(comps);
  }

  lemma NonEmptyAffected(a: seq<Name>, b: seq<Name>)
    requires a != [] && b != []
    ensures Affected(Under("", a), Under("", b)) <==> b <= a
  {
    RootTerminated(a);
    RootTerminated(b);
    TerminatedPrefix(a, b);
    var x, y := Under("", a), Under("", b);
    AffectedIsSlashPrefix(x, y);
  }

  lemma {:induction false} UnderAppend(relative: string, a: seq<Name>, b: seq<Name>)
    ensures Under(Under(relative, a), b) == Under(relative, a + b)
    decreases |a|
  {
    if a == [] {
      assert a + b == b;
    } else {
      UnderAppend(Child(relative, a[0]), a[1..], b);
      assert (a + b)[0] == a[0] && (a + b)[1..] == a[1..] + b;
    }
  }

  /** Distinct component sequences name distinct paths. */
  lemma UnderInjective(a: seq<Name>, b: seq<Name>)
    requires Under("", a) == Under("", b)
    ensures a == b
  {
    AffectedIsComponentPrefix(a, b);
    AffectedIsComponentPrefix(b, a);
  }

  // ---- the string operations of the recheck, on paths the walk built ----

  lemma {:induction false} SegmentsOfName(name: Name, rest: string)
    ensures Segments(name) == [name]
    ensures Segments(name + "/" + rest) == [name] + Segments(rest)
    decreases |name|
  {
    var s := name + "/" + rest;
    assert s[0] == name[0];
    if |name| == 1 {
      assert s[1..] == "/" + rest;
      assert ("/" + rest)[1..] == rest;
      assert Segments(s[1..]) == [""] + Segments(rest);
      assert [name[0]] + "" == name;
    } else {
      SegmentsOfName(name[1..], rest);
      assert s[1..] == name[1..] + "/" + rest;
      assert [name[0]] + name[1..] == name;
    }
  }

  lemma UnderCons(comps: seq<Name>)
    requires |comps| > 1
    ensures Under("", comps) == comps[0] + "/" + Under("", comps[1..])
  {
    hide Under;
    UnderTerminated("", comps);
    UnderTerminated("", comps[1..]);
    var x, y := Under("", comps), comps[0] + "/" + Under("", comps[1..]);
    assert y + "/" == comps[0] + "/" + (Under("", comps[1..]) + "/");
    assert x == (x + "/")[..|x|] && y == (y + "/")[..|y|];
  }

  /** Splitting a walked path gives its components back. */
  lemma {:induction false} SegmentsUnder(comps: seq<Name>)
    requires comps != []
    ensures Segments(Under("", comps)) == comps
    decreases |comps|
  {
    if |comps| == 1 {
      SegmentsOfName(comps[0], "");
      assert Under("", comps) == comps[0];
      assert comps == [comps[0]];
    } else {
      SegmentsUnder(comps[1..]);
      UnderCons(comps);
      SegmentsOfName(comps[0], Under("", comps[1..]));
      assert comps == [comps[0]] + comps[1..];
    }
  }

  lemma {:induction false} RSplitAbsent(s: string, sep: char)
    requires sep !in s
    ensures RSplit(s, sep) == None
  {
    if s != "" { RSplitAbsent(s[..|s| - 1], sep); }
  }

  lemma {:induction false} RSplitLast(left: string, right: string, sep: char)
    requires sep !in right
    ensures RSplit(left + [sep] + right, sep) == Some((left, right))
    decreases |right|
  {
    var s := left + [sep] + right;
    if right == "" {
      assert s[..|s| - 1] == left;
    } else {
      var r := right[..|right| - 1];
      RSplitLast(left, r, sep);
      assert s[..|s| - 1] == left + [sep] + r;
      assert r + [right[|right| - 1]] == right;
    }
  }

  /** The parent and final name of a walked path. */
  lemma ParentUnder(comps: seq<Name>, name: Name)
    ensures Under("", comps + [name]) == Child(Under("", comps), name)
    ensures comps == [] ==> RSplit(Under("", comps + [name]), '/') == None
    ensures comps != [] ==> RSplit(Under("", comps + [name]), '/') == Some((Under("", comps), name))
  {
    UnderAppend("", comps, [name]);
    assert Under(Under("", comps), [name]) == Child(Under("", comps), name);
    if comps == [] {
      RSplitAbsent(name, '/');
    } else {
      UnderTerminated("", comps);
      RSplitLast(Under("", comps), name, '/');
    }
  }

  lemma ExtensionOfChild(relative: string, name: Name)
    requires GdExtension(name)
    ensures GdExtension(Child(relative, name))
  {
    if relative != "" {
      var (left, ext) := RSplit(name, '.').value;
      RSplitParts(name, '.');
      assert relative + "/" + name == (relative + "/" + left) + ['.'] + ext;
      RSplitLast(relative + "/" + left, ext, '.');
    }
  }

  lemma {:induction false} RSplitParts(s: string, sep: char)
    requires RSplit(s, sep).Some?
    ensures s == RSplit(s, sep).value.0 + [sep] + RSplit(s, sep).value.1
    ensures sep !in RSplit(s, sep).value.1
  {
    if s[|s| - 1] != sep {
      RSplitParts(s[..|s| - 1], sep);
    }
  }

  lemma {:induction false} SegmentOf(s: string, c: char) returns (part: string)
    requires c in s && c != '/'
    ensures part in Segments(s) && c in part
    decreases |s|
  {
    var rest := Segments(s[1..]);
    if s[0] == c {
      part := [s[0]] + rest[0];
      assert Segments(s)[0] == part;
    } else {
      part := SegmentOf(s[1..], c);
      if s[0] == '/' {
        assert Segments(s) == [""] + rest;
      } else if part == rest[0] {
        part := [s[0]] + rest[0];
        assert Segments(s)[0] == part;
      } else {
        assert part in rest[1..];
      }
    }
  }

  lemma ColonFree(relative: string)
    requires ValidComponents(relative)
    ensures ':' !in relative
  {
    if ':' in relative {
      var part := SegmentOf(relative, ':');
      assert false;
    }
  }

  lemma ScopePrefix(x: string, y: string)
    ensures Scope(x) == Scope(y) <==> x == y
    ensures Scope(x) + "/" <= Scope(y) ==> x + "/" <= y + "/"
  {
    assert Scope(x)[6..] == x && Scope(y)[6..] == y;
    assert (Scope(x) + "/")[6..] == x + "/";
    if Scope(x) + "/" <= Scope(y) {
      assert x + "/" <= y;
    }
  }

  /** Every locator built from plain, dot-free components outside the data directory, with the
      script extension, is admitted by the consumer. */
  lemma WalkedPathEligible(dirs: seq<Name>, name: Name, data: Name)
    requires PlainLocator(Scope(Under("", dirs + [name])))
    requires forall n :: n in dirs + [name] ==> n[0] != '.'
    requires (dirs + [name])[0] != data
    requires GdExtension(name)
    ensures Eligible(Scope(Under("", dirs + [name])), Scope(data))
  {
    var all := dirs + [name];
    var relative := Under("", all);
    var path := Scope(relative);
    assert path[6..] == relative;
    SegmentsUnder(all);
    ColonFree(relative);
    forall p | p in Segments(relative)
      ensures !("." <= p)
    {
      assert p in all;
      assert p[0] != '.';
    }
    AffectedIsComponentPrefix(all, [data]);
    assert Under("", [data]) == data;
    assert !([data] <= all);
    AffectedIsSlashPrefix(relative, data);
    ScopePrefix(data, relative);
    ParentUnder(dirs, name);
    ExtensionOfChild(Under("", dirs), name);
  }
}
