/** Whether the editor's own save would rewrite a source: the scanner of the open edit and the
    one of the closed edit, each against a statement about the text. */
module SaveProfile {

  datatype Profile = Profile(trimSpace: bool, trimNewlines: bool, convert: bool, spaces: bool, indent: nat)

  predicate Blank(c: char) {
    c == ' ' || c == '\t'
  }

  /** `s[from..to]` is indentation: blanks at the start of a line. */
  predicate Indentation(s: string, from: nat, to: nat) {
    && from <= to <= |s|
    && (from == 0 || s[from - 1] == '\n')
    && forall k | from <= k < to :: Blank(s[k])
  }

  predicate TrailingBlank(s: string, i: nat) {
    i < |s| && Blank(s[i]) && (i + 1 == |s| || s[i + 1] == '\n')
  }

  predicate BlankFinalLine(s: string) {
    s == "\n" || (|s| >= 2 && s[|s| - 2..] == "\n\n")
  }

  /** The indentation `s[from..to]` ends with `width` spaces in a row. */
  predicate SpaceRun(s: string, from: nat, to: nat, width: nat) {
    Indentation(s, from, to) && from + width <= to && forall k | to - width <= k < to :: s[k] == ' '
  }

  predicate TabIndent(s: string, from: nat, to: nat) {
    Indentation(s, from, to) && exists k :: from <= k < to && s[k] == '\t'
  }

  function Spaces(s: string): nat {
    if s == "" then 0 else Spaces(s[..|s| - 1]) + (if s[|s| - 1] == ' ' then 1 else 0)
  }

  /** Trimming and converting change nothing in `s`. */
  predicate Preserved(p: Profile, s: string) {
    && (p.trimNewlines ==> !BlankFinalLine(s))
    && (p.trimSpace ==> forall i: nat | i < |s| :: !TrailingBlank(s, i))
    && (p.convert ==> forall from: nat, to: nat | from <= to <= |s| ::
          if p.spaces then !TabIndent(s, from, to) else !SpaceRun(s, from, to, p.indent))
  }

  /** What the closed edit asks for: its count of spaces is not reset by a tab. */
  predicate PreservedClosed(p: Profile, s: string) {
    && (p.trimNewlines ==> !BlankFinalLine(s))
    && (p.trimSpace ==> forall i: nat | i < |s| :: !TrailingBlank(s, i))
    && (p.convert ==> forall from: nat, to: nat | from <= to <= |s| ::
          if p.spaces then !TabIndent(s, from, to)
          else !(Indentation(s, from, to) && Spaces(s[from..to]) >= p.indent))
  }

  /** The part of `Preserved` that concerns the first `n` characters. */
  ghost predicate PreservedBefore(p: Profile, s: string, n: nat) {
    && n <= |s|
    && (p.trimSpace ==> forall i: nat | i < n :: !TrailingBlank(s, i))
    && (p.convert ==> forall from: nat, to: nat | from <= to <= n ::
          if p.spaces then !TabIndent(s, from, to) else !SpaceRun(s, from, to, p.indent))
  }

  ghost predicate LineStart(s: string, start: nat, i: nat) {
    && start <= i <= |s|
    && (start == 0 || s[start - 1] == '\n')
    && forall k | start <= k < i :: s[k] != '\n'
  }

  lemma OneLineStart(s: string, start: nat, from: nat, i: nat)
    requires LineStart(s, start, i) && Indentation(s, from, i)
    ensures from == start
  {
    assert from < start ==> Blank(s[start - 1]);
  }

  /** The scanner of the open edit. */
  method Compatible(p: Profile, s: string) returns (ok: bool)
    requires p.indent >= 1
    ensures ok <==> Preserved(p, s)
  {
    if p.trimNewlines && BlankFinalLine(s) { return false; }
    var beginning, leading, i := true, 0, 0;
    ghost var start, run := 0, 0;
    while i < |s|
      invariant PreservedBefore(p, s, i)
      invariant LineStart(s, start, i) && start <= run <= i
      invariant beginning <==> Indentation(s, start, i)
      invariant beginning && p.convert && !p.spaces ==> leading == i - run
      invariant p.convert && !p.spaces ==> forall k | run <= k < i :: beginning ==> s[k] == ' '
      invariant beginning && p.convert && !p.spaces ==> run == start || s[run - 1] != ' '
    {
      var c := s[i];
      if c == '\n' {
        StepLine(p, s, start, i);
        beginning, leading := true, 0;
        start, run := i + 1, i + 1;
      } else {
        if p.trimSpace && Blank(c) && (i + 1 == |s| || s[i + 1] == '\n') {
          assert TrailingBlank(s, i);
          return false;
        }
        if beginning && Blank(c) {
          if p.convert && (if p.spaces then c == '\t' else c == ' ') {
            if c == '\t' {
              assert TabIndent(s, start, i + 1);
              return false;
            }
            leading := leading + 1;
            if leading >= p.indent {
              assert SpaceRun(s, start, i + 1, p.indent);
              return false;
            }
          } else if c == '\t' {
            leading := 0;
            run := i + 1;
          }
          if p.convert && !p.spaces { StepSpaces(p, s, start, run, i); }
          if p.convert && p.spaces { StepTabs(s, start, i); }
        } else {
          beginning, leading := false, 0;
        }
        StepLine(p, s, start, i);
      }
      i := i + 1;
    }
    return true;
  }

  /** One more character adds at most the indentation that ends with it. */
  lemma StepLine(p: Profile, s: string, start: nat, i: nat)
    requires i < |s| && PreservedBefore(p, s, i) && LineStart(s, start, i)
    requires p.trimSpace ==> !TrailingBlank(s, i)
    requires p.convert ==> if p.spaces then !TabIndent(s, start, i + 1) else !SpaceRun(s, start, i + 1, p.indent)
    requires p.indent >= 1
    ensures PreservedBefore(p, s, i + 1)
  {
    if p.convert {
      forall from: nat, to: nat | from <= to <= i + 1
        ensures if p.spaces then !TabIndent(s, from, to) else !SpaceRun(s, from, to, p.indent)
      {
        if to == i + 1 && Indentation(s, from, to) {
          if from <= i { OneLineStart(s, start, from, i); }
        }
      }
    }
  }

  lemma StepSpaces(p: Profile, s: string, start: nat, run: nat, i: nat)
    requires i < |s| && start <= run <= i + 1 && Indentation(s, start, i)
    requires run == start || s[run - 1] != ' '
    requires i + 1 - run < p.indent
    ensures !SpaceRun(s, start, i + 1, p.indent)
  {
    var before := if run > start then s[run - 1] else '\n';
  }

  lemma StepTabs(s: string, start: nat, i: nat)
    requires i < |s| && start <= i && !TabIndent(s, start, i) && Indentation(s, start, i) && s[i] != '\t'
    ensures !TabIndent(s, start, i + 1)
  {
  }

  /** The scanner of the closed edit. */
  method CompatibleClosed(p: Profile, s: string) returns (ok: bool)
    requires p.indent >= 1
    ensures ok <==> PreservedClosed(p, s)
  {
    if p.trimNewlines && BlankFinalLine(s) { return false; }
    var beginning, spaces, i := true, 0, 0;
    ghost var start := 0;
    while i < |s|
      invariant ClosedBefore(p, s, i)
      invariant LineStart(s, start, i)
      invariant beginning <==> Indentation(s, start, i)
      invariant beginning && p.convert && !p.spaces ==> spaces == Spaces(s[start..i])
    {
      var c := s[i];
      if c == '\n' {
        StepClosed(p, s, start, i);
        beginning, spaces := true, 0;
        start := i + 1;
      } else {
        if p.trimSpace && Blank(c) && (i + 1 == |s| || s[i + 1] == '\n') {
          assert TrailingBlank(s, i);
          return false;
        }
        assert s[start..i + 1][..i - start] == s[start..i];
        if beginning && Blank(c) {
          if p.convert && p.spaces && c == '\t' {
            assert TabIndent(s, start, i + 1);
            return false;
          }
          if p.convert && !p.spaces && c == ' ' {
            spaces := spaces + 1;
            if spaces >= p.indent {
              assert Indentation(s, start, i + 1);
              return false;
            }
          }
        } else {
          beginning := false;
        }
        StepClosed(p, s, start, i);
      }
      i := i + 1;
    }
    return true;
  }

  ghost predicate ClosedBefore(p: Profile, s: string, n: nat) {
    && n <= |s|
    && (p.trimSpace ==> forall i: nat | i < n :: !TrailingBlank(s, i))
    && (p.convert ==> forall from: nat, to: nat | from <= to <= n ::
          if p.spaces then !TabIndent(s, from, to)
          else !(Indentation(s, from, to) && Spaces(s[from..to]) >= p.indent))
  }

  lemma StepClosed(p: Profile, s: string, start: nat, i: nat)
    requires i < |s| && ClosedBefore(p, s, i) && LineStart(s, start, i)
    requires p.trimSpace ==> !TrailingBlank(s, i)
    requires p.convert ==>
               if p.spaces then !TabIndent(s, start, i + 1)
               else !(Indentation(s, start, i + 1) && Spaces(s[start..i + 1]) >= p.indent)
    requires p.indent >= 1
    ensures ClosedBefore(p, s, i + 1)
  {
    if p.convert {
      forall from: nat, to: nat | from <= to <= i + 1
        ensures if p.spaces then !TabIndent(s, from, to)
                else !(Indentation(s, from, to) && Spaces(s[from..to]) >= p.indent)
      {
        if to == i + 1 && Indentation(s, from, to) {
          if from <= i { OneLineStart(s, start, from, i); } else { assert s[from..to] == ""; }
        }
      }
    }
  }

  lemma {:induction false} RunOfSpaces(s: string, width: nat)
    requires width <= |s| && forall k | |s| - width <= k < |s| :: s[k] == ' '
    ensures Spaces(s) >= width
  {
    if width > 0 {
      RunOfSpaces(s[..|s| - 1], width - 1);
    }
  }

  /** The closed edit is the stricter one: what it accepts the open edit accepts. */
  lemma ClosedIsStricter(p: Profile, s: string)
    requires PreservedClosed(p, s)
    ensures Preserved(p, s)
  {
    if p.convert && !p.spaces {
      forall from: nat, to: nat | from <= to <= |s|
        ensures !SpaceRun(s, from, to, p.indent)
      {
        if SpaceRun(s, from, to, p.indent) {
          RunOfSpaces(s[from..to], p.indent);
        }
      }
    }
  }

  lemma {:induction false} OnlySpaces(s: string)
    requires forall k | 0 <= k < |s| :: s[k] == ' '
    ensures Spaces(s) == |s|
  {
    if s != "" { OnlySpaces(s[..|s| - 1]); }
  }

  /** An indentation with at least `width` spaces and a tab among them. */
  predicate Mixed(s: string, from: nat, to: nat, width: nat) {
    TabIndent(s, from, to) && Spaces(s[from..to]) >= width
  }

  lemma Unmixed(s: string, from: nat, to: nat, width: nat)
    requires from <= to <= |s| && Indentation(s, from, to) && Spaces(s[from..to]) >= width && !TabIndent(s, from, to)
    ensures SpaceRun(s, from, to, width)
  {
    OnlySpaces(s[from..to]);
  }

  /** When the two scanners disagree: exactly on the texts the open edit accepts, under conversion to tabs,
      in which some indentation mixes a tab with as many spaces as make one indent. */
  lemma ScannersDisagree(p: Profile, s: string)
    ensures Preserved(p, s) && !PreservedClosed(p, s) <==>
              Preserved(p, s) && p.convert && !p.spaces && exists from: nat, to: nat :: Mixed(s, from, to, p.indent)
    ensures PreservedClosed(p, s) ==> Preserved(p, s)
  {
    if PreservedClosed(p, s) { ClosedIsStricter(p, s); }
    if Preserved(p, s) && p.convert && !p.spaces {
      forall from: nat, to: nat | from <= to <= |s| && Indentation(s, from, to) && Spaces(s[from..to]) >= p.indent
        ensures Mixed(s, from, to, p.indent)
      {
        if !TabIndent(s, from, to) { Unmixed(s, from, to, p.indent); }
      }
    }
  }

  /** One such text: spaces on both sides of a tab are counted together by the closed edit alone. */
  lemma StricterWitness()
    ensures var p := Profile(false, false, true, false, 2);
            Preserved(p, " \t x") && !PreservedClosed(p, " \t x")
  {
    var p, s := Profile(false, false, true, false, 2), " \t x";
    assert s[0] == ' ' && s[1] == '\t' && s[2] == ' ' && s[3] == 'x';
    assert Indentation(s, 0, 3);
    assert s[0..3] == " \t ";
    assert Spaces(" \t ") == 2 by {
      assert " \t "[..2] == " \t" && " \t"[..1] == " " && " "[..0] == "";
    }
    forall from: nat, to: nat | from <= to <= |s|
      ensures !SpaceRun(s, from, to, 2)
    {
      var last, before := if to > 0 then s[to - 1] else '\n', if to > 1 then s[to - 2] else '\n';
    }
  }
}
