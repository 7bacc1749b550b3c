/** Recognising UTF-8 text (section 4 of RFC 3629) and the characters a source may not contain: the
    byte-level tests of the add-on against the character-level test of the server. */
module Utf8 {

  type Byte = b: nat | b < 256

  /** A Unicode scalar value. */
  predicate Scalar(c: nat) {
    c <= 0x10FFFF && !(0xD800 <= c <= 0xDFFF)
  }

  function Encode(c: nat): (b: seq<Byte>)
    requires Scalar(c)
    ensures 1 <= |b| <= 4
  {
    if c < 0x80 then [c]
    else if c < 0x800 then [0xC0 + c / 64, 0x80 + c % 64]
    else if c < 0x10000 then [0xE0 + c / 4096, 0x80 + c / 64 % 64, 0x80 + c % 64]
    else [0xF0 + c / 262144, 0x80 + c / 4096 % 64, 0x80 + c / 64 % 64, 0x80 + c % 64]
  }

  ghost predicate Scalars(cs: seq<nat>) {
    forall k | 0 <= k < |cs| :: Scalar(cs[k])
  }

  function EncodeAll(cs: seq<nat>): seq<Byte>
    requires Scalars(cs)
  {
    if cs == [] then [] else Encode(cs[0]) + EncodeAll(cs[1..])
  }

  /** The encoding of a sequence of scalar values other than zero. */
  ghost predicate IsText(s: seq<Byte>) {
    exists cs: seq<nat> :: Spells(cs, s)
  }

  ghost predicate Spells(cs: seq<nat>, s: seq<Byte>) {
    Scalars(cs) && 0 !in cs && EncodeAll(cs) == s
  }

  // ---- one character ----

  /** A byte of the form 10xxxxxx. */
  predicate Continues(b: Byte) {
    0x80 <= b < 0xC0
  }

  function Width(lead: Byte): (w: nat)
    ensures w <= 4
  {
    if lead < 0x80 then 1
    else if 0xC2 <= lead <= 0xDF then 2
    else if 0xE0 <= lead <= 0xEF then 3
    else if 0xF0 <= lead <= 0xF4 then 4
    else 0
  }

  /** Second bytes that would be overlong, a surrogate, or beyond the last plane. */
  predicate Excluded(lead: Byte, next: Byte) {
    || (lead == 0xE0 && next < 0xA0)
    || (lead == 0xED && next >= 0xA0)
    || (lead == 0xF0 && next < 0x90)
    || (lead == 0xF4 && next >= 0x90)
  }

  /** What one round of the recogniser admits at the front of the input. */
  predicate Admitted(t: seq<Byte>)
    requires t != []
  {
    var w := Width(t[0]);
    && t[0] != 0
    && 0 < w <= |t|
    && (forall j | 1 <= j < w :: Continues(t[j]))
    && (w > 1 ==> !Excluded(t[0], t[1]))
  }

  /** The code point assembled from a lead byte and six bits of each continuation byte. */
  function Value(t: seq<Byte>): int
    requires t != [] && 0 < Width(t[0]) <= |t|
  {
    match Width(t[0])
    case 1 => t[0]
    case 2 => Join(t[0] as int - 0xC0, t[1])
    case 3 => Join(Join(t[0] as int - 0xE0, t[1]), t[2])
    case _ => Join(Join(Join(t[0] as int - 0xF0, t[1]), t[2]), t[3])
  }

  /** Six more bits. */
  function Join(high: int, b: Byte): int {
    high * 64 + (b as int - 0x80)
  }

  lemma JoinSplits(high: int, b: Byte)
    requires Continues(b) && high >= 0
    ensures Join(high, b) / 64 == high && 0x80 + Join(high, b) % 64 == b
  {
  }

  lemma SplitJoins(c: nat)
    ensures Join(c / 64, 0x80 + c % 64) == c
  {
  }

  lemma NestedDivision(c: nat)
    ensures c / 4096 == c / 64 / 64 && c / 262144 == c / 4096 / 64
  {
  }

  /** What is admitted is the encoding of a scalar value other than zero. */
  lemma AdmittedEncodes(t: seq<Byte>)
    requires t != [] && Admitted(t)
    ensures Scalar(Value(t)) && Value(t) != 0 && Encode(Value(t)) == t[..Width(t[0])]
  {
    match Width(t[0])
    case 1 =>
    case 2 => JoinSplits(t[0] as int - 0xC0, t[1]);
    case 3 => AdmittedThree(t);
    case _ => AdmittedFour(t);
  }

  lemma AdmittedThree(t: seq<Byte>)
    requires t != [] && Admitted(t) && Width(t[0]) == 3
    ensures Scalar(Value(t)) && Value(t) != 0 && Encode(Value(t)) == t[..3]
  {
    var high := t[0] as int - 0xE0;
    var middle := Join(high, t[1]);
    JoinSplits(high, t[1]);
    JoinSplits(middle, t[2]);
    var c := Join(middle, t[2]);
    NestedDivision(c);
    assert 0x20 <= middle < 0x400 && !(0x360 <= middle < 0x380);
    assert Encode(c) == [t[0], t[1], t[2]];
  }

  lemma AdmittedFour(t: seq<Byte>)
    requires t != [] && Admitted(t) && Width(t[0]) == 4
    ensures Scalar(Value(t)) && Value(t) != 0 && Encode(Value(t)) == t[..4]
  {
    var high := t[0] as int - 0xF0;
    var second := Join(high, t[1]);
    var third := Join(second, t[2]);
    JoinSplits(high, t[1]);
    JoinSplits(second, t[2]);
    JoinSplits(third, t[3]);
    var c := Join(third, t[3]);
    assert Value(t) == c;
    assert 0x10 <= second < 0x110;
    assert 0x400 <= third < 0x4400;
    assert 0x10000 <= c <= 0x10FFFF;
    hide Join, Admitted, Width, Continues, Value;
    NestedDivision(c);
    assert c / 64 == third && c / 4096 == second && c / 262144 == high;
    assert Encode(c) == [t[0], t[1], t[2], t[3]];
  }

  /** The first bytes of an encoding tell its length and its value, whatever follows. */
  lemma EncodingShape(c: nat, rest: seq<Byte>)
    requires Scalar(c)
    ensures var t := Encode(c) + rest;
            Width(t[0]) == |Encode(c)| && Value(t) == c && (Admitted(t) <==> c != 0)
  {
    var t := Encode(c) + rest;
    NestedDivision(c);
    SplitJoins(c);
    SplitJoins(c / 64);
    SplitJoins(c / 4096);
    hide Join;
    if c < 0x80 {
    } else if c < 0x800 {
      ShapeTwo(c, t);
    } else if c < 0x10000 {
      ShapeThree(c, t);
    } else {
      ShapeFour(c, t);
    }
  }

  lemma ShapeTwo(c: nat, t: seq<Byte>)
    requires 0x80 <= c < 0x800 && Encode(c) <= t
    ensures Width(t[0]) == 2 && Admitted(t) && t[0] as int - 0xC0 == c / 64 && t[1] == 0x80 + c % 64
  {
    assert t[0] == Encode(c)[0] && t[1] == Encode(c)[1];
  }

  lemma ShapeThree(c: nat, t: seq<Byte>)
    requires 0x800 <= c < 0x10000 && Scalar(c) && Encode(c) <= t
    ensures Width(t[0]) == 3 && Admitted(t)
    ensures t[0] as int - 0xE0 == c / 4096 && t[1] == 0x80 + c / 64 % 64 && t[2] == 0x80 + c % 64
  {
    assert t[0] == Encode(c)[0] && t[1] == Encode(c)[1] && t[2] == Encode(c)[2];
    NestedDivision(c);
    assert c / 64 < 1024 && (0xD000 <= c < 0xE000 ==> 0x340 <= c / 64 < 0x380);
    assert Continues(t[1]) && Continues(t[2]);
  }

  lemma ShapeFour(c: nat, t: seq<Byte>)
    requires 0x10000 <= c && Scalar(c) && Encode(c) <= t
    ensures Width(t[0]) == 4 && Admitted(t)
    ensures t[0] as int - 0xF0 == c / 262144 && t[1] == 0x80 + c / 4096 % 64 && t[2] == 0x80 + c / 64 % 64 && t[3] == 0x80 + c % 64
  {
    assert t[0] == Encode(c)[0] && t[1] == Encode(c)[1] && t[2] == Encode(c)[2] && t[3] == Encode(c)[3];
    NestedDivision(c);
    assert 16 <= c / 4096 <= 0x10F;
    assert Continues(t[1]) && Continues(t[2]) && Continues(t[3]);
  }

  lemma EncodingCancels(a: nat, b: nat, x: seq<Byte>, y: seq<Byte>)
    requires Scalar(a) && Scalar(b) && Encode(a) + x == Encode(b) + y
    ensures a == b && x == y
  {
    EncodingShape(a, x);
    EncodingShape(b, y);
    assert (Encode(a) + x)[|Encode(a)|..] == x && (Encode(b) + y)[|Encode(b)|..] == y;
  }

  // ---- whole texts ----

  /** A text that begins with the encoding of a sequence spells that sequence first. */
  lemma {:induction false} PrefixSpelled(cs: seq<nat>, all: seq<nat>, rest: seq<Byte>)
    requires Scalars(cs) && Scalars(all) && EncodeAll(cs) + rest == EncodeAll(all)
    ensures cs <= all && EncodeAll(all[|cs|..]) == rest
    decreases |cs|
  {
    hide Encode, Scalar;
    if cs != [] {
      assert EncodeAll(cs) + rest == Encode(cs[0]) + (EncodeAll(cs[1..]) + rest);
      assert all != [];
      EncodingCancels(cs[0], all[0], EncodeAll(cs[1..]) + rest, EncodeAll(all[1..]));
      PrefixSpelled(cs[1..], all[1..], rest);
      assert all[1..][|cs| - 1..] == all[|cs|..];
      assert cs == [cs[0]] + cs[1..] && all == [all[0]] + all[1..];
    } else {
      assert EncodeAll(cs) + rest == rest && all[0..] == all;
    }
  }

  /** No two sequences of scalar values have the same encoding. */
  lemma EncodingUnique(a: seq<nat>, b: seq<nat>)
    requires Scalars(a) && Scalars(b) && EncodeAll(a) == EncodeAll(b)
    ensures a == b
  {
    hide EncodeAll, Scalars;
    assert EncodeAll(a) + [] == EncodeAll(b) && EncodeAll(b) + [] == EncodeAll(a);
    PrefixSpelled(a, b, []);
    PrefixSpelled(b, a, []);
  }

  lemma {:induction false} EncodeMore(cs: seq<nat>, c: nat)
    requires Scalars(cs) && Scalar(c)
    ensures Scalars(cs + [c]) && EncodeAll(cs + [c]) == EncodeAll(cs) + Encode(c)
  {
    hide Encode, Scalar;
    if cs == [] {
      assert [] + [c] == [c] && [c][1..] == [];
      assert EncodeAll([c]) == Encode(c) + [];
    } else {
      assert (cs + [c])[1..] == cs[1..] + [c];
      EncodeMore(cs[1..], c);
    }
  }

  /** Input that is not admitted after a spelled prefix is not text. */
  lemma NotAdmittedNotText(s: seq<Byte>, i: nat, cs: seq<nat>)
    requires i < |s| && Spells(cs, s[..i]) && !Admitted(s[i..])
    ensures !IsText(s)
  {
    if IsText(s) {
      var all :| Spells(all, s);
      hide Admitted, Scalar, Encode, Width, Value;
      assert s == EncodeAll(cs) + s[i..];
      PrefixSpelled(cs, all, s[i..]);
      var more := all[|cs|..];
      assert more != [];
      HeadIn(all, |cs|);
      assert s[i..] == Encode(more[0]) + EncodeAll(more[1..]);
      EncodingShape(more[0], EncodeAll(more[1..]));
    }
  }

  lemma HeadIn(all: seq<nat>, n: nat)
    requires n < |all|
    ensures all[n..][0] in all
  {
    assert all[n..][0] == all[n];
  }

  /** The recogniser accepts exactly the encodings of sequences of scalar values other than zero. */
  method Utf8Text(source: seq<Byte>) returns (ok: bool)
    ensures ok <==> IsText(source)
  {
    var i := 0;
    ghost var cs: seq<nat> := [];
    while i < |source|
      invariant i <= |source| && Spells(cs, source[..i])
    {
      hide Encode, Value, Scalar, IsText, Spells;
      var c := source[i];
      ghost var t := source[i..];
      if c == 0 {
        NotAdmittedNotText(source, i, cs);
        return false;
      }
      if c < 0x80 {
        cs := Extended(source, i, cs);
        i := i + 1;
        continue;
      }
      var width := if 0xC2 <= c <= 0xDF then 2 else if 0xE0 <= c <= 0xEF then 3 else if 0xF0 <= c <= 0xF4 then 4 else 0;
      if width == 0 || width > |source| - i {
        NotAdmittedNotText(source, i, cs);
        return false;
      }
      var j := 1;
      while j < width
        invariant 1 <= j <= width && forall k | 1 <= k < j :: Continues(t[k])
      {
        if !Continues(source[i + j]) {
          assert !Continues(t[j]);
          NotAdmittedNotText(source, i, cs);
          return false;
        }
        j := j + 1;
      }
      var next := source[i + 1];
      if (c == 0xE0 && next < 0xA0) || (c == 0xED && next >= 0xA0) || (c == 0xF0 && next < 0x90) || (c == 0xF4 && next >= 0x90) {
        assert next == t[1];
        NotAdmittedNotText(source, i, cs);
        return false;
      }
      assert next == t[1];
      cs := Extended(source, i, cs);
      i := i + width;
    }
    assert source[..i] == source;
    return true;
  }

  ghost function Extended(s: seq<Byte>, i: nat, cs: seq<nat>): (r: seq<nat>)
    requires i < |s| && Spells(cs, s[..i]) && Admitted(s[i..])
    ensures i + Width(s[i]) <= |s| && Spells(r, s[..i + Width(s[i])])
  {
    var t := s[i..];
    var c := Value(t);
    AdmittedEncodes(t);
    EncodeMore(cs, c);
    assert s[..i + Width(s[i])] == s[..i] + t[..Width(s[i])];
    cs + [c]
  }

  // ---- the characters a source may not contain ----

  const SOURCE_LIMIT: nat := 512 * 1024

  /** A control character, general category Cc. */
  predicate Control(c: nat) {
    c < 0x20 || 0x7F <= c <= 0x9F
  }

  /** The server's test on characters. */
  predicate ControlRefused(text: seq<nat>) {
    exists k :: 0 <= k < |text| && Control(text[k]) && text[k] != 0x0A && text[k] != 0x09
  }

  predicate Refused(c: nat) {
    (Control(c) && c != 0x0A && c != 0x09) || c == 0xFEFF
  }

  predicate MarkAt(s: seq<Byte>, p: nat) {
    p + 3 <= |s| && s[p] == 0xEF && s[p + 1] == 0xBB && s[p + 2] == 0xBF
  }

  /** The byte-level test at one offset. */
  predicate ControlAt(s: seq<Byte>, p: nat)
    requires p < |s|
  {
    || (s[p] < 32 && s[p] != 0x0A && s[p] != 0x09)
    || s[p] == 127
    || (s[p] == 0xC2 && p + 1 < |s| && 0x80 <= s[p + 1] <= 0x9F)
  }

  predicate Flagged(s: seq<Byte>, p: nat)
    requires p < |s|
  {
    MarkAt(s, p) || ControlAt(s, p)
  }

  ghost predicate AnyFlagged(s: seq<Byte>) {
    exists p :: 0 <= p < |s| && Flagged(s, p)
  }

  ghost predicate AnyRefused(cs: seq<nat>) {
    exists k :: 0 <= k < |cs| && Refused(cs[k])
  }

  /** The bytes flag a character at its lead byte exactly when it is refused, and never inside it. */
  lemma FlaggedAtLead(c: nat, rest: seq<Byte>)
    requires Scalar(c)
    ensures Flagged(Encode(c) + rest, 0) <==> Refused(c)
    ensures forall p | 0 < p < |Encode(c)| :: !Flagged(Encode(c) + rest, p)
  {
    EncodingShape(c, rest);
    var t := Encode(c) + rest;
    if c == 0xFEFF {
      assert Encode(c) == [0xEF, 0xBB, 0xBF];
    }
    if MarkAt(t, 0) {
      assert Value(t) == 0xFEFF;
    }
  }

  lemma {:induction false} FlaggedMeansRefused(cs: seq<nat>)
    requires Scalars(cs)
    ensures AnyFlagged(EncodeAll(cs)) <==> AnyRefused(cs)
  {
    if cs != [] {
      hide Flagged, Refused, Scalar, Encode;
      var head, tail := Encode(cs[0]), EncodeAll(cs[1..]);
      var s := EncodeAll(cs);
      FlaggedMeansRefused(cs[1..]);
      FlaggedAtLead(cs[0], tail);
      forall p | 0 <= p < |tail|
        ensures Flagged(s, p + |head|) <==> Flagged(tail, p)
      {
        FlaggedShifts(head, tail, p);
      }
      if AnyFlagged(s) {
        var p :| 0 <= p < |s| && Flagged(s, p);
        if p >= |head| {
          assert Flagged(tail, p - |head|);
          var k :| 0 <= k < |cs[1..]| && Refused(cs[1..][k]);
          assert Refused(cs[k + 1]);
        } else {
          assert p == 0 && Refused(cs[0]);
        }
      }
      if AnyRefused(cs) {
        var k :| 0 <= k < |cs| && Refused(cs[k]);
        if k == 0 {
          assert Flagged(s, 0);
        } else {
          assert Refused(cs[1..][k - 1]);
          var p :| 0 <= p < |tail| && Flagged(tail, p);
          assert Flagged(s, p + |head|);
        }
      }
    }
  }

  lemma FlaggedShifts(head: seq<Byte>, tail: seq<Byte>, p: nat)
    requires p < |tail|
    ensures Flagged(head + tail, p + |head|) <==> Flagged(tail, p)
  {
    var s := head + tail;
    assert forall q | 0 <= q < |tail| :: s[q + |head|] == tail[q];
    assert s[p + |head|] == tail[p];
    if p + 1 < |tail| { assert s[p + |head| + 1] == s[(p + 1) + |head|]; }
    if p + 2 < |tail| { assert s[p + |head| + 2] == s[(p + 2) + |head|]; }
  }

  /** The front of the source profile: too long, not text, or holding a refused character. */
  method Unsupported(source: seq<Byte>) returns (refused: bool)
    ensures refused <==> |source| > SOURCE_LIMIT || !IsText(source) || AnyFlagged(source)
  {
    hide IsText;
    if |source| > SOURCE_LIMIT { return true; }
    var text := Utf8Text(source);
    if !text { return true; }
    var mark := FindMark(source);
    if mark {
      ghost var p :| 0 <= p < |source| && MarkAt(source, p);
      assert Flagged(source, p);
      return true;
    }
    var i := 0;
    while i < |source|
      invariant i <= |source| && forall p | 0 <= p < i :: !ControlAt(source, p)
    {
      var c := source[i];
      if (c < 32 && c != 0x0A && c != 0x09) || c == 127 || (c == 0xC2 && i + 1 < |source| && 0x80 <= source[i + 1] <= 0x9F) {
        assert Flagged(source, i);
        return true;
      }
      i := i + 1;
    }
    return false;
  }

  method FindMark(source: seq<Byte>) returns (found: bool)
    ensures found <==> exists p :: 0 <= p < |source| && MarkAt(source, p)
  {
    var i := 0;
    while i + 3 <= |source|
      invariant forall p | 0 <= p < i :: !MarkAt(source, p)
    {
      if source[i] == 0xEF && source[i + 1] == 0xBB && source[i + 2] == 0xBF {
        assert MarkAt(source, i);
        return true;
      }
      i := i + 1;
    }
    return false;
  }

  lemma {:induction false} ZeroIsNoText(cs: seq<nat>)
    requires Scalars(cs)
    ensures IsText(EncodeAll(cs)) <==> 0 !in cs
  {
    if 0 !in cs {
      assert Spells(cs, EncodeAll(cs));
    }
    if IsText(EncodeAll(cs)) {
      var all :| Spells(all, EncodeAll(cs));
      EncodingUnique(all, cs);
    }
  }

  /** Both sides agree on every string the server can hold: the bytes of a string within the size
      limit are supported by the add-on exactly when it has no byte-order mark and passes the server's
      control-character test. */
  lemma ServerAndAddOnAgree(text: seq<nat>)
    requires Scalars(text)
    ensures var bytes := EncodeAll(text);
            (IsText(bytes) && !AnyFlagged(bytes)) <==> (!ControlRefused(text) && 0xFEFF !in text)
  {
    FlaggedMeansRefused(text);
    ZeroIsNoText(text);
    hide IsText, AnyFlagged, EncodeAll, Scalars;
    if AnyRefused(text) {
      var k :| 0 <= k < |text| && Refused(text[k]);
      assert text[k] in text;
      assert text[k] == 0xFEFF || ControlRefused(text);
    } else {
      forall k | 0 <= k < |text|
        ensures text[k] != 0 && text[k] != 0xFEFF
      {
        assert !Refused(text[k]);
      }
    }
    if ControlRefused(text) {
      var k :| 0 <= k < |text| && Control(text[k]) && text[k] != 0x0A && text[k] != 0x09;
      assert Refused(text[k]);
    }
    if 0xFEFF in text {
      var k :| 0 <= k < |text| && text[k] == 0xFEFF;
      assert Refused(text[k]);
    }
  }
}
