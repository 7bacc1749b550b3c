/** Length-framed byte strings and the typed values built from them: what is fed to the hash
    determines the value. Bytes are characters below 256. */
module Framing {
  import opened Wrappers

  /** The low `width` bytes of a number, most significant first, the way the encoders shift them out. */
  function Big(n: nat, width: nat): (b: string)
    ensures |b| == width
  {
    if width == 0 then "" else Big(n / 256, width - 1) + [(n % 256) as char]
  }

  function FromBig(b: string): nat {
    if b == "" then 0 else FromBig(b[..|b| - 1]) * 256 + b[|b| - 1] as nat
  }

  function Room(width: nat): nat {
    if width == 0 then 1 else Room(width - 1) * 256
  }

  lemma {:induction false} BigInverts(n: nat, width: nat)
    requires n < Room(width)
    ensures FromBig(Big(n, width)) == n
  {
    if width > 0 {
      BigInverts(n / 256, width - 1);
      assert Big(n, width)[..width - 1] == Big(n / 256, width - 1);
    }
  }

  const LENGTHS: nat := 0x1_0000_0000

  function U32(n: nat): (b: string)
    ensures |b| == 4
  {
    Big(n, 4)
  }

  lemma U32Inverts(n: nat)
    requires n < LENGTHS
    ensures FromBig(U32(n)) == n
  {
    assert Room(4) == Room(3) * 256 && Room(3) == Room(2) * 256 && Room(2) == Room(1) * 256 && Room(1) == 256;
    BigInverts(n, 4);
  }

  function Frame(s: string): string {
    U32(|s|) + s
  }

  /** Reads one frame from the front. */
  function ParseFrame(b: string): Option<(string, string)> {
    if |b| < 4 || |b| - 4 < FromBig(b[..4]) then None
    else
      var n := FromBig(b[..4]);
      Some((b[4..4 + n], b[4 + n..]))
  }

  lemma ParseFrameOf(s: string, rest: string)
    requires |s| < LENGTHS
    ensures ParseFrame(Frame(s) + rest) == Some((s, rest))
  {
    var b := Frame(s) + rest;
    assert b[..4] == U32(|s|);
    U32Inverts(|s|);
    assert b[4..4 + |s|] == s && b[4 + |s|..] == rest;
  }

  /** A frame cannot be mistaken for another, whatever follows either of them. */
  lemma FrameCancels(a: string, b: string, x: string, y: string)
    requires |a| < LENGTHS && |b| < LENGTHS
    requires Frame(a) + x == Frame(b) + y
    ensures a == b && x == y
  {
    ParseFrameOf(a, x);
    ParseFrameOf(b, y);
  }

  // ---- lists of frames ----

  function Frames(fields: seq<string>): string {
    if fields == [] then "" else Frame(fields[0]) + Frames(fields[1..])
  }

  predicate Short(fields: seq<string>) {
    forall k | 0 <= k < |fields| :: |fields[k]| < LENGTHS
  }

  /** Two lists with the same number of fields: the bytes determine every field, and neither
      string is a proper prefix of the other. */
  lemma {:induction false} FramesCancel(a: seq<string>, b: seq<string>, x: string, y: string)
    requires |a| == |b| && Short(a) && Short(b)
    requires Frames(a) + x == Frames(b) + y
    ensures a == b && x == y
    decreases |a|
  {
    hide Frame;
    if a != [] {
      assert Frames(a) + x == Frame(a[0]) + (Frames(a[1..]) + x);
      assert Frames(b) + y == Frame(b[0]) + (Frames(b[1..]) + y);
      FrameCancels(a[0], b[0], Frames(a[1..]) + x, Frames(b[1..]) + y);
      FramesCancel(a[1..], b[1..], x, y);
      assert a == [a[0]] + a[1..] && b == [b[0]] + b[1..];
    } else {
      assert Frames(a) + x == x && Frames(b) + y == y;
    }
  }

  // ---- typed values ----

  /** A value of the typed format; a dictionary lists its entries in insertion order. */
  datatype Value =
    | Text(text: string)
    | Flag(flag: bool)
    | Natural(n: nat)
    | Items(items: seq<Value>)
    | Entries(entries: seq<Field>)

  datatype Field = Field(key: string, value: Value)

  /** Byte-wise order of keys. */
  predicate Before(a: string, b: string) {
    if b == "" then false
    else if a == "" then true
    else a[0] < b[0] || (a[0] == b[0] && Before(a[1..], b[1..]))
  }

  lemma {:induction false} BeforeTransitive(a: string, b: string, c: string)
    requires Before(a, b) && Before(b, c)
    ensures Before(a, c)
  {
    if a != "" && a[0] == b[0] == c[0] { BeforeTransitive(a[1..], b[1..], c[1..]); }
  }

  lemma {:induction false} BeforeTotal(a: string, b: string)
    ensures Before(a, b) || Before(b, a) || a == b
    ensures !(Before(a, b) && Before(b, a)) && !Before(a, a)
  {
    if a != "" && b != "" {
      BeforeTotal(a[1..], b[1..]);
      assert a == [a[0]] + a[1..] && b == [b[0]] + b[1..];
    }
    if a != "" { BeforeTotal(a[1..], a[1..]); }
  }

  ghost predicate Sorted(entries: seq<Field>) {
    forall i, j | 0 <= i < j < |entries| :: Before(entries[i].key, entries[j].key)
  }

  ghost predicate DistinctKeys(entries: seq<Field>) {
    forall i, j | 0 <= i < j < |entries| :: entries[i].key != entries[j].key
  }

  function Insert(e: Field, entries: seq<Field>): seq<Field> {
    if entries == [] || Before(e.key, entries[0].key) then [e] + entries else [entries[0]] + Insert(e, entries[1..])
  }

  function Sort(entries: seq<Field>): seq<Field> {
    if entries == [] then [] else Insert(entries[0], Sort(entries[1..]))
  }

  lemma {:induction false} InsertSorted(e: Field, entries: seq<Field>)
    requires Sorted(entries) && forall k | 0 <= k < |entries| :: entries[k].key != e.key
    ensures Sorted(Insert(e, entries))
    ensures forall x :: x in Insert(e, entries) <==> x == e || x in entries
    ensures |Insert(e, entries)| == |entries| + 1
  {
    if entries == [] {
    } else if Before(e.key, entries[0].key) {
      forall k | 1 <= k < |entries|
        ensures Before(e.key, entries[k].key)
      {
        BeforeTransitive(e.key, entries[0].key, entries[k].key);
      }
    } else {
      InsertSorted(e, entries[1..]);
      BeforeTotal(e.key, entries[0].key);
      var rest := Insert(e, entries[1..]);
      forall k | 0 <= k < |rest|
        ensures Before(entries[0].key, rest[k].key)
      {
        assert rest[k] in rest;
        if rest[k] != e {
          assert rest[k] in entries[1..];
          var i := IndexOf(entries[1..], rest[k]);
          assert entries[i + 1] == rest[k];
        }
      }
      assert entries == [entries[0]] + entries[1..];
    }
  }

  /** Sorting distinct keys keeps exactly the entries. */
  lemma {:induction false} SortSorts(entries: seq<Field>)
    requires DistinctKeys(entries)
    ensures Sorted(Sort(entries)) && |Sort(entries)| == |entries|
    ensures forall x :: x in Sort(entries) <==> x in entries
  {
    if entries != [] {
      var rest := entries[1..];
      SortSorts(rest);
      forall k | 0 <= k < |Sort(rest)|
        ensures Sort(rest)[k].key != entries[0].key
      {
        assert Sort(rest)[k] in Sort(rest) && Sort(rest)[k] in rest;
        var i := IndexOf(rest, Sort(rest)[k]);
        assert entries[i + 1] == rest[i];
      }
      InsertSorted(entries[0], Sort(rest));
      assert entries == [entries[0]] + rest;
    }
  }

  /** Sorted lists with the same entries are the same list. */
  lemma {:induction false} SortedUnique(a: seq<Field>, b: seq<Field>)
    requires Sorted(a) && Sorted(b) && forall x :: x in a <==> x in b
    ensures a == b
    decreases |a|
  {
    if a == [] {
      FirstOf(b);
    } else {
      assert a[0] in a && a[0] in b;
      assert b[0] in b && b[0] in a;
      FirstIsLeast(a, b[0]);
      FirstIsLeast(b, a[0]);
      BeforeTotal(a[0].key, b[0].key);
      forall x
        ensures x in a[1..] <==> x in b[1..]
      {
        TailMember(a, x);
        TailMember(b, x);
      }
      SortedUnique(a[1..], b[1..]);
      assert a == [a[0]] + a[1..] && b == [b[0]] + b[1..];
    }
  }

  lemma IndexOf(s: seq<Field>, x: Field) returns (i: nat)
    requires x in s
    ensures i < |s| && s[i] == x
  {
    i :| 0 <= i < |s| && s[i] == x;
  }

  lemma FirstOf(s: seq<Field>)
    ensures s == [] || s[0] in s
  {
  }

  lemma FirstIsLeast(a: seq<Field>, x: Field)
    requires Sorted(a) && x in a
    ensures x == a[0] || Before(a[0].key, x.key)
  {
  }

  lemma TailMember(a: seq<Field>, x: Field)
    requires Sorted(a) && a != []
    ensures x in a[1..] <==> x in a && x != a[0]
  {
    if x in a[1..] {
      var i := IndexOf(a[1..], x);
      assert a[i + 1] == x;
      BeforeTotal(a[0].key, x.key);
    }
    assert a == [a[0]] + a[1..];
  }

  // ---- normal form and bytes ----

  function NormalAll(items: seq<Value>): (r: seq<Value>)
    ensures |r| == |items|
    ensures forall i | 0 <= i < |items| :: r[i] == Normal(items[i])
  {
    if items == [] then [] else [Normal(items[0])] + NormalAll(items[1..])
  }

  function NormalFields(entries: seq<Field>): (r: seq<Field>)
    ensures |r| == |entries|
    ensures forall i | 0 <= i < |entries| :: r[i] == Field(entries[i].key, Normal(entries[i].value))
  {
    if entries == [] then [] else [Field(entries[0].key, Normal(entries[0].value))] + NormalFields(entries[1..])
  }

  /** Every dictionary in key order. */
  function Normal(v: Value): Value {
    match v
    case Items(items) => Items(NormalAll(items))
    case Entries(entries) => Entries(Sort(NormalFields(entries)))
    case _ => v
  }

  function BytesAll(items: seq<Value>): string {
    if items == [] then "" else Bytes(items[0]) + BytesAll(items[1..])
  }

  function BytesFields(entries: seq<Field>): string {
    if entries == [] then "" else Frame(entries[0].key) + Bytes(entries[0].value) + BytesFields(entries[1..])
  }

  /** A tag, then what the tag calls for. */
  function Bytes(v: Value): string {
    match v
    case Text(text) => "s" + Frame(text)
    case Flag(flag) => ['b', if flag then 1 as char else 0 as char]
    case Natural(n) => "u" + Big(n, 8)
    case Items(items) => "a" + U32(|items|) + BytesAll(items)
    case Entries(entries) => "o" + U32(|entries|) + BytesFields(entries)
  }

  /** What is fed to the hash. */
  function Encoded(v: Value): string {
    Bytes(Normal(v))
  }

  /** Lengths fit their four bytes, naturals their eight, and keys are distinct. */
  ghost predicate Encodable(v: Value) {
    match v
    case Text(text) => |text| < LENGTHS
    case Flag(_) => true
    case Natural(n) => n < Room(8)
    case Items(items) => |items| < LENGTHS && forall i | 0 <= i < |items| :: Encodable(items[i])
    case Entries(entries) =>
      && |entries| < LENGTHS && DistinctKeys(entries)
      && forall i | 0 <= i < |entries| :: |entries[i].key| < LENGTHS && Encodable(entries[i].value)
  }

  /** What reading back needs: lengths and naturals that fit. */
  ghost predicate Fitting(v: Value) {
    match v
    case Text(text) => |text| < LENGTHS
    case Flag(_) => true
    case Natural(n) => n < Room(8)
    case Items(items) => |items| < LENGTHS && forall i | 0 <= i < |items| :: Fitting(items[i])
    case Entries(entries) => |entries| < LENGTHS && forall i | 0 <= i < |entries| :: |entries[i].key| < LENGTHS && Fitting(entries[i].value)
  }

  lemma {:induction false} EncodableFits(v: Value)
    requires Encodable(v)
    ensures Fitting(v)
  {
    match v
    case Items(items) =>
      forall i | 0 <= i < |items| { EncodableFits(items[i]); }
    case Entries(entries) =>
      forall i | 0 <= i < |entries| { EncodableFits(entries[i].value); }
    case _ =>
  }

  lemma {:induction false} NormalEncodable(v: Value)
    requires Encodable(v)
    ensures Encodable(Normal(v))
  {
    match v
    case Items(items) =>
      forall i | 0 <= i < |items| { NormalEncodable(items[i]); }
    case Entries(entries) =>
      var fields := NormalFields(entries);
      SortSorts(fields);
      var sorted := Sort(fields);
      forall i | 0 <= i < |sorted|
        ensures |sorted[i].key| < LENGTHS && Encodable(sorted[i].value)
      {
        assert sorted[i] in sorted;
        var k := IndexOf(fields, sorted[i]);
        NormalEncodable(entries[k].value);
      }
      SortedDistinct(sorted);
    case _ =>
  }

  lemma SortedDistinct(entries: seq<Field>)
    requires Sorted(entries)
    ensures DistinctKeys(entries)
  {
    forall i, j | 0 <= i < j < |entries|
      ensures entries[i].key != entries[j].key
    {
      BeforeTotal(entries[i].key, entries[j].key);
    }
  }

  // ---- reading values back ----

  function Parse(b: string): (r: Option<(Value, string)>)
    ensures r.Some? ==> |r.value.1| < |b|
    decreases |b|, 0
  {
    if b == "" then None
    else match b[0]
      case 's' => (match ParseFrame(b[1..]) case Some((s, rest)) => Some((Text(s), rest)) case None => None)
      case 'b' => if |b| < 2 || b[1] as nat > 1 then None else Some((Flag(b[1] as nat == 1), b[2..]))
      case 'u' => if |b| < 9 then None else Some((Natural(FromBig(b[1..9])), b[9..]))
      case 'a' =>
        if |b| < 5 then None
        else (match ParseAll(FromBig(b[1..5]), b[5..]) case Some((items, rest)) => Some((Items(items), rest)) case None => None)
      case 'o' =>
        if |b| < 5 then None
        else (match ParseFields(FromBig(b[1..5]), b[5..]) case Some((fields, rest)) => Some((Entries(fields), rest)) case None => None)
      case _ => None
  }

  function ParseAll(n: nat, b: string): (r: Option<(seq<Value>, string)>)
    ensures r.Some? ==> |r.value.1| <= |b|
    decreases |b|, 1
  {
    if n == 0 then Some(([], b))
    else match Parse(b)
      case None => None
      case Some((v, rest)) =>
        match ParseAll(n - 1, rest)
        case None => None
        case Some((items, end)) => Some(([v] + items, end))
  }

  function ParseFields(n: nat, b: string): (r: Option<(seq<Field>, string)>)
    ensures r.Some? ==> |r.value.1| <= |b|
    decreases |b|, 1
  {
    if n == 0 then Some(([], b))
    else match ParseFrame(b)
      case None => None
      case Some((key, body)) =>
        match Parse(body)
        case None => None
        case Some((v, rest)) =>
          match ParseFields(n - 1, rest)
          case None => None
          case Some((fields, end)) => Some(([Field(key, v)] + fields, end))
  }

  /** The bytes of a value, whatever follows them, read back as that value. */
  lemma {:induction false} ParseBytes(v: Value, rest: string)
    requires Fitting(v)
    ensures Parse(Bytes(v) + rest) == Some((v, rest))
    decreases v, 0
  {
    hide ParseAll, ParseFields, ParseFrame, Frame, BytesAll, BytesFields, Big, FromBig;
    var b := Bytes(v) + rest;
    match v
    case Text(text) =>
      assert b[1..] == Frame(text) + rest;
      ParseFrameOf(text, rest);
    case Flag(flag) =>
      assert b[2..] == rest;
    case Natural(n) =>
      assert b[1..9] == Big(n, 8) && b[9..] == rest;
      BigInverts(n, 8);
    case Items(items) =>
      assert b[1..5] == U32(|items|) && b[5..] == BytesAll(items) + rest;
      U32Inverts(|items|);
      ParseBytesAll(items, rest);
    case Entries(entries) =>
      assert b[1..5] == U32(|entries|) && b[5..] == BytesFields(entries) + rest;
      U32Inverts(|entries|);
      ParseBytesFields(entries, rest);
  }

  lemma {:induction false} ParseBytesAll(items: seq<Value>, rest: string)
    requires forall i | 0 <= i < |items| :: Fitting(items[i])
    ensures ParseAll(|items|, BytesAll(items) + rest) == Some((items, rest))
    decreases items, 1
  {
    hide Parse, Bytes, Fitting;
    if items == [] {
      assert BytesAll(items) + rest == rest;
    } else {
      var tail := BytesAll(items[1..]) + rest;
      assert BytesAll(items) + rest == Bytes(items[0]) + tail;
      ParseBytes(items[0], tail);
      ParseBytesAll(items[1..], rest);
      assert items == [items[0]] + items[1..];
    }
  }

  lemma {:induction false} ParseBytesFields(entries: seq<Field>, rest: string)
    requires forall i | 0 <= i < |entries| :: |entries[i].key| < LENGTHS && Fitting(entries[i].value)
    ensures ParseFields(|entries|, BytesFields(entries) + rest) == Some((entries, rest))
    decreases entries, 1
  {
    hide Parse, Bytes, Fitting, Frame, ParseFrame;
    if entries == [] {
      assert BytesFields(entries) + rest == rest;
    } else {
      var tail := BytesFields(entries[1..]) + rest;
      assert BytesFields(entries) + rest == Frame(entries[0].key) + (Bytes(entries[0].value) + tail);
      ParseFrameOf(entries[0].key, Bytes(entries[0].value) + tail);
      ParseBytes(entries[0].value, tail);
      ParseBytesFields(entries[1..], rest);
      assert entries == [entries[0]] + entries[1..];
    }
  }

  // ---- equal values ----

  /** Equality of values: dictionaries agree when they map the same keys to equal values. */
  ghost predicate Same(v: Value, w: Value)
    decreases v
  {
    match v
    case Items(a) =>
      w.Items? && |a| == |w.items| && forall i | 0 <= i < |a| :: Same(a[i], w.items[i])
    case Entries(a) =>
      && w.Entries?
      && (forall i | 0 <= i < |a| :: Found(a[i], w.entries))
      && (forall j | 0 <= j < |w.entries| :: KeyIn(w.entries[j].key, a))
    case _ => v == w
  }

  ghost predicate Found(e: Field, b: seq<Field>)
    decreases e
  {
    exists j :: 0 <= j < |b| && e.key == b[j].key && Same(e.value, b[j].value)
  }

  ghost predicate KeyIn(key: string, a: seq<Field>) {
    exists i :: 0 <= i < |a| && a[i].key == key
  }

  lemma SameEntriesMeans(a: seq<Field>, b: seq<Field>)
    ensures Same(Entries(a), Entries(b)) <==>
              (forall i | 0 <= i < |a| :: Found(a[i], b)) && (forall j | 0 <= j < |b| :: KeyIn(b[j].key, a))
  {
    hide Found, KeyIn;
  }

  lemma {:induction false} SameIsNormal(v: Value, w: Value)
    requires Encodable(v) && Encodable(w)
    ensures Same(v, w) <==> Normal(v) == Normal(w)
  {
    if v.Items? && w.Items? && |v.items| == |w.items| {
      forall i | 0 <= i < |v.items| { SameIsNormal(v.items[i], w.items[i]); }
      if Normal(v) == Normal(w) {
        assert forall i | 0 <= i < |v.items| :: NormalAll(v.items)[i] == NormalAll(w.items)[i];
      }
      if Same(v, w) {
        assert NormalAll(v.items) == NormalAll(w.items);
      }
    } else if v.Entries? && w.Entries? {
      forall i, j | 0 <= i < |v.entries| && 0 <= j < |w.entries| { SameIsNormal(v.entries[i].value, w.entries[j].value); }
      SameEntries(v.entries, w.entries);
    }
  }

  lemma SameEntries(a: seq<Field>, b: seq<Field>)
    requires DistinctKeys(a) && DistinctKeys(b)
    requires forall i, j | 0 <= i < |a| && 0 <= j < |b| :: Same(a[i].value, b[j].value) <==> Normal(a[i].value) == Normal(b[j].value)
    ensures Same(Entries(a), Entries(b)) <==> Sort(NormalFields(a)) == Sort(NormalFields(b))
  {
    hide Same, Normal, Found, KeyIn;
    var x, y := NormalFields(a), NormalFields(b);
    SortSorts(x);
    SortSorts(y);
    SameEntriesMeans(a, b);
    if Same(Entries(a), Entries(b)) {
      SameMembers(a, b);
      SortedUnique(Sort(x), Sort(y));
    }
    if Sort(x) == Sort(y) {
      forall e
        ensures e in x <==> e in y
      {
        assert e in x <==> e in Sort(x);
        assert e in y <==> e in Sort(y);
      }
      MembersSame(a, b);
    }
  }

  lemma SameMembers(a: seq<Field>, b: seq<Field>)
    requires DistinctKeys(b)
    requires forall i, j | 0 <= i < |a| && 0 <= j < |b| :: Same(a[i].value, b[j].value) ==> Normal(a[i].value) == Normal(b[j].value)
    requires (forall i | 0 <= i < |a| :: Found(a[i], b)) && (forall j | 0 <= j < |b| :: KeyIn(b[j].key, a))
    ensures forall e :: e in NormalFields(a) <==> e in NormalFields(b)
  {
    hide Normal, Same, Found, KeyIn;
    var x, y := NormalFields(a), NormalFields(b);
    forall e
      ensures e in x <==> e in y
    {
      if e in x {
        var i := IndexOf(x, e);
        var j := FoundAt(a[i], b);
        assert y[j] == e;
      }
      if e in y {
        var j := IndexOf(y, e);
        var i := KeyAt(b[j].key, a);
        var k := FoundAt(a[i], b);
        assert k == j && x[i] == e;
      }
    }
  }

  lemma FoundAt(e: Field, b: seq<Field>) returns (j: nat)
    requires Found(e, b)
    ensures j < |b| && e.key == b[j].key && Same(e.value, b[j].value)
  {
    hide Same;
    j :| 0 <= j < |b| && e.key == b[j].key && Same(e.value, b[j].value);
  }

  lemma KeyAt(key: string, a: seq<Field>) returns (i: nat)
    requires KeyIn(key, a)
    ensures i < |a| && a[i].key == key
  {
    i :| 0 <= i < |a| && a[i].key == key;
  }

  lemma MembersSame(a: seq<Field>, b: seq<Field>)
    requires forall i, j | 0 <= i < |a| && 0 <= j < |b| :: Normal(a[i].value) == Normal(b[j].value) ==> Same(a[i].value, b[j].value)
    requires forall e :: e in NormalFields(a) <==> e in NormalFields(b)
    ensures (forall i | 0 <= i < |a| :: Found(a[i], b)) && (forall j | 0 <= j < |b| :: KeyIn(b[j].key, a))
  {
    hide Normal, Same;
    var x, y := NormalFields(a), NormalFields(b);
    forall i | 0 <= i < |a|
      ensures Found(a[i], b)
    {
      assert x[i] in x && x[i] in y;
      var j := IndexOf(y, x[i]);
      assert Same(a[i].value, b[j].value);
    }
    forall j | 0 <= j < |b|
      ensures KeyIn(b[j].key, a)
    {
      assert y[j] in y && y[j] in x;
      var i := IndexOf(x, y[j]);
    }
  }

  /** Two values are fed to the hash as the same bytes exactly when they are equal, whatever the
      order in which their dictionaries were filled; and no encoding is a proper prefix of another. */
  lemma EncodingIsExact(v: Value, w: Value)
    requires Encodable(v) && Encodable(w)
    ensures Encoded(v) == Encoded(w) <==> Same(v, w)
    ensures Encoded(v) <= Encoded(w) ==> Encoded(v) == Encoded(w)
  {
    NormalEncodable(v);
    NormalEncodable(w);
    SameIsNormal(v, w);
    if Encoded(v) <= Encoded(w) {
      EncodableFits(Normal(v));
      EncodableFits(Normal(w));
      var rest := Encoded(w)[|Encoded(v)|..];
      assert Encoded(w) == Encoded(v) + rest && Encoded(w) == Encoded(w) + "";
      ParseBytes(Normal(v), rest);
      ParseBytes(Normal(w), "");
    }
  }
}
