/** The bounded streaming encoder of the close context: every limit of the format, and exactly the
    bytes of the value when none is exceeded. */
module Digest {
  import opened Framing

  const DEPTH_LIMIT: nat := 8
  const TEXT_LIMIT: nat := 2048
  const ITEM_LIMIT: nat := 8
  const ENTRY_LIMIT: nat := 32
  const KEY_LIMIT: nat := 64
  const FEED_LIMIT: nat := 256 * 1024 + 64

  /** The value has no naturals and stays within the limits of the format. */
  ghost predicate Admissible(v: Value, depth: nat)
    decreases v
  {
    && depth <= DEPTH_LIMIT
    && match v
       case Text(text) => |text| <= TEXT_LIMIT
       case Flag(_) => true
       case Natural(_) => false
       case Items(items) => |items| <= ITEM_LIMIT && forall i | 0 <= i < |items| :: Admissible(items[i], depth + 1)
       case Entries(entries) =>
         |entries| <= ENTRY_LIMIT && forall i | 0 <= i < |entries| :: AdmissibleField(entries[i], depth)
  }

  ghost predicate AdmissibleField(e: Field, depth: nat)
    decreases e
  {
    |e.key| <= KEY_LIMIT && Admissible(e.value, depth + 1)
  }

  /** The keys of every dictionary in the value are distinct. */
  ghost predicate Keyed(v: Value)
    decreases v
  {
    match v
    case Items(items) => forall i | 0 <= i < |items| :: Keyed(items[i])
    case Entries(entries) => DistinctKeys(entries) && forall i | 0 <= i < |entries| :: KeyedField(entries[i])
    case _ => true
  }

  ghost predicate KeyedField(e: Field)
    decreases e
  {
    Keyed(e.value)
  }

  lemma {:induction false} AdmissibleIsEncodable(v: Value, depth: nat)
    requires Admissible(v, depth) && Keyed(v)
    ensures Encodable(v)
  {
    match v
    case Items(items) =>
      forall i | 0 <= i < |items| { AdmissibleIsEncodable(items[i], depth + 1); }
    case Entries(entries) =>
      forall i | 0 <= i < |entries|
        ensures |entries[i].key| < LENGTHS && Encodable(entries[i].value)
      {
        assert AdmissibleField(entries[i], depth) && KeyedField(entries[i]);
        AdmissibleIsEncodable(entries[i].value, depth + 1);
      }
    case _ =>
  }

  /** The fields of a dictionary in key order, each value in normal form, are its normal form. */
  lemma SortCommutes(entries: seq<Field>)
    requires DistinctKeys(entries)
    ensures NormalFields(Sort(entries)) == Sort(NormalFields(entries))
    ensures |Sort(entries)| == |entries|
  {
    hide Normal;
    var sorted, fields := Sort(entries), NormalFields(entries);
    SortSorts(entries);
    SortSorts(fields);
    forall e
      ensures e in NormalFields(sorted) <==> e in Sort(fields)
    {
      if e in NormalFields(sorted) {
        var i := IndexOf(NormalFields(sorted), e);
        assert sorted[i] in sorted && sorted[i] in entries;
        var j := IndexOf(entries, sorted[i]);
        assert fields[j] == e && e in fields;
      }
      if e in Sort(fields) {
        assert e in fields;
        var j := IndexOf(fields, e);
        assert entries[j] in entries && entries[j] in sorted;
        var i := IndexOf(sorted, entries[j]);
        assert NormalFields(sorted)[i] == e;
      }
    }
    SortedUnique(NormalFields(sorted), Sort(fields));
  }

  lemma {:induction false} BytesFieldsSplit(a: seq<Field>, b: seq<Field>)
    ensures BytesFields(a + b) == BytesFields(a) + BytesFields(b)
  {
    if a == [] {
      assert a + b == b;
    } else {
      assert (a + b)[1..] == a[1..] + b;
      BytesFieldsSplit(a[1..], b);
    }
  }

  lemma {:induction false} BytesAllSplit(a: seq<Value>, b: seq<Value>)
    ensures BytesAll(a + b) == BytesAll(a) + BytesAll(b)
  {
    if a == [] {
      assert a + b == b;
    } else {
      assert (a + b)[1..] == a[1..] + b;
      BytesAllSplit(a[1..], b);
    }
  }

  /** One more item: the prefix encoded so far grows by exactly that item, and never beyond the whole. */
  lemma NextItem(items: seq<Value>, i: nat)
    requires i < |items|
    ensures var whole := BytesAll(NormalAll(items));
            && BytesAll(NormalAll(items)[..i + 1]) == BytesAll(NormalAll(items)[..i]) + Encoded(items[i])
            && |BytesAll(NormalAll(items)[..i])| + |Encoded(items[i])| <= |whole|
  {
    hide Normal, Bytes;
    var all := NormalAll(items);
    assert all[..i + 1] == all[..i] + [all[i]];
    BytesAllSplit(all[..i], [all[i]]);
    assert BytesAll([all[i]]) == Bytes(all[i]) + "" by { assert [all[i]][1..] == []; }
    assert all == all[..i + 1] + all[i + 1..];
    BytesAllSplit(all[..i + 1], all[i + 1..]);
  }

  lemma NoItems(items: seq<Value>)
    ensures BytesAll(NormalAll(items)[..0]) == ""
    ensures NormalAll(items)[..|items|] == NormalAll(items)
  {
  }

  lemma NoFields(entries: seq<Field>)
    ensures BytesFields(NormalFields(entries)[..0]) == ""
    ensures NormalFields(entries)[..|entries|] == NormalFields(entries)
  {
  }

  lemma NextField(entries: seq<Field>, i: nat)
    requires i < |entries|
    ensures var whole := BytesFields(NormalFields(entries));
            && BytesFields(NormalFields(entries)[..i + 1])
               == BytesFields(NormalFields(entries)[..i]) + (Frame(entries[i].key) + Encoded(entries[i].value))
            && |BytesFields(NormalFields(entries)[..i])| + |Frame(entries[i].key)| + |Encoded(entries[i].value)| <= |whole|
  {
    hide Normal, Bytes, Frame;
    var all := NormalFields(entries);
    assert all[..i + 1] == all[..i] + [all[i]];
    BytesFieldsSplit(all[..i], [all[i]]);
    assert BytesFields([all[i]]) == Frame(all[i].key) + Bytes(all[i].value) + "" by { assert [all[i]][1..] == []; }
    assert all == all[..i + 1] + all[i + 1..];
    BytesFieldsSplit(all[..i + 1], all[i + 1..]);
  }

  class Stream {
    var fed: string
    var good: bool

    ghost predicate Valid()
      reads this
    {
      |fed| <= FEED_LIMIT
    }

    constructor ()
      ensures Valid() && fed == "" && good
    {
      fed, good := "", true;
    }

    /** Feeds a piece unless the running count would pass the ceiling. */
    method Raw(s: string)
      requires Valid()
      modifies this
      ensures Valid()
      ensures good == (old(good) && |old(fed)| + |s| <= FEED_LIMIT)
      ensures |old(fed)| + |s| <= FEED_LIMIT ==> fed == old(fed) + s
      ensures |old(fed)| + |s| > FEED_LIMIT ==> fed == old(fed)
    {
      var count := if |fed| < FEED_LIMIT then |fed| else FEED_LIMIT;
      if |s| > FEED_LIMIT - count {
        good := false;
        return;
      }
      fed := fed + s;
    }

    method FrameOf(s: string)
      requires Valid()
      modifies this
      ensures Valid()
      ensures good == (old(good) && |old(fed)| + |Frame(s)| <= FEED_LIMIT)
      ensures good ==> fed == old(fed) + Frame(s)
    {
      Raw(U32(|s|));
      Raw(s);
      assert good ==> fed == old(fed) + (U32(|s|) + s);
    }

    /** Feeds a whole value: it succeeds exactly when the value is admissible and fits under the
        ceiling, and then exactly the bytes of the value were fed. */
    method Encode(v: Value, depth: nat) returns (ok: bool)
      requires Valid() && Keyed(v)
      modifies this
      ensures Valid()
      ensures ok <==> old(good) && Admissible(v, depth) && |old(fed)| + |Encoded(v)| <= FEED_LIMIT
      ensures ok ==> good && fed == old(fed) + Encoded(v)
      decreases v, 0
    {
      if depth > DEPTH_LIMIT || !good { return false; }
      match v
      case Text(text) =>
        if |text| > TEXT_LIMIT { return false; }
        Raw("s");
        FrameOf(text);
        assert good ==> fed == old(fed) + ("s" + Frame(text));
        return good;
      case Flag(flag) =>
        Raw(['b', if flag then 1 as char else 0 as char]);
        return good;
      case Natural(_) =>
        return false;
      case Items(items) =>
        if |items| > ITEM_LIMIT { return false; }
        Raw("a");
        Raw(U32(|items|));
        ok := EncodeItems(items, depth, old(fed));
      case Entries(entries) =>
        if |entries| > ENTRY_LIMIT { return false; }
        Raw("o");
        Raw(U32(|entries|));
        ok := EncodeEntries(entries, depth, old(fed));
    }

    method EncodeItems(items: seq<Value>, depth: nat, ghost start: string) returns (ok: bool)
      requires Valid() && forall i | 0 <= i < |items| :: Keyed(items[i])
      requires good ==> fed == start + ("a" + U32(|items|))
      requires good <==> |start| + 5 <= FEED_LIMIT
      modifies this
      ensures Valid()
      ensures ok <==> |start| + |Encoded(Items(items))| <= FEED_LIMIT && forall i | 0 <= i < |items| :: Admissible(items[i], depth + 1)
      ensures ok ==> good && fed == start + Encoded(Items(items))
      decreases items, 1
    {
      hide Admissible, Keyed, Normal, Bytes, BytesAll, NormalAll, Encoded, U32;
      ghost var head := "a" + U32(|items|);
      EncodedItems(items);
      NoItems(items);
      var i := 0;
      while i < |items|
        invariant Valid() && i <= |items|
        invariant good <==> |start| + 5 <= FEED_LIMIT
        invariant good ==> fed == start + (head + BytesAll(NormalAll(items)[..i]))
        invariant forall k | 0 <= k < i :: Admissible(items[k], depth + 1)
      {
        NextItem(items, i);
        var done := Encode(items[i], depth + 1);
        if !done { return false; }
        i := i + 1;
      }
      return good;
    }

    method EncodeField(e: Field, depth: nat) returns (ok: bool)
      requires Valid() && KeyedField(e) && |e.key| <= KEY_LIMIT
      modifies this
      ensures Valid()
      ensures ok <==> old(good) && AdmissibleField(e, depth) && |old(fed)| + |Encoded(e.value)| <= FEED_LIMIT
      ensures ok ==> good && fed == old(fed) + Encoded(e.value)
      decreases e, 1
    {
      ok := Encode(e.value, depth + 1);
    }

    /** The entries of a dictionary in key order. */
    method EncodeEntries(entries: seq<Field>, depth: nat, ghost start: string) returns (ok: bool)
      requires Valid() && DistinctKeys(entries) && forall i | 0 <= i < |entries| :: KeyedField(entries[i])
      requires good ==> fed == start + ("o" + U32(|entries|))
      requires good <==> |start| + 5 <= FEED_LIMIT
      modifies this
      ensures Valid()
      ensures ok <==>
                |start| + |Encoded(Entries(entries))| <= FEED_LIMIT
                && forall i | 0 <= i < |entries| :: AdmissibleField(entries[i], depth)
      ensures ok ==> good && fed == start + Encoded(Entries(entries))
      decreases entries, 1
    {
      hide AdmissibleField, KeyedField, Normal, Bytes, Frame, BytesFields, NormalFields, Encoded, Sort, Sorted, U32;
      ghost var head := "o" + U32(|entries|);
      EncodedEntries(entries);
      SortCommutes(entries);
      SortSorts(entries);
      var sorted := Sort(entries);
      ghost var all := NormalFields(sorted);
      NoFields(sorted);
      var i := 0;
      while i < |sorted|
        invariant Valid() && i <= |sorted|
        invariant good <==> |start| + 5 <= FEED_LIMIT
        invariant good ==> fed == start + (head + BytesFields(all[..i]))
        invariant forall k | 0 <= k < i :: AdmissibleField(sorted[k], depth)
      {
        var e := sorted[i];
        assert e in sorted && e in entries;
        ghost var k := IndexOf(entries, e);
        NextField(sorted, i);
        if |e.key| > KEY_LIMIT {
          NotAdmissible(entries[k], depth);
          return false;
        }
        FrameOf(e.key);
        var done := EncodeField(e, depth);
        if !done { return false; }
        i := i + 1;
      }
      forall k | 0 <= k < |entries| ensures AdmissibleField(entries[k], depth) {
        assert entries[k] in entries && entries[k] in sorted;
        var j := IndexOf(sorted, entries[k]);
      }
      return good;
    }
  }

  /** The order in which a dictionary was filled does not show. */
  lemma InsertionOrderHidden(a: seq<Field>, b: seq<Field>)
    requires DistinctKeys(a) && DistinctKeys(b) && multiset(a) == multiset(b)
    ensures Encoded(Entries(a)) == Encoded(Entries(b))
  {
    hide Normal;
    var x, y := NormalFields(a), NormalFields(b);
    SortSorts(x);
    SortSorts(y);
    forall e
      ensures e in x <==> e in y
    {
      if e in x {
        var i := IndexOf(x, e);
        assert a[i] in multiset(a) && a[i] in b;
        var j := IndexOf(b, a[i]);
        assert y[j] == e;
      }
      if e in y {
        var j := IndexOf(y, e);
        assert b[j] in multiset(b) && b[j] in a;
        var i := IndexOf(a, b[j]);
        assert x[i] == e;
      }
    }
    SortedUnique(Sort(x), Sort(y));
    EncodedEntries(a);
    EncodedEntries(b);
  }

  const DOMAIN := "godot-agent-kit/close-context/v1"

  /** What the close context commits to: behind the domain frame two admitted projections are fed
      as the same bytes exactly when they are the same value, and neither is a prefix of the other. */
  lemma ContextIsExact(v: Value, w: Value)
    requires Admissible(v, 0) && Keyed(v) && Admissible(w, 0) && Keyed(w)
    ensures Frame(DOMAIN) + Encoded(v) == Frame(DOMAIN) + Encoded(w) <==> Same(v, w)
    ensures Frame(DOMAIN) + Encoded(v) <= Frame(DOMAIN) + Encoded(w) ==> Same(v, w)
  {
    AdmissibleIsEncodable(v, 0);
    AdmissibleIsEncodable(w, 0);
    EncodingIsExact(v, w);
    hide Encoded, Frame;
    var d := Frame(DOMAIN);
    assert (d + Encoded(v))[|d|..] == Encoded(v) && (d + Encoded(w))[|d|..] == Encoded(w);
    if d + Encoded(v) <= d + Encoded(w) {
      assert Encoded(v) <= Encoded(w);
    }
  }

  lemma NotAdmissible(e: Field, depth: nat)
    requires |e.key| > KEY_LIMIT
    ensures !AdmissibleField(e, depth)
  {
  }

  lemma EncodedItems(items: seq<Value>)
    ensures Encoded(Items(items)) == "a" + U32(|items|) + BytesAll(NormalAll(items))
  {
  }

  lemma EncodedEntries(entries: seq<Field>)
    requires DistinctKeys(entries)
    ensures Encoded(Entries(entries)) == "o" + U32(|entries|) + BytesFields(Sort(NormalFields(entries)))
  {
    SortSorts(NormalFields(entries));
  }
}
