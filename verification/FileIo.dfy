/** The write loop and the read-back loop both edits use, over system calls that may move fewer
    bytes than asked, be interrupted, or fail. */
module FileIo {
  import opened Wrappers

  /** The answer of one `pwrite` or `pread`; `Moved` is capped by what was asked for. */
  datatype Io = Moved(n: nat) | Interrupted | Failed(errno: nat)

  /** Answers are scripted; once the script is used up every call moves all it is asked for. */
  function Answer(script: seq<Io>, k: nat, asked: nat): Io {
    if k < |script| then
      match script[k]
      case Moved(n) => Moved(if n < asked then n else asked)
      case other => other
    else Moved(asked)
  }

  /** `desired` written over the front of `original`, `w` bytes so far. */
  function Overlay(desired: string, original: string, w: nat): (file: string)
    requires w <= |desired|
    ensures |file| == if w <= |original| then |original| else w
  {
    desired[..w] + if w <= |original| then original[w..] else []
  }

  function WriteAt(file: string, offset: nat, bytes: string): string
    requires offset <= |file|
  {
    file[..offset] + bytes + if offset + |bytes| <= |file| then file[offset + |bytes|..] else []
  }

  const EIO: nat := 5

  /** Writes all of `desired` from the start of a file nobody else writes. */
  method WriteAll(original: string, desired: string, script: seq<Io>)
    returns (file: string, written: nat, calls: nat, error: Option<nat>)
    ensures written <= |desired| && file == Overlay(desired, original, written)
    ensures error.None? <==> written == |desired|
    ensures (forall io | io in script :: !io.Failed? && io != Moved(0)) ==> error.None?
  {
    file, written, calls, error := original, 0, 0, None;
    while written < |desired|
      invariant written <= |desired| && file == Overlay(desired, original, written)
      invariant error.None?
      decreases if calls < |script| then |script| - calls else 0, |desired| - written
    {
      var answer := Answer(script, calls, |desired| - written);
      calls := calls + 1;
      match answer
      case Interrupted =>
      case Failed(errno) => return file, written, calls, Some(errno);
      case Moved(n) =>
        if n == 0 {
          assert script[calls - 1] == Moved(0) && Moved(0) in script;
          return file, written, calls, Some(EIO);
        }
        var bytes := desired[written..written + n];
        OverlayStep(desired, original, written, n);
        file := WriteAt(file, written, bytes);
        written := written + n;
    }
  }

  lemma OverlayStep(desired: string, original: string, w: nat, n: nat)
    requires w + n <= |desired|
    ensures WriteAt(Overlay(desired, original, w), w, desired[w..w + n]) == Overlay(desired, original, w + n)
  {
    var file := Overlay(desired, original, w);
    assert file[..w] == desired[..w];
    assert desired[..w] + desired[w..w + n] == desired[..w + n];
    if w + n <= |file| {
      if w <= |original| {
        assert file[w + n..] == original[w + n..];
      }
    }
  }

  /** Writing everything and truncating leaves exactly what was desired, whatever was there. */
  lemma OverlayTruncated(desired: string, original: string)
    ensures |Overlay(desired, original, |desired|)| >= |desired|
    ensures Overlay(desired, original, |desired|)[..|desired|] == desired
  {
  }

  datatype Stat = Stat(size: nat, identity: nat, mtime: int, ctime: int)

  const BLOCK: nat := 8192

  /** The chunked comparison of an open file with the expected bytes. */
  method Content(file: string, expected: string, before: Option<Stat>, after: Option<Stat>, script: seq<Io>)
    returns (ok: bool)
    requires before.Some? ==> before.value.size == |file|
    ensures ok ==> file == expected && before.Some? && after == before
    ensures (forall io | io in script :: io.Moved? && io.n > 0) && before.Some? ==>
              (ok <==> file == expected && after == before)
  {
    if before.None? || before.value.size != |expected| { return false; }
    var i, calls := 0, 0;
    while i < |expected|
      invariant i <= |expected| && file[..i] == expected[..i]
      decreases if calls < |script| then |script| - calls else 0, |expected| - i
    {
      var size := if |expected| - i < BLOCK then |expected| - i else BLOCK;
      var answer := Answer(script, calls, size);
      calls := calls + 1;
      match answer
      case Interrupted =>
      case Failed(_) => return false;
      case Moved(n) =>
        if n == 0 { return false; }
        if file[i..i + n] != expected[i..i + n] {
          assert file != expected;
          return false;
        }
        assert file[..i + n] == file[..i] + file[i..i + n];
        assert expected[..i + n] == expected[..i] + expected[i..i + n];
        i := i + n;
    }
    assert file[..i] == file && expected[..i] == expected;
    return after == before;
  }
}
