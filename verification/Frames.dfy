/** The incremental frame reader between the worker and its supervisor: what it delivers depends on
    the bytes it has taken and not on how they arrived. */
module Frames {
  import opened Wrappers
  import F = Framing

  // ---- the reference: cutting a byte string into frames ----

  /** What the bytes amount to: complete frames, then an incomplete one, or a length that is refused. */
  datatype Cuts = Cuts(frames: seq<string>, refused: bool, left: string)

  predicate Refusable(header: string, limit: nat) {
    F.FromBig(header) == 0 || F.FromBig(header) > limit
  }

  function Cut(b: string, limit: nat): (r: Cuts)
    decreases |b|
  {
    if |b| < 4 then Cuts([], false, b)
    else if Refusable(b[..4], limit) then Cuts([], true, b)
    else
      var n := F.FromBig(b[..4]);
      if |b| - 4 < n then Cuts([], false, b)
      else
        var rest := Cut(b[4 + n..], limit);
        Cuts([b[4..4 + n]] + rest.frames, rest.refused, rest.left)
  }

  ghost predicate IsFrame(b: string, frame: string, limit: nat) {
    |b| >= 4 && !Refusable(b[..4], limit) && |frame| == F.FromBig(b[..4]) && frame == b[4..]
  }

  lemma CutHead(b: string, frame: string, more: string, limit: nat)
    requires IsFrame(b, frame, limit)
    ensures var d := Cut(more, limit);
            Cut(b + more, limit) == Cuts([frame] + d.frames, d.refused, d.left)
  {
    hide F.FromBig, Refusable;
    var all := b + more;
    assert all[..4] == b[..4] && all[4..4 + |frame|] == frame && all[4 + |frame|..] == more;
  }

  lemma SplitAt(b: string, x: string, k: nat)
    requires k <= |b|
    ensures b == b[..k] + b[k..] && b + x == b[..k] + (b[k..] + x)
  {
  }

  /** More bytes continue where the earlier ones left off. */
  lemma {:induction false} CutMore(b: string, x: string, limit: nat)
    requires !Cut(b, limit).refused
    ensures var c, d := Cut(b, limit), Cut(Cut(b, limit).left + x, limit);
            Cut(b + x, limit) == Cuts(c.frames + d.frames, d.refused, d.left)
    decreases |b|
  {
    hide F.FromBig, Refusable;
    if |b| >= 4 && !Refusable(b[..4], limit) && |b| - 4 >= F.FromBig(b[..4]) {
      var n := F.FromBig(b[..4]);
      var head, frame, tail := b[..4 + n], b[4..4 + n], b[4 + n..];
      SplitAt(b, x, 4 + n);
      assert head[..4] == b[..4];
      CutHead(head, frame, tail, limit);
      CutHead(head, frame, tail + x, limit);
      hide Cut;
      CutMore(tail, x, limit);
    } else {
      assert Cut(b, limit) == Cuts([], false, b);
      assert [] + Cut(b + x, limit).frames == Cut(b + x, limit).frames;
    }
  }

  ghost predicate Sendable(messages: seq<string>, limit: nat) {
    forall k | 0 <= k < |messages| :: 0 < |messages[k]| <= limit && |messages[k]| < F.LENGTHS
  }

  lemma CutFrame(m: string, more: string, limit: nat)
    requires 0 < |m| <= limit && |m| < F.LENGTHS
    ensures var d := Cut(more, limit);
            Cut(F.Frame(m) + more, limit) == Cuts([m] + d.frames, d.refused, d.left)
  {
    hide F.FromBig, F.Big, F.U32;
    F.U32Inverts(|m|);
    assert F.Frame(m)[..4] == F.U32(|m|) && F.Frame(m)[4..] == m;
    CutHead(F.Frame(m), m, more, limit);
  }

  /** What was framed is cut back into the same messages, and cutting goes on with what follows. */
  lemma {:induction false} CutFrames(messages: seq<string>, tail: string, limit: nat)
    requires Sendable(messages, limit)
    ensures var d := Cut(tail, limit);
            Cut(F.Frames(messages) + tail, limit) == Cuts(messages + d.frames, d.refused, d.left)
    decreases |messages|
  {
    hide Cut, F.Frame;
    var d := Cut(tail, limit);
    if messages == [] {
      assert F.Frames(messages) + tail == tail && messages + d.frames == d.frames;
    } else {
      var more := F.Frames(messages[1..]) + tail;
      assert F.Frames(messages) + tail == F.Frame(messages[0]) + more;
      CutFrame(messages[0], more, limit);
      CutFrames(messages[1..], tail, limit);
      assert messages + d.frames == [messages[0]] + (messages[1..] + d.frames);
    }
  }

  /** Whatever part of a stream of sent messages has arrived, the frames in it are the first of those
      messages, none of its lengths is refused, and all of it amounts to all of them. */
  lemma ArrivedIsSent(messages: seq<string>, taken: string, limit: nat)
    requires Sendable(messages, limit) && taken <= F.Frames(messages)
    ensures Cut(taken, limit).frames <= messages && !Cut(taken, limit).refused
    ensures taken == F.Frames(messages) ==> Cut(taken, limit) == Cuts(messages, false, "")
  {
    var whole := F.Frames(messages);
    assert whole + "" == whole;
    CutFrames(messages, "", limit);
    assert messages + [] == messages;
    var x := whole[|taken|..];
    assert taken + x == whole;
    if Cut(taken, limit).refused {
      RefusedStays(taken, x, limit);
      assert false;
    }
    CutMore(taken, x, limit);
  }

  lemma {:induction false} RefusedStays(b: string, x: string, limit: nat)
    requires Cut(b, limit).refused
    ensures Cut(b + x, limit).refused
    decreases |b|
  {
    assert (b + x)[..4] == b[..4];
    if !Refusable(b[..4], limit) {
      var n := F.FromBig(b[..4]);
      assert (b + x)[4 + n..] == b[4 + n..] + x;
      RefusedStays(b[4 + n..], x, limit);
    }
  }

  // ---- the writer ----

  const RESULT_LIMIT: nat := 6 * 1024 * 1024

  /** Appends one message behind its length, unless it is longer than a result may be. A reader that cuts the
      output finds the earlier messages and then this one, with nothing left over; an empty message would be
      refused there. */
  method SendEvent(output: string, message: string) returns (r: Result<string, Failure>)
    ensures r.Err? <==> |message| > RESULT_LIMIT
    ensures r.Ok? ==> output <= r.value && |r.value| == |output| + 4 + |message|
    ensures r.Ok? ==> forall earlier: seq<string> | Cut(output, RESULT_LIMIT) == Cuts(earlier, false, "") ::
              Cut(r.value, RESULT_LIMIT) ==
                if message == "" then Cuts(earlier, true, F.U32(0)) else Cuts(earlier + [message], false, "")
    ensures r.Ok? ==> r.value == output + F.Frame(message)
  {
    if |message| > RESULT_LIMIT { return Err(TooLong); }
    var out := output + F.U32(|message|);
    out := out + message;
    assert out == output + F.Frame(message);
    SentIsCut(output, message);
    return Ok(out);
  }

  lemma SentIsCut(output: string, message: string)
    requires |message| <= RESULT_LIMIT
    ensures forall earlier: seq<string> | Cut(output, RESULT_LIMIT) == Cuts(earlier, false, "") ::
              Cut(output + F.Frame(message), RESULT_LIMIT) ==
                if message == "" then Cuts(earlier, true, F.U32(0)) else Cuts(earlier + [message], false, "")
  {
    var c := Cut(output, RESULT_LIMIT);
    if !c.refused && c.left == "" {
      hide Cut, F.Frame;
      CutMore(output, F.Frame(message), RESULT_LIMIT);
      assert c.left + F.Frame(message) == F.Frame(message);
      OneCut(message);
      assert c.frames + [] == c.frames;
    }
  }

  lemma OneCut(message: string)
    requires |message| <= RESULT_LIMIT
    ensures Cut(F.Frame(message), RESULT_LIMIT) == if message == "" then Cuts([], true, F.U32(0)) else Cuts([message], false, "")
  {
    F.U32Inverts(|message|);
    if message == "" {
      assert F.Frame(message) == F.U32(0) && F.U32(0)[..4] == F.U32(0);
    } else {
      CutFrame(message, "", RESULT_LIMIT);
      assert F.Frame(message) + "" == F.Frame(message) && [message] + [] == [message];
    }
  }

  // ---- the socket ----

  /** How one read turns out: up to `count` bytes, nothing yet, interrupted, or an error. */
  datatype Answer = Give(count: nat) | Block | Interrupt | Fail

  datatype Reply = Got(bytes: string) | WouldBlock | Interrupted | Broken

  datatype Failure = TooLong | EndOfStream | ReadError | LengthRefused

  /** How many of the answers bring bytes. */
  function Gives(script: seq<Answer>): nat {
    if script == [] then 0 else (if script[0].Give? then 1 else 0) + Gives(script[1..])
  }

  /** Bytes under way, and the answers the system will give. `taken` remembers what was read. */
  class Socket {
    var pending: string
    var script: seq<Answer>
    const closed: bool
    ghost var taken: string

    constructor (stream: string, script: seq<Answer>, closed: bool)
      ensures pending == stream && this.script == script && this.closed == closed && taken == ""
    {
      pending, this.script, this.closed, taken := stream, script, closed, "";
    }

    /** A read into a buffer of `room` bytes. A read into an empty buffer would return no bytes, which
        the caller takes for the end of the stream: no caller may issue one. */
    method Read(room: nat) returns (r: Reply)
      requires room > 0
      modifies this
      ensures taken + pending == old(taken + pending)
      ensures r.Got? ==> |r.bytes| <= room && taken == old(taken) + r.bytes && (r.bytes == "" ==> closed && pending == "")
      ensures !r.Got? ==> taken == old(taken)
      ensures old(script) == [] ==> script == [] && r == WouldBlock
      ensures old(script) != [] ==> script == old(script)[1..]
      ensures pending == "" || |taken| + Gives(script) >= |old(taken)| + Gives(old(script))
      ensures r == Broken ==> old(script) != [] && old(script)[0] == Fail
    {
      if script == [] { return WouldBlock; }
      var answer := script[0];
      script := script[1..];
      match answer
      case Give(count) =>
        if pending == "" { return if closed then Got("") else WouldBlock; }
        var n := Least(if count == 0 then 1 else count, Least(room, |pending|));
        r := Got(pending[..n]);
        taken := taken + pending[..n];
        pending := pending[n..];
      case Block => return WouldBlock;
      case Interrupt => return Interrupted;
      case Fail => return Broken;
    }
  }

  function Least(a: nat, b: nat): nat {
    if a < b then a else b
  }

  const CALL_BUDGET: nat := 64 * 1024

  // ---- the reader ----

  function Zeros(n: nat): (s: string)
    ensures |s| == n
  {
    seq(n, i => 0 as char)
  }

  /** The bytes of the unfinished frame. */
  function Unfinished(header: string, headerUsed: nat, body: string, used: nat): string
    requires headerUsed <= |header| && used <= |body|
  {
    header[..headerUsed] + body[..used]
  }

  class Reader {
    var header: string
    var headerUsed: nat
    var body: string
    var used: nat

    /** A complete header always leaves part of a body of an admitted length to be read. */
    ghost predicate Valid(limit: nat)
      reads this
    {
      && |header| == 4 && headerUsed <= 4
      && (headerUsed < 4 ==> body == "" && used == 0)
      && (headerUsed == 4 ==> !Refusable(header, limit) && |body| == F.FromBig(header) && used < |body|)
    }

    ghost function Partial(limit: nat): string
      requires Valid(limit)
      reads this
    {
      Unfinished(header, headerUsed, body, used)
    }

    constructor (ghost limit: nat)
      ensures Valid(limit) && Partial(limit) == ""
    {
      header, headerUsed, body, used := Zeros(4), 0, "", 0;
    }

    /** Stores header bytes; a complete header decides the length of the body. */
    method TakeHeader(bytes: string, limit: nat) returns (ok: bool)
      requires Valid(limit) && headerUsed < 4 && 0 < |bytes| <= 4 - headerUsed
      modifies this
      ensures ok ==> Valid(limit) && Partial(limit) == old(Partial(limit)) + bytes
      ensures !ok ==> var b := old(Partial(limit)) + bytes; |b| == 4 && Refusable(b, limit)
    {
      ghost var before := header[..headerUsed];
      assert before == Partial(limit);
      header := header[..headerUsed] + bytes + header[headerUsed + |bytes|..];
      headerUsed := headerUsed + |bytes|;
      assert header[..headerUsed] == before + bytes;
      if headerUsed == 4 {
        assert header[..4] == header == before + bytes;
        var length := F.FromBig(header);
        if length == 0 || length > limit { return false; }
        body := Zeros(length);
      }
      return true;
    }

    /** Stores body bytes; the last of them completes the frame. */
    method TakeBody(bytes: string, limit: nat) returns (done: Option<string>)
      requires Valid(limit) && headerUsed == 4 && 0 < |bytes| <= |body| - used
      modifies this
      ensures Valid(limit)
      ensures done.None? ==> Partial(limit) == old(Partial(limit)) + bytes
      ensures done.Some? ==> Partial(limit) == "" && IsFrame(old(Partial(limit)) + bytes, done.value, limit)
    {
      ghost var before := Partial(limit);
      ghost var all := |body|;
      body := body[..used] + bytes + body[used + |bytes|..];
      used := used + |bytes|;
      assert header[..4] == header;
      assert header + body[..used] == before + bytes;
      if used == |body| {
        assert body[..used] == body && (header + body)[..4] == header && (header + body)[4..] == body;
        done := Some(body);
        headerUsed, used, body := 0, 0, "";
      } else {
        done := None;
      }
    }

    /** What one read is offered: the rest of the header, or of the body within the budget. */
    function Room(budget: nat): nat
      requires headerUsed <= 4 && (headerUsed == 4 ==> used <= |body|)
      reads this
    {
      if headerUsed < 4 then 4 - headerUsed else Least(used + budget, |body|) - used
    }

    method Store(bytes: string, ghost budget: nat, limit: nat) returns (r: Result<Option<string>, Failure>)
      requires Valid(limit) && 0 < |bytes| <= Room(budget)
      modifies this
      ensures r.Ok? ==> Valid(limit)
      ensures var b := old(Partial(limit)) + bytes;
              match r
              case Ok(Some(frame)) => Partial(limit) == "" && IsFrame(b, frame, limit)
              case Ok(None) => Partial(limit) == b
              case Err(failure) => failure == LengthRefused && |b| == 4 && Refusable(b, limit)
    {
      hide F.FromBig, Refusable, Unfinished;
      if headerUsed < 4 {
        var ok := TakeHeader(bytes, limit);
        return if ok then Ok(None) else Err(LengthRefused);
      }
      var done := TakeBody(bytes, limit);
      return Ok(done);
    }

    /** Reads until a frame is complete, nothing more is ready, or the call's budget is spent. The bytes
        read continue the unfinished frame; every read has room for at least one byte. */
    method Next(input: Socket, limit: nat) returns (r: Result<Option<string>, Failure>)
      requires Valid(limit)
      modifies this, input
      ensures input.taken + input.pending == old(input.taken + input.pending)
      ensures old(input.taken) <= input.taken && |input.taken| - |old(input.taken)| <= CALL_BUDGET + 3
      ensures old(input.script) != [] ==> |input.script| < |old(input.script)|
      ensures old(input.script) == [] ==> r == Ok(None)
      ensures input.pending == "" || |input.taken| + Gives(input.script) >= |old(input.taken)| + Gives(old(input.script))
      ensures r == Err(EndOfStream) ==> input.closed && input.pending == ""
      ensures r == Err(ReadError) ==> Fail in old(input.script)
      ensures forall x | x in input.script :: x in old(input.script)
      ensures r != Err(LengthRefused) ==> Valid(limit)
      ensures var b := old(Partial(limit)) + input.taken[|old(input.taken)|..];
              match r
              case Ok(Some(frame)) => Partial(limit) == "" && IsFrame(b, frame, limit)
              case Ok(None) => Partial(limit) == b
              case Err(failure) => failure != TooLong && if failure == LengthRefused then |b| == 4 && Refusable(b, limit) else Partial(limit) == b
    {
      hide F.FromBig, Refusable, Unfinished, Gives;
      ghost var start, before := input.taken, Partial(limit);
      var budget: nat := CALL_BUDGET;
      while budget > 0
        invariant Valid(limit) && start <= input.taken && Partial(limit) == before + input.taken[|start|..]
        invariant input.taken + input.pending == old(input.taken + input.pending)
        invariant |input.taken| - |start| + budget <= CALL_BUDGET + 3 && (budget > 0 ==> |input.taken| - |start| + budget == CALL_BUDGET)
        invariant |input.script| <= |old(input.script)| && forall x | x in input.script :: x in old(input.script)
        invariant input.pending == "" || |input.taken| + Gives(input.script) >= |start| + Gives(old(input.script))
        invariant budget < CALL_BUDGET ==> |input.script| < |old(input.script)|
        decreases |input.script|
      {
        var room := Room(budget);
        ghost var was, got := input.taken, Partial(limit);
        var reply := input.Read(room);
        match reply
        case Got(bytes) =>
          if bytes == "" {
            return Err(EndOfStream);
          }
          assert input.taken[|start|..] == was[|start|..] + bytes;
          assert before + input.taken[|start|..] == got + bytes;
          ghost var had := budget;
          budget := if |bytes| < budget then budget - |bytes| else 0;
          r := Store(bytes, had, limit);
          if r != Ok(None) { return r; }
        case WouldBlock =>
          return Ok(None);
        case Interrupted =>
        case Broken =>
          return Err(ReadError);
      }
      return Ok(None);
    }
  }

  lemma CutOne(b: string, frame: string, limit: nat)
    requires IsFrame(b, frame, limit)
    ensures Cut(b, limit) == Cuts([frame], false, "")
  {
    assert b[4..4 + |frame|] == frame && b[4 + |frame|..] == "";
  }

  lemma CutRefused(b: string, limit: nat)
    requires |b| == 4 && Refusable(b, limit)
    ensures Cut(b, limit) == Cuts([], true, b)
  {
    assert b[..4] == b;
  }

  lemma CutPartial(reader: Reader, limit: nat)
    requires reader.Valid(limit)
    ensures Cut(reader.Partial(limit), limit) == Cuts([], false, reader.Partial(limit))
  {
    hide F.FromBig, Refusable;
    if reader.headerUsed == 4 { assert reader.Partial(limit)[..4] == reader.header; }
  }

  /** Whatever the reads return, and in whatever pieces: the frames delivered are those of the bytes
      taken so far, in order, and the reader gives up on a length exactly when those bytes hold a
      refused one. */
  method Deliver(stream: string, script: seq<Answer>, closed: bool, limit: nat)
      returns (delivered: seq<string>, failed: Option<Failure>, rest: string)
    ensures |rest| <= |stream|
    ensures failed.None? && Gives(script) >= |stream| ==> rest == ""
    ensures failed == Some(EndOfStream) ==> closed && rest == ""
    ensures failed == Some(ReadError) ==> Fail in script
    ensures failed != Some(TooLong)
    ensures var taken := stream[..|stream| - |rest|];
            && stream == taken + rest
            && delivered == Cut(taken, limit).frames
            && (failed == Some(LengthRefused) <==> Cut(taken, limit).refused)
  {
    var input := new Socket(stream, script, closed);
    var reader := new Reader(limit);
    delivered, failed := [], None;
    assert input.taken + input.pending == stream;
    while |input.script| > 0
      invariant input.taken + input.pending == stream && input.closed == closed && failed.None?
      invariant input.pending == "" || |input.taken| + Gives(input.script) >= Gives(script)
      invariant forall x | x in input.script :: x in script
      invariant reader.Valid(limit)
      invariant Cut(input.taken, limit) == Cuts(delivered, false, reader.Partial(limit))
      decreases |input.script|
    {
      ghost var was, left := input.taken, reader.Partial(limit);
      var r := reader.Next(input, limit);
      ghost var x := input.taken[|was|..];
      assert input.taken == was + x;
      hide Cut, IsFrame, Refusable, Unfinished, F.FromBig;
      CutMore(was, x, limit);
      match r
      case Ok(Some(frame)) =>
        CutOne(left + x, frame, limit);
        delivered := delivered + [frame];
      case Ok(None) =>
        CutPartial(reader, limit);
      case Err(failure) =>
        if failure == LengthRefused {
          CutRefused(left + x, limit);
        } else {
          CutPartial(reader, limit);
        }
        failed := Some(failure);
        rest := input.pending;
        assert stream[..|stream| - |rest|] == input.taken;
        return;
    }
    rest := input.pending;
    assert stream[..|stream| - |rest|] == input.taken;
  }

  lemma {:induction false} FramesMore(messages: seq<string>, m: string)
    ensures F.Frames(messages + [m]) == F.Frames(messages) + F.Frame(m)
  {
    hide F.Frame;
    if messages == [] {
      assert [] + [m] == [m] && [m][1..] == [];
      assert F.Frames([m]) == F.Frame(m) + "";
    } else {
      assert (messages + [m])[1..] == messages[1..] + [m];
      FramesMore(messages[1..], m);
    }
  }

  /** A worker's messages end to end: the supervisor receives the first of them, unchanged and in
      order, and all of them once every byte has arrived; it never finds fault with a length. */
  method Relay(messages: seq<string>, script: seq<Answer>, closed: bool)
      returns (delivered: seq<string>, failed: Option<Failure>, rest: string)
    requires forall k | 0 <= k < |messages| :: 0 < |messages[k]| <= RESULT_LIMIT
    ensures delivered <= messages && failed != Some(LengthRefused)
    ensures rest == "" ==> delivered == messages
    ensures Fail !in script && Gives(script) >= |F.Frames(messages)| ==> delivered == messages
  {
    hide F.Frame, Cut, Gives;
    var output := "";
    var i := 0;
    while i < |messages|
      invariant i <= |messages| && output == F.Frames(messages[..i])
    {
      var sent := SendEvent(output, messages[i]);
      FramesMore(messages[..i], messages[i]);
      assert messages[..i + 1] == messages[..i] + [messages[i]];
      output := sent.value;
      i := i + 1;
    }
    assert messages[..i] == messages;
    delivered, failed, rest := Deliver(output, script, closed, RESULT_LIMIT);
    ghost var taken := output[..|output| - |rest|];
    ArrivedIsSent(messages, taken, RESULT_LIMIT);
    if rest == "" { assert taken == output; }
    if Fail !in script && Gives(script) >= |output| {
      assert failed.None? || failed.value == EndOfStream;
    }
  }
}
