/** backrest/internal/backrest/client.go: the framed log stream and its rolling tail. */
module LogStream {
  import opened Prelude

  newtype byte = x: int | 0 <= x < 256

  const MAX_LOG: nat := 64 * 1024
  const MAX_STREAM: nat := 8 * 1024 * 1024
  const MAX_FRAME: nat := 8 * 1024 * 1024

  datatype Frame = Frame(flags: byte, payload: seq<byte>)

  /** A stream: the bytes that arrive, and whether it then breaks instead of ending. */
  datatype Wire = Wire(bytes: seq<byte>, broken: bool)

  datatype StreamError = HeaderCut | FrameTooBig | PayloadCut | Compressed | Undecodable | Terminal(text: string)

  /** The JSON and base64 layers: a data frame's chunk, and an end frame's error. */
  datatype Codec = Codec(chunk: seq<byte> -> Option<seq<byte>>, terminal: seq<byte> -> Option<string>)

  /** Everything read, and how it stopped. */
  datatype Outcome = Outcome(all: seq<byte>, err: Option<StreamError>)

  predicate EndsStream(flags: byte) { flags / 2 % 2 == 1 }

  predicate IsCompressed(flags: byte) { flags % 2 == 1 }

  // ---------- Frames ----------

  function PutUint32(n: nat): (r: seq<byte>)
    requires n < 0x1_0000_0000
    ensures |r| == 4
  {
    [(n / 0x100_0000) as byte, (n / 0x1_0000 % 0x100) as byte, (n / 0x100 % 0x100) as byte, (n % 0x100) as byte]
  }

  function Uint32(b: seq<byte>): (n: nat)
    requires |b| == 4
    ensures n < 0x1_0000_0000
  {
    b[0] as int * 0x100_0000 + b[1] as int * 0x1_0000 + b[2] as int * 0x100 + b[3] as int
  }

  lemma Uint32RoundTrip(n: nat)
    requires n < 0x1_0000_0000
    ensures Uint32(PutUint32(n)) == n
  {
    var low := n % 0x1_0000;
    assert n / 0x100_0000 * 0x100 + n / 0x1_0000 % 0x100 == n / 0x1_0000;
    assert n / 0x100 % 0x100 * 0x100 + n % 0x100 == low;
  }

  function Framed(f: Frame): seq<byte>
    requires |f.payload| <= MAX_FRAME
  {
    [f.flags] + PutUint32(|f.payload|) + f.payload
  }

  /** What the reader meets at the head of the remaining bytes. */
  datatype Head = Whole(frame: Frame) | Stops(err: Option<StreamError>)

  function Peek(w: Wire): Head {
    var b := w.bytes;
    if |b| == 0 && !w.broken then Stops(None)
    else if |b| < 5 then Stops(Some(HeaderCut))
    else
      var size := Uint32(b[1..5]);
      if size > MAX_FRAME then Stops(Some(FrameTooBig))
      else if |b| < 5 + size then Stops(Some(PayloadCut))
      else Whole(Frame(b[0], b[5..5 + size]))
  }

  /** The flags of a frame are bits: the second ends the stream, the first says compressed. */
  lemma FlagsAreBits(high: nat, end: bool, compressed: bool)
    requires high < 64
    ensures var flags := (4 * high + (if end then 2 else 0) + (if compressed then 1 else 0)) as byte;
      EndsStream(flags) == end && IsCompressed(flags) == compressed
  {
  }

  ghost predicate Less(a: seq<byte>, b: seq<byte>)
    requires |a| == |b|
  {
    a != [] && (a[0] < b[0] || (a[0] == b[0] && Less(a[1..], b[1..])))
  }

  /** Sizes go out with the high byte first: they compare as their bytes do. */
  lemma HighByteFirst(n: nat, m: nat)
    requires n < 0x1_0000_0000 && m < 0x1_0000_0000
    ensures Less(PutUint32(n), PutUint32(m)) <==> n < m
  {
    Uint32RoundTrip(n);
    Uint32RoundTrip(m);
    BytesCompare(PutUint32(n), PutUint32(m));
  }

  lemma BytesCompare(a: seq<byte>, b: seq<byte>)
    requires |a| == |b| == 4
    ensures Less(a, b) <==> Uint32(a) < Uint32(b)
  {
    assert a[3..][1..] == b[3..][1..] == [];
    assert a[2..][1..] == a[3..] && b[2..][1..] == b[3..];
    assert a[1..][1..] == a[2..] && b[1..][1..] == b[2..];
    assert Less(a[3..], b[3..]) <==> a[3] < b[3];
    assert Less(a[2..], b[2..]) <==> a[2] < b[2] || (a[2] == b[2] && a[3] < b[3]);
    assert Less(a[1..], b[1..]) <==> a[1] < b[1] || (a[1] == b[1] && Less(a[2..], b[2..]));
  }

  /** The parser undoes the framing, whatever follows. */
  lemma PeekUndoesFramed(f: Frame, rest: seq<byte>, broken: bool)
    requires |f.payload| <= MAX_FRAME
    ensures Peek(Wire(Framed(f) + rest, broken)) == Whole(f)
    ensures (Framed(f) + rest)[5 + |f.payload|..] == rest
  {
    Uint32RoundTrip(|f.payload|);
    var b := Framed(f) + rest;
    assert b[1..5] == PutUint32(|f.payload|);
    assert b[5..5 + |f.payload|] == f.payload;
  }

  /** A frame read off the wire is one that was framed: nothing is invented or skipped. */
  lemma FramedUndoesPeek(w: Wire)
    requires Peek(w).Whole?
    ensures var f := Peek(w).frame;
      |f.payload| <= MAX_FRAME && w.bytes == Framed(f) + w.bytes[5 + |f.payload|..]
  {
    var b := w.bytes;
    var size := Uint32(b[1..5]);
    PutUndoesUint32(b[1..5]);
    assert b == [b[0]] + b[1..5] + b[5..5 + size] + b[5 + size..];
  }

  lemma PutUndoesUint32(b: seq<byte>)
    requires |b| == 4
    ensures PutUint32(Uint32(b)) == b
  {
    var n := Uint32(b);
    var high, low := b[0] as int * 0x100 + b[1] as int, b[2] as int * 0x100 + b[3] as int;
    assert n == high * 0x1_0000 + low;
    assert n / 0x1_0000 == high && n % 0x1_0000 == low;
    assert n / 0x100_0000 == high / 0x100;
    assert n / 0x100 == high * 0x100 + b[2] as int;
  }

  /** The frame a request is sent in. */
  method Envelope(payload: seq<byte>) returns (frame: Option<seq<byte>>)
    ensures frame == if |payload| > MAX_FRAME then None else Some(Framed(Frame(0, payload)))
  {
    if |payload| > MAX_FRAME {
      return None;
    }
    var buf := new byte[5 + |payload|](i => 0);
    buf[0] := 0;
    var size := PutUint32(|payload|);
    forall i | 0 <= i < 4 {
      buf[1 + i] := size[i];
    }
    forall i | 0 <= i < |payload| {
      buf[5 + i] := payload[i];
    }
    assert buf[..] == [0] + size + payload;
    return Some(buf[..]);
  }

  // ---------- The rolling tail ----------

  /** Keeps the last MAX_LOG bytes of what is written; all is everything ever written. */
  class TailBuffer {
    var buf: seq<byte>
    var read: nat
    ghost var all: seq<byte>

    ghost predicate Valid()
      reads this
    {
      buf == LastN(all, MAX_LOG) && read == |all|
    }

    constructor ()
      ensures Valid() && all == []
    {
      buf, read, all := [], 0, [];
    }

    method Write(p: seq<byte>)
      requires Valid()
      modifies this
      ensures Valid() && all == old(all) + p
    {
      TailOfMore(all, p);
      all := all + p;
      read := read + |p|;
      if |p| >= MAX_LOG {
        buf := p[|p| - MAX_LOG..];
        return;
      }
      buf := buf + p;
      var excess := |buf| - MAX_LOG;
      if excess > 0 {
        buf := buf[excess..];
      }
    }

    method String() returns (s: seq<byte>)
      requires Valid()
      ensures s == LastN(all, MAX_LOG)
    {
      s := buf;
    }
  }

  /** The tail of a longer stream is the tail of its tail. */
  lemma TailOfMore(all: seq<byte>, p: seq<byte>)
    ensures LastN(all + p, MAX_LOG) == LastN(LastN(all, MAX_LOG) + p, MAX_LOG)
    ensures |p| >= MAX_LOG ==> LastN(all + p, MAX_LOG) == p[|p| - MAX_LOG..]
  {
    if |all| > MAX_LOG {
      var cut := |all| - MAX_LOG;
      assert all + p == all[..cut] + (all[cut..] + p);
    }
  }

  // ---------- The reader ----------

  function EndError(codec: Codec, payload: seq<byte>): Option<StreamError> {
    match codec.terminal(payload)
    case None => None
    case Some(text) => Some(Terminal(text))
  }

  function Remaining(w: Wire): Wire
    requires Peek(w).Whole?
  {
    w.(bytes := w.bytes[5 + |Peek(w).frame.payload|..])
  }

  /** The frame-by-frame reading of a stream on which all has been read so far. */
  function Reading(w: Wire, codec: Codec, all: seq<byte>): Outcome
    decreases |w.bytes|
  {
    if |all| >= MAX_STREAM then Outcome(all, None)
    else match Peek(w)
      case Stops(err) => Outcome(all, err)
      case Whole(f) =>
        if EndsStream(f.flags) then Outcome(all, EndError(codec, f.payload))
        else if IsCompressed(f.flags) then Outcome(all, Some(Compressed))
        else match codec.chunk(f.payload)
          case None => Outcome(all, Some(Undecodable))
          case Some(chunk) => Reading(Remaining(w), codec, all + chunk)
  }

  /** The loop: whatever arrives, it ends with the tail of what was read, after at most one
      turn for every five bytes. */
  method ReadLogStream(w: Wire, codec: Codec) returns (log: seq<byte>, err: Option<StreamError>, turns: nat)
    ensures log == LastN(Reading(w, codec, []).all, MAX_LOG) && err == Reading(w, codec, []).err
    ensures 5 * turns <= |w.bytes|
  {
    var out := new TailBuffer();
    var rest := w.bytes;
    turns := 0;
    hide LastN, Uint32;
    while out.read < MAX_STREAM
      invariant out.Valid() && fresh(out)
      invariant Reading(w.(bytes := rest), codec, out.all) == Reading(w, codec, [])
      invariant 5 * turns + |rest| <= |w.bytes|
      decreases |rest|
    {
      ghost var here := w.(bytes := rest);
      if |rest| < 5 {
        log := out.String();
        return log, if |rest| == 0 && !w.broken then None else Some(HeaderCut), turns;
      }
      var size := Uint32(rest[1..5]);
      if size > MAX_FRAME {
        log := out.String();
        return log, Some(FrameTooBig), turns;
      }
      if |rest| < 5 + size {
        log := out.String();
        return log, Some(PayloadCut), turns;
      }
      var flags, payload := rest[0], rest[5..5 + size];
      assert Peek(here) == Whole(Frame(flags, payload));
      if EndsStream(flags) {
        log := out.String();
        return log, EndError(codec, payload), turns;
      }
      if IsCompressed(flags) {
        log := out.String();
        return log, Some(Compressed), turns;
      }
      var chunk := codec.chunk(payload);
      if chunk.None? {
        log := out.String();
        return log, Some(Undecodable), turns;
      }
      out.Write(chunk.value);
      rest := rest[5 + size..];
      turns := turns + 1;
    }
    log := out.String();
    err := None;
  }

  // ---------- What a whole stream comes to ----------

  function Concat(chunks: seq<seq<byte>>): seq<byte> {
    if chunks == [] then [] else chunks[0] + Concat(chunks[1..])
  }

  /** Data frames carrying the payloads, one after the other. */
  function Sent(payloads: seq<seq<byte>>): seq<byte>
    requires forall p :: p in payloads ==> |p| <= MAX_FRAME
  {
    if payloads == [] then [] else Framed(Frame(0, payloads[0])) + Sent(payloads[1..])
  }

  /** Each payload decodes to its chunk. */
  ghost predicate Carries(codec: Codec, payloads: seq<seq<byte>>, chunks: seq<seq<byte>>) {
    && |payloads| == |chunks|
    && (forall p :: p in payloads ==> |p| <= MAX_FRAME)
    && (forall i :: 0 <= i < |chunks| ==> codec.chunk(payloads[i]) == Some(chunks[i]))
  }

  /** How many chunks are read: up to the first point at or past the cap. */
  function Taken(chunks: seq<seq<byte>>, read: nat): (k: nat)
    ensures k <= |chunks|
  {
    if chunks == [] || read >= MAX_STREAM then 0 else 1 + Taken(chunks[1..], read + |chunks[0]|)
  }

  /** The count is right: every shorter stretch is under the cap, and it stops early only
      at the cap. */
  lemma {:induction false} TakenStopsAtTheCap(chunks: seq<seq<byte>>, read: nat)
    ensures var k := Taken(chunks, read);
      && (forall i :: 0 <= i < k ==> read + |Concat(chunks[..i])| < MAX_STREAM)
      && (k < |chunks| ==> read + |Concat(chunks[..k])| >= MAX_STREAM)
  {
    if chunks != [] && read < MAX_STREAM {
      TakenStopsAtTheCap(chunks[1..], read + |chunks[0]|);
      forall i | 0 < i <= |chunks|
        ensures |Concat(chunks[..i])| == |chunks[0]| + |Concat(chunks[1..][..i - 1])|
      {
        assert chunks[..i][1..] == chunks[1..][..i - 1];
      }
    }
  }

  lemma ReadingOne(codec: Codec, payload: seq<byte>, chunk: seq<byte>, more: seq<byte>, broken: bool, all: seq<byte>)
    requires |payload| <= MAX_FRAME && codec.chunk(payload) == Some(chunk) && |all| < MAX_STREAM
    ensures Reading(Wire(Framed(Frame(0, payload)) + more, broken), codec, all) == Reading(Wire(more, broken), codec, all + chunk)
  {
    PeekUndoesFramed(Frame(0, payload), more, broken);
    hide Peek, Framed;
  }

  lemma ConcatStep(chunks: seq<seq<byte>>, k: nat, all: seq<byte>)
    requires 0 < k <= |chunks|
    ensures all + Concat(chunks[..k]) == all + chunks[0] + Concat(chunks[1..][..k - 1])
  {
    assert chunks[..k][1..] == chunks[1..][..k - 1];
  }

  /** One data frame more at the head of what is sent. */
  lemma SentStep(codec: Codec, payloads: seq<seq<byte>>, chunks: seq<seq<byte>>, rest: Wire, all: seq<byte>)
    requires Carries(codec, payloads, chunks) && payloads != [] && |all| < MAX_STREAM
    ensures Carries(codec, payloads[1..], chunks[1..])
    ensures Reading(rest.(bytes := Sent(payloads) + rest.bytes), codec, all) ==
      Reading(rest.(bytes := Sent(payloads[1..]) + rest.bytes), codec, all + chunks[0])
  {
    hide Framed, Reading;
    var f, more := Frame(0, payloads[0]), Sent(payloads[1..]) + rest.bytes;
    assert Sent(payloads) + rest.bytes == Framed(f) + more;
    ReadingOne(codec, payloads[0], chunks[0], more, rest.broken, all);
  }

  lemma TakenStep(chunks: seq<seq<byte>>, all: seq<byte>)
    requires chunks != [] && |all| < MAX_STREAM
    ensures var k := Taken(chunks, |all|); var k' := Taken(chunks[1..], |all + chunks[0]|);
      k == k' + 1 && all + Concat(chunks[..k]) == all + chunks[0] + Concat(chunks[1..][..k'])
  {
    ConcatStep(chunks, Taken(chunks, |all|), all);
    hide Concat;
  }

  lemma NothingTaken(chunks: seq<seq<byte>>, all: seq<byte>)
    requires chunks == [] || |all| >= MAX_STREAM
    ensures all + Concat(chunks[..Taken(chunks, |all|)]) == all
  {
    assert chunks[..0] == [];
  }

  lemma {:induction false} ReadingSent(codec: Codec, payloads: seq<seq<byte>>, chunks: seq<seq<byte>>, rest: Wire, all: seq<byte>)
    requires Carries(codec, payloads, chunks)
    ensures var k := Taken(chunks, |all|); var read := all + Concat(chunks[..k]);
      Reading(rest.(bytes := Sent(payloads) + rest.bytes), codec, all) ==
        if |read| >= MAX_STREAM then Outcome(read, None) else Reading(rest, codec, read)
    decreases |payloads|
  {
    if |all| >= MAX_STREAM {
      NothingTaken(chunks, all);
      hide Peek, Sent, Concat, Taken;
    } else if payloads == [] {
      NothingTaken(chunks, all);
      assert Sent(payloads) + rest.bytes == rest.bytes;
      hide Reading, Concat, Taken;
    } else {
      SentStep(codec, payloads, chunks, rest, all);
      TakenStep(chunks, all);
      hide Reading, Sent, Concat, Taken, Carries;
      ReadingSent(codec, payloads[1..], chunks[1..], rest, all + chunks[0]);
    }
  }

  /** Over any framed chunks followed by an end frame: the log is the last MAX_LOG bytes of
      the chunks read, and the end frame's error is reported only when it was reached. */
  lemma WholeStream(codec: Codec, payloads: seq<seq<byte>>, chunks: seq<seq<byte>>, end: Frame, after: seq<byte>, broken: bool)
    requires Carries(codec, payloads, chunks)
    requires EndsStream(end.flags) && |end.payload| <= MAX_FRAME
    ensures var k := Taken(chunks, 0);
      Reading(Wire(Sent(payloads) + (Framed(end) + after), broken), codec, []) ==
        Outcome(Concat(chunks[..k]), if |Concat(chunks[..k])| >= MAX_STREAM then None else EndError(codec, end.payload))
  {
    var rest := Wire(Framed(end) + after, broken);
    ReadingSent(codec, payloads, chunks, rest, []);
    PeekUndoesFramed(end, after, broken);
    var k := Taken(chunks, 0);
    assert [] + Concat(chunks[..k]) == Concat(chunks[..k]);
    hide Framed, Concat;
  }

  /** A stream cut between frames gives what arrived and no error; one cut inside a frame,
      or broken, gives the same log and an error. */
  lemma CutStream(codec: Codec, payloads: seq<seq<byte>>, chunks: seq<seq<byte>>, rest: Wire)
    requires Carries(codec, payloads, chunks) && |rest.bytes| < 5
    ensures var k := Taken(chunks, 0); var read := Concat(chunks[..k]);
      Reading(rest.(bytes := Sent(payloads) + rest.bytes), codec, []) ==
        Outcome(read, if |read| >= MAX_STREAM || (rest.bytes == [] && !rest.broken) then None else Some(HeaderCut))
  {
    ReadingSent(codec, payloads, chunks, rest, []);
    var k := Taken(chunks, 0);
    assert [] + Concat(chunks[..k]) == Concat(chunks[..k]);
    hide Concat, Sent;
  }

  /** A header that says size, and bytes after it. */
  ghost function Begun(flags: byte, size: nat, bytes: seq<byte>): seq<byte>
    requires size < 0x1_0000_0000
  {
    [flags] + PutUint32(size) + bytes
  }

  lemma PeekBegun(flags: byte, size: nat, bytes: seq<byte>, broken: bool)
    requires size < 0x1_0000_0000
    ensures Peek(Wire(Begun(flags, size, bytes), broken)) ==
      if size > MAX_FRAME then Stops(Some(FrameTooBig))
      else if |bytes| < size then Stops(Some(PayloadCut))
      else Whole(Frame(flags, bytes[..size]))
  {
    Uint32RoundTrip(size);
    var b := Begun(flags, size, bytes);
    assert b[1..5] == PutUint32(size);
    assert size <= |bytes| ==> b[5..5 + size] == bytes[..size];
    hide Uint32, PutUint32;
  }

  /** A stream that goes on with a frame it should not: what arrived before it is kept, and the
      error says what was wrong with it - too big, cut short, compressed, or not decodable -
      unless the cap came first. */
  lemma SpoiltStream(codec: Codec, payloads: seq<seq<byte>>, chunks: seq<seq<byte>>, flags: byte, size: nat, bytes: seq<byte>, broken: bool)
    requires Carries(codec, payloads, chunks) && size < 0x1_0000_0000
    requires size <= MAX_FRAME && size <= |bytes| ==>
      flags / 2 % 2 == 0 && (flags % 2 == 1 || codec.chunk(bytes[..size]) == None)
    ensures var read := Concat(chunks[..Taken(chunks, 0)]);
      Reading(Wire(Sent(payloads) + Begun(flags, size, bytes), broken), codec, []) ==
        Outcome(read, if |read| >= MAX_STREAM then None else Some(
          if size > MAX_FRAME then FrameTooBig else if |bytes| < size then PayloadCut
          else if flags % 2 == 1 then Compressed else Undecodable))
  {
    var rest := Wire(Begun(flags, size, bytes), broken);
    ReadingSent(codec, payloads, chunks, rest, []);
    PeekBegun(flags, size, bytes, broken);
    var k := Taken(chunks, 0);
    assert [] + Concat(chunks[..k]) == Concat(chunks[..k]);
    hide Concat, Sent, Begun, Peek, Taken;
  }

  /** An end frame without an error text reports none; one with a text reports that text. */
  lemma WhatAnEndFrameReports(codec: Codec, end: Frame, after: seq<byte>, broken: bool)
    requires EndsStream(end.flags) && |end.payload| <= MAX_FRAME
    ensures var err := Reading(Wire(Framed(end) + after, broken), codec, []).err;
      && (err == None <==> codec.terminal(end.payload) == None)
      && (codec.terminal(end.payload).Some? ==> err == Some(Terminal(codec.terminal(end.payload).value)))
  {
    PeekUndoesFramed(end, after, broken);
    hide Framed;
  }
}
