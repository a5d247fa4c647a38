/** The read-header / decode / read-body loop of a connection, over a whole byte stream. */
module Stream {
  import opened Packet

  /** frames: the announced bytes of each complete frame; rest: bytes of a frame not complete yet;
      broken: a negative length was announced, for which the server cannot reserve a buffer. */
  datatype Reading = Reading(frames: seq<string>, rest: string, broken: bool)

  function ReadAll(stream: string): Reading
    decreases |stream|
  {
    if |stream| < HEADER then Reading([], stream, false)
    else
      var n := Atoi(stream[..HEADER]);
      if n < 0 then Reading([], stream, true)
      else if |stream| - HEADER < n then Reading([], stream, false)
      else
        var r := ReadAll(stream[HEADER + n..]);
        r.(frames := [stream[HEADER..HEADER + n]] + r.frames)
  }

  /** What one turn of the loop finds at the front of the bytes still to come. */
  datatype Turn = Complete(raw: string) | Incomplete | Negative

  /** handle_read_header, then handle_read_body when the announced bytes are there. */
  method ReadFrame(left: string) returns (t: Turn)
    requires HEADER <= |left|
    ensures match t
            case Negative => ReadAll(left) == Reading([], left, true)
            case Incomplete => ReadAll(left) == Reading([], left, false)
            case Complete(raw) =>
              HEADER + |raw| <= |left| && ReadAll(left) == Prefixed([raw], ReadAll(left[HEADER + |raw|..]))
  {
    var n := Atoi(left[..HEADER]);
    if n < 0 {
      return Negative;
    }
    if |left| - HEADER < n {
      return Incomplete;
    }
    t := Complete(left[HEADER..HEADER + n]);
  }

  /** start, then the two handlers in turn. */
  method ReadLoop(stream: string) returns (r: Reading)
    ensures r == ReadAll(stream)
  {
    var frames: seq<string> := [];
    var left := stream;
    while |left| >= HEADER
      invariant ReadAll(stream) == Prefixed(frames, ReadAll(left))
      decreases |left|
    {
      var t := ReadFrame(left);
      if !t.Complete? {
        return Reading(frames, left, t.Negative?);
      }
      left := left[HEADER + |t.raw|..];
      PrefixedTwice(frames, t.raw, ReadAll(left));
      frames := frames + [t.raw];
    }
    r := Reading(frames, left, false);
  }

  /** A frame that announces a negative length stops the stream. */
  lemma NegativeBreaks(n: nat, tail: string)
    requires 0 < n <= 0x8000_0000
    ensures |PadLeft(HEADER, "-" + Decimal(n))| == HEADER
    ensures var stream := PadLeft(HEADER, "-" + Decimal(n)) + tail; ReadAll(stream) == Reading([], stream, true)
  {
    var h := PadLeft(HEADER, "-" + Decimal(n));
    NegativeHeader(n);
    assert (h + tail)[..HEADER] == h;
  }

  lemma NegativeHeader(n: nat)
    requires 0 < n <= 0x8000_0000
    ensures |PadLeft(HEADER, "-" + Decimal(n))| == HEADER && Atoi(PadLeft(HEADER, "-" + Decimal(n))) == 0 - n
  {
    var s := "-" + Decimal(n);
    DecimalLength(n, 10);
    Pow10of10();
    BlanksSkip(HEADER - |s|, s);
    SignReads(Decimal(n));
    DecimalParses(n);
  }

  function Prefixed(frames: seq<string>, r: Reading): Reading {
    r.(frames := frames + r.frames)
  }

  lemma PrefixedTwice(frames: seq<string>, raw: string, r: Reading)
    ensures Prefixed(frames, Prefixed([raw], r)) == Prefixed(frames + [raw], r)
  {
    assert frames + ([raw] + r.frames) == frames + [raw] + r.frames;
  }

  /** Reading may stop at any cut of the stream and resume with what arrives next. */
  lemma {:induction false} ReadingResumes(a: string, b: string)
    requires !ReadAll(a).broken
    ensures ReadAll(a + b) == Prefixed(ReadAll(a).frames, ReadAll(ReadAll(a).rest + b))
    decreases |a|
  {
    var stream := a + b;
    if |a| >= HEADER {
      var n := Atoi(a[..HEADER]);
      assert stream[..HEADER] == a[..HEADER];
      if |a| - HEADER >= n {
        var tail := a[HEADER + n..];
        assert stream[HEADER + n..] == tail + b && stream[HEADER..HEADER + n] == a[HEADER..HEADER + n];
        ReadingResumes(tail, b);
        PrefixedFront(a[HEADER..HEADER + n], ReadAll(tail).frames, ReadAll(ReadAll(tail).rest + b));
      }
    }
  }

  lemma PrefixedFront(raw: string, frames: seq<string>, r: Reading)
    ensures Prefixed([raw] + frames, r) == Prefixed([raw], Prefixed(frames, r))
  {
    assert [raw] + frames + r.frames == [raw] + (frames + r.frames);
  }

  // ---------------------------------------------------------------- streams of packets

  datatype Message = Message(id: string, body: string)

  function Encode(ms: seq<Message>): string {
    if ms == [] then "" else Pack(ms[0].id, ms[0].body) + Encode(ms[1..])
  }

  /** What the receiver gets of one packet: the padded id and the body. */
  function Content(m: Message): string {
    PackedId(m.id) + m.body
  }

  function Contents(ms: seq<Message>): seq<string> {
    seq(|ms|, i requires 0 <= i < |ms| => Content(ms[i]))
  }

  ghost predicate AllPackable(ms: seq<Message>) {
    forall i :: 0 <= i < |ms| ==> Packable(ms[i].id, ms[i].body)
  }

  /** The loop recovers exactly the packets sent, whatever follows them. */
  lemma {:induction false} StreamDecodes(ms: seq<Message>, tail: string)
    requires AllPackable(ms)
    ensures ReadAll(Encode(ms) + tail) == Prefixed(Contents(ms), ReadAll(tail))
    decreases |ms|
  {
    if ms == [] {
      assert Encode(ms) + tail == tail;
    } else {
      var f, rest := Pack(ms[0].id, ms[0].body), Encode(ms[1..]) + tail;
      assert Encode(ms) + tail == f + rest;
      FrameRead(ms[0], rest);
      StreamDecodes(ms[1..], tail);
      ContentsSplit(ms);
      PrefixedFront(Content(ms[0]), Contents(ms[1..]), ReadAll(tail));
    }
  }

  lemma ContentsSplit(ms: seq<Message>)
    requires ms != []
    ensures Contents(ms) == [Content(ms[0])] + Contents(ms[1..])
  {
  }

  lemma FrameRead(m: Message, rest: string)
    requires Packable(m.id, m.body)
    ensures ReadAll(Pack(m.id, m.body) + rest) == Prefixed([Content(m)], ReadAll(rest))
  {
    var f := Pack(m.id, m.body);
    var stream := f + rest;
    PackLayout(m.id, m.body);
    assert stream[..HEADER] == f[..HEADER];
    assert stream[HEADER..|f|] == f[HEADER..];
    assert stream[|f|..] == rest;
  }

  /** Two different packet sequences never produce the same bytes, up to the padding of ids. */
  lemma UniquelyDecodable(a: seq<Message>, b: seq<Message>)
    requires AllPackable(a) && AllPackable(b) && Encode(a) == Encode(b)
    ensures |a| == |b|
    ensures forall i :: 0 <= i < |a| ==> a[i].body == b[i].body && PackedId(a[i].id) == PackedId(b[i].id)
  {
    WholeStream(a);
    WholeStream(b);
    SameContents(a, b);
  }

  lemma WholeStream(ms: seq<Message>)
    requires AllPackable(ms)
    ensures ReadAll(Encode(ms)) == Reading(Contents(ms), "", false)
  {
    StreamDecodes(ms, "");
    assert Encode(ms) + "" == Encode(ms);
    assert ReadAll("") == Reading([], "", false);
    assert Contents(ms) + [] == Contents(ms);
  }

  lemma SameContents(a: seq<Message>, b: seq<Message>)
    requires Contents(a) == Contents(b) && AllPackable(a) && AllPackable(b)
    ensures |a| == |b|
    ensures forall i :: 0 <= i < |a| ==> a[i].body == b[i].body && PackedId(a[i].id) == PackedId(b[i].id)
  {
    assert |Contents(a)| == |a| && |Contents(b)| == |b|;
    forall i | 0 <= i < |a|
      ensures a[i].body == b[i].body && PackedId(a[i].id) == PackedId(b[i].id)
    {
      assert Contents(a)[i] == Contents(b)[i];
      SplitsOnce(PackedId(a[i].id), a[i].body, PackedId(b[i].id), b[i].body);
    }
  }

  lemma SplitsOnce(p: string, x: string, q: string, y: string)
    requires p + x == q + y && |p| == |q|
    ensures p == q && x == y
  {
    assert (p + x)[..|p|] == p && (q + y)[..|q|] == q;
    assert (p + x)[|p|..] == x && (q + y)[|q|..] == y;
  }
}
