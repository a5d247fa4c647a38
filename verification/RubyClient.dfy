/** The Ruby peer: its packets, and the chunk-assembling receive loop. */
module RubyClient {
  import opened Seqs
  import opened Packet

  /** Zbroker::Packet: the header is computed once and the id is not padded. */
  class RubyPacket {
    var header: Option<string>
    var packetId: string
    var body: string

    constructor (body: string)
      ensures header == None && this.body == body && packetId == seq(ID, _ => 'x')
    {
      header, this.body := None, body;
      packetId := seq(ID, _ => 'x');
    }

    /** packet_id=: longer ids are refused, shorter ones are kept as they are. */
    method SetPacketId(value: string) returns (ok: bool)
      modifies this`packetId
      ensures ok <==> |value| <= ID
      ensures packetId == if ok then value else old(packetId)
    {
      ok := |value| <= ID;
      if ok { packetId := value; }
    }

    method Data() returns (r: string)
      modifies this`header
      ensures header == Some(if old(header).Some? then old(header).value else PadLeft(HEADER, Decimal(|body| + ID)))
      ensures old(header).None? ==> r == RubyData(packetId, body)
    {
      if header.None? {
        header := Some(PadLeft(HEADER, Decimal(|body| + ID)));
      }
      r := header.value + packetId + body;
    }

    /** decode_header: splits received bytes; a reply shorter than an id has no body. */
    method DecodeHeader() returns (hasBody: bool)
      modifies this`packetId, this`body
      ensures packetId == old(body)[..Min(ID, |old(body)|)]
      ensures hasBody <==> |old(body)| >= ID
      ensures hasBody ==> body == old(body)[ID..]
    {
      packetId := body[..Min(ID, |body|)];
      hasBody := |body| >= ID;
      if hasBody { body := body[ID..]; }
    }
  }

  function RubyData(id: string, body: string): string {
    PadLeft(HEADER, Decimal(|body| + ID)) + id + body
  }

  /** A request announces what follows it, and is the frame the server would have packed, exactly when its id has
      full length and its size fits an int. */
  lemma RequestHonestIff(id: string, body: string)
    requires |id| <= ID
    ensures |RubyData(id, body)| >= HEADER
    ensures Atoi(RubyData(id, body)[..HEADER]) == |RubyData(id, body)| - HEADER
            <==> |id| == ID && |body| + ID < 0x8000_0000
    ensures |id| == ID && '\0' !in id ==> RubyData(id, body) == Pack(id, body)
  {
    var n := |body| + ID;
    var h := PadLeft(HEADER, Decimal(n));
    HeaderParses(n);
    assert RubyData(id, body) == h + (id + body);
    if n < 10_000_000_000_000_000 { assert RubyData(id, body)[..HEADER] == h; }
  }

  // ---------------------------------------------------------------- recv_packet

  /** The bytes of the first recv(16): the whole header only if it arrived at once. */
  function FirstChunk(stream: string, chunk: nat -> nat): nat {
    Min(Min(HEADER, chunk(0)), |stream|)
  }

  /** What recv_packet assembles when its first recv returned k bytes. */
  function Assembled(stream: string, k: nat): string
    requires k <= |stream|
  {
    var size := Integer(stream[..k]);
    stream[k..k + Min(if size > 0 then size else 0, |stream| - k)]
  }

  /** recv_packet: the i-th recv returns at most chunk(i) bytes, none only at the end of the stream.
      The result does not depend on how the bytes after the first chunk are divided. */
  method RecvPacket(stream: string, chunk: nat -> nat) returns (r: Option<string>, used: nat)
    requires forall i :: chunk(i) > 0
    ensures r.None? <==> stream == ""
    ensures r.Some? ==> r.value == Assembled(stream, FirstChunk(stream, chunk))
    ensures r.Some? ==> used == FirstChunk(stream, chunk) + |r.value|
  {
    var k := Min(Min(HEADER, chunk(0)), |stream|);
    if k == 0 {
      return None, 0;
    }
    var total := Integer(stream[..k]);
    var size := total;
    var str := "";
    var pos, i := k, 1;
    while size > 0
      invariant k <= pos <= |stream| && str == stream[k..pos]
      invariant size == total - (pos - k)
      invariant pos == k || size >= 0
      decreases size
    {
      var got := Min(Min(size, chunk(i)), |stream| - pos);
      i := i + 1;
      if got == 0 {
        break;
      }
      var tmp := stream[pos..pos + got];
      str := str + tmp;
      pos := pos + got;
      size := size - got;
    }
    return Some(str), pos;
  }

  /** recv_packet and decode_header on a frame of the server with anything after it: id and body come back if and only
      if the first recv can return the 16 bytes of the header; then exactly the frame is consumed. */
  method RecvReply(id: string, body: string, tail: string, chunk: nat -> nat)
    returns (id': string, body': Option<string>, used: nat)
    requires Packable(id, body) && forall i :: chunk(i) > 0
    ensures id' == PackedId(id) && body' == Some(body) <==> chunk(0) >= 16
    ensures chunk(0) >= 16 ==> used == 48 + |body|
  {
    var stream := Pack(id, body) + tail;
    PackLayout(id, body);
    ReplyReceivedIff(id, body, tail, Min(HEADER, chunk(0)));
    var r;
    r, used := RecvPacket(stream, chunk);
    var packet := new RubyPacket(r.value);
    var hasBody := packet.DecodeHeader();
    id' := packet.packetId;
    body' := if hasBody then Some(packet.body) else None;
    if hasBody { assert r.value == id' + packet.body; }
  }

  /** A proper prefix of a printed number reads as a smaller number. */
  lemma PrefixSmaller(n: nat, j: nat)
    requires n > 0 && j < |Decimal(n)|
    ensures Digits(Decimal(n)[..j], 0) < n
  {
    var d := Decimal(n);
    DecimalParses(n);
    assert d == d[..j] + d[j..];
    DigitsConcat(d[..j], d[j..], 0);
    DigitsGrow(d[j..], Digits(d[..j], 0));
  }

  lemma {:induction false} DigitsGrow(s: string, acc: nat)
    requires forall i :: 0 <= i < |s| ==> IsDigit(s[i])
    ensures Digits(s, acc) >= acc
    ensures s != "" ==> Digits(s, acc) >= 10 * acc
    decreases |s|
  {
    if s != "" { DigitsGrow(s[1..], acc * 10 + Value(s[0])); }
  }

  lemma ShortHeaderReadsLess(n: nat, k: nat)
    requires 0 < n < 10_000_000_000_000_000 && k < HEADER
    ensures Integer(PadLeft(HEADER, Decimal(n))[..k]) < n
  {
    var d := Decimal(n);
    HeaderParses(n);
    var blanks := HEADER - |d|;
    var h := PadLeft(HEADER, d);
    assert h == Blanks(blanks) + d;
    if k <= blanks {
      assert h[..k] == Blanks(k) + "";
      BlanksSkip(k, "");
    } else {
      assert h[..k] == Blanks(blanks) + d[..k - blanks];
      BlanksSkip(blanks, d[..k - blanks]);
      PrefixSmaller(n, k - blanks);
      assert IsDigit(d[..k - blanks][0]);
    }
  }

  /** For a frame the server sent, the loop assembles exactly the announced bytes, however they are
      chunked, if and only if the header came in one piece; then they split into the id and the body. */
  lemma ReplyReceivedIff(id: string, body: string, tail: string, k: nat)
    requires Packable(id, body) && k <= HEADER
    ensures k <= |Pack(id, body) + tail|
    ensures Assembled(Pack(id, body) + tail, k) == PackedId(id) + body <==> k == HEADER
    ensures (PackedId(id) + body)[..ID] == PackedId(id) && (PackedId(id) + body)[ID..] == body
  {
    var n := |body| + ID;
    var f := Pack(id, body);
    var stream := f + tail;
    var h := PadLeft(HEADER, Decimal(n));
    PackLayout(id, body);
    HeaderParses(n);
    assert f == h + (PackedId(id) + body);
    assert stream[..k] == h[..k];
    if k == HEADER {
      assert h[..k] == h;
      assert stream[HEADER..HEADER + n] == f[HEADER..];
    } else {
      ShortHeaderReadsLess(n, k);
      assert |Assembled(stream, k)| < n;
    }
  }
}
