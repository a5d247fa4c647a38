/**
 The wire format shared by server and client:
   16 characters   decimal length of the rest, padded on the left with blanks
   32 characters   packet id, padded on the left with blanks
   the body
 Bytes are characters here.
 */
module Packet {
  import opened Seqs

  const HEADER := 16
  const ID := 32
  const MAX_BODY := 1024 * 1024 * 10

  // ---------------------------------------------------------------- decimal numbers

  function Digit(d: nat): char
    requires d < 10
  {
    ('0' as int + d) as char
  }

  predicate IsDigit(c: char) {
    '0' <= c <= '9'
  }

  function Value(c: char): (d: nat)
    requires IsDigit(c)
    ensures d < 10
  {
    c as int - '0' as int
  }

  /** %ld of a size. */
  function Decimal(n: nat): (s: string)
    ensures |s| > 0 && forall i :: 0 <= i < |s| ==> IsDigit(s[i])
  {
    if n < 10 then [Digit(n)] else Decimal(n / 10) + [Digit(n % 10)]
  }

  function Blanks(n: nat): string {
    seq(n, _ => ' ')
  }

  /** The width in %16ld and %32s: a minimum, never a limit. */
  function PadLeft(width: nat, s: string): (r: string)
    ensures |r| == if |s| >= width then |s| else width
  {
    if |s| >= width then s else Blanks(width - |s|) + s
  }

  /** The number spelled by the digits at the front of s, after acc. */
  function Digits(s: string, acc: nat): nat
    decreases |s|
  {
    if s == [] || !IsDigit(s[0]) then acc else Digits(s[1..], acc * 10 + Value(s[0]))
  }

  predicate IsSpace(c: char) {
    c == ' ' || '\t' <= c <= '\r'
  }

  /** strtol in base 10, without its clamping to 64 bits: at most 16 characters are ever parsed. */
  function Integer(s: string): int
    decreases |s|
  {
    if s == [] then 0
    else if IsSpace(s[0]) then Integer(s[1..])
    else if s[0] == '-' then var d: int := Digits(s[1..], 0); -d
    else if s[0] == '+' then Digits(s[1..], 0)
    else Digits(s, 0)
  }

  /** atoi: the conversion keeps the low 32 bits. */
  function Atoi(s: string): (r: int)
    ensures -0x8000_0000 <= r < 0x8000_0000
    ensures -0x8000_0000 <= Integer(s) < 0x8000_0000 ==> r == Integer(s)
  {
    (Integer(s) + 0x8000_0000) % 0x1_0000_0000 - 0x8000_0000
  }

  /** The number read and the int it becomes agree in their low 32 bits. */
  lemma AtoiWraps(s: string)
    ensures (Atoi(s) - Integer(s)) % 0x1_0000_0000 == 0
  {
    var n := Integer(s) + 0x8000_0000;
    assert n == (n / 0x1_0000_0000) * 0x1_0000_0000 + n % 0x1_0000_0000;
  }

  lemma {:induction false} DigitsConcat(a: string, b: string, acc: nat)
    requires forall i :: 0 <= i < |a| ==> IsDigit(a[i])
    ensures Digits(a + b, acc) == Digits(b, Digits(a, acc))
    decreases |a|
  {
    if a == [] {
      assert a + b == b;
    } else {
      assert (a + b)[0] == a[0] && (a + b)[1..] == a[1..] + b;
      DigitsConcat(a[1..], b, acc * 10 + Value(a[0]));
    }
  }

  /** Printing and parsing a number are inverse. */
  lemma {:induction false} DecimalParses(n: nat)
    ensures Digits(Decimal(n), 0) == n
  {
    if n < 10 {
      DigitsOne(Digit(n), 0);
    } else {
      DecimalParses(n / 10);
      DigitsConcat(Decimal(n / 10), [Digit(n % 10)], 0);
      DigitsOne(Digit(n % 10), n / 10);
    }
  }

  lemma DigitsOne(c: char, acc: nat)
    requires IsDigit(c)
    ensures Digits([c], acc) == acc * 10 + Value(c)
  {
    assert [c][1..] == [];
    assert Digits([c][1..], acc * 10 + Value(c)) == acc * 10 + Value(c);
  }

  function Pow10(k: nat): nat {
    if k == 0 then 1 else 10 * Pow10(k - 1)
  }

  /** A number has more than k digits exactly when it reaches 10^k. */
  lemma {:induction false} DecimalLength(n: nat, k: nat)
    requires k > 0
    ensures |Decimal(n)| <= k <==> n < Pow10(k)
  {
    assert Pow10(k) == 10 * Pow10(k - 1);
    if n < 10 {
      PowPositive(k - 1);
    } else if k == 1 {
      assert Pow10(0) == 1;
    } else {
      DecimalLength(n / 10, k - 1);
      assert n / 10 < Pow10(k - 1) <==> n < 10 * Pow10(k - 1);
    }
  }

  lemma {:induction false} PowPositive(k: nat)
    ensures Pow10(k) >= 1
  {
    if k > 0 { PowPositive(k - 1); }
  }

  lemma Pow10of16()
    ensures Pow10(16) == 10_000_000_000_000_000
  {
    assert Pow10(4) == 10000;
    assert Pow10(8) == 10000 * 10000;
    assert Pow10(12) == 10000 * 10000 * 10000;
  }

  lemma Pow10of10()
    ensures Pow10(10) == 10_000_000_000
  {
    assert Pow10(4) == 10000;
    assert Pow10(8) == 10000 * 10000;
  }

  lemma {:induction false} BlanksSkip(k: nat, s: string)
    ensures Integer(Blanks(k) + s) == Integer(s)
  {
    if k == 0 {
      assert Blanks(0) + s == s;
    } else {
      var t := Blanks(k) + s;
      assert t[0] == ' ' && t[1..] == Blanks(k - 1) + s;
      BlanksSkip(k - 1, s);
    }
  }

  /** Digits are read up to the first other character. */
  lemma DigitsStop(n: nat, tail: string)
    requires tail == "" || !('0' <= tail[0] <= '9')
    ensures Digits(Decimal(n) + tail, 0) == n
  {
    DecimalParses(n);
    DigitsConcat(Decimal(n), tail, 0);
  }

  lemma SpaceSkips(space: char, s: string)
    requires space in " \t\n\r" || space == 11 as char || space == 12 as char
    ensures Integer([space] + s) == Integer(s)
  {
    assert ([space] + s)[1..] == s;
  }

  lemma SignReads(s: string)
    ensures Integer("-" + s) == 0 - Digits(s, 0) && Integer("+" + s) == Digits(s, 0)
  {
    assert ("-" + s)[1..] == s && ("+" + s)[1..] == s;
  }

  lemma PlainReads(s: string)
    requires s != "" && IsDigit(s[0])
    ensures Integer(s) == Digits(s, 0)
  {
  }

  /** White space in front is skipped and one sign is taken. */
  lemma SignedReads(s: string, space: char)
    requires s != "" && '0' <= s[0] <= '9'
    requires space in " \t\n\r" || space == 11 as char || space == 12 as char
    ensures Integer([space] + ("-" + s)) == 0 - Digits(s, 0)
    ensures Integer([space] + ("+" + s)) == Digits(s, 0)
    ensures Integer([space] + s) == Digits(s, 0)
  {
    SpaceSkips(space, "-" + s);
    SpaceSkips(space, "+" + s);
    SpaceSkips(space, s);
    SignReads(s);
    PlainReads(s);
  }

  lemma NumberParses(n: nat)
    ensures Integer(Decimal(n)) == n
  {
    DecimalParses(n);
    assert IsDigit(Decimal(n)[0]);
  }

  /** The 16-character header: its width, and what the receiver reads from it. */
  lemma HeaderParses(n: nat)
    ensures Integer(PadLeft(HEADER, Decimal(n))) == n
    ensures |PadLeft(HEADER, Decimal(n))| == HEADER <==> n < 10_000_000_000_000_000
  {
    var d := Decimal(n);
    NumberParses(n);
    if |d| < HEADER { BlanksSkip(HEADER - |d|, d); }
    DecimalLength(n, HEADER);
    Pow10of16();
  }

  // ---------------------------------------------------------------- packets

  /** c_str(): what printf sees of a string. */
  function CStr(s: string): (r: string)
    ensures |r| <= |s| && '\0' !in r
    ensures '\0' !in s ==> r == s
    decreases |s|
  {
    if s == [] || s[0] == '\0' then [] else [s[0]] + CStr(s[1..])
  }

  /** It is the part before the first NUL. */
  lemma {:induction false} CStrStops(s: string)
    ensures CStr(s) == s[..|CStr(s)|] && (|CStr(s)| < |s| ==> s[|CStr(s)|] == '\0')
    decreases |s|
  {
    if s != [] && s[0] != '\0' { CStrStops(s[1..]); }
  }

  function PackedId(id: string): string {
    PadLeft(ID, CStr(id))
  }

  /** The bytes out_packet::pack produces. */
  function Pack(id: string, body: string): string {
    PadLeft(HEADER, Decimal(|body| + ID)) + PackedId(id) + body
  }

  /** Ids and sizes for which the frame says what follows it. */
  predicate Packable(id: string, body: string) {
    |CStr(id)| <= ID && |body| + ID < 0x8000_0000
  }

  /** p is s with blanks in front, 32 characters in all. */
  predicate BlankPadded(p: string, s: string) {
    && |p| == 32 && |s| <= 32
    && p[32 - |s|..] == s
    && forall i :: 0 <= i < 32 - |s| ==> p[i] == ' '
  }

  lemma IdBlankPadded(id: string)
    requires |CStr(id)| <= ID
    ensures BlankPadded(PackedId(id), CStr(id))
  {
  }

  lemma PackLayout(id: string, body: string)
    requires Packable(id, body)
    ensures var f := Pack(id, body);
            && |f| == HEADER + ID + |body|
            && Atoi(f[..HEADER]) == ID + |body|
            && f[HEADER..] == PackedId(id) + body
            && f[HEADER..][..ID] == PackedId(id) && f[HEADER..][ID..] == body
  {
    var h := PadLeft(HEADER, Decimal(|body| + ID));
    HeaderParses(|body| + ID);
    var f := Pack(id, body);
    assert f == h + (PackedId(id) + body);
    assert f[..HEADER] == h && f[HEADER..] == PackedId(id) + body;
  }

  /** The header announces exactly the bytes that follow, and the receiver reads that number,
      exactly for the ids that fit their field and the sizes that fit an int. */
  lemma FrameHonestIff(id: string, body: string)
    ensures |Pack(id, body)| >= HEADER
    ensures Atoi(Pack(id, body)[..HEADER]) == |Pack(id, body)| - HEADER <==> Packable(id, body)
  {
    var n := |body| + ID;
    var h := PadLeft(HEADER, Decimal(n));
    HeaderParses(n);
    var f := Pack(id, body);
    assert f == h + (PackedId(id) + body);
    if n < 0x8000_0000 { assert f[..HEADER] == h; } else { assert |f| - HEADER >= n; }
  }

  class OutPacket {
    var packetId: string
    var body: string
    var data: string

    constructor (id: string, body: string)
      ensures packetId == id && this.body == body && data == ""
    {
      packetId, this.body, data := id, body, "";
    }

    /** out_packet::pack also replaces the id by its padded form; packing again changes nothing. */
    method PackData() returns (r: string)
      modifies this
      ensures r == data == Pack(old(packetId), body) && packetId == PackedId(old(packetId)) && body == old(body)
      ensures Pack(packetId, body) == data
    {
      PackIdempotent(packetId, body);
      var total := |body| + ID;
      var tmp := PadLeft(HEADER, Decimal(total));
      packetId := PadLeft(ID, CStr(packetId));
      data := tmp;
      data := data + packetId;
      data := data + body;
      r := data;
    }
  }

  /** Packing again, with the id the first pack stored, gives the same bytes. */
  lemma PackIdempotent(id: string, body: string)
    ensures Pack(PackedId(id), body) == Pack(id, body)
  {
    PackedTwice(id);
  }

  lemma PackedTwice(id: string)
    ensures PackedId(PackedId(id)) == PackedId(id)
  {
    var p := PackedId(id);
    assert '\0' !in p;
  }

  /** in_packet: header buffer, decoded length, id and raw bytes. */
  class InPacket {
    var header: string
    var bodyLength: int
    var packetId: string
    var raw: string

    constructor ()
      ensures header == "" && bodyLength == 0 && packetId == "" && raw == ""
    {
      header, bodyLength, packetId, raw := "", 0, "", "";
    }

    /** unpack(raw, false). The original copies without looking at the size it is given: inBounds is false
        exactly when it would read past the bytes it has, and then nothing is promised. */
    method Unpack(frame: string) returns (inBounds: bool)
      modifies this
      ensures inBounds <==> |frame| >= HEADER + ID && 0 <= Atoi(frame[..HEADER]) <= |frame| - HEADER
      ensures inBounds ==> header == frame[..HEADER] && bodyLength == Atoi(header)
      ensures inBounds ==> packetId == frame[HEADER..][..ID] && raw == frame[HEADER..][..bodyLength]
    {
      if |frame| < HEADER { return false; }
      header := frame[..HEADER];
      bodyLength := Atoi(header);
      var rest := frame[HEADER..];
      if |rest| < ID || bodyLength < 0 || bodyLength > |rest| { return false; }
      packetId := rest[..ID];
      raw := rest[..bodyLength];
      inBounds := true;
    }

    /** body(): None when the announced bytes do not even hold an id, where the original points past its buffer. */
    method Body() returns (b: Option<string>)
      ensures b == if |raw| >= ID then Some(raw[ID..]) else None
    {
      b := if |raw| >= ID then Some(raw[ID..]) else None;
    }
  }

  /** Unpacking a packed packet gives back the body and the padded id. */
  method RoundTrip(id: string, body: string) returns (id': string, body': string)
    requires Packable(id, body)
    ensures body' == body && id' == PackedId(id) && (|CStr(id)| == ID ==> id' == CStr(id))
  {
    var out := new OutPacket(id, body);
    var frame := out.PackData();
    var packet := new InPacket();
    PackLayout(id, body);
    var inBounds := packet.Unpack(frame);
    var b := packet.Body();
    id', body' := packet.packetId, b.value;
  }

  // ---------------------------------------------------------------- server replies

  const TOO_LONG := "{ \"response\" : 504 }"

  /** get_response_string: a reply that would be too long is replaced. */
  function Response(json: string): string {
    if |json| < MAX_BODY then json else TOO_LONG
  }

  /** Whatever the server answers, the client can delimit and split the reply: 16 characters of length, 32 of id,
      then the content itself if it has fewer than 10485760 characters, else the code 504. */
  lemma EveryReplyDecodable(id: string, json: string)
    requires |CStr(id)| <= ID
    ensures var f := Pack(id, Response(json));
            && |f| >= 48 && Atoi(f[..16]) == |f| - 16
            && f[16..48] == PackedId(id)
            && f[48..] == (if |json| < 10_485_760 then json else "{ \"response\" : 504 }")
  {
    PackLayout(id, Response(json));
    var f := Pack(id, Response(json));
    assert f[16..48] == f[16..][..32] && f[48..] == f[16..][32..];
  }
}
