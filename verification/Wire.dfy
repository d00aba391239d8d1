/** SSH wire encoding as far as the packet hooks use it (sections 5 of RFC 4251, 4, 5.1,
    5.4 and 6.4 of RFC 4254): big-endian words, length-prefixed strings, booleans. */
module Wire {
  import opened Seqs

  newtype byte = x: int | 0 <= x < 256
  type Bytes = seq<byte>

  const WORD: int := 0x1_0000_0000

  const MSG_GLOBAL_REQUEST: byte := 80
  const MSG_REQUEST_SUCCESS: byte := 81
  const MSG_REQUEST_FAILURE: byte := 82
  const MSG_CHANNEL_OPEN: byte := 90
  const MSG_CHANNEL_OPEN_CONFIRM: byte := 91
  const MSG_CHANNEL_OPEN_FAILED: byte := 92
  const MSG_CHANNEL_DATA: byte := 94
  const MSG_CHANNEL_REQUEST: byte := 98

  function Ascii(s: string): Bytes {
    seq(|s|, i requires 0 <= i < |s| => (s[i] as int % 256) as byte)
  }

  function Low(n: int): byte {
    (n % 256) as byte
  }

  function U32(n: nat): (b: Bytes)
    ensures |b| == 4
  {
    [Low(n / 0x1000000), Low(n / 0x10000), Low(n / 0x100), Low(n)]
  }

  function ReadU32(b: Bytes): (n: nat)
    requires |b| >= 4
    ensures n < WORD
  {
    b[0] as int * 0x1000000 + b[1] as int * 0x10000 + b[2] as int * 0x100 + b[3] as int
  }

  lemma FourDigits(n: nat)
    requires n < WORD
    ensures (n / 0x1000000) % 256 * 0x1000000 + (n / 0x10000) % 256 * 0x10000 + (n / 0x100) % 256 * 0x100 + n % 256 == n
  {
    var q1, q2, q3 := n / 0x100, n / 0x10000, n / 0x1000000;
    assert n == 0x100 * q1 + n % 256;
    assert q1 == 0x100 * q2 + q1 % 256;
    assert q2 == 0x100 * q3 + q2 % 256;
    assert q3 < 256;
  }

  lemma ReadU32Encoded(n: nat, rest: Bytes)
    requires n < WORD
    ensures ReadU32(U32(n) + rest) == n
  {
    var b := U32(n) + rest;
    FourDigits(n);
    assert b[0] == Low(n / 0x1000000) && b[1] == Low(n / 0x10000) && b[2] == Low(n / 0x100) && b[3] == Low(n);
  }

  function String(s: Bytes): Bytes {
    U32(|s|) + s
  }

  /** A length-prefixed string and what follows it. */
  function TakeString(b: Bytes): Option<(Bytes, Bytes)> {
    if |b| < 4 then None
    else
      var n := ReadU32(b);
      if n > |b| - 4 then None else Some((b[4..4 + n], b[4 + n..]))
  }

  function TakeBool(b: Bytes): Option<(bool, Bytes)> {
    if b == [] then None else Some((b[0] != 0, b[1..]))
  }

  lemma TakeStringEncoded(s: Bytes, rest: Bytes)
    requires |s| < WORD
    ensures TakeString(String(s) + rest) == Some((s, rest))
  {
    var b := String(s) + rest;
    assert b == U32(|s|) + (s + rest);
    ReadU32Encoded(|s|, s + rest);
    assert b[4..4 + |s|] == s && b[4 + |s|..] == rest;
  }

  // ----- messages ----------------------------------------------------------

  datatype GlobalRequest = GlobalRequest(kind: Bytes, wantReply: bool, data: Bytes)

  function ParseGlobalRequest(p: Bytes): Option<GlobalRequest> {
    if p == [] || p[0] != MSG_GLOBAL_REQUEST then None
    else
      var kind := TakeString(p[1..]);
      if kind.None? then None
      else
        var want := TakeBool(kind.value.1);
        if want.None? then None else Some(GlobalRequest(kind.value.0, want.value.0, want.value.1))
  }

  datatype ChannelOpen = ChannelOpen(kind: Bytes, sender: nat)

  function ParseChannelOpen(p: Bytes): Option<ChannelOpen> {
    if p == [] || p[0] != MSG_CHANNEL_OPEN then None
    else
      var kind := TakeString(p[1..]);
      if kind.None? || |kind.value.1| < 12 then None else Some(ChannelOpen(kind.value.0, ReadU32(kind.value.1)))
  }

  /** The fixed start of a channel request: recipient channel, request type, want-reply
      flag and the request-specific rest. */
  datatype ChannelRequest = ChannelRequest(channel: nat, kind: Bytes, wantReply: bool, rest: Bytes)

  function ParseChannelRequest(p: Bytes): Option<ChannelRequest> {
    if |p| < 5 || p[0] != MSG_CHANNEL_REQUEST then None
    else
      var kind := TakeString(p[5..]);
      if kind.None? then None
      else
        var want := TakeBool(kind.value.1);
        if want.None? then None
        else Some(ChannelRequest(ReadU32(p[1..]), kind.value.0, want.value.0, want.value.1))
  }
}
