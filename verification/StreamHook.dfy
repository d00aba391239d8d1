/** The inspector that turns the packets of one session into frames: what it reads from
    each packet, and what the frames then say about the session (sections 5.1, 5.2, 6.2,
    6.4, 6.5 and 6.7 of RFC 4254). */
module StreamHook {
  import opened Seqs
  import opened Wire
  import opened Broadcast

  /** `clientOf` maps server-side channel ids to client-side ones; `started` holds the
      client-side ids with a shell or exec; the rest waits for the next shell or exec. */
  datatype Hook = Hook(
    clientOf: map<nat, nat>,
    started: set<nat>,
    env: map<Bytes, Bytes>,
    term: Bytes,
    width: nat,
    height: nat)

  const FRESH := Hook(map[], {}, map[], [], 0, 0)

  // ----- the reader --------------------------------------------------------

  /** A length-prefixed string, empty when cut short, and what the reader has left. */
  function ReadString(b: Bytes): (Bytes, Bytes) {
    if |b| < 4 then ([], [])
    else
      var n := ReadU32(b);
      if n > |b| - 4 then ([], b[4..]) else (b[4..4 + n], b[4 + n..])
  }

  /** A word, zero when cut short. */
  function ReadWord(b: Bytes): (nat, Bytes) {
    if |b| < 4 then (0, []) else (ReadU32(b), b[4..])
  }

  function SkipByte(b: Bytes): Bytes {
    if b == [] then [] else b[1..]
  }

  // ----- one packet --------------------------------------------------------

  /** The output frame a packet from upstream gives rise to while somebody watches. */
  function UpFrame(h: Hook, msg: Bytes): Option<Frame> {
    if |msg| >= 9 && msg[0] == MSG_CHANNEL_DATA && ReadU32(msg[1..5]) in h.started
    then Some(Output(ReadU32(msg[1..5]), msg[9..])) else None
  }

  function UpHook(h: Hook, msg: Bytes): Hook {
    if |msg| >= 9 && msg[0] == MSG_CHANNEL_OPEN_CONFIRM
    then h.(clientOf := h.clientOf[ReadU32(msg[5..9]) := ReadU32(msg[1..5])]) else h
  }

  /** Geometry, terminal and environment for the next header. */
  function HeaderEnv(h: Hook): map<Bytes, Bytes> {
    if h.term == [] then h.env else h.env[Ascii("TERM") := h.term]
  }

  function Start(h: Hook, server: nat): (Hook, Option<Frame>) {
    if server !in h.clientOf then (h, None)
    else
      var client := h.clientOf[server];
      (Hook(h.clientOf, h.started + {client}, map[], [], 0, 0),
       Some(Header(client, h.width, h.height, HeaderEnv(h))))
  }

  function Resized(h: Hook, server: nat, width: nat, height: nat): (Hook, Option<Frame>) {
    (h, if server in h.clientOf then Some(Resize(h.clientOf[server], width, height)) else None)
  }

  /** The effect of a channel request of the given type; `body` starts at its
      want-reply flag. */
  function OnRequest(h: Hook, server: nat, kind: Bytes, body: Bytes): (Hook, Option<Frame>) {
    var rest := SkipByte(body);
    if kind == Ascii("pty-req") then
      var term := ReadString(rest);
      var w := ReadWord(term.1);
      var hgt := ReadWord(w.1);
      (h.(term := term.0, width := w.0, height := hgt.0), None)
    else if kind == Ascii("env") then
      var name := ReadString(rest);
      var value := ReadString(name.1);
      (h.(env := h.env[name.0 := value.0]), None)
    else if kind == Ascii("window-change") then
      var w := ReadWord(rest);
      var hgt := ReadWord(w.1);
      Resized(h, server, w.0, hgt.0)
    else if kind == Ascii("shell") || kind == Ascii("exec") then Start(h, server)
    else (h, None)
  }

  /** The hook after a packet from downstream and the frame it gives rise to. */
  function Down(h: Hook, msg: Bytes): (Hook, Option<Frame>) {
    if |msg| < 5 || msg[0] != MSG_CHANNEL_REQUEST then (h, None)
    else
      var kind := ReadString(msg[5..]);
      OnRequest(h, ReadU32(msg[1..5]), kind.0, kind.1)
  }

  // ----- what the packets say ----------------------------------------------

  /** The channel requests that matter here; `tail` is what follows the fields read. */
  datatype Request =
    | PtyReq(term: Bytes, width: nat, height: nat, tail: Bytes)
    | Env(name: Bytes, value: Bytes)
    | WindowChange(width: nat, height: nat, tail: Bytes)
    | Shell
    | Exec(payload: Bytes)

  predicate Representable(r: Request) {
    match r
    case PtyReq(term, width, height, _) => |term| < WORD && width < WORD && height < WORD
    case Env(name, value) => |name| < WORD && |value| < WORD
    case WindowChange(width, height, _) => width < WORD && height < WORD
    case Shell => true
    case Exec(_) => true
  }

  function KindOf(r: Request): Bytes {
    match r
    case PtyReq(_, _, _, _) => Ascii("pty-req")
    case Env(_, _) => Ascii("env")
    case WindowChange(_, _, _) => Ascii("window-change")
    case Shell => Ascii("shell")
    case Exec(_) => Ascii("exec")
  }

  function Body(r: Request): Bytes {
    match r
    case PtyReq(term, width, height, tail) => String(term) + (U32(width) + (U32(height) + tail))
    case Env(name, value) => String(name) + String(value)
    case WindowChange(width, height, tail) => U32(width) + (U32(height) + tail)
    case Shell => []
    case Exec(payload) => payload
  }

  function Encode(server: nat, want: byte, r: Request): Bytes {
    [MSG_CHANNEL_REQUEST] + (U32(server) + (String(KindOf(r)) + ([want] + Body(r))))
  }

  /** The hook's reaction to a request, free of bytes. */
  function React(h: Hook, server: nat, r: Request): (Hook, Option<Frame>) {
    match r
    case PtyReq(term, width, height, _) => (h.(term := term, width := width, height := height), None)
    case Env(name, value) => (h.(env := h.env[name := value]), None)
    case WindowChange(width, height, _) => Resized(h, server, width, height)
    case Shell => Start(h, server)
    case Exec(_) => Start(h, server)
  }

  /** The request that the parser sees in the bytes behind the request type, however
      malformed they are. */
  function ReadBody(kind: Bytes, body: Bytes): Option<Request> {
    var rest := SkipByte(body);
    if kind == Ascii("pty-req") then
      var term := ReadString(rest);
      var w := ReadWord(term.1);
      var hgt := ReadWord(w.1);
      Some(PtyReq(term.0, w.0, hgt.0, hgt.1))
    else if kind == Ascii("env") then
      var name := ReadString(rest);
      Some(Env(name.0, ReadString(name.1).0))
    else if kind == Ascii("window-change") then
      var w := ReadWord(rest);
      var hgt := ReadWord(w.1);
      Some(WindowChange(w.0, hgt.0, hgt.1))
    else if kind == Ascii("shell") then Some(Shell)
    else if kind == Ascii("exec") then Some(Exec(rest))
    else None
  }

  lemma ReadStringEncoded(s: Bytes, rest: Bytes)
    requires |s| < WORD
    ensures ReadString(String(s) + rest) == (s, rest)
  {
    TakeStringEncoded(s, rest);
  }

  lemma ReadWordEncoded(n: nat, rest: Bytes)
    requires n < WORD
    ensures ReadWord(U32(n) + rest) == (n, rest)
  {
    ReadU32Encoded(n, rest);
    assert (U32(n) + rest)[4..] == rest;
  }

  lemma WordAt(p: Bytes, i: nat, n: nat, rest: Bytes)
    requires n < WORD && i <= |p| && p[i..] == U32(n) + rest
    ensures i + 4 <= |p| && ReadU32(p[i..i + 4]) == n
  {
    ReadU32Encoded(n, rest);
    assert |p[i..]| >= 4;
    assert forall k :: 0 <= k < 4 ==> p[i..i + 4][k] == p[i..][k];
  }

  /** The start of every encoded request is read back. */
  lemma HeadReadsBack(server: nat, want: byte, r: Request)
    requires server < WORD
    ensures var msg := Encode(server, want, r);
            && |msg| >= 5 && msg[0] == MSG_CHANNEL_REQUEST
            && ReadU32(msg[1..5]) == server
            && ReadString(msg[5..]) == (KindOf(r), [want] + Body(r))
  {
    var msg := Encode(server, want, r);
    var rest := String(KindOf(r)) + ([want] + Body(r));
    assert msg[1..] == U32(server) + rest;
    WordAt(msg, 1, server, rest);
    assert msg[5..] == msg[1..][4..] == rest;
    ReadStringEncoded(KindOf(r), [want] + Body(r));
  }

  lemma BodyReadsBack(r: Request)
    requires Representable(r)
    ensures match r
            case PtyReq(term, width, height, tail) =>
              && ReadString(Body(r)) == (term, U32(width) + (U32(height) + tail))
              && ReadWord(U32(width) + (U32(height) + tail)) == (width, U32(height) + tail)
              && ReadWord(U32(height) + tail) == (height, tail)
            case Env(name, value) => ReadString(Body(r)) == (name, String(value)) && ReadString(String(value)) == (value, [])
            case WindowChange(width, height, tail) =>
              ReadWord(Body(r)) == (width, U32(height) + tail) && ReadWord(U32(height) + tail) == (height, tail)
            case _ => true
  {
    match r
    case PtyReq(term, width, height, tail) =>
      ReadStringEncoded(term, U32(width) + (U32(height) + tail));
      ReadWordEncoded(width, U32(height) + tail);
      ReadWordEncoded(height, tail);
    case Env(name, value) =>
      ReadStringEncoded(name, String(value));
      assert String(value) + [] == String(value);
      ReadStringEncoded(value, []);
    case WindowChange(width, height, tail) =>
      ReadWordEncoded(width, U32(height) + tail);
      ReadWordEncoded(height, tail);
    case _ =>
  }

  /** The request types differ in length already. */
  lemma KindLength(r: Request)
    ensures |KindOf(r)| == match r
                           case PtyReq(_, _, _, _) => 7
                           case Env(_, _) => 3
                           case WindowChange(_, _, _) => 13
                           case Shell => 5
                           case Exec(_) => 4
  {
  }

  lemma RequestReadsBack(want: byte, r: Request)
    requires Representable(r)
    ensures ReadBody(KindOf(r), [want] + Body(r)) == Some(r)
  {
    BodyReadsBack(r);
    KindLength(r);
    assert SkipByte([want] + Body(r)) == Body(r);
  }

  /** The parser's branches do what the request they see says. */
  lemma RequestReacts(h: Hook, server: nat, kind: Bytes, body: Bytes)
    ensures var r := ReadBody(kind, body);
            OnRequest(h, server, kind, body) == if r.None? then (h, None) else React(h, server, r.value)
  {
  }

  /** The packet parser does to every encoded request what the request says. */
  lemma DownReadsRequest(h: Hook, server: nat, want: byte, r: Request)
    requires server < WORD && Representable(r)
    ensures Down(h, Encode(server, want, r)) == React(h, server, r)
  {
    HeadReadsBack(server, want, r);
    RequestReadsBack(want, r);
    RequestReacts(h, server, KindOf(r), [want] + Body(r));
  }

  function DataPacket(client: nat, data: Bytes): Bytes {
    [MSG_CHANNEL_DATA] + (U32(client) + String(data))
  }

  function ConfirmPacket(client: nat, server: nat, tail: Bytes): Bytes {
    [MSG_CHANNEL_OPEN_CONFIRM] + (U32(client) + (U32(server) + tail))
  }

  /** Channel data becomes an output frame with exactly the payload, on started channels
      only; a confirmation records the pair of ids. */
  lemma UpReadsPackets(h: Hook, client: nat, server: nat, bytes: Bytes)
    requires client < WORD && server < WORD
    ensures UpFrame(h, DataPacket(client, bytes)) == if client in h.started then Some(Output(client, bytes)) else None
    ensures UpHook(h, DataPacket(client, bytes)) == h
    ensures UpFrame(h, ConfirmPacket(client, server, bytes)) == None
    ensures UpHook(h, ConfirmPacket(client, server, bytes)) == h.(clientOf := h.clientOf[server := client])
  {
    var d := DataPacket(client, bytes);
    assert d[1..] == U32(client) + String(bytes);
    WordAt(d, 1, client, String(bytes));
    assert d[9..] == bytes;
    var c := ConfirmPacket(client, server, bytes);
    assert c[1..] == U32(client) + (U32(server) + bytes);
    WordAt(c, 1, client, U32(server) + bytes);
    assert c[5..] == U32(server) + bytes;
    WordAt(c, 5, server, bytes);
  }
}
