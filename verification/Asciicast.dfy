/** From frames to an asciicast v2 recording: the server's frame messages and the
    client's handler, which locks onto one channel. Timestamps are left out. */
module Asciicast {
  import opened Seqs
  import opened Wire
  import opened HostPort
  import opened Broadcast
  import opened BroadcastLaws
  import opened Streaming

  /** The messages of the admin stream. */
  datatype Message =
    | HeaderMsg(width: int, height: int, env: map<Bytes, Bytes>, channel: nat)
    | EventMsg(kind: string, data: Bytes, channel: nat)

  /** The lines of a recording. */
  datatype Line =
    | HeaderLine(width: int, height: int, env: map<Bytes, Bytes>)
    | EventLine(kind: string, data: Bytes)

  /** The conversion of a 32-bit size to a signed one. */
  function Signed(n: nat): int {
    var m := n % WORD;
    if m < WORD / 2 then m else m - WORD
  }

  function Itoa(n: int): string {
    if n < 0 then "-" + Decimal(-n) else Decimal(n)
  }

  function Size(width: int, height: int): Bytes {
    Ascii(Itoa(width) + "x" + Itoa(height))
  }

  function ToMessage(f: Frame): Message {
    match f
    case Header(channel, width, height, env) => HeaderMsg(Signed(width), Signed(height), env, channel)
    case Output(channel, data) => EventMsg("o", data, channel)
    case Input(channel, data) => EventMsg("i", data, channel)
    case Resize(channel, width, height) => EventMsg("r", Size(width, height), channel)
  }

  function ToMessages(fs: seq<Frame>): (r: seq<Message>)
    ensures |r| == |fs|
  {
    seq(|fs|, i requires 0 <= i < |fs| => ToMessage(fs[i]))
  }

  // ----- the handler -------------------------------------------------------

  /** The handler's variables and the lines written so far. */
  datatype Handler = Handler(locked: nat, haveChannel: bool, headerEmitted: bool, written: seq<Line>)

  const IDLE := Handler(0, false, false, [])

  function Handle(h: Handler, m: Message): Handler {
    match m
    case HeaderMsg(width, height, env, channel) =>
      var h1 := if h.haveChannel then h else h.(locked := channel, haveChannel := true);
      if channel != h1.locked then h1
      else if !h1.headerEmitted then h1.(headerEmitted := true, written := h1.written + [HeaderLine(width, height, env)])
      else h1.(written := h1.written + [EventLine("r", Size(width, height))])
    case EventMsg(kind, data, channel) =>
      if h.haveChannel && channel != h.locked then h
      else if !h.headerEmitted then h
      else h.(written := h.written + [EventLine(kind, data)])
  }

  function HandleAll(h: Handler, ms: seq<Message>): Handler
    decreases |ms|
  {
    if ms == [] then h else HandleAll(Handle(h, ms[0]), ms[1..])
  }

  /** The closure returned for the asciicast format, with its captured variables. */
  class AsciicastHandler {
    var lockedChannel: nat
    var haveChannel: bool
    var headerEmitted: bool
    var written: seq<Line>

    ghost function Value(): Handler
      reads this
    {
      Handler(lockedChannel, haveChannel, headerEmitted, written)
    }

    constructor ()
      ensures Value() == IDLE
    {
      lockedChannel, haveChannel, headerEmitted, written := 0, false, false, [];
    }

    method OnFrame(m: Message)
      modifies this
      ensures Value() == Handle(old(Value()), m)
    {
      if m.HeaderMsg? {
        if !haveChannel {
          lockedChannel, haveChannel := m.channel, true;
        }
        if m.channel != lockedChannel {
          return;
        }
        if !headerEmitted {
          headerEmitted := true;
          written := written + [HeaderLine(m.width, m.height, m.env)];
          return;
        }
        written := written + [EventLine("r", Size(m.width, m.height))];
        return;
      }
      if haveChannel && m.channel != lockedChannel {
        return;
      }
      if !headerEmitted {
        return;
      }
      written := written + [EventLine(m.kind, m.data)];
    }
  }

  // ----- what a recording is -----------------------------------------------

  function FirstHeader(ms: seq<Message>): (k: nat)
    ensures k <= |ms|
    ensures forall i :: 0 <= i < k ==> ms[i].EventMsg?
    ensures k < |ms| ==> ms[k].HeaderMsg?
  {
    if ms == [] || ms[0].HeaderMsg? then 0 else 1 + FirstHeader(ms[1..])
  }

  /** An event line for a message of the locked channel after the first header. */
  function EventOf(m: Message): Line {
    match m
    case HeaderMsg(width, height, _, _) => EventLine("r", Size(width, height))
    case EventMsg(kind, data, _) => EventLine(kind, data)
  }

  /** The messages of one channel as event lines, in order. */
  function EventsOf(ms: seq<Message>, channel: nat): seq<Line> {
    if ms == [] then []
    else (if ms[0].channel == channel then [EventOf(ms[0])] else []) + EventsOf(ms[1..], channel)
  }

  /** Nothing without a header; otherwise the first header, then the later messages of
      that header's channel. */
  function Recording(ms: seq<Message>): seq<Line> {
    var k := FirstHeader(ms);
    if k == |ms| then []
    else [HeaderLine(ms[k].width, ms[k].height, ms[k].env)] + EventsOf(ms[k + 1..], ms[k].channel)
  }

  lemma {:induction false} LockedHandlerWritesEvents(h: Handler, ms: seq<Message>)
    requires h.haveChannel && h.headerEmitted
    ensures HandleAll(h, ms).written == h.written + EventsOf(ms, h.locked)
    decreases |ms|
  {
    if ms != [] {
      LockedHandlerWritesEvents(Handle(h, ms[0]), ms[1..]);
    }
  }

  /** For every message sequence the handler writes exactly the recording. */
  lemma {:induction false} HandlerWritesRecording(ms: seq<Message>)
    ensures HandleAll(IDLE, ms).written == Recording(ms)
    decreases |ms|
  {
    if ms != [] {
      if ms[0].HeaderMsg? {
        LockedHandlerWritesEvents(Handle(IDLE, ms[0]), ms[1..]);
      } else {
        HandlerWritesRecording(ms[1..]);
        assert Handle(IDLE, ms[0]) == IDLE;
        var k := FirstHeader(ms[1..]);
        assert ms[1..][k..] == ms[k + 1..];
        if k < |ms[1..]| { assert ms[1..][k + 1..] == ms[k + 2..]; }
      }
    }
  }

  /** A recording is empty or one header line followed by event lines only. */
  lemma RecordingIsWellFormed(ms: seq<Message>)
    ensures var r := Recording(ms);
            && (r == [] <==> forall m :: m in ms ==> m.EventMsg?)
            && (r != [] ==> r[0].HeaderLine? && forall i :: 1 <= i < |r| ==> r[i].EventLine?)
  {
    var k := FirstHeader(ms);
    if k < |ms| {
      assert ms[k] in ms;
      EventsAreEvents(ms[k + 1..], ms[k].channel);
    }
  }

  lemma {:induction false} EventsAreEvents(ms: seq<Message>, channel: nat)
    ensures forall l :: l in EventsOf(ms, channel) ==> l.EventLine?
  {
    if ms != [] { EventsAreEvents(ms[1..], channel); }
  }

  // ----- end to end --------------------------------------------------------

  /** The output bytes of a recording, and of one channel among frames. */
  function OutputLines(ls: seq<Line>): seq<Bytes> {
    if ls == [] then []
    else (if ls[0].EventLine? && ls[0].kind == "o" then [ls[0].data] else []) + OutputLines(ls[1..])
  }

  function OutputOf(fs: seq<Frame>, channel: nat): seq<Bytes> {
    if fs == [] then []
    else (if fs[0].Output? && fs[0].channel == channel then [fs[0].data] else []) + OutputOf(fs[1..], channel)
  }

  lemma ToMessagesTail(fs: seq<Frame>, k: nat)
    requires k <= |fs|
    ensures ToMessages(fs)[k..] == ToMessages(fs[k..])
  {
  }

  lemma {:induction false} EventsKeepOutput(fs: seq<Frame>, channel: nat)
    ensures OutputLines(EventsOf(ToMessages(fs), channel)) == OutputOf(fs, channel)
  {
    if fs != [] {
      var ms := ToMessages(fs);
      ToMessagesTail(fs, 1);
      EventsKeepOutput(fs[1..], channel);
      var tail := EventsOf(ms[1..], channel);
      if ms[0].channel == channel {
        assert ([EventOf(ms[0])] + tail)[1..] == tail;
      } else {
        assert [] + tail == tail;
      }
    }
  }

  lemma {:induction false} NoOutputBefore(fs: seq<Frame>, k: nat, channel: nat)
    requires k <= |fs| && forall i :: 0 <= i < k ==> !fs[i].Output?
    ensures OutputOf(fs, channel) == OutputOf(fs[k..], channel)
    decreases k
  {
    if k > 0 {
      NoOutputBefore(fs[1..], k - 1, channel);
      assert fs[1..][k - 1..] == fs[k..];
    } else {
      assert fs[0..] == fs;
    }
  }

  /** When headers come first, the recording of a frame sequence holds all the output of
      its channel, the channel of the first header, in order, and no other output. */
  lemma RecordingKeepsOutput(fs: seq<Frame>)
    requires HeadersFirst(fs)
    ensures var ms := ToMessages(fs);
            var k := FirstHeader(ms);
            k < |fs| ==> OutputLines(Recording(ms)) == OutputOf(fs, fs[k].channel)
    ensures var ms := ToMessages(fs);
            FirstHeader(ms) == |fs| ==> forall f :: f in fs ==> !f.Output?
  {
    var ms := ToMessages(fs);
    var k := FirstHeader(ms);
    assert forall i :: 0 <= i < k ==> !fs[i].Header? by {
      assert forall i :: 0 <= i < k ==> ms[i] == ToMessage(fs[i]);
    }
    NoOutputWithoutHeader(fs, k);
    if k < |fs| {
      assert ms[k] == ToMessage(fs[k]);
      NoOutputBefore(fs, k, fs[k].channel);
      OutputFrom(fs, k);
    }
  }

  lemma OutputFrom(fs: seq<Frame>, k: nat)
    requires k < |fs| && k == FirstHeader(ToMessages(fs))
    ensures OutputLines(Recording(ToMessages(fs))) == OutputOf(fs[k..], fs[k].channel)
  {
    var ms := ToMessages(fs);
    assert ms[k] == ToMessage(fs[k]);
    ToMessagesTail(fs, k + 1);
    EventsKeepOutput(fs[k + 1..], fs[k].channel);
    assert fs[k..][1..] == fs[k + 1..];
    assert Recording(ms)[1..] == EventsOf(ms[k + 1..], ms[k].channel);
  }

  lemma NoOutputWithoutHeader(fs: seq<Frame>, k: nat)
    requires HeadersFirst(fs) && k <= |fs| && forall i :: 0 <= i < k ==> !fs[i].Header?
    ensures forall i :: 0 <= i < k ==> !fs[i].Output?
  {
    forall i | 0 <= i < k ensures !fs[i].Output? {
      assert forall j :: 0 <= j < i ==> fs[..i][j] == fs[j];
      assert !HasHeader(fs[..i], fs[i].channel);
    }
  }

  /** A replaying viewer of a session that lost nothing: what it has been delivered yields
      a recording with every byte of output of the recorded channel, in order. */
  lemma ViewerRecordsAllOutput(es: seq<Event>, id: ChanId)
    requires NeverOvertakes(OPENING, es)
    requires id in Play(OPENING, es).bc.chans
    requires var c := Play(OPENING, es).bc.chans[id]; c.replay && c.dropped == 0
    ensures var fs := Delivered(Play(OPENING, es).bc.chans[id]);
            var ms := ToMessages(fs);
            var k := FirstHeader(ms);
            && HandleAll(IDLE, ms).written == Recording(ms)
            && (k < |fs| ==> OutputLines(HandleAll(IDLE, ms).written) == OutputOf(fs, fs[k].channel))
            && (k == |fs| ==> HandleAll(IDLE, ms).written == [] && forall f :: f in fs ==> !f.Output?)
  {
    var fs := Delivered(Play(OPENING, es).bc.chans[id]);
    ReplayingViewerCanRender(es, id);
    HandlerWritesRecording(ToMessages(fs));
    RecordingKeepsOutput(fs);
  }
}
