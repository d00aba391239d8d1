/** What a header says about the session: the packets of both directions as the stream
    hook sees them, whatever bytes they hold, and which of them a header reports. */
module StreamHeader {
  import opened Seqs
  import opened Wire
  import opened Broadcast
  import opened StreamHook

  datatype Packet = FromUpstream(msg: Bytes) | FromDownstream(msg: Bytes)

  /** What the hook sees in a packet. */
  datatype Seen = Asked(server: nat, request: Request) | Confirmed(server: nat, client: nat) | Nothing

  function See(p: Packet): Seen {
    match p
    case FromUpstream(msg) =>
      if |msg| >= 9 && msg[0] == MSG_CHANNEL_OPEN_CONFIRM then Confirmed(ReadU32(msg[5..9]), ReadU32(msg[1..5])) else Nothing
    case FromDownstream(msg) =>
      if |msg| < 5 || msg[0] != MSG_CHANNEL_REQUEST then Nothing
      else
        var kind := ReadString(msg[5..]);
        var r := ReadBody(kind.0, kind.1);
        if r.None? then Nothing else Asked(ReadU32(msg[1..5]), r.value)
  }

  function After(h: Hook, x: Seen): (Hook, Option<Frame>) {
    match x
    case Asked(server, request) => React(h, server, request)
    case Confirmed(server, client) => (h.(clientOf := h.clientOf[server := client]), None)
    case Nothing => (h, None)
  }

  /** The hook after a packet and the frame it publishes for it, output aside. */
  function Handle(h: Hook, p: Packet): (Hook, Option<Frame>) {
    match p
    case FromUpstream(msg) => (UpHook(h, msg), None)
    case FromDownstream(msg) => Down(h, msg)
  }

  /** Every packet, well-formed or not, acts as what the hook sees in it. */
  lemma PacketActsAsSeen(h: Hook, p: Packet)
    ensures Handle(h, p) == After(h, See(p))
  {
    if p.FromDownstream? && |p.msg| >= 5 && p.msg[0] == MSG_CHANNEL_REQUEST {
      var kind := ReadString(p.msg[5..]);
      RequestReacts(h, ReadU32(p.msg[1..5]), kind.0, kind.1);
    }
  }

  lemma SeesRequest(server: nat, want: byte, r: Request)
    requires server < WORD && Representable(r)
    ensures See(FromDownstream(Encode(server, want, r))) == Asked(server, r)
  {
    HeadReadsBack(server, want, r);
    RequestReadsBack(want, r);
  }

  function SeeAll(ps: seq<Packet>): (xs: seq<Seen>)
    ensures |xs| == |ps|
  {
    seq(|ps|, i requires 0 <= i < |ps| => See(ps[i]))
  }

  function HandleAll(h: Hook, ps: seq<Packet>): Hook {
    if ps == [] then h else Handle(HandleAll(h, ps[..|ps| - 1]), ps[|ps| - 1]).0
  }

  function AfterAll(h: Hook, xs: seq<Seen>): Hook {
    if xs == [] then h else After(AfterAll(h, xs[..|xs| - 1]), xs[|xs| - 1]).0
  }

  lemma {:induction false} PacketsActAsSeen(h: Hook, ps: seq<Packet>)
    ensures HandleAll(h, ps) == AfterAll(h, SeeAll(ps))
  {
    if ps != [] {
      var n := |ps| - 1;
      PacketsActAsSeen(h, ps[..n]);
      assert SeeAll(ps)[..n] == SeeAll(ps[..n]);
      PacketActsAsSeen(HandleAll(h, ps[..n]), ps[n]);
    }
  }

  // ----- between two starts ------------------------------------------------

  /** The start of a shell or command on a channel the hook knows; on any other channel
      the request does nothing. */
  predicate Starts(h: Hook, x: Seen) {
    x.Asked? && (x.request.Shell? || x.request.Exec?) && x.server in h.clientOf
  }

  predicate NoStart(h: Hook, xs: seq<Seen>) {
    xs != [] ==> NoStart(h, xs[..|xs| - 1]) && !Starts(AfterAll(h, xs[..|xs| - 1]), xs[|xs| - 1])
  }

  /** Nothing collected: a fresh hook, and every hook right after a start. */
  predicate Blank(h: Hook) {
    h.env == map[] && h.term == [] && h.width == 0 && h.height == 0
  }

  /** The last element that satisfies `p`, or -1. */
  function Last(xs: seq<Seen>, p: Seen -> bool): (i: int)
    ensures -1 <= i < |xs|
    ensures i >= 0 ==> p(xs[i])
    ensures forall j :: i < j < |xs| ==> !p(xs[j])
  {
    if xs == [] then -1
    else if p(xs[|xs| - 1]) then |xs| - 1 else Last(xs[..|xs| - 1], p)
  }

  /** Requests of interest, on one channel or, without one, on any. */
  function Pty(on: Option<nat>): Seen -> bool {
    (x: Seen) => x.Asked? && x.request.PtyReq? && (on.Some? ==> x.server == on.value)
  }

  function EnvOf(on: Option<nat>, name: Bytes): Seen -> bool {
    (x: Seen) => x.Asked? && x.request.Env? && x.request.name == name && (on.Some? ==> x.server == on.value)
  }

  /** Size, terminal and variables of the last requests on the channel, or on any. */
  function SizeFrom(xs: seq<Seen>, on: Option<nat>): (nat, nat) {
    var i := Last(xs, Pty(on));
    if i < 0 then (0, 0) else (xs[i].request.width, xs[i].request.height)
  }

  function TermFrom(xs: seq<Seen>, on: Option<nat>): Bytes {
    var i := Last(xs, Pty(on));
    if i < 0 then [] else xs[i].request.term
  }

  /** The value a header should have for a variable; the terminal overrides TERM. */
  function ValueFrom(xs: seq<Seen>, on: Option<nat>, name: Bytes): Option<Bytes> {
    var i := Last(xs, EnvOf(on, name));
    if name == Ascii("TERM") && TermFrom(xs, on) != [] then Some(TermFrom(xs, on))
    else if i < 0 then None else Some(xs[i].request.value)
  }

  function Lookup(env: map<Bytes, Bytes>, name: Bytes): Option<Bytes> {
    if name in env then Some(env[name]) else None
  }

  /** The frame says what was asked for on the channel, or on any. */
  ghost predicate Reports(f: Frame, xs: seq<Seen>, on: Option<nat>) {
    && f.Header? && (f.width, f.height) == SizeFrom(xs, on)
    && forall name :: Lookup(f.env, name) == ValueFrom(xs, on, name)
  }

  lemma {:induction false} SizeCollected(h: Hook, xs: seq<Seen>)
    requires Blank(h) && NoStart(h, xs)
    ensures var r := AfterAll(h, xs);
            (r.width, r.height) == SizeFrom(xs, None) && r.term == TermFrom(xs, None) && r.started == h.started
  {
    if xs != [] { SizeCollected(h, xs[..|xs| - 1]); }
  }

  lemma {:induction false} VariableCollected(h: Hook, xs: seq<Seen>, name: Bytes)
    requires Blank(h) && NoStart(h, xs)
    ensures var env, i := AfterAll(h, xs).env, Last(xs, EnvOf(None, name));
            Lookup(env, name) == if i < 0 then None else Some(xs[i].request.value)
  {
    if xs != [] { VariableCollected(h, xs[..|xs| - 1], name); }
  }

  /** The frame that the start on channel `server` publishes after `xs`. */
  function HeaderAfter(h: Hook, xs: seq<Seen>, server: nat): Option<Frame> {
    Start(AfterAll(h, xs), server).1
  }

  /** The header of a shell or exec reports the last pty request and the last value of
      each variable since the previous header, on whichever channel they came, whatever
      else was sent in either direction in between. */
  lemma HeaderReportsTheSession(h: Hook, xs: seq<Seen>, server: nat)
    requires Blank(h) && NoStart(h, xs) && server in AfterAll(h, xs).clientOf
    ensures var f := HeaderAfter(h, xs, server);
            && f.Some? && Reports(f.value, xs, None) && f.value.channel == AfterAll(h, xs).clientOf[server]
    ensures var after := Start(AfterAll(h, xs), server).0;
            Blank(after) && after.started == h.started + {AfterAll(h, xs).clientOf[server]}
  {
    SizeCollected(h, xs);
    var f := HeaderAfter(h, xs, server).value;
    forall name ensures Lookup(f.env, name) == ValueFrom(xs, None, name) {
      VariableCollected(h, xs, name);
    }
  }

  /** The same for the bytes on the wire. */
  lemma HeaderReportsThePackets(h: Hook, ps: seq<Packet>, start: Packet)
    requires Blank(h) && NoStart(h, SeeAll(ps)) && Starts(HandleAll(h, ps), See(start))
    ensures var (after, f) := Handle(HandleAll(h, ps), start);
            && Blank(after) && f.Some? && Reports(f.value, SeeAll(ps), None)
            && f.value.channel == HandleAll(h, ps).clientOf[See(start).server]
  {
    PacketsActAsSeen(h, ps);
    PacketActsAsSeen(HandleAll(h, ps), start);
    HeaderReportsTheSession(h, SeeAll(ps), See(start).server);
  }

  // ----- a channel's own header --------------------------------------------

  /** The last pty request of the session and the last request for each variable came on
      this channel, or nowhere. */
  ghost predicate OwnRequestsLast(xs: seq<Seen>, server: nat) {
    && Last(xs, Pty(None)) == Last(xs, Pty(Some(server)))
    && forall name :: Last(xs, EnvOf(None, name)) == Last(xs, EnvOf(Some(server), name))
  }

  /** The header of the channel says what was asked for on that channel. */
  ghost predicate OwnHeader(h: Hook, xs: seq<Seen>, server: nat) {
    var f := HeaderAfter(h, xs, server);
    f.Some? && Reports(f.value, xs, Some(server))
  }

  /** The same requests on the same channels, with other sizes, terminals and values. */
  predicate SamePattern(x: Seen, y: Seen) {
    if x.Asked? && x.request.PtyReq? then y.Asked? && y.server == x.server && y.request.PtyReq? && Representable(y.request)
    else if x.Asked? && x.request.Env? then
      y.Asked? && y.server == x.server && y.request.Env? && y.request.name == x.request.name && Representable(y.request)
    else y == x
  }

  predicate SamePatterns(xs: seq<Seen>, ys: seq<Seen>) {
    |xs| == |ys| && forall i :: 0 <= i < |xs| ==> SamePattern(xs[i], ys[i])
  }

  lemma {:induction false} SameLast(xs: seq<Seen>, ys: seq<Seen>, p: Seen -> bool)
    requires |xs| == |ys| && forall i :: 0 <= i < |xs| ==> p(xs[i]) == p(ys[i])
    ensures Last(xs, p) == Last(ys, p)
  {
    if xs != [] { SameLast(xs[..|xs| - 1], ys[..|ys| - 1], p); }
  }

  lemma {:induction false} SameStarts(h: Hook, xs: seq<Seen>, ys: seq<Seen>)
    requires SamePatterns(xs, ys)
    ensures AfterAll(h, xs).clientOf == AfterAll(h, ys).clientOf
    ensures NoStart(h, xs) <==> NoStart(h, ys)
  {
    if xs != [] {
      var n := |xs| - 1;
      SameStarts(h, xs[..n], ys[..n]);
      assert SamePattern(xs[n], ys[n]);
    }
  }

  /** Requests on `server` ask for nothing, all others for something else. */
  function Marked(x: Seen, server: nat): Seen {
    if x.Asked? && x.request.PtyReq? then Asked(x.server, PtyReq([], if x.server == server then 0 else 1, 0, []))
    else if x.Asked? && x.request.Env? then Asked(x.server, Env(x.request.name, if x.server == server then [] else [1]))
    else x
  }

  function AllMarked(xs: seq<Seen>, server: nat): (ys: seq<Seen>)
    ensures |ys| == |xs|
  {
    seq(|xs|, i requires 0 <= i < |xs| => Marked(xs[i], server))
  }

  predicate Readable(xs: seq<Seen>) {
    forall i :: 0 <= i < |xs| && xs[i].Asked? ==> Representable(xs[i].request)
  }

  /** What comes from the wire can go back on it. */
  lemma PacketsAreReadable(ps: seq<Packet>)
    ensures Readable(SeeAll(ps))
  {
    var xs := SeeAll(ps);
    forall i | 0 <= i < |xs| && xs[i].Asked? ensures Representable(xs[i].request) {
      var kind := ReadString(ps[i].msg[5..]);
      BodyIsReadable(kind.0, kind.1);
    }
  }

  lemma BodyIsReadable(kind: Bytes, body: Bytes)
    ensures ReadBody(kind, body).Some? ==> Representable(ReadBody(kind, body).value)
  {
  }

  lemma MarkedPattern(xs: seq<Seen>, server: nat)
    requires Readable(xs)
    ensures SamePatterns(xs, AllMarked(xs, server))
  {
    var ys := AllMarked(xs, server);
    forall i | 0 <= i < |xs| ensures SamePattern(xs[i], ys[i]) {}
  }

  /** If the last request of a kind came on another channel, the channel's own is earlier
      or missing. */
  lemma OtherChannelLast(xs: seq<Seen>, server: nat, name: Bytes)
    ensures var i := Last(xs, Pty(None));
            i == Last(xs, Pty(Some(server))) <==> i < 0 || xs[i].server == server
    ensures var i := Last(xs, EnvOf(None, name));
            i == Last(xs, EnvOf(Some(server), name)) <==> i < 0 || xs[i].server == server
  {
    var i, k := Last(xs, Pty(None)), Last(xs, Pty(Some(server)));
    assert k >= 0 ==> Pty(None)(xs[k]);
    assert i >= 0 && xs[i].server == server ==> Pty(Some(server))(xs[i]);
    var j, m := Last(xs, EnvOf(None, name)), Last(xs, EnvOf(Some(server), name));
    assert m >= 0 ==> EnvOf(None, name)(xs[m]);
    assert j >= 0 && xs[j].server == server ==> EnvOf(Some(server), name)(xs[j]);
  }

  lemma MarkedLast(xs: seq<Seen>, server: nat, on: Option<nat>, name: Bytes)
    ensures var ys := AllMarked(xs, server);
            Last(ys, Pty(on)) == Last(xs, Pty(on)) && Last(ys, EnvOf(on, name)) == Last(xs, EnvOf(on, name))
  {
    var ys := AllMarked(xs, server);
    forall i | 0 <= i < |xs| ensures Pty(on)(xs[i]) == Pty(on)(ys[i]) && EnvOf(on, name)(xs[i]) == EnvOf(on, name)(ys[i]) {
      assert ys[i] == Marked(xs[i], server);
    }
    SameLast(xs, ys, Pty(on));
    SameLast(xs, ys, EnvOf(on, name));
  }

  /** With marked requests a foreign one shows in the header. */
  lemma MarksShow(xs: seq<Seen>, server: nat, f: Frame, name: Bytes)
    requires var ys := AllMarked(xs, server); Reports(f, ys, None) && Reports(f, ys, Some(server))
    ensures Last(xs, Pty(None)) == Last(xs, Pty(Some(server)))
    ensures Last(xs, EnvOf(None, name)) == Last(xs, EnvOf(Some(server), name))
  {
    var ys := AllMarked(xs, server);
    OtherChannelLast(xs, server, name);
    MarkedLast(xs, server, None, name);
    MarkedLast(xs, server, Some(server), name);
    assert SizeFrom(ys, None) == SizeFrom(ys, Some(server));
    assert TermFrom(ys, None) == [] && TermFrom(ys, Some(server)) == [];
    assert ValueFrom(ys, None, name) == Lookup(f.env, name) == ValueFrom(ys, Some(server), name);
  }

  /** The header of a channel is its own, for all sizes, terminals and values, if and only
      if the last pty request and the last request for each variable since the previous
      header came on that channel. */
  lemma OwnHeaderExactly(h: Hook, xs: seq<Seen>, server: nat)
    requires Blank(h) && NoStart(h, xs) && server in AfterAll(h, xs).clientOf && Readable(xs)
    ensures OwnRequestsLast(xs, server) <==> forall ys :: SamePatterns(xs, ys) ==> OwnHeader(h, ys, server)
  {
    if OwnRequestsLast(xs, server) {
      forall ys | SamePatterns(xs, ys) ensures OwnHeader(h, ys, server) {
        SameStarts(h, xs, ys);
        PatternKeepsOwn(xs, ys, server);
        HeaderReportsTheSession(h, ys, server);
        assert Reports(HeaderAfter(h, ys, server).value, ys, Some(server));
      }
    }
    if forall ys :: SamePatterns(xs, ys) ==> OwnHeader(h, ys, server) {
      var ys := AllMarked(xs, server);
      MarkedPattern(xs, server);
      SameStarts(h, xs, ys);
      HeaderReportsTheSession(h, ys, server);
      assert OwnHeader(h, ys, server);
      forall name ensures Last(xs, EnvOf(None, name)) == Last(xs, EnvOf(Some(server), name)) {
        MarksShow(xs, server, HeaderAfter(h, ys, server).value, name);
      }
      MarksShow(xs, server, HeaderAfter(h, ys, server).value, []);
    }
  }

  /** The same for what the hook sees in any packets on the wire. */
  lemma OwnHeaderOfPackets(h: Hook, ps: seq<Packet>, server: nat)
    requires Blank(h) && NoStart(h, SeeAll(ps)) && server in HandleAll(h, ps).clientOf
    ensures OwnRequestsLast(SeeAll(ps), server) <==> forall ys :: SamePatterns(SeeAll(ps), ys) ==> OwnHeader(h, ys, server)
  {
    PacketsActAsSeen(h, ps);
    PacketsAreReadable(ps);
    OwnHeaderExactly(h, SeeAll(ps), server);
  }

  lemma PatternKeepsOwn(xs: seq<Seen>, ys: seq<Seen>, server: nat)
    requires SamePatterns(xs, ys) && OwnRequestsLast(xs, server)
    ensures OwnRequestsLast(ys, server)
  {
    assert forall i :: 0 <= i < |xs| ==> SamePattern(xs[i], ys[i]);
    SameLast(xs, ys, Pty(None));
    SameLast(xs, ys, Pty(Some(server)));
    forall name ensures Last(ys, EnvOf(None, name)) == Last(ys, EnvOf(Some(server), name)) {
      SameLast(xs, ys, EnvOf(None, name));
      SameLast(xs, ys, EnvOf(Some(server), name));
    }
  }

  lemma SeesConfirm(client: nat, server: nat)
    requires client < WORD && server < WORD
    ensures See(FromUpstream(ConfirmPacket(client, server, []))) == Confirmed(server, client)
  {
    var c := ConfirmPacket(client, server, []);
    assert c[1..] == U32(client) + (U32(server) + []);
    WordAt(c, 1, client, U32(server) + []);
    assert c[5..] == U32(server) + [];
    WordAt(c, 5, server, []);
  }

  lemma OneMoreSeen(h: Hook, xs: seq<Seen>, x: Seen)
    ensures AfterAll(h, xs + [x]) == After(AfterAll(h, xs), x).0
  {
    assert (xs + [x])[..|xs|] == xs;
  }

  lemma SecondChannelAsked(client: nat, server: nat, client2: nat, server2: nat, pty: Request, xs: seq<Seen>)
    requires server != server2 && pty.PtyReq?
    requires xs == [Confirmed(server, client), Confirmed(server2, client2), Asked(server2, pty)]
    ensures var r := AfterAll(FRESH, xs);
            server in r.clientOf && r.clientOf[server] == client && r.width == pty.width && r.height == pty.height
  {
    ThreeSeen(FRESH, xs[0], xs[1], xs[2], xs);
  }

  lemma ThreeSeen(h: Hook, a: Seen, b: Seen, c: Seen, xs: seq<Seen>)
    requires xs == [a, b, c]
    ensures AfterAll(h, xs) == After(After(After(h, a).0, b).0, c).0
  {
    var one: seq<Seen> := [] + [a];
    var two := one + [b];
    OneMoreSeen(h, [], a);
    OneMoreSeen(h, one, b);
    OneMoreSeen(h, two, c);
    assert xs == two + [c];
  }

  lemma {:induction false} NoneAsked(xs: seq<Seen>, p: Seen -> bool)
    requires forall i :: 0 <= i < |xs| ==> !p(xs[i])
    ensures Last(xs, p) == -1
  {
    if xs != [] { NoneAsked(xs[..|xs| - 1], p); }
  }

  /** A size although none was asked for on the channel. */
  lemma ForeignSize(h: Hook, xs: seq<Seen>, server: nat)
    requires Last(xs, Pty(Some(server))) == -1
    requires server in AfterAll(h, xs).clientOf && AfterAll(h, xs).height != 0
    ensures !OwnHeader(h, xs, server)
  {
    assert SizeFrom(xs, Some(server)) == (0, 0);
    assert HeaderAfter(h, xs, server).value.height == AfterAll(h, xs).height;
  }

  /** Two channels: a pty request on the second, then a shell on the first. The header of
      the first has the size of the second, although nothing was asked for on the first. */
  lemma HeaderTakesAnotherChannelsSize(client: nat, server: nat, client2: nat, server2: nat, pty: Request, ps: seq<Packet>)
    requires client < WORD && server < WORD && client2 < WORD && server2 < WORD && server != server2
    requires pty.PtyReq? && Representable(pty) && pty.height != 0
    requires ps == [FromUpstream(ConfirmPacket(client, server, [])),
                    FromUpstream(ConfirmPacket(client2, server2, [])),
                    FromDownstream(Encode(server2, 1, pty))]
    ensures var f := Handle(HandleAll(FRESH, ps), FromDownstream(Encode(server, 1, Shell))).1;
            f.Some? && f.value.Header? && f.value.channel == client && (f.value.width, f.value.height) == (pty.width, pty.height)
    ensures Last(SeeAll(ps), Pty(Some(server))) == -1
    ensures !OwnHeader(FRESH, SeeAll(ps), server)
  {
    TwoChannelsSeen(client, server, client2, server2, pty, ps);
    PacketsActAsSeen(FRESH, ps);
    SecondChannelAsked(client, server, client2, server2, pty, SeeAll(ps));
    NoneAsked(SeeAll(ps), Pty(Some(server)));
    ForeignSize(FRESH, SeeAll(ps), server);
    ShellPublishes(HandleAll(FRESH, ps), server);
  }

  lemma TwoChannelsSeen(client: nat, server: nat, client2: nat, server2: nat, pty: Request, ps: seq<Packet>)
    requires client < WORD && server < WORD && client2 < WORD && server2 < WORD && Representable(pty)
    requires ps == [FromUpstream(ConfirmPacket(client, server, [])),
                    FromUpstream(ConfirmPacket(client2, server2, [])),
                    FromDownstream(Encode(server2, 1, pty))]
    ensures SeeAll(ps) == [Confirmed(server, client), Confirmed(server2, client2), Asked(server2, pty)]
  {
    SeesConfirm(client, server);
    SeesConfirm(client2, server2);
    SeesRequest(server2, 1, pty);
  }

  lemma ShellPublishes(h: Hook, server: nat)
    requires server < WORD && server in h.clientOf
    ensures Handle(h, FromDownstream(Encode(server, 1, Shell))).1 == Some(Header(h.clientOf[server], h.width, h.height, HeaderEnv(h)))
  {
    DownReadsRequest(h, server, 1, Shell);
  }
}
