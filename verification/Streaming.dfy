/** A live session: the two packet pumps feed the stream hook, which publishes on the
    broadcaster while viewers come and go. The downstream pump first marks a channel as
    started and only then publishes its header, and the upstream pump first looks for
    subscribers and only then publishes; both gaps are open to the other pump. */
module Streaming {
  import opened Seqs
  import opened Wire
  import opened Broadcast
  import opened BroadcastLaws
  import opened StreamHook

  /** `unsent` is the frame the downstream pump is about to publish. */
  datatype Live = Live(hook: Hook, bc: State, unsent: Option<Frame>)

  /** `watched` is what the upstream pump saw when it asked for subscribers; every
      answer is possible whatever the subscribers are by the time it publishes. */
  datatype Event =
    | UpPacket(msg: Bytes, watched: bool)
    | DownPacket(msg: Bytes)
    | DownPublishes
    | Viewer(step: Broadcast.Step)

  function PublishIf(bc: State, f: Option<Frame>): State {
    if f.Some? then DoPublish(bc, f.value) else bc
  }

  function Happen(s: Live, e: Event): Live {
    match e
    case UpPacket(msg, watched) =>
      s.(hook := UpHook(s.hook, msg), bc := if watched then PublishIf(s.bc, UpFrame(s.hook, msg)) else s.bc)
    case DownPacket(msg) =>
      if s.unsent.Some? then s else s.(hook := Down(s.hook, msg).0, unsent := Down(s.hook, msg).1)
    case DownPublishes => s.(bc := PublishIf(s.bc, s.unsent), unsent := None)
    case Viewer(step) => if step.Publish? then s else s.(bc := Broadcast.Next(s.bc, step))
  }

  function Play(s: Live, es: seq<Event>): Live
    decreases |es|
  {
    if es == [] then s else Play(Happen(s, es[0]), es[1..])
  }

  const OPENING := Live(FRESH, Broadcast.START, None)

  // ----- headers before output ---------------------------------------------

  /** Every output frame comes after a header of its channel. */
  predicate HeadersFirst(fs: seq<Frame>) {
    forall i :: 0 <= i < |fs| && fs[i].Output? ==> HasHeader(fs[..i], fs[i].channel)
  }

  /** Output of a channel overtakes the channel's first header, which the downstream pump
      has not yet published. */
  predicate Overtakes(s: Live, e: Event) {
    && e.UpPacket? && e.watched && !s.bc.closed
    && s.unsent.Some? && s.unsent.value.Header?
    && UpFrame(s.hook, e.msg).Some? && UpFrame(s.hook, e.msg).value.channel == s.unsent.value.channel
    && !HasHeader(s.bc.history, s.unsent.value.channel)
  }

  predicate NeverOvertakes(s: Live, es: seq<Event>)
    decreases |es|
  {
    es != [] ==> !Overtakes(s, es[0]) && NeverOvertakes(Happen(s, es[0]), es[1..])
  }

  /** A started channel has a header published or about to be, unless the broadcaster is
      closed and publishes nothing. */
  predicate StartedInv(s: Live) {
    s.bc.closed ||
    forall c :: c in s.hook.started ==>
      HasHeader(s.bc.published, c) || (s.unsent.Some? && s.unsent.value.Header? && s.unsent.value.channel == c)
  }

  predicate LiveInv(s: Live) {
    && Inv(s.bc)
    && StartedInv(s)
    && (s.unsent.Some? ==> !s.unsent.value.Output?)
  }

  lemma AppendKeepsOrder(fs: seq<Frame>, f: Frame)
    ensures HeadersFirst(fs + [f]) <==> HeadersFirst(fs) && (f.Output? ==> HasHeader(fs, f.channel))
  {
    var more := fs + [f];
    assert more[..|fs|] == fs;
    forall i | 0 <= i < |fs| ensures more[i] == fs[i] && more[..i] == fs[..i] {}
    if HeadersFirst(more) {
      assert more[|fs|] == f;
    }
  }

  lemma DownFrames(h: Hook, msg: Bytes)
    ensures var (r, f) := Down(h, msg);
            && (f.Some? ==> !f.value.Output?)
            && h.started <= r.started
            && (forall c :: c in r.started && c !in h.started ==> f.Some? && f.value.Header? && f.value.channel == c)
  {
  }

  lemma ViewerKeepsPublished(bc: State, step: Broadcast.Step)
    requires !step.Publish?
    ensures Broadcast.Next(bc, step).published == bc.published
    ensures bc.closed ==> Broadcast.Next(bc, step).closed
  {
  }

  lemma PublishedHeaders(bc: State, f: Frame)
    requires !bc.closed
    ensures forall c :: HasHeader(DoPublish(bc, f).published, c) <==> HasHeader(bc.published, c) || (f.Header? && f.channel == c)
    ensures HeadersFirst(DoPublish(bc, f).published) <==>
              HeadersFirst(bc.published) && (f.Output? ==> HasHeader(bc.published, f.channel))
  {
    forall c ensures HasHeader(bc.published + [f], c) <==> HasHeader(bc.published, c) || (f.Header? && f.channel == c) {
      HasHeaderAppend(bc.published, f, c);
    }
    AppendKeepsOrder(bc.published, f);
  }

  /** One event: the invariant holds on, and order is lost exactly by overtaking. */
  lemma EventKeepsInv(s: Live, e: Event)
    requires LiveInv(s)
    ensures LiveInv(Happen(s, e))
    ensures HeadersFirst(Happen(s, e).bc.published) <==> HeadersFirst(s.bc.published) && !Overtakes(s, e)
  {
    match e
    case UpPacket(msg, watched) =>
      var f := UpFrame(s.hook, msg);
      if watched && f.Some? && !s.bc.closed {
        StepKeepsInv(s.bc, Publish(f.value));
        PublishedHeaders(s.bc, f.value);
        LastHeadersCover(s.bc.published, f.value.channel);
      }
    case DownPacket(msg) => DownFrames(s.hook, msg);
    case DownPublishes =>
      if s.unsent.Some? && !s.bc.closed {
        StepKeepsInv(s.bc, Publish(s.unsent.value));
        PublishedHeaders(s.bc, s.unsent.value);
      }
    case Viewer(step) =>
      if !step.Publish? {
        StepKeepsInv(s.bc, step);
        ViewerKeepsPublished(s.bc, step);
      }
  }

  lemma {:induction false} PlayKeepsInv(s: Live, es: seq<Event>)
    requires LiveInv(s)
    ensures LiveInv(Play(s, es))
    ensures HeadersFirst(Play(s, es).bc.published) <==> HeadersFirst(s.bc.published) && NeverOvertakes(s, es)
    decreases |es|
  {
    if es != [] {
      EventKeepsInv(s, es[0]);
      PlayKeepsInv(Happen(s, es[0]), es[1..]);
    }
  }

  // ----- main results ------------------------------------------------------

  /** For every run: each published output frame is preceded by a header of its channel
      if and only if no output of a channel was handled between the marking of the
      channel as started and the publication of its first header. */
  lemma HeadersComeFirstExactly(es: seq<Event>)
    ensures HeadersFirst(Play(OPENING, es).bc.published) <==> NeverOvertakes(OPENING, es)
  {
    PlayKeepsInv(OPENING, es);
  }

  /** A replaying viewer that lost nothing can render: in what it has received and still
      has buffered every output frame is preceded by a header of its channel, even when
      the header was published before it joined. */
  lemma ReplayingViewerCanRender(es: seq<Event>, id: ChanId)
    requires NeverOvertakes(OPENING, es)
    requires id in Play(OPENING, es).bc.chans
    requires var c := Play(OPENING, es).bc.chans[id]; c.replay && c.dropped == 0
    ensures HeadersFirst(Delivered(Play(OPENING, es).bc.chans[id]))
  {
    PlayKeepsInv(OPENING, es);
    var bc := Play(OPENING, es).bc;
    var c := bc.chans[id];
    FullSubsequence(Delivered(c), Offered(bc.published, c));
    OfferedInOrder(bc.published, c);
  }

  lemma OfferedInOrder(published: seq<Frame>, c: Chan)
    requires HeadersFirst(published) && Span(published, c) && c.replay
    ensures HeadersFirst(Offered(published, c))
  {
    var replay := LastHeaders(published[..c.since]);
    var offered := Offered(published, c);
    LastHeadersDistinct(published[..c.since]);
    assert forall i :: 0 <= i < |replay| ==> offered[i] == replay[i] && replay[i] in replay;
    forall i | |replay| <= i < |offered| && offered[i].Output? ensures HasHeader(offered[..i], offered[i].channel) {
      var at := c.since + i - |replay|;
      assert offered[i] == published[at];
      HeaderIsOffered(published, c, at);
      assert offered[..i] == replay + published[c.since..at];
    }
  }

  lemma HeaderIsOffered(published: seq<Frame>, c: Chan, at: int)
    requires c.since <= at < |published| && HasHeader(published[..at], published[at].channel)
    ensures HasHeader(LastHeaders(published[..c.since]) + published[c.since..at], published[at].channel)
  {
    var channel := published[at].channel;
    var replay, later := LastHeaders(published[..c.since]), published[c.since..at];
    var j :| 0 <= j < at && published[..at][j].Header? && published[..at][j].channel == channel;
    if j < c.since {
      assert published[..c.since][j] == published[..at][j];
      LastHeadersCover(published[..c.since], channel);
      var k :| 0 <= k < |replay| && replay[k].Header? && replay[k].channel == channel;
      assert (replay + later)[k] == replay[k];
    } else {
      assert (replay + later)[|replay| + j - c.since] == published[..at][j];
    }
  }

  /** The gap is real: with the output of a new channel handled inside it, a viewer sees
      output without a header. */
  lemma OutputCanOvertakeItsHeader(client: nat, server: nat, data: Bytes)
    requires client < WORD && server < WORD
    ensures var es := [UpPacket(ConfirmPacket(client, server, []), true),
                       Viewer(Subscribe(0, true)),
                       DownPacket(Encode(server, 1, Shell)),
                       UpPacket(DataPacket(client, data), true),
                       DownPublishes];
            !HeadersFirst(Play(OPENING, es).bc.published)
  {
    var e0, e1 := UpPacket(ConfirmPacket(client, server, []), true), Viewer(Subscribe(0, true));
    var e2, e3 := DownPacket(Encode(server, 1, Shell)), UpPacket(DataPacket(client, data), true);
    var s0 := Happen(OPENING, e0);
    var s1 := Happen(s0, e1);
    UpReadsPackets(FRESH, client, server, []);
    assert s1.hook == FRESH.(clientOf := map[server := client]) && s1.unsent == None && s1.bc.history == [] && !s1.bc.closed;
    StartedIsOvertaken(s1, client, server, data);
    assert !NeverOvertakes(s0, [e1, e2, e3, DownPublishes]) by {
      assert [e1, e2, e3, DownPublishes][1..] == [e2, e3, DownPublishes];
    }
    assert [e0, e1, e2, e3, DownPublishes][1..] == [e1, e2, e3, DownPublishes];
    HeadersComeFirstExactly([e0, e1, e2, e3, DownPublishes]);
  }

  lemma StartedIsOvertaken(s: Live, client: nat, server: nat, data: Bytes)
    requires client < WORD && server < WORD
    requires server in s.hook.clientOf && s.hook.clientOf[server] == client
    requires s.unsent == None && s.bc.history == [] && !s.bc.closed
    ensures !NeverOvertakes(s, [DownPacket(Encode(server, 1, Shell)), UpPacket(DataPacket(client, data), true), DownPublishes])
  {
    var e0, e1 := DownPacket(Encode(server, 1, Shell)), UpPacket(DataPacket(client, data), true);
    var s1 := Happen(s, e0);
    DownReadsRequest(s.hook, server, 1, Shell);
    UpReadsPackets(s1.hook, client, server, data);
    assert Overtakes(s1, e1);
    assert [e0, e1, DownPublishes][1..] == [e1, DownPublishes];
    assert !NeverOvertakes(s1, [e1, DownPublishes]);
  }
}
