/** From the packets of a session to the recording of one viewer: what a viewer that
    replays the headers and loses nothing records is what the upstream sent. */
module ViewerRecording {
  import opened Seqs
  import opened Wire
  import opened Broadcast
  import opened BroadcastLaws
  import opened StreamHook
  import opened Streaming
  import opened Asciicast

  /** The payload of an event, if it is channel data of `channel` that gets published:
      on a started channel, while the pump saw a subscriber and the broadcaster is open. */
  function Payload(s: Live, e: Event, channel: nat): seq<Bytes> {
    if && e.UpPacket? && e.watched && !s.bc.closed
       && |e.msg| >= 9 && e.msg[0] == MSG_CHANNEL_DATA && ReadU32(e.msg[1..5]) == channel && channel in s.hook.started
    then [e.msg[9..]] else []
  }

  function Payloads(s: Live, es: seq<Event>, channel: nat): seq<Bytes>
    decreases |es|
  {
    if es == [] then [] else Payload(s, es[0], channel) + Payloads(Happen(s, es[0]), es[1..], channel)
  }

  lemma {:induction false} OutputConcat(a: seq<Frame>, b: seq<Frame>, channel: nat)
    ensures OutputOf(a + b, channel) == OutputOf(a, channel) + OutputOf(b, channel)
    decreases |a|
  {
    var all := a + b;
    if a == [] {
      assert all == b;
    } else {
      assert all[0] == a[0] && all[1..] == a[1..] + b;
      OutputConcat(a[1..], b, channel);
    }
  }

  lemma OneOutput(f: Frame, channel: nat)
    ensures OutputOf([f], channel) == if f.Output? && f.channel == channel then [f.data] else []
  {
    assert [f][1..] == [];
  }

  /** One event appends to the published frames, and to their output exactly its payload. */
  lemma EventPublishes(s: Live, e: Event, channel: nat)
    requires s.unsent.Some? ==> !s.unsent.value.Output?
    ensures s.bc.published <= Happen(s, e).bc.published
    ensures var added := Happen(s, e).bc.published[|s.bc.published|..]; OutputOf(added, channel) == Payload(s, e, channel)
  {
    var p, p' := s.bc.published, Happen(s, e).bc.published;
    match e
    case UpPacket(msg, watched) =>
      var f := UpFrame(s.hook, msg);
      if watched && f.Some? && !s.bc.closed {
        assert p' == p + [f.value] && p'[|p|..] == [f.value];
        OneOutput(f.value, channel);
      } else {
        assert p'[|p|..] == [];
      }
    case DownPublishes =>
      if s.unsent.Some? && !s.bc.closed {
        assert p' == p + [s.unsent.value] && p'[|p|..] == [s.unsent.value];
        OneOutput(s.unsent.value, channel);
      } else {
        assert p'[|p|..] == [];
      }
    case DownPacket(_) => assert p'[|p|..] == [];
    case Viewer(step) =>
      if !step.Publish? { ViewerKeepsPublished(s.bc, step); }
      assert p'[|p|..] == [];
  }

  lemma SliceChain(a: seq<Frame>, b: seq<Frame>, c: seq<Frame>)
    requires a <= b <= c
    ensures c[|a|..] == b[|a|..] + c[|b|..]
  {
  }

  /** Along a run the output published is the payloads, in order. */
  lemma {:induction false} RunPublishes(s: Live, es: seq<Event>, channel: nat)
    requires LiveInv(s)
    ensures s.bc.published <= Play(s, es).bc.published
    ensures OutputOf(Play(s, es).bc.published[|s.bc.published|..], channel) == Payloads(s, es, channel)
    decreases |es|
  {
    var p, end := s.bc.published, Play(s, es).bc.published;
    if es == [] {
      assert end[|p|..] == [];
    } else {
      var next := Happen(s, es[0]).bc.published;
      EventKeepsInv(s, es[0]);
      EventPublishes(s, es[0], channel);
      RunPublishes(Happen(s, es[0]), es[1..], channel);
      SliceChain(p, next, end);
      OutputConcat(next[|p|..], end[|next|..], channel);
    }
  }

  /** When and how a subscription began does not change. */
  lemma EventKeepsSubscription(s: Live, e: Event, id: ChanId)
    requires id in s.bc.chans
    ensures var s' := Happen(s, e);
            id in s'.bc.chans && s'.bc.chans[id].since == s.bc.chans[id].since && s'.bc.chans[id].replay == s.bc.chans[id].replay
  {
  }

  lemma {:induction false} RunKeepsSubscription(s: Live, es: seq<Event>, id: ChanId)
    requires id in s.bc.chans
    ensures var s' := Play(s, es);
            id in s'.bc.chans && s'.bc.chans[id].since == s.bc.chans[id].since && s'.bc.chans[id].replay == s.bc.chans[id].replay
    decreases |es|
  {
    if es != [] {
      EventKeepsSubscription(s, es[0], id);
      RunKeepsSubscription(Happen(s, es[0]), es[1..], id);
    }
  }

  lemma {:induction false} PlayConcat(s: Live, a: seq<Event>, b: seq<Event>)
    ensures Play(s, a + b) == Play(Play(s, a), b)
    decreases |a|
  {
    var all := a + b;
    if a == [] {
      assert all == b;
    } else {
      assert all[0] == a[0] && all[1..] == a[1..] + b;
      PlayConcat(Happen(s, a[0]), a[1..], b);
    }
  }

  lemma NewSubscription(s: Live, id: ChanId)
    requires LiveInv(s) && id !in s.bc.chans && !s.bc.closed
    ensures var s' := Happen(s, Viewer(Subscribe(id, true)));
            && s'.bc.published == s.bc.published && s'.hook == s.hook && s'.bc.closed == s.bc.closed
            && id in s'.bc.chans && s'.bc.chans[id].since == |s.bc.published| && s'.bc.chans[id].replay
  {
    NewChannelDelivers(s.bc.published, true);
    var c := Chan([], 0, [], 0, true, |s.bc.published|, |s.bc.published|);
    ReplayKeepsSubscription(c, s.bc.history);
  }

  lemma {:induction false} ReplayKeepsSubscription(c: Chan, fs: seq<Frame>)
    ensures OfferAll(c, fs).since == c.since && OfferAll(c, fs).replay == c.replay
    decreases |fs|
  {
    if fs != [] { ReplayKeepsSubscription(Offer(c, fs[0]), fs[1..]); }
  }

  /** In every run in which no output overtakes its header: a viewer that subscribed with
      replay after `before`, is still subscribed after `during` and lost nothing, records,
      of the channel it locked onto, exactly the payloads of the data packets that the
      upstream sent on it since the subscription, in order; without a header it records
      nothing, and then no output was published since. */
  lemma ViewerRecordsThePackets(before: seq<Event>, during: seq<Event>, id: ChanId, s: Live, fs: seq<Frame>)
    requires NeverOvertakes(OPENING, before + ([Viewer(Subscribe(id, true))] + during))
    requires s == Play(OPENING, before + ([Viewer(Subscribe(id, true))] + during))
    requires id !in Play(OPENING, before).bc.chans && !Play(OPENING, before).bc.closed
    requires id in s.bc.chans && s.bc.chans[id].closes == 0 && s.bc.chans[id].dropped == 0
    requires fs == Delivered(s.bc.chans[id])
    ensures var k := FirstHeader(ToMessages(fs));
            var joined := Happen(Play(OPENING, before), Viewer(Subscribe(id, true)));
            && (k < |fs| ==> OutputLines(HandleAll(IDLE, ToMessages(fs)).written) == Payloads(joined, during, fs[k].channel))
            && (k == |fs| ==> HandleAll(IDLE, ToMessages(fs)).written == [] && forall c :: Payloads(joined, during, c) == [])
  {
    var es := before + ([Viewer(Subscribe(id, true))] + during);
    var s0 := Play(OPENING, before);
    var joined := Happen(s0, Viewer(Subscribe(id, true)));
    PlayKeepsInv(OPENING, before);
    PlayKeepsInv(OPENING, es);
    PlayConcat(OPENING, before, [Viewer(Subscribe(id, true))] + during);
    assert ([Viewer(Subscribe(id, true))] + during)[1..] == during;
    assert s == Play(joined, during);
    NewSubscription(s0, id);
    EventKeepsInv(s0, Viewer(Subscribe(id, true)));
    RunKeepsSubscription(joined, during, id);
    ViewerRecordsAllOutput(es, id);
    forall c ensures OutputOf(fs, c) == Payloads(joined, during, c) { DeliveredPayloads(joined, during, id, s, fs, c); }
    if FirstHeader(ToMessages(fs)) == |fs| {
      forall c ensures Payloads(joined, during, c) == [] { NoOutputNoPayload(fs, c); }
    }
  }

  lemma {:induction false} NoOutputNoPayload(fs: seq<Frame>, channel: nat)
    requires forall f :: f in fs ==> !f.Output?
    ensures OutputOf(fs, channel) == []
  {
    if fs != [] {
      assert fs[0] in fs;
      NoOutputNoPayload(fs[1..], channel);
    }
  }

  lemma DeliveredPayloads(joined: Live, during: seq<Event>, id: ChanId, s: Live, fs: seq<Frame>, channel: nat)
    requires LiveInv(joined) && s == Play(joined, during) && LiveInv(s) && id in s.bc.chans
    requires var c := s.bc.chans[id];
             c.closes == 0 && c.dropped == 0 && c.replay && c.since == |joined.bc.published| && fs == Delivered(c)
    ensures OutputOf(fs, channel) == Payloads(joined, during, channel)
  {
    var c := s.bc.chans[id];
    var published := s.bc.published;
    FullSubsequence(Delivered(c), Offered(published, c));
    var replay := LastHeaders(published[..c.since]);
    LastHeadersDistinct(published[..c.since]);
    NoOutputNoPayload(replay, channel);
    OutputConcat(replay, published[c.since..], channel);
    assert fs == replay + published[c.since..];
    RunPublishes(joined, during, channel);
  }
}
