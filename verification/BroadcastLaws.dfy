/** What every run of a broadcaster keeps. */
module BroadcastLaws {
  import opened Seqs
  import opened Broadcast

  predicate Span(published: seq<Frame>, c: Chan) {
    c.since <= End(published, c) <= |published|
  }

  /** A channel holds a subsequence of what it was offered, short by exactly the drops,
      and it dropped only with a full buffer. */
  predicate DeliveryInv(published: seq<Frame>, c: Chan) {
    && Span(published, c)
    && Subsequence(Delivered(c), Offered(published, c))
    && |Delivered(c)| + c.dropped == |Offered(published, c)|
    && |c.buf| <= CAPACITY
    && (c.dropped > 0 ==> |Delivered(c)| >= CAPACITY)
  }

  /** The subscribers are exactly the channels not yet closed; none is closed twice. */
  predicate OpenInv(b: State) {
    && b.subscribers <= b.chans.Keys
    && (forall id :: id in b.chans ==> b.chans[id].closes == if id in b.subscribers then 0 else 1)
    && (b.closed ==> b.subscribers == {})
  }

  predicate Inv(b: State) {
    && !b.panicked
    && OpenInv(b)
    && b.history == LastHeaders(b.published)
    && (forall id :: id in b.chans ==> DeliveryInv(b.published, b.chans[id]))
  }

  // ----- one channel -------------------------------------------------------

  lemma OfferedGrows(published: seq<Frame>, f: Frame, c: Chan)
    requires Span(published, c)
    ensures Span(published + [f], c)
    ensures c.closes > 0 ==> Offered(published + [f], c) == Offered(published, c)
    ensures c.closes == 0 ==> Offered(published + [f], c) == Offered(published, c) + [f]
  {
    var more := published + [f];
    assert more[..c.since] == published[..c.since];
    assert more[c.since..End(published, c)] == published[c.since..End(published, c)];
    if c.closes == 0 {
      assert more[c.since..] == published[c.since..] + [f];
    }
  }

  lemma OfferDelivers(c: Chan, f: Frame)
    requires c.closes == 0
    ensures Delivered(Offer(c, f)) == Delivered(c) || Delivered(Offer(c, f)) == Delivered(c) + [f]
    ensures Delivered(Offer(c, f)) == Delivered(c) <==> |c.buf| >= CAPACITY
  {
    assert |c.buf| < CAPACITY ==> Delivered(Offer(c, f)) == Delivered(c) + [f];
  }

  lemma OfferKeepsDelivery(published: seq<Frame>, f: Frame, c: Chan)
    requires DeliveryInv(published, c) && c.closes == 0
    ensures DeliveryInv(published + [f], Offer(c, f))
  {
    OfferedGrows(published, f, c);
    OfferDelivers(c, f);
    SubsequenceAppend(Delivered(c), Offered(published, c), f);
  }

  lemma ClosedKeepsDelivery(published: seq<Frame>, f: Frame, c: Chan)
    requires DeliveryInv(published, c) && c.closes > 0
    ensures DeliveryInv(published + [f], c)
  {
    OfferedGrows(published, f, c);
  }

  lemma ShutKeepsDelivery(published: seq<Frame>, c: Chan)
    requires DeliveryInv(published, c) && c.closes == 0
    ensures DeliveryInv(published, Shut(c, |published|))
  {
    assert Delivered(Shut(c, |published|)) == Delivered(c);
  }

  lemma ReceiveKeepsDelivery(published: seq<Frame>, c: Chan)
    requires DeliveryInv(published, c) && c.buf != []
    ensures DeliveryInv(published, c.(buf := c.buf[1..], received := c.received + [c.buf[0]]))
  {
    assert Delivered(c.(buf := c.buf[1..], received := c.received + [c.buf[0]])) == Delivered(c);
  }

  /** Progress of the replay loop: `done` of `done + rest` has been offered. */
  lemma {:induction false} ReplayDelivers(c: Chan, done: seq<Frame>, rest: seq<Frame>)
    requires c.closes == 0 && |c.buf| <= CAPACITY
    requires Subsequence(Delivered(c), done) && |Delivered(c)| + c.dropped == |done|
    requires c.dropped > 0 ==> |Delivered(c)| >= CAPACITY
    ensures var r := OfferAll(c, rest);
            && r.closes == 0 && |r.buf| <= CAPACITY && r.since == c.since && r.replay == c.replay
            && Subsequence(Delivered(r), done + rest) && |Delivered(r)| + r.dropped == |done + rest|
            && (r.dropped > 0 ==> |Delivered(r)| >= CAPACITY)
    decreases |rest|
  {
    if rest == [] {
      assert done + rest == done;
    } else {
      OfferDelivers(c, rest[0]);
      SubsequenceAppend(Delivered(c), done, rest[0]);
      ReplayDelivers(Offer(c, rest[0]), done + [rest[0]], rest[1..]);
      assert done + [rest[0]] + rest[1..] == done + rest;
    }
  }

  lemma NewChannelDelivers(published: seq<Frame>, replay: bool)
    ensures var c := Chan([], 0, [], 0, replay, |published|, |published|);
            var r := if replay then OfferAll(c, LastHeaders(published)) else c;
            r.closes == 0 && DeliveryInv(published, r)
  {
    var c := Chan([], 0, [], 0, replay, |published|, |published|);
    assert Delivered(c) == [];
    if replay {
      ReplayDelivers(c, [], LastHeaders(published));
      var r := OfferAll(c, LastHeaders(published));
      assert published[..|published|] == published;
      assert Offered(published, r) == [] + LastHeaders(published);
    }
  }

  // ----- every step --------------------------------------------------------

  lemma PublishKeepsInv(b: State, f: Frame)
    requires Inv(b)
    ensures Inv(DoPublish(b, f))
  {
    if !b.closed {
      LastHeadersAppend(b.published, f);
      var after := DoPublish(b, f);
      forall id | id in after.chans ensures DeliveryInv(after.published, after.chans[id]) {
        if id in b.subscribers {
          OfferKeepsDelivery(b.published, f, b.chans[id]);
        } else {
          ClosedKeepsDelivery(b.published, f, b.chans[id]);
        }
      }
    }
  }

  lemma SubscribeKeepsInv(b: State, id: ChanId, replay: bool)
    requires Inv(b)
    ensures Inv(DoSubscribe(b, id, replay))
  {
    if id !in b.chans {
      NewChannelDelivers(b.published, replay);
      var gone := Chan([], 1, [], 0, false, |b.published|, |b.published|);
      assert Offered(b.published, gone) == [] == Delivered(gone);
    }
  }

  lemma UnsubscribeKeepsInv(b: State, id: ChanId)
    requires Inv(b)
    ensures Inv(DoUnsubscribe(b, id))
  {
    if id in b.subscribers { ShutKeepsDelivery(b.published, b.chans[id]); }
  }

  lemma ReceiveKeepsInv(b: State, id: ChanId)
    requires Inv(b)
    ensures Inv(DoReceive(b, id))
  {
    if id in b.chans && b.chans[id].buf != [] { ReceiveKeepsDelivery(b.published, b.chans[id]); }
  }

  lemma CloseKeepsInv(b: State)
    requires Inv(b)
    ensures Inv(DoClose(b))
  {
    var after := DoClose(b);
    forall id | id in after.chans ensures DeliveryInv(after.published, after.chans[id]) {
      if id in b.subscribers { ShutKeepsDelivery(b.published, b.chans[id]); }
    }
  }

  lemma StepKeepsInv(b: State, step: Step)
    requires Inv(b)
    ensures Inv(Next(b, step))
  {
    match step
    case Publish(f) => PublishKeepsInv(b, f);
    case Subscribe(id, replay) => SubscribeKeepsInv(b, id, replay);
    case Unsubscribe(id) => UnsubscribeKeepsInv(b, id);
    case Receive(id) => ReceiveKeepsInv(b, id);
    case Close => CloseKeepsInv(b);
  }

  lemma {:induction false} RunKeepsInv(b: State, steps: seq<Step>)
    requires Inv(b)
    ensures Inv(Run(b, steps))
    decreases |steps|
  {
    if steps != [] {
      StepKeepsInv(b, steps[0]);
      RunKeepsInv(Next(b, steps[0]), steps[1..]);
    }
  }

  // ----- main results ------------------------------------------------------

  /** After every run the in-place filtered history is the last header of each channel,
      ordered by last publish: a frame is in it exactly when it was published as a header
      and no later header of its channel was, and no channel occurs twice. */
  lemma HistoryIsLastHeaders(steps: seq<Step>)
    ensures var b := Run(START, steps);
            && b.history == LastHeaders(b.published)
            && (forall c :: HasHeader(b.history, c) <==> HasHeader(b.published, c))
            && (forall i, j :: 0 <= i < j < |b.history| ==> b.history[i].channel != b.history[j].channel)
  {
    RunKeepsInv(START, steps);
    var b := Run(START, steps);
    forall c ensures HasHeader(b.history, c) <==> HasHeader(b.published, c) {
      LastHeadersCover(b.published, c);
    }
    LastHeadersDistinct(b.published);
  }

  lemma {:induction false} LastHeadersCover(fs: seq<Frame>, channel: nat)
    ensures HasHeader(LastHeaders(fs), channel) <==> HasHeader(fs, channel)
  {
    if fs != [] {
      var rest := fs[1..];
      LastHeadersCover(rest, channel);
      HasHeaderPrepend(fs[0], rest, channel);
      assert fs == [fs[0]] + rest;
      if fs[0].Header? && !HasHeader(rest, fs[0].channel) { HasHeaderPrepend(fs[0], LastHeaders(rest), channel); }
      else { assert LastHeaders(fs) == LastHeaders(rest); }
    }
  }

  lemma HasHeaderPrepend(f: Frame, fs: seq<Frame>, channel: nat)
    ensures HasHeader([f] + fs, channel) <==> (f.Header? && f.channel == channel) || HasHeader(fs, channel)
  {
    var more := [f] + fs;
    if f.Header? && f.channel == channel { assert more[0] == f; }
    if HasHeader(fs, channel) {
      var i :| 0 <= i < |fs| && fs[i].Header? && fs[i].channel == channel;
      assert more[i + 1] == fs[i];
    }
  }

  lemma {:induction false} LastHeadersDistinct(fs: seq<Frame>)
    ensures var r := LastHeaders(fs); forall i, j :: 0 <= i < j < |r| ==> r[i].channel != r[j].channel
    ensures forall f :: f in LastHeaders(fs) ==> f.Header?
  {
    if fs != [] {
      LastHeadersDistinct(fs[1..]);
      var tail := LastHeaders(fs[1..]);
      forall k | 0 <= k < |tail| ensures HasHeader(fs[1..], tail[k].channel) {
        assert tail[k] in tail;
        LastHeadersCover(fs[1..], tail[k].channel);
      }
    }
  }

  /** In every run each subscriber gets, in order and without invention, part of its
      replay and the frames published during its subscription: all of them if nothing
      was dropped, and nothing is dropped while it was offered at most the 256 frames
      its buffer holds. */
  lemma SubscribersGetTheirFrames(steps: seq<Step>, id: ChanId)
    requires id in Run(START, steps).chans
    ensures var b := Run(START, steps);
            var c := b.chans[id];
            && Span(b.published, c)
            && Subsequence(Delivered(c), Offered(b.published, c))
            && |Delivered(c)| + c.dropped == |Offered(b.published, c)|
            && (c.dropped == 0 ==> Delivered(c) == Offered(b.published, c))
            && (|Offered(b.published, c)| <= CAPACITY ==> c.dropped == 0)
  {
    RunKeepsInv(START, steps);
    var b := Run(START, steps);
    var c := b.chans[id];
    FullSubsequence(Delivered(c), Offered(b.published, c));
  }

  /** In every run no channel is closed twice and none is sent to after its close; once
      the broadcaster is closed every channel ever handed out is closed. */
  lemma NoPanicAndClosedOnce(steps: seq<Step>)
    ensures var b := Run(START, steps);
            && !b.panicked
            && (forall id :: id in b.chans ==> b.chans[id].closes == if id in b.subscribers then 0 else 1)
            && (b.closed ==> forall id :: id in b.chans ==> b.chans[id].closes == 1)
  {
    RunKeepsInv(START, steps);
  }
}
