/** The broadcaster of one live session: frames fan out to subscribers over bounded
    channels, and the last header of each SSH channel is kept for late joiners. Every
    operation runs under the broadcaster's mutex and so is one step. */
module Broadcast {
  import opened Seqs
  import opened Wire

  datatype Frame =
    | Header(channel: nat, width: nat, height: nat, env: map<Bytes, Bytes>)
    | Output(channel: nat, data: Bytes)
    | Input(channel: nat, data: Bytes)
    | Resize(channel: nat, width: nat, height: nat)

  type ChanId = nat

  const CAPACITY: nat := 256

  /** One subscriber's Go channel. `closes` counts close calls. `received`, `dropped`,
      `replay`, `since` and `until` are history: frames taken out, frames lost, whether
      headers were replayed, and the span of publishes made during the subscription. */
  datatype Chan = Chan(
    buf: seq<Frame>,
    closes: nat,
    received: seq<Frame>,
    dropped: nat,
    replay: bool,
    since: nat,
    until: nat)

  /** `published` is history: the frames accepted by Publish. `panicked` records a send on
      a closed channel or a second close. */
  datatype State = State(
    history: seq<Frame>,
    subscribers: set<ChanId>,
    chans: map<ChanId, Chan>,
    closed: bool,
    published: seq<Frame>,
    panicked: bool)

  datatype Step =
    | Publish(frame: Frame)
    | Subscribe(id: ChanId, replay: bool)
    | Unsubscribe(id: ChanId)
    | Receive(id: ChanId)
    | Close

  const START := State([], {}, map[], false, [], false)

  /** A non-blocking send on an open channel: the frame is lost when the buffer is full. */
  function Enqueue(buf: seq<Frame>, f: Frame): seq<Frame> {
    if |buf| < CAPACITY then buf + [f] else buf
  }

  function Offer(c: Chan, f: Frame): Chan {
    if c.closes > 0 then c
    else c.(buf := Enqueue(c.buf, f), dropped := if |c.buf| < CAPACITY then c.dropped else c.dropped + 1)
  }

  function OfferAll(c: Chan, fs: seq<Frame>): Chan
    decreases |fs|
  {
    if fs == [] then c else OfferAll(Offer(c, fs[0]), fs[1..])
  }

  function Shut(c: Chan, now: nat): Chan {
    c.(closes := c.closes + 1, until := now)
  }

  function OtherChannel(channel: nat): Frame -> bool {
    (h: Frame) => h.channel != channel
  }

  function Remember(history: seq<Frame>, f: Frame): seq<Frame> {
    if f.Header? then Filter(history, OtherChannel(f.channel)) + [f] else history
  }

  predicate AnyClosed(chans: map<ChanId, Chan>, ids: set<ChanId>) {
    exists id :: id in ids && id in chans && chans[id].closes > 0
  }

  function DoPublish(b: State, f: Frame): State {
    if b.closed then b
    else b.(history := Remember(b.history, f),
            chans := map id | id in b.chans :: if id in b.subscribers then Offer(b.chans[id], f) else b.chans[id],
            published := b.published + [f],
            panicked := b.panicked || AnyClosed(b.chans, b.subscribers))
  }

  /** The new channel is a fresh allocation: an identity already in use is no step. */
  function DoSubscribe(b: State, id: ChanId, replay: bool): State {
    var now := |b.published|;
    if id in b.chans then b
    else if b.closed then b.(chans := b.chans[id := Chan([], 1, [], 0, false, now, now)])
    else
      var c := Chan([], 0, [], 0, replay, now, now);
      b.(subscribers := b.subscribers + {id},
         chans := b.chans[id := if replay then OfferAll(c, b.history) else c])
  }

  function DoUnsubscribe(b: State, id: ChanId): State {
    if id !in b.subscribers || id !in b.chans then b
    else b.(subscribers := b.subscribers - {id},
            chans := b.chans[id := Shut(b.chans[id], |b.published|)],
            panicked := b.panicked || b.chans[id].closes > 0)
  }

  function DoReceive(b: State, id: ChanId): State {
    if id !in b.chans || b.chans[id].buf == [] then b
    else
      var c := b.chans[id];
      b.(chans := b.chans[id := c.(buf := c.buf[1..], received := c.received + [c.buf[0]])])
  }

  function DoClose(b: State): State {
    if b.closed then b
    else b.(closed := true,
            subscribers := {},
            chans := map id | id in b.chans :: if id in b.subscribers then Shut(b.chans[id], |b.published|) else b.chans[id],
            panicked := b.panicked || AnyClosed(b.chans, b.subscribers))
  }

  function Next(b: State, step: Step): State {
    match step
    case Publish(f) => DoPublish(b, f)
    case Subscribe(id, replay) => DoSubscribe(b, id, replay)
    case Unsubscribe(id) => DoUnsubscribe(b, id)
    case Receive(id) => DoReceive(b, id)
    case Close => DoClose(b)
  }

  function Run(b: State, steps: seq<Step>): State
    decreases |steps|
  {
    if steps == [] then b else Run(Next(b, steps[0]), steps[1..])
  }

  // ----- what the history and a subscription mean --------------------------

  predicate HasHeader(fs: seq<Frame>, channel: nat) {
    exists i :: 0 <= i < |fs| && fs[i].Header? && fs[i].channel == channel
  }

  /** The headers that no later header of the same channel supersedes, in publish order. */
  function LastHeaders(fs: seq<Frame>): seq<Frame> {
    if fs == [] then []
    else (if fs[0].Header? && !HasHeader(fs[1..], fs[0].channel) then [fs[0]] else []) + LastHeaders(fs[1..])
  }

  function End(published: seq<Frame>, c: Chan): nat {
    if c.closes > 0 then c.until else |published|
  }

  /** What a subscriber is offered: the replay, then every frame published until its
      channel is closed. */
  function Offered(published: seq<Frame>, c: Chan): seq<Frame>
    requires c.since <= End(published, c) <= |published|
  {
    (if c.replay then LastHeaders(published[..c.since]) else []) + published[c.since..End(published, c)]
  }

  function Delivered(c: Chan): seq<Frame> {
    c.received + c.buf
  }

  // ----- sequence facts ----------------------------------------------------

  lemma {:induction false} SubsequenceAppend<T>(small: seq<T>, big: seq<T>, x: T)
    requires Subsequence(small, big)
    ensures Subsequence(small, big + [x])
    ensures Subsequence(small + [x], big + [x])
    decreases |big|
  {
    if big == [] {
      assert small + [x] == [x];
    } else {
      var more := big + [x];
      assert more[1..] == big[1..] + [x] && more[0] == big[0];
      if small == [] {
        SubsequenceAppend(small, big[1..], x);
        assert small + [x] == [x];
        SubsequenceOfSelf<T>([]);
        if x == big[0] { assert [x][1..] == []; }
      } else if small[0] == big[0] {
        SubsequenceAppend(small[1..], big[1..], x);
        assert (small + [x])[1..] == small[1..] + [x];
      } else {
        SubsequenceAppend(small, big[1..], x);
      }
    }
  }

  lemma {:induction false} SubsequenceOfSelf<T>(s: seq<T>)
    ensures Subsequence(s, s)
  {
    if s != [] { SubsequenceOfSelf(s[1..]); }
  }

  lemma {:induction false} FullSubsequence<T>(small: seq<T>, big: seq<T>)
    requires Subsequence(small, big)
    ensures |small| <= |big|
    ensures |small| == |big| ==> small == big
    decreases |big|
  {
    if small != [] {
      if small[0] == big[0] {
        FullSubsequence(small[1..], big[1..]);
        assert small == [small[0]] + small[1..] && big == [big[0]] + big[1..];
      } else {
        FullSubsequence(small, big[1..]);
      }
    }
  }

  lemma {:induction false} LastHeadersAppend(fs: seq<Frame>, f: Frame)
    ensures LastHeaders(fs + [f]) == Remember(LastHeaders(fs), f)
  {
    var more := fs + [f];
    if fs == [] {
      assert more[1..] == [];
    } else {
      assert more[1..] == fs[1..] + [f] && more[0] == fs[0];
      LastHeadersAppend(fs[1..], f);
      HasHeaderAppend(fs[1..], f, fs[0].channel);
      if f.Header? {
        FilterConcat(if fs[0].Header? && !HasHeader(fs[1..], fs[0].channel) then [fs[0]] else [],
                     LastHeaders(fs[1..]), OtherChannel(f.channel));
      }
    }
  }

  lemma HasHeaderAppend(fs: seq<Frame>, f: Frame, channel: nat)
    ensures HasHeader(fs + [f], channel) <==> HasHeader(fs, channel) || (f.Header? && f.channel == channel)
  {
    var more := fs + [f];
    if HasHeader(fs, channel) {
      var i :| 0 <= i < |fs| && fs[i].Header? && fs[i].channel == channel;
      assert more[i] == fs[i];
    }
    if f.Header? && f.channel == channel { assert more[|fs|] == f; }
  }
}
