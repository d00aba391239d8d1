/** The broadcaster as the object it is: a set of subscriber channels, a header slice that
    is filtered in place, and a closed flag. Sending and closing demand an open channel:
    that the methods verify means that none of Go's channel panics can occur. */
module BroadcasterObject {
  import opened Seqs
  import opened Broadcast

  /** A buffered Go channel of frames. */
  class FrameChan {
    var buf: seq<Frame>
    var closed: bool

    constructor ()
      ensures buf == [] && !closed
    {
      buf, closed := [], false;
    }

    method TrySend(f: Frame)
      requires !closed
      modifies this
      ensures buf == Enqueue(old(buf), f) && !closed
    {
      if |buf| < CAPACITY {
        buf := buf + [f];
      }
    }

    method Close()
      requires !closed
      modifies this
      ensures closed && buf == old(buf)
    {
      closed := true;
    }
  }

  function Replayed(history: seq<Frame>): seq<Frame> {
    if |history| <= CAPACITY then history else history[..CAPACITY]
  }

  /** The replay loop of the value model fills the buffer with the oldest headers. */
  lemma {:induction false} ReplayFillsBuffer(c: Chan, fs: seq<Frame>)
    requires c.closes == 0 && |c.buf| <= CAPACITY
    ensures OfferAll(c, fs).buf == Replayed(c.buf + fs)
    decreases |fs|
  {
    if fs == [] {
      assert c.buf + fs == c.buf;
    } else {
      ReplayFillsBuffer(Offer(c, fs[0]), fs[1..]);
      if |c.buf| < CAPACITY {
        assert c.buf + [fs[0]] + fs[1..] == c.buf + fs;
      } else {
        assert Replayed(c.buf + fs) == c.buf;
        assert Replayed(c.buf + fs[1..]) == c.buf;
      }
    }
  }

  class Broadcaster {
    var subscribers: set<FrameChan>
    var history: array<Frame>
    var used: nat
    var closed: bool

    ghost predicate Valid()
      reads this, subscribers
    {
      && used <= history.Length
      && (closed ==> subscribers == {})
      && (forall c :: c in subscribers ==> !c.closed && |c.buf| <= CAPACITY)
    }

    ghost function History(): seq<Frame>
      reads this, history
      requires used <= history.Length
    {
      history[..used]
    }

    /** The effect of publishing a frame, or of publishing nothing. */
    twostate predicate Published(f: Option<Frame>)
      requires old(used <= history.Length) && used <= history.Length
      reads this, history, subscribers
    {
      && subscribers == old(subscribers) && closed == old(closed)
      && History() == (if f.None? || closed then old(History()) else Remember(old(History()), f.value))
      && forall c :: c in subscribers ==> c.buf == if f.None? then old(c.buf) else Enqueue(old(c.buf), f.value)
    }

    constructor ()
      ensures Valid() && subscribers == {} && !closed && History() == [] && fresh(history)
    {
      subscribers, used, closed := {}, 0, false;
      history := new Frame[0];
    }

    /** A fresh channel, filled with the replayed headers; closed at once when the
        broadcaster is. */
    method Subscribe(replay: bool) returns (ch: FrameChan)
      requires Valid()
      modifies this`subscribers
      ensures Valid() && fresh(ch) && History() == old(History())
      ensures subscribers == if closed then old(subscribers) else old(subscribers) + {ch}
      ensures ch.closed == closed
      ensures ch.buf == if replay && !closed then Replayed(History()) else []
    {
      ch := new FrameChan();
      if closed {
        ch.Close();
        return;
      }
      if replay {
        for i := 0 to used
          invariant unchanged(this) && unchanged(history) && unchanged(subscribers)
          invariant ch.buf == Replayed(history[..i]) && !ch.closed
        {
          assert history[..i + 1] == history[..i] + [history[i]];
          ch.TrySend(history[i]);
        }
      }
      subscribers := subscribers + {ch};
    }

    method HasSubscribers() returns (any: bool)
      requires Valid()
      ensures any <==> subscribers != {}
    {
      any := !closed && |subscribers| > 0;
    }

    /** Calling it again, or after Close, does nothing. */
    method Unsubscribe(ch: FrameChan)
      requires Valid()
      modifies this`subscribers, ch
      ensures Valid() && subscribers == old(subscribers) - {ch} && History() == old(History())
      ensures ch.closed == (old(ch.closed) || ch in old(subscribers)) && ch.buf == old(ch.buf)
    {
      if ch in subscribers {
        subscribers := subscribers - {ch};
        ch.Close();
      }
    }

    method Append(f: Frame)
      requires used <= history.Length
      modifies this`history, this`used, history
      ensures used <= history.Length && History() == old(History()) + [f]
      ensures history == old(history) || fresh(history)
    {
      if used == history.Length {
        var grown := new Frame[2 * used + 1](_ => f);
        for i := 0 to used
          invariant unchanged(this) && unchanged(history)
          invariant grown[..i] == history[..i]
        {
          grown[i] := history[i];
        }
        history := grown;
      }
      history[used] := f;
      used := used + 1;
      assert history[..used - 1] == old(history[..used]);
    }

    /** The history keeps the last header of each channel. */
    method Note(f: Frame)
      requires used <= history.Length
      modifies this`history, this`used, history
      ensures used <= history.Length && History() == Remember(old(History()), f)
      ensures history == old(history) || fresh(history)
    {
      if f.Header? {
        used := FilterInPlace(history, used, OtherChannel(f.channel));
        Append(f);
      }
    }

    method FanOut(f: Frame)
      requires forall c :: c in subscribers ==> !c.closed
      modifies subscribers
      ensures forall c :: c in subscribers ==> !c.closed && c.buf == Enqueue(old(c.buf), f)
    {
      var todo := subscribers;
      while todo != {}
        invariant todo <= subscribers
        invariant forall c :: c in subscribers ==> !c.closed && c.buf == if c in todo then old(c.buf) else Enqueue(old(c.buf), f)
        decreases |todo|
      {
        var c :| c in todo;
        c.TrySend(f);
        todo := todo - {c};
      }
    }

    method Publish(f: Frame)
      requires Valid()
      modifies this, history, subscribers
      ensures Valid() && Published(Some(f))
      ensures history == old(history) || fresh(history)
    {
      if closed {
        return;
      }
      Note(f);
      FanOut(f);
    }

    method HasHeader() returns (any: bool)
      requires Valid()
      ensures any <==> History() != []
    {
      any := used > 0;
    }

    method Close()
      requires Valid()
      modifies this`subscribers, this`closed, subscribers
      ensures Valid() && closed && subscribers == {} && History() == old(History())
      ensures forall c :: c in old(subscribers) ==> c.closed && c.buf == old(c.buf)
    {
      if closed {
        return;
      }
      closed := true;
      var todo := subscribers;
      while todo != {}
        invariant todo <= subscribers
        invariant forall c :: c in subscribers ==> c.closed == (c !in todo) && c.buf == old(c.buf)
        modifies subscribers
        decreases |todo|
      {
        var c :| c in todo;
        c.Close();
        todo := todo - {c};
      }
      subscribers := {};
    }
  }
}
