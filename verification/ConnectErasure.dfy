/** Connect attempts that never reach the start of their pipe leave no trace in what
    the sweeper decides: erasing all of them from a run, with all their traffic,
    changes no sweep. */
module ConnectErasure {
  import opened Seqs
  import opened Registry
  import opened Connect
  import L = RegistryLaws

  /** The pipes of the attempts to erase. */
  type Hidden = set<ChanId>

  predicate IsHidden(p: Hidden, e: Event) {
    match e
    case Registrar(_) => false
    case PipeStart(_) => false
    case Track(ch, _, _) => ch in p
    case Offer(ch) => ch in p
    case Traffic(ch) => ch in p
    case FinishTouch(ch) => ch in p
    case Close(ch) => ch in p
  }

  /** A hidden pipe takes the table entry of a visible one: a retry under the same
      UniqueID while the earlier pipe still waits for its start. */
  predicate Displaces(p: Hidden, s: Sys, e: Event) {
    && e.Offer? && e.ch in p && e.ch in s.chans && s.chans[e.ch].uid != ""
    && s.chans[e.ch].uid in s.pipes && s.pipes[s.chans[e.ch].uid] !in p
  }

  /** The start of a pipe that reaches a hidden one. */
  predicate StartsHidden(p: Hidden, s: Sys, e: Event) {
    e.PipeStart? && e.uid in s.pipes && s.pipes[e.uid] in p
  }

  /** In the run from `s` no hidden pipe ever starts, and none displaces a visible one.
      The UniqueIDs of hidden pipes may be used again, by pipes that do start. */
  predicate NeverStarts(p: Hidden, s: Sys, events: seq<Event>)
    decreases |events|
  {
    events != [] ==>
      !StartsHidden(p, s, events[0]) && !Displaces(p, s, events[0]) && NeverStarts(p, Next(s, events[0]), events[1..])
  }

  function Erase(p: Hidden, events: seq<Event>): seq<Event> {
    if events == [] then []
    else (if IsHidden(p, events[0]) then [] else [events[0]]) + Erase(p, events[1..])
  }

  /** What a sweep decides: evicted tunnels, expired records, connections closed, and
      the live entries and store it leaves. */
  datatype Outcome = Outcome(idle: set<Guid>, expired: set<Guid>, conns: set<ConnId>,
                             live: map<Guid, Entry>, store: Option<map<Guid, Record>>)

  function SweepOutcome(s: Sys, op: L.Op): Outcome
    requires op.OpEvict?
  {
    var sweep := EvictIdle(s.reg, s.now - op.idle, op.listFails, op.failFirst, op.failSecond);
    Outcome(sweep.idle, sweep.expired, sweep.removal.conns, sweep.removal.reg.live, sweep.removal.reg.store)
  }

  /** The outcomes of all sweeps of a run, in order. */
  function Outcomes(s: Sys, events: seq<Event>): seq<Outcome>
    decreases |events|
  {
    if events == [] then []
    else
      var e := events[0];
      (if e.Registrar? && e.op.OpEvict? then [SweepOutcome(s, e.op)] else []) + Outcomes(Next(s, e), events[1..])
  }

  // ----- the relation between a run and its erasure ------------------------

  /** The tracked channels as they look without the hidden pipes. */
  function Visible(channels: map<Guid, set<ChanId>>, hidden: set<ChanId>): map<Guid, set<ChanId>> {
    map g | g in channels && channels[g] - hidden != {} :: channels[g] - hidden
  }

  function HideReg(p: Hidden, r: Reg): Reg {
    r.(channels := Visible(r.channels, p))
  }

  /** The table without the entries that lead to hidden pipes. */
  function VisiblePipes(pipes: map<string, ChanId>, hidden: Hidden): map<string, ChanId> {
    map uid | uid in pipes && pipes[uid] !in hidden :: pipes[uid]
  }

  /** The state without every trace of the erased attempts. */
  function Hide(p: Hidden, s: Sys): Sys {
    s.(reg := HideReg(p, s.reg), pipes := VisiblePipes(s.pipes, p), chans := s.chans - p)
  }

  /** The erased attempts are unauthenticated. */
  predicate Quiet(p: Hidden, s: Sys) {
    && (forall ch :: ch in s.chans && ch in p ==> !s.chans[ch].authed && s.chans[ch].pending == 0)
    && (forall uid :: uid in s.pipes ==> s.pipes[uid] in s.chans)
  }

  lemma HideTrack(p: Hidden, r: Reg, guid: Guid, ch: ChanId)
    ensures var hidden := HideReg(p, r);
            HideReg(p, TrackChannel(r, guid, ch).0)
            == if ch in p then hidden else TrackChannel(hidden, guid, ch).0
  {
    var hidden := HideReg(p, r);
    assert Tracked(hidden, guid) == Tracked(r, guid) - p;
    var t := TrackChannel(r, guid, ch).0;
    if ch in p {
      assert (Tracked(r, guid) + {ch}) - p == Tracked(r, guid) - p;
      assert Visible(t.channels, p) == hidden.channels;
    } else if guid in r.live {
      assert (Tracked(r, guid) + {ch}) - p == Tracked(hidden, guid) + {ch};
      assert Visible(t.channels, p) == TrackChannel(hidden, guid, ch).0.channels;
    }
  }

  lemma HideUntrack(p: Hidden, r: Reg, guid: Guid, ch: ChanId)
    ensures var hidden := HideReg(p, r);
            HideReg(p, UntrackChannel(r, guid, ch))
            == if ch in p then hidden else UntrackChannel(hidden, guid, ch)
  {
    var hidden := HideReg(p, r);
    var t := UntrackChannel(r, guid, ch);
    var left := Tracked(r, guid) - {ch};
    assert Tracked(hidden, guid) == Tracked(r, guid) - p;
    if ch in p {
      assert left - p == Tracked(r, guid) - p;
      assert Visible(t.channels, p) == hidden.channels;
    } else {
      assert left - p == Tracked(hidden, guid) - {ch};
      assert Visible(t.channels, p) == UntrackChannel(hidden, guid, ch).channels;
    }
  }

  lemma VisibleMinus(channels: map<Guid, set<ChanId>>, hidden: set<ChanId>, gone: set<Guid>)
    ensures Visible(channels - gone, hidden) == Visible(channels, hidden) - gone
  {
  }

  lemma HideRemove(p: Hidden, r: Reg, guid: Guid, fails: bool)
    ensures HideReg(p, Remove(r, guid, fails).reg) == Remove(HideReg(p, r), guid, fails).reg
  {
    VisibleMinus(r.channels, p, {guid});
  }

  lemma HideEvict(p: Hidden, r: Reg, cutoff: Time, lf: bool, ff: set<Guid>, fs: set<Guid>)
    ensures HideReg(p, EvictIdle(r, cutoff, lf, ff, fs).removal.reg) == EvictIdle(HideReg(p, r), cutoff, lf, ff, fs).removal.reg
  {
    VisibleMinus(r.channels, p, Idle(r, cutoff));
  }

  lemma HidePut(p: Hidden, r: Reg, rec: Record, conn: Option<ConnId>, now: Time, fails: bool)
    ensures HideReg(p, Put(r, rec, conn, now, fails).0) == Put(HideReg(p, r), rec, conn, now, fails).0
  {
  }

  lemma HideUpdates(p: Hidden, r: Reg, guid: Guid, key: string, allow: bool, fails: bool)
    ensures HideReg(p, UpdateConnectorKey(r, guid, key, fails).0) == UpdateConnectorKey(HideReg(p, r), guid, key, fails).0
    ensures HideReg(p, UpdateAllowPassword(r, guid, allow, fails).0) == UpdateAllowPassword(HideReg(p, r), guid, allow, fails).0
  {
  }

  /** Registrar operations do not look at channels. */
  lemma HideRegistrar(p: Hidden, r: Reg, now: Time, op: L.Op)
    requires !op.OpTrack? && !op.OpUntrack?
    ensures HideReg(p, L.Apply(L.Timed(r, now), op).reg) == L.Apply(L.Timed(HideReg(p, r), now), op).reg
    ensures L.Apply(L.Timed(r, now), op).now == L.Apply(L.Timed(HideReg(p, r), now), op).now
  {
    match op
    case OpPut(rec, conn, fails) => HidePut(p, r, rec, conn, now, fails);
    case OpUpdateKey(g, key, fails) => HideUpdates(p, r, g, key, true, fails);
    case OpUpdatePassword(g, allow, fails) => HideUpdates(p, r, g, "", allow, fails);
    case OpRemove(g, fails) => HideRemove(p, r, g, fails);
    case OpEvict(idle, lf, ff, fs) =>
      L.ApplyEvict(r, now, idle, lf, ff, fs);
      L.ApplyEvict(HideReg(p, r), now, idle, lf, ff, fs);
      HideEvict(p, r, now - idle, lf, ff, fs);
    case _ =>
  }

  /** A hidden event is invisible; any other does the same with and without the erased
      attempts. */
  ghost predicate Commutes(p: Hidden, s: Sys, e: Event) {
    Hide(p, Next(s, e)) == if IsHidden(p, e) then Hide(p, s) else Next(Hide(p, s), e)
  }

  lemma TrackCommutes(p: Hidden, s: Sys, ch: ChanId, guid: Guid, uid: string)
    requires Quiet(p, s)
    ensures Quiet(p, Next(s, Track(ch, guid, uid))) && Commutes(p, s, Track(ch, guid, uid))
  {
    HideTrack(p, s.reg, guid, ch);
    MinusAfterInsert(s.chans, ch, Chan(guid, uid, false, 0, 0, None), p);
  }

  lemma VisibleAfterStart(pipes: map<string, ChanId>, p: Hidden, uid: string)
    ensures VisiblePipes(pipes - {uid}, p) == VisiblePipes(pipes, p) - {uid}
    ensures uid in pipes && pipes[uid] in p ==> VisiblePipes(pipes - {uid}, p) == VisiblePipes(pipes, p)
  {
  }

  lemma VisibleAfterOffer(pipes: map<string, ChanId>, p: Hidden, uid: string, ch: ChanId)
    ensures ch !in p ==> VisiblePipes(pipes[uid := ch], p) == VisiblePipes(pipes, p)[uid := ch]
    ensures ch in p ==> (VisiblePipes(pipes[uid := ch], p) == VisiblePipes(pipes, p) <==> uid !in VisiblePipes(pipes, p))
  {
    if ch in p && uid in VisiblePipes(pipes, p) { assert uid !in VisiblePipes(pipes[uid := ch], p); }
  }

  lemma StartCommutes(p: Hidden, s: Sys, uid: string)
    requires Quiet(p, s)
    ensures Quiet(p, Next(s, PipeStart(uid))) <==> !StartsHidden(p, s, PipeStart(uid))
    ensures Commutes(p, s, PipeStart(uid))
  {
    if uid in s.pipes {
      var ch := s.pipes[uid];
      var c := s.chans[ch];
      VisibleAfterStart(s.pipes, p, uid);
      MinusAfterInsert(s.chans, ch, c.(authed := true, pending := c.pending + 1), p);
      assert ch in Next(s, PipeStart(uid)).chans;
    }
  }

  lemma CloseCommutes(p: Hidden, s: Sys, ch: ChanId)
    requires Quiet(p, s)
    ensures Quiet(p, Next(s, Close(ch))) && Commutes(p, s, Close(ch))
  {
    if ch in s.chans {
      HideUntrack(p, s.reg, s.chans[ch].guid, ch);
      VisibleAfterStart(s.pipes, p, s.chans[ch].uid);
    }
  }

  lemma TrafficCommutes(p: Hidden, s: Sys, ch: ChanId)
    requires Quiet(p, s)
    ensures Quiet(p, Next(s, Traffic(ch))) && Commutes(p, s, Traffic(ch))
  {
    if ch in s.chans { MinusAfterInsert(s.chans, ch, DoTraffic(s, s.chans[ch]), p); }
  }

  lemma TouchCommutes(p: Hidden, s: Sys, ch: ChanId)
    requires Quiet(p, s)
    ensures Quiet(p, Next(s, FinishTouch(ch))) && Commutes(p, s, FinishTouch(ch))
  {
    if ch in s.chans && s.chans[ch].pending > 0 {
      MinusAfterInsert(s.chans, ch, s.chans[ch].(pending := s.chans[ch].pending - 1), p);
    }
  }

  lemma OfferCommutes(p: Hidden, s: Sys, ch: ChanId)
    requires Quiet(p, s)
    ensures Quiet(p, Next(s, Offer(ch)))
    ensures Commutes(p, s, Offer(ch)) <==> !Displaces(p, s, Offer(ch))
  {
    if ch in s.chans && s.chans[ch].uid != "" { VisibleAfterOffer(s.pipes, p, s.chans[ch].uid, ch); }
  }

  /** One event is the same with and without the erased attempts, and leaves them
      unauthenticated, exactly when it neither starts a hidden pipe nor lets one displace
      a visible one. */
  lemma HideCommutesExactly(p: Hidden, s: Sys, e: Event)
    requires Quiet(p, s)
    ensures Quiet(p, Next(s, e)) && Commutes(p, s, e) <==> !StartsHidden(p, s, e) && !Displaces(p, s, e)
  {
    match e
    case Registrar(op) => if IsRegistrar(s, op) { HideRegistrar(p, s.reg, s.now, op); }
    case Track(ch, guid, uid) => TrackCommutes(p, s, ch, guid, uid);
    case Offer(ch) => OfferCommutes(p, s, ch);
    case PipeStart(uid) => StartCommutes(p, s, uid);
    case Traffic(ch) => TrafficCommutes(p, s, ch);
    case FinishTouch(ch) => TouchCommutes(p, s, ch);
    case Close(ch) => CloseCommutes(p, s, ch);
  }

  lemma SameSweep(p: Hidden, s: Sys, op: L.Op)
    requires op.OpEvict?
    ensures SweepOutcome(s, op) == SweepOutcome(Hide(p, s), op)
  {
    assert Idle(s.reg, s.now - op.idle) == Idle(Hide(p, s).reg, s.now - op.idle);
  }

  /** Erasing every attempt whose pipe never starts leaves every sweep of the run with
      the same evictions, expiries and closed connections, and the run with the same
      live tunnels and stored records. */
  lemma {:induction false} FailedAttemptsChangeNoSweep(p: Hidden, s: Sys, events: seq<Event>)
    requires Quiet(p, s) && NeverStarts(p, s, events)
    ensures Outcomes(s, events) == Outcomes(Hide(p, s), Erase(p, events))
    ensures Hide(p, Run(s, events)) == Run(Hide(p, s), Erase(p, events))
    decreases |events|
  {
    if events != [] {
      var e, rest := events[0], Erase(p, events[1..]);
      HideCommutesExactly(p, s, e);
      FailedAttemptsChangeNoSweep(p, Next(s, e), events[1..]);
      if e.Registrar? && e.op.OpEvict? { SameSweep(p, s, e.op); }
      if !IsHidden(p, e) {
        assert Erase(p, events) == [e] + rest && ([e] + rest)[1..] == rest;
      } else {
        assert Erase(p, events) == rest;
      }
    }
  }

  /** The same from a start, where there is nothing to hide yet: any number of attempts
      that never reach the start of their pipe, also under UniqueIDs whose retries do. */
  lemma FailedAttemptsNeverMatter(p: Hidden, store: Option<map<Guid, Record>>, maxTotal: nat, now: Time, events: seq<Event>)
    requires NeverStarts(p, Init(store, maxTotal, now), events)
    ensures var start := Init(store, maxTotal, now);
            && Outcomes(start, events) == Outcomes(start, Erase(p, events))
            && Run(start, events).reg.live == Run(start, Erase(p, events)).reg.live
            && Run(start, events).reg.store == Run(start, Erase(p, events)).reg.store
  {
    var start := Init(store, maxTotal, now);
    assert Hide(p, start) == start by {
      assert Visible(start.reg.channels, p) == start.reg.channels;
      assert VisiblePipes(start.pipes, p) == start.pipes && start.chans - p == start.chans;
    }
    FailedAttemptsChangeNoSweep(p, start, events);
  }
}
