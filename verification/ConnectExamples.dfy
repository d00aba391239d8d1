/** Runs of the connect side, from an empty start, that show where its promises end. */
module ConnectExamples {
  import opened Seqs
  import opened Registry
  import opened Connect
  import opened ConnectErasure
  import L = RegistryLaws

  lemma {:induction false} RunConcat(s: Sys, a: seq<Event>, b: seq<Event>)
    ensures Run(s, a + b) == Run(Run(s, a), b)
    decreases |a|
  {
    var all := a + b;
    if a == [] {
      assert all == b;
    } else {
      assert all[0] == a[0] && all[1..] == a[1..] + b;
      RunConcat(Next(s, a[0]), a[1..], b);
    }
  }

  lemma {:induction false} OutcomesConcat(s: Sys, a: seq<Event>, b: seq<Event>)
    ensures Outcomes(s, a + b) == Outcomes(s, a) + Outcomes(Run(s, a), b)
    decreases |a|
  {
    var all := a + b;
    if a == [] {
      assert all == b;
    } else {
      assert all[0] == a[0] && all[1..] == a[1..] + b;
      OutcomesConcat(Next(s, a[0]), a[1..], b);
      var now := if a[0].Registrar? && a[0].op.OpEvict? then [SweepOutcome(s, a[0].op)] else [];
      var mid, end := Outcomes(Next(s, a[0]), a[1..]), Outcomes(Run(Next(s, a[0]), a[1..]), b);
      assert now + (mid + end) == (now + mid) + end;
    }
  }

  predicate NoSweep(events: seq<Event>) {
    forall e :: e in events ==> !(e.Registrar? && e.op.OpEvict?)
  }

  lemma {:induction false} NoSweepNoOutcome(s: Sys, events: seq<Event>)
    requires NoSweep(events)
    ensures Outcomes(s, events) == []
    decreases |events|
  {
    if events != [] {
      assert events[0] in events;
      assert NoSweep(events[1..]);
      NoSweepNoOutcome(Next(s, events[0]), events[1..]);
    }
  }

  lemma {:induction false} EraseConcat(p: Hidden, a: seq<Event>, b: seq<Event>)
    ensures Erase(p, a + b) == Erase(p, a) + Erase(p, b)
    decreases |a|
  {
    var all := a + b;
    if a == [] {
      assert all == b;
    } else {
      assert all[0] == a[0] && all[1..] == a[1..] + b;
      EraseConcat(p, a[1..], b);
    }
  }

  lemma {:induction false} EraseUniform(p: Hidden, events: seq<Event>, hidden: bool)
    requires forall e :: e in events ==> IsHidden(p, e) == hidden
    ensures Erase(p, events) == if hidden then [] else events
    decreases |events|
  {
    if events != [] {
      assert events[0] in events;
      EraseUniform(p, events[1..], hidden);
      assert events == [events[0]] + events[1..];
    }
  }

  lemma RunFirst(s: Sys, e: Event, rest: seq<Event>)
    ensures Run(s, [e] + rest) == Run(Next(s, e), rest)
  {
    assert ([e] + rest)[1..] == rest;
  }

  lemma RunThree(s: Sys, e0: Event, e1: Event, e2: Event)
    ensures Run(s, [e0, e1, e2]) == Next(Next(Next(s, e0), e1), e2)
  {
    assert [e0, e1, e2] == [e0] + ([e1] + ([e2] + []));
    RunFirst(s, e0, [e1] + ([e2] + []));
    RunFirst(Next(s, e0), e1, [e2] + []);
    RunFirst(Next(Next(s, e0), e1), e2, []);
  }

  // ----- one tunnel, one pipe ----------------------------------------------

  function NewRecord(guid: Guid): Record {
    Record(guid, "", "", 1, "", "", "", false, 0, 0)
  }

  /** Register a tunnel, open a pipe through it and offer it for its start. */
  function Opening(guid: Guid, ch: ChanId, uid: string): seq<Event> {
    [Registrar(L.OpPut(NewRecord(guid), None, false)), Track(ch, guid, uid), Offer(ch)]
  }

  function Opened(now: Time, guid: Guid, ch: ChanId, uid: string): Sys {
    Sys(Reg(map[guid := Entry(NewRecord(guid).(lastActivity := now), None)], map[guid := {ch}], None, 0),
        now, {guid}, map[uid := ch], map[ch := Chan(guid, uid, false, 0, 0, None)])
  }

  lemma OpeningOpens(now: Time, guid: Guid, ch: ChanId, uid: string)
    requires uid != ""
    ensures Run(Init(None, 0, now), Opening(guid, ch, uid)) == Opened(now, guid, ch, uid)
  {
    var s := Init(None, 0, now);
    var es := Opening(guid, ch, uid);
    RunThree(s, es[0], es[1], es[2]);
    var s1 := Next(s, es[0]);
    assert s1.reg == Reg(map[guid := Entry(NewRecord(guid).(lastActivity := now), None)], map[], None, 0);
    assert Tracked(s1.reg, guid) + {ch} == {ch};
  }

  /** The same tunnel after `later`, its pipe started and its touch delivered in between. */
  function Started(now: Time, later: nat, guid: Guid, ch: ChanId, uid: string): Sys {
    Opened(now, guid, ch, uid).(now := now + later, pipes := map[], chans := map[ch := Chan(guid, uid, true, 0, 0, None)])
  }

  function Starting(ch: ChanId, uid: string, later: nat): seq<Event> {
    [PipeStart(uid), FinishTouch(ch), Registrar(L.OpTick(later))]
  }

  lemma StartingStarts(now: Time, later: nat, guid: Guid, ch: ChanId, uid: string)
    ensures Run(Opened(now, guid, ch, uid), Starting(ch, uid, later)) == Started(now, later, guid, ch, uid)
  {
    var s := Opened(now, guid, ch, uid);
    RunThree(s, PipeStart(uid), FinishTouch(ch), Registrar(L.OpTick(later)));
    var s1 := Next(s, PipeStart(uid));
    assert s1.pipes == map[] && s1.chans == map[ch := Chan(guid, uid, true, 0, 1, None)];
    var s2 := Next(s1, FinishTouch(ch));
    assert s2.reg == s.reg && s2.chans == map[ch := Chan(guid, uid, true, 0, 0, None)];
  }

  // ----- the undelivered touch ---------------------------------------------

  /** From an empty start: a tunnel with a started pipe is idle for longer than `idle`,
      then the pipe carries traffic, and a sweep before the touch is delivered evicts it. */
  lemma UndeliveredTouchFromStart(now: Time, idle: nat, guid: Guid, ch: ChanId, uid: string, s: Sys)
    requires uid != "" && now >= THROTTLE * SECOND
    requires s == Run(Init(None, 0, now), Opening(guid, ch, uid) + (Starting(ch, uid, idle + 1) + [Traffic(ch), Traffic(ch)]))
    ensures && ch in s.chans && s.chans[ch].guid == guid && guid in s.reg.live
            && s.chans[ch].authed && s.chans[ch].lastTraffic == Some(s.now) && s.chans[ch].pending > 0
            && guid !in EvictIdle(s.reg, s.now - idle, false, {}, {}).removal.reg.live
  {
    var traffic := [Traffic(ch), Traffic(ch)];
    var s1 := Started(now, idle + 1, guid, ch, uid);
    RunConcat(Init(None, 0, now), Opening(guid, ch, uid), Starting(ch, uid, idle + 1) + traffic);
    OpeningOpens(now, guid, ch, uid);
    RunConcat(Opened(now, guid, ch, uid), Starting(ch, uid, idle + 1), traffic);
    StartingStarts(now, idle + 1, guid, ch, uid);
    UndeliveredTouchDoesNotProtect(s1, ch, idle);
    TrafficKeepsTunnel(s1, ch);
  }

  lemma TrafficKeepsTunnel(s: Sys, ch: ChanId)
    requires ch in s.chans
    ensures var s' := Run(s, [Traffic(ch), Traffic(ch)]);
            && s'.reg == s.reg && ch in s'.chans && s'.chans[ch].guid == s.chans[ch].guid && s'.chans[ch].authed == s.chans[ch].authed
  {
    assert [Traffic(ch), Traffic(ch)][1..] == [Traffic(ch)];
    assert Run(Next(s, Traffic(ch)), [Traffic(ch)]) == Next(Next(s, Traffic(ch)), Traffic(ch));
  }

  // ----- the displaced pipe ------------------------------------------------

  /** A failed attempt that displaces the waiting pipe of the same UniqueID takes the
      start away from it: when the attempt is closed its entry goes, and the start then
      finds no pipe, where without the attempt the waiting pipe would be authenticated
      and its tunnel touched. */
  lemma DisplacedPipeMissesItsStart(s: Sys, ch: ChanId, failed: ChanId, uid: string)
    requires uid != "" && uid in s.pipes && s.pipes[uid] == ch && ch != failed
    requires ch in s.chans && failed in s.chans && s.chans[failed].uid == uid
    ensures Displaces({failed}, s, Offer(failed))
    ensures var s' := Run(s, [Offer(failed), Close(failed), PipeStart(uid)]);
            s'.chans == s.chans && s'.reg.live == s.reg.live && s'.pipes == s.pipes - {uid} && s'.now == s.now
    ensures var c := s.chans[ch];
            Next(s, PipeStart(uid)).chans == s.chans[ch := c.(authed := true, pending := c.pending + 1)]
  {
    RunThree(s, Offer(failed), Close(failed), PipeStart(uid));
    var s1 := Next(s, Offer(failed));
    var s2 := Next(s1, Close(failed));
    assert s2.pipes == s.pipes - {uid};
  }

  /** The failed attempt: opened, offered and closed. */
  function Failing(guid: Guid, failed: ChanId, uid: string): seq<Event> {
    [Track(failed, guid, uid), Offer(failed), Close(failed)]
  }

  /** The rest of the run: time passes, the pipe is started, its touch is delivered. */
  function Resuming(ch: ChanId, uid: string, later: nat): seq<Event> {
    [Registrar(L.OpTick(later)), PipeStart(uid), FinishTouch(ch)]
  }

  /** After a displacing attempt the start and the touch do nothing. */
  lemma ResumedAfterFailure(now: Time, guid: Guid, ch: ChanId, failed: ChanId, uid: string, later: nat, s: Sys)
    requires uid != "" && ch != failed
    requires s == Run(Run(Opened(now, guid, ch, uid), Failing(guid, failed, uid)), Resuming(ch, uid, later))
    ensures s.now == now + later && s.reg.live == Opened(now, guid, ch, uid).reg.live
  {
    var o := Opened(now, guid, ch, uid);
    RunThree(o, Track(failed, guid, uid), Offer(failed), Close(failed));
    var o1 := Next(o, Track(failed, guid, uid));
    var o2 := Next(Next(o1, Offer(failed)), Close(failed));
    assert o2.pipes == map[] && o2.chans[ch] == o.chans[ch] && o2.reg.live == o.reg.live && o2.now == now;
    RunThree(o2, Registrar(L.OpTick(later)), PipeStart(uid), FinishTouch(ch));
  }

  /** Without it they reach the tunnel. */
  lemma ResumedAlone(now: Time, guid: Guid, ch: ChanId, uid: string, later: nat, s: Sys)
    requires s == Run(Opened(now, guid, ch, uid), Resuming(ch, uid, later))
    ensures s.now == now + later && guid in s.reg.live && s.reg.live.Keys == {guid}
            && s.reg.live[guid].rec.lastActivity == now + later
  {
    var o := Opened(now, guid, ch, uid);
    RunThree(o, Registrar(L.OpTick(later)), PipeStart(uid), FinishTouch(ch));
    var o1 := Next(o, Registrar(L.OpTick(later)));
    var o2 := Next(o1, PipeStart(uid));
    assert o2.chans == map[ch := Chan(guid, uid, true, 0, 1, None)] && o2.reg == o.reg;
  }

  lemma SweepEvicts(s: Sys, guid: Guid, idle: nat, events: seq<Event>)
    requires s.reg.live.Keys == {guid} && events == [Registrar(L.OpEvict(idle, false, {}, {}))]
    ensures |Outcomes(s, events)| == 1
    ensures Outcomes(s, events)[0].idle == if s.reg.live[guid].rec.lastActivity < s.now - idle then {guid} else {}
  {
    assert events[1..] == [];
    assert guid in s.reg.live;
    assert forall g :: g in s.reg.live ==> g == guid;
  }

  /** A run in which an attempt that never starts changes a sweep, because it displaced
      the waiting pipe of its UniqueID: the tunnel is evicted, and without the attempt it
      is not. */
  lemma DisplacingAttemptChangesTheSweep(now: Time, guid: Guid, ch: ChanId, failed: ChanId, uid: string, later: nat, idle: nat)
    requires uid != "" && ch != failed && idle < later
    ensures var start := Init(None, 0, now);
            var sweep := [Registrar(L.OpEvict(idle, false, {}, {}))];
            var events := Opening(guid, ch, uid) + (Failing(guid, failed, uid) + (Resuming(ch, uid, later) + sweep));
            var without := Opening(guid, ch, uid) + (Resuming(ch, uid, later) + sweep);
            && Erase({failed}, events) == without
            && |Outcomes(start, events)| == |Outcomes(start, without)| == 1
            && Outcomes(start, events)[0].idle == {guid} && Outcomes(start, without)[0].idle == {}
  {
    var sweep := [Registrar(L.OpEvict(idle, false, {}, {}))];
    var opening, failing, resuming := Opening(guid, ch, uid), Failing(guid, failed, uid), Resuming(ch, uid, later);
    var o := Opened(now, guid, ch, uid);
    OpeningOpens(now, guid, ch, uid);
    LastOutcome(now, guid, ch, uid, failing, resuming, sweep);
    LastOutcome(now, guid, ch, uid, [], resuming, sweep);
    assert [] + (resuming + sweep) == resuming + sweep;
    var s1, s2 := Run(Run(o, failing), resuming), Run(o, resuming);
    ResumedAfterFailure(now, guid, ch, failed, uid, later, s1);
    ResumedAlone(now, guid, ch, uid, later, s2);
    SweepEvicts(s1, guid, idle, sweep);
    SweepEvicts(s2, guid, idle, sweep);
    ErasedRun(guid, ch, failed, uid, later, sweep);
  }

  /** Only the sweep at the end of these runs has an outcome. */
  lemma LastOutcome(now: Time, guid: Guid, ch: ChanId, uid: string, a: seq<Event>, b: seq<Event>, sweep: seq<Event>)
    requires uid != "" && NoSweep(a) && NoSweep(b)
    ensures Outcomes(Init(None, 0, now), Opening(guid, ch, uid) + (a + (b + sweep)))
            == Outcomes(Run(Run(Opened(now, guid, ch, uid), a), b), sweep)
  {
    var start, o := Init(None, 0, now), Opened(now, guid, ch, uid);
    OpeningOpens(now, guid, ch, uid);
    OutcomesConcat(start, Opening(guid, ch, uid), a + (b + sweep));
    NoSweepNoOutcome(start, Opening(guid, ch, uid));
    OutcomesConcat(o, a, b + sweep);
    NoSweepNoOutcome(o, a);
    OutcomesConcat(Run(o, a), b, sweep);
    NoSweepNoOutcome(Run(o, a), b);
  }

  lemma ErasedRun(guid: Guid, ch: ChanId, failed: ChanId, uid: string, later: nat, sweep: seq<Event>)
    requires ch != failed && forall e :: e in sweep ==> e.Registrar?
    ensures var opening, failing, resuming := Opening(guid, ch, uid), Failing(guid, failed, uid), Resuming(ch, uid, later);
            Erase({failed}, opening + (failing + (resuming + sweep))) == opening + (resuming + sweep)
  {
    var opening, failing, resuming := Opening(guid, ch, uid), Failing(guid, failed, uid), Resuming(ch, uid, later);
    EraseConcat({failed}, opening, failing + (resuming + sweep));
    EraseConcat({failed}, failing, resuming + sweep);
    EraseConcat({failed}, resuming, sweep);
    ErasedParts(guid, ch, failed, uid, later);
    EraseUniform({failed}, sweep, false);
    assert [] + (resuming + sweep) == resuming + sweep;
  }

  lemma ErasedParts(guid: Guid, ch: ChanId, failed: ChanId, uid: string, later: nat)
    requires ch != failed
    ensures Erase({failed}, Opening(guid, ch, uid)) == Opening(guid, ch, uid)
    ensures Erase({failed}, Failing(guid, failed, uid)) == []
    ensures Erase({failed}, Resuming(ch, uid, later)) == Resuming(ch, uid, later)
  {
    EraseUniform({failed}, Opening(guid, ch, uid), false);
    EraseUniform({failed}, Failing(guid, failed, uid), true);
    EraseUniform({failed}, Resuming(ch, uid, later), false);
  }
}
