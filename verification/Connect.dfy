/** The connect side: pipes through a tunnel, their authentication, and the throttled
    touches that keep a busy tunnel from being swept.  Registry operations of
    registrars and of the sweeper interleave with every step. */
module Connect {
  import opened Seqs
  import opened Registry
  import L = RegistryLaws

  const SECOND := 1_000_000_000
  const THROTTLE := 30

  function Unix(t: Time): int {
    t / SECOND
  }

  /** A pipe.  `pending` counts touches that have passed the throttle, or come from
      the start of the pipe, and have not reached the registry yet.  `lastTraffic`
      is history: the time of the last traffic after authentication. */
  datatype Chan = Chan(
    guid: Guid,
    uid: string,
    authed: bool,
    lastTouch: int,
    pending: nat,
    lastTraffic: Option<Time>)

  /** `pipes` maps the UniqueID of a downstream connection to its newest pipe. */
  datatype Sys = Sys(
    reg: Reg,
    now: Time,
    used: set<Guid>,
    pipes: map<string, ChanId>,
    chans: map<ChanId, Chan>)

  datatype Event =
    | Registrar(op: L.Op)
    | Track(ch: ChanId, guid: Guid, uid: string)
    | Offer(ch: ChanId)
    | PipeStart(uid: string)
    | Traffic(ch: ChanId)
    | FinishTouch(ch: ChanId)
    | Close(ch: ChanId)

  /** What registrars, the sweeper and the clock do; GUIDs are issued once. */
  predicate IsRegistrar(s: Sys, op: L.Op) {
    match op
    case OpPut(rec, _, _) => rec.guid !in s.used
    case OpTouch(_) => false
    case OpTrack(_, _) => false
    case OpUntrack(_, _) => false
    case _ => true
  }

  function DoRegistrar(s: Sys, op: L.Op): Sys {
    var t := L.Apply(L.Timed(s.reg, s.now), op);
    s.(reg := t.reg, now := t.now, used := if op.OpPut? then s.used + {op.rec.guid} else s.used)
  }

  function DoTraffic(s: Sys, c: Chan): Chan {
    if !c.authed then c
    else if Unix(s.now) - c.lastTouch < THROTTLE then c.(lastTraffic := Some(s.now))
    else c.(lastTraffic := Some(s.now), lastTouch := Unix(s.now), pending := c.pending + 1)
  }

  function DoClose(s: Sys, ch: ChanId): Sys
    requires ch in s.chans
  {
    var c := s.chans[ch];
    s.(pipes := if c.uid in s.pipes && s.pipes[c.uid] == ch then s.pipes - {c.uid} else s.pipes,
       reg := UntrackChannel(s.reg, c.guid, ch))
  }

  function Next(s: Sys, e: Event): Sys {
    match e
    case Registrar(op) => if IsRegistrar(s, op) then DoRegistrar(s, op) else s
    case Track(ch, guid, uid) =>
      if ch in s.chans || guid !in s.reg.live then s
      else s.(reg := TrackChannel(s.reg, guid, ch).0, chans := s.chans[ch := Chan(guid, uid, false, 0, 0, None)])
    case Offer(ch) =>
      if ch in s.chans && s.chans[ch].uid != "" then s.(pipes := s.pipes[s.chans[ch].uid := ch]) else s
    case PipeStart(uid) =>
      if uid in s.pipes && s.pipes[uid] in s.chans then
        var ch := s.pipes[uid];
        var c := s.chans[ch];
        s.(pipes := s.pipes - {uid}, chans := s.chans[ch := c.(authed := true, pending := c.pending + 1)])
      else s
    case Traffic(ch) => if ch in s.chans then s.(chans := s.chans[ch := DoTraffic(s, s.chans[ch])]) else s
    case FinishTouch(ch) =>
      if ch in s.chans && s.chans[ch].pending > 0 then
        s.(reg := Touch(s.reg, s.chans[ch].guid, s.now),
           chans := s.chans[ch := s.chans[ch].(pending := s.chans[ch].pending - 1)])
      else s
    case Close(ch) => if ch in s.chans then DoClose(s, ch) else s
  }

  function Run(s: Sys, events: seq<Event>): Sys
    decreases |events|
  {
    if events == [] then s else Run(Next(s, events[0]), events[1..])
  }

  function Init(store: Option<map<Guid, Record>>, maxTotal: nat, now: Time): Sys {
    Sys(L.Start(store, maxTotal), now, {}, map[], map[])
  }

  // ----- busy tunnels are not swept ----------------------------------------

  /** What is known about one pipe: its traffic is covered by its last touch, and its
      last touch, once delivered, by the tunnel's activity time. */
  predicate ChanInv(reg: Reg, now: Time, used: set<Guid>, c: Chan) {
    && c.guid in used
    && 0 <= c.lastTouch && c.lastTouch * SECOND <= now
    && (c.lastTraffic.Some? ==> c.authed && c.lastTraffic.value <= now && Unix(c.lastTraffic.value) - c.lastTouch < THROTTLE)
    && (c.guid in reg.live && c.pending == 0 ==> c.lastTouch * SECOND <= reg.live[c.guid].rec.lastActivity)
  }

  predicate Inv(s: Sys) {
    && L.Inv(s.reg, s.now) && 0 <= s.now
    && (forall g :: g in s.reg.live ==> g in s.used && 0 <= s.reg.live[g].rec.lastActivity)
    && (forall ch :: ch in s.chans ==> ChanInv(s.reg, s.now, s.used, s.chans[ch]))
  }

  /** From `before` to `after` no used GUID comes to life and no activity time goes back. */
  predicate Ages(before: Reg, after: Reg, used: set<Guid>) {
    forall g :: g in after.live && g in used ==>
      g in before.live && before.live[g].rec.lastActivity <= after.live[g].rec.lastActivity
  }

  lemma ChanFrame(before: Reg, after: Reg, now: Time, now': Time, used: set<Guid>, used': set<Guid>, c: Chan)
    requires ChanInv(before, now, used, c) && Ages(before, after, used) && now <= now' && used <= used'
    ensures ChanInv(after, now', used', c)
  {
  }

  lemma RegistrarAges(s: Sys, op: L.Op)
    requires L.Inv(s.reg, s.now) && IsRegistrar(s, op)
    requires forall g :: g in s.reg.live ==> g in s.used && 0 <= s.reg.live[g].rec.lastActivity
    ensures var s' := DoRegistrar(s, op);
            && Ages(s.reg, s'.reg, s.used) && s.now <= s'.now
            && forall g :: g in s'.reg.live ==> g in s'.used && (g in s.reg.live || s'.reg.live[g].rec.lastActivity == s.now)
    ensures forall g :: g in DoRegistrar(s, op).reg.live && g in s.reg.live ==>
              DoRegistrar(s, op).reg.live[g].rec.lastActivity >= s.reg.live[g].rec.lastActivity
  {
  }

  lemma TouchAges(r: Reg, now: Time, guid: Guid, used: set<Guid>)
    requires L.Inv(r, now)
    ensures Ages(r, Touch(r, guid, now), used)
  {
  }

  lemma RegistrarKeepsInv(s: Sys, op: L.Op)
    requires Inv(s) && IsRegistrar(s, op)
    ensures Inv(DoRegistrar(s, op))
  {
    var s' := DoRegistrar(s, op);
    RegistrarAges(s, op);
    L.ApplyKeepsInv(L.Timed(s.reg, s.now), op);
    forall ch | ch in s'.chans ensures ChanInv(s'.reg, s'.now, s'.used, s'.chans[ch]) {
      ChanFrame(s.reg, s'.reg, s.now, s'.now, s.used, s'.used, s.chans[ch]);
    }
  }

  lemma TouchKeepsInv(s: Sys, ch: ChanId)
    requires Inv(s) && ch in s.chans && s.chans[ch].pending > 0
    ensures Inv(Next(s, FinishTouch(ch)))
  {
    var s' := Next(s, FinishTouch(ch));
    var guid := s.chans[ch].guid;
    L.TouchKeepsInv(s.reg, s.now, guid);
    TouchAges(s.reg, s.now, guid, s.used);
    forall c | c in s'.chans ensures ChanInv(s'.reg, s'.now, s'.used, s'.chans[c]) {
      ChanFrame(s.reg, s'.reg, s.now, s.now, s.used, s.used, s.chans[c]);
    }
  }

  /** Steps that leave activity times alone and change at most pipe `ch`. */
  lemma ChanStepKeepsInv(s: Sys, s': Sys, ch: ChanId)
    requires Inv(s) && L.Inv(s'.reg, s.now)
    requires s'.now == s.now && s'.used == s.used && s'.reg.live == s.reg.live
    requires s'.chans == s.chans || (ch in s'.chans && s'.chans == s.chans[ch := s'.chans[ch]]
                                     && ChanInv(s.reg, s.now, s.used, s'.chans[ch]))
    ensures Inv(s')
  {
  }

  lemma NextKeepsInv(s: Sys, e: Event)
    requires Inv(s)
    ensures Inv(Next(s, e))
  {
    var s' := Next(s, e);
    if s' != s {
      match e
      case Registrar(op) => RegistrarKeepsInv(s, op);
      case Track(ch, guid, uid) =>
        L.TrackKeepsInv(s.reg, s.now, guid, ch);
        ChanStepKeepsInv(s, s', ch);
      case Offer(ch) => ChanStepKeepsInv(s, s', ch);
      case PipeStart(uid) => ChanStepKeepsInv(s, s', s.pipes[uid]);
      case Traffic(ch) => ChanStepKeepsInv(s, s', ch);
      case FinishTouch(ch) => TouchKeepsInv(s, ch);
      case Close(ch) =>
        L.TrackKeepsInv(s.reg, s.now, s.chans[ch].guid, ch);
        ChanStepKeepsInv(s, s', ch);
    }
  }

  lemma {:induction false} RunKeepsInv(s: Sys, events: seq<Event>)
    requires Inv(s)
    ensures Inv(Run(s, events))
    decreases |events|
  {
    if events != [] {
      NextKeepsInv(s, events[0]);
      RunKeepsInv(Next(s, events[0]), events[1..]);
    }
  }

  /** The start of the plugin, with whatever the store still holds. */
  lemma InitInv(store: Option<map<Guid, Record>>, maxTotal: nat, now: Time)
    requires 0 <= now && (store.Some? ==> forall g :: g in store.value ==> store.value[g].guid == g)
    ensures Inv(Init(store, maxTotal, now))
  {
  }

  /** In every run from a start, a tunnel with authenticated traffic within the last
      `idle` minus 30 seconds survives the sweep, although most of that traffic never
      reached the registry — provided no touch of that pipe is still on its way there. */
  lemma BusyTunnelSurvives(store: Option<map<Guid, Record>>, maxTotal: nat, now: Time, events: seq<Event>,
                           s: Sys, ch: ChanId, idle: nat, lf: bool, ff: set<Guid>, fs: set<Guid>)
    requires 0 <= now && (store.Some? ==> forall g :: g in store.value ==> store.value[g].guid == g)
    requires s == Run(Init(store, maxTotal, now), events)
    requires && ch in s.chans && s.chans[ch].guid in s.reg.live && s.chans[ch].pending == 0
             && s.chans[ch].lastTraffic.Some?
             && s.now - (idle - THROTTLE * SECOND) <= s.chans[ch].lastTraffic.value
    ensures s.chans[ch].guid in EvictIdle(s.reg, s.now - idle, lf, ff, fs).removal.reg.live
  {
    InitInv(store, maxTotal, now);
    RunKeepsInv(Init(store, maxTotal, now), events);
    BusyIsRecent(s, ch, s.now - idle);
    RecentSurvives(s.reg, s.chans[ch].guid, s.now - idle, lf, ff, fs);
  }

  lemma BusyIsRecent(s: Sys, ch: ChanId, cutoff: Time)
    requires Inv(s) && ch in s.chans && s.chans[ch].guid in s.reg.live && s.chans[ch].pending == 0
    requires s.chans[ch].lastTraffic.Some? && cutoff + THROTTLE * SECOND <= s.chans[ch].lastTraffic.value
    ensures cutoff <= s.reg.live[s.chans[ch].guid].rec.lastActivity
  {
    assert ChanInv(s.reg, s.now, s.used, s.chans[ch]);
    TrafficIsCovered(s.chans[ch].lastTraffic.value, s.chans[ch].lastTouch, cutoff);
  }

  /** A touch at most the throttle older than the traffic it stands for. */
  lemma TrafficIsCovered(traffic: Time, touch: int, cutoff: Time)
    requires Unix(traffic) - touch < THROTTLE && cutoff + THROTTLE * SECOND <= traffic
    ensures cutoff <= touch * SECOND
  {
    assert traffic < (Unix(traffic) + 1) * SECOND;
  }

  lemma RecentSurvives(r: Reg, guid: Guid, cutoff: Time, lf: bool, ff: set<Guid>, fs: set<Guid>)
    requires guid in r.live && cutoff <= r.live[guid].rec.lastActivity
    ensures guid in EvictIdle(r, cutoff, lf, ff, fs).removal.reg.live
  {
  }

  /** The proviso is needed.  The touch is two separate actions: a pipe notes the time,
      then tells the registry.  If a sweep comes between, traffic that was throttled
      because of the noted time does not save the tunnel. */
  lemma UndeliveredTouchDoesNotProtect(s: Sys, ch: ChanId, idle: nat)
    requires ch in s.chans && s.chans[ch].authed && s.chans[ch].guid in s.reg.live
    requires Unix(s.now) - s.chans[ch].lastTouch >= THROTTLE
    requires s.reg.live[s.chans[ch].guid].rec.lastActivity < s.now - idle
    ensures var s' := Run(s, [Traffic(ch), Traffic(ch)]);
            && ch in s'.chans && s'.chans[ch].lastTraffic == Some(s'.now) && s'.chans[ch].pending > 0
            && s'.chans[ch].guid !in EvictIdle(s'.reg, s'.now - idle, false, {}, {}).removal.reg.live
  {
    var s1 := Next(s, Traffic(ch));
    var s2 := Next(s1, Traffic(ch));
    assert [Traffic(ch), Traffic(ch)][1..] == [Traffic(ch)];
    assert Run(s, [Traffic(ch), Traffic(ch)]) == Run(s1, [Traffic(ch)]) == s2;
  }
}
