/** What every run of registry operations keeps, and the agreement between one sweep
    and removing the idle tunnels one by one. */
module RegistryLaws {
  import opened Seqs
  import opened Registry

  // ----- the invariant -----------------------------------------------------

  /** Two records that differ at most in `lastActivity`, the second being the older one. */
  predicate SameButOlder(live: Record, stored: Record) {
    && stored == live.(lastActivity := stored.lastActivity)
    && stored.lastActivity <= live.lastActivity
  }

  predicate StoreMirrorsLive(r: Reg) {
    r.store.Some? ==>
      forall g :: g in r.live ==> g in r.store.value && SameButOlder(r.live[g].rec, r.store.value[g])
  }

  predicate ChannelsBelongToLive(r: Reg) {
    forall g :: g in r.channels ==> g in r.live && r.channels[g] != {}
  }

  predicate Inv(r: Reg, now: Time) {
    && KeyedByGuid(r)
    && ChannelsBelongToLive(r)
    && StoreMirrorsLive(r)
    && (forall g :: g in r.live ==> r.live[g].rec.lastActivity <= now)
    && (r.maxTotal > 0 ==> |r.live| <= r.maxTotal)
  }

  // ----- runs --------------------------------------------------------------

  datatype Op =
    | OpPut(rec: Record, conn: Option<ConnId>, storeFails: bool)
    | OpTouch(guid: Guid)
    | OpTrack(guid: Guid, ch: ChanId)
    | OpUntrack(guid: Guid, ch: ChanId)
    | OpRemove(guid: Guid, deleteFails: bool)
    | OpUpdateKey(guid: Guid, key: string, storeFails: bool)
    | OpUpdatePassword(guid: Guid, allow: bool, storeFails: bool)
    | OpEvict(idle: nat, listFails: bool, failFirst: set<Guid>, failSecond: set<Guid>)
    | OpTick(elapsed: nat)

  datatype Timed = Timed(reg: Reg, now: Time)

  function Apply(s: Timed, op: Op): Timed {
    match op
    case OpPut(rec, conn, fails) => s.(reg := Put(s.reg, rec, conn, s.now, fails).0)
    case OpTouch(g) => s.(reg := Touch(s.reg, g, s.now))
    case OpTrack(g, ch) => s.(reg := TrackChannel(s.reg, g, ch).0)
    case OpUntrack(g, ch) => s.(reg := UntrackChannel(s.reg, g, ch))
    case OpRemove(g, fails) => s.(reg := Remove(s.reg, g, fails).reg)
    case OpUpdateKey(g, key, fails) => s.(reg := UpdateConnectorKey(s.reg, g, key, fails).0)
    case OpUpdatePassword(g, allow, fails) => s.(reg := UpdateAllowPassword(s.reg, g, allow, fails).0)
    case OpEvict(idle, lf, ff, fs) => s.(reg := EvictIdle(s.reg, s.now - idle, lf, ff, fs).removal.reg)
    case OpTick(d) => s.(now := s.now + d)
  }

  function Run(s: Timed, ops: seq<Op>): (t: Timed)
    requires Inv(s.reg, s.now)
    ensures Inv(t.reg, t.now)
    decreases |ops|
  {
    if ops == [] then s
    else
      ApplyKeepsInv(s, ops[0]);
      Run(Apply(s, ops[0]), ops[1..])
  }

  /** A plugin start: nothing live, whatever the store still holds from before. */
  function Start(store: Option<map<Guid, Record>>, maxTotal: nat): Reg {
    Reg(map[], map[], store, maxTotal)
  }

  lemma PutKeepsInv(r: Reg, now: Time, rec: Record, conn: Option<ConnId>, fails: bool)
    requires Inv(r, now)
    ensures Inv(Put(r, rec, conn, now, fails).0, now)
  {
    if Put(r, rec, conn, now, fails).1 == PutOk {
      var stamped := rec.(lastActivity := now);
      InsertSize(r.live, rec.guid, Entry(stamped, conn));
      InsertKeepsMirror(r, stamped, conn);
      InsertKeepsRest(r, now, stamped, conn);
    }
  }

  lemma InsertKeepsMirror(r: Reg, rec: Record, conn: Option<ConnId>)
    requires KeyedByGuid(r) && StoreMirrorsLive(r)
    ensures var r' := StorePut(r.(live := r.live[rec.guid := Entry(rec, conn)]), rec);
            KeyedByGuid(r') && StoreMirrorsLive(r')
  {
  }

  lemma InsertKeepsRest(r: Reg, now: Time, rec: Record, conn: Option<ConnId>)
    requires ChannelsBelongToLive(r) && rec.lastActivity <= now
    requires forall g :: g in r.live ==> r.live[g].rec.lastActivity <= now
    ensures var r' := StorePut(r.(live := r.live[rec.guid := Entry(rec, conn)]), rec);
            ChannelsBelongToLive(r') && forall g :: g in r'.live ==> r'.live[g].rec.lastActivity <= now
  {
  }

  lemma RemoveKeepsInv(r: Reg, now: Time, guid: Guid, fails: bool)
    requires Inv(r, now)
    ensures Inv(Remove(r, guid, fails).reg, now)
  {
    MinusShrinks(r.live, {guid});
    RemoveKeepsMirror(r, guid, fails);
  }

  lemma RemoveKeepsMirror(r: Reg, guid: Guid, fails: bool)
    requires KeyedByGuid(r) && StoreMirrorsLive(r)
    ensures KeyedByGuid(Remove(r, guid, fails).reg) && StoreMirrorsLive(Remove(r, guid, fails).reg)
  {
  }

  lemma SameKeysSameSize(a: map<Guid, Entry>, b: map<Guid, Entry>)
    requires a.Keys == b.Keys
    ensures |a| == |b|
  {
    assert |a| == |a.Keys| && |b| == |b.Keys|;
  }

  lemma TouchKeepsInv(r: Reg, now: Time, guid: Guid)
    requires Inv(r, now)
    ensures Inv(Touch(r, guid, now), now)
  {
    assert Touch(r, guid, now).live.Keys == r.live.Keys;
    SameKeysSameSize(Touch(r, guid, now).live, r.live);
  }

  lemma ReplaceKeepsInv(r: Reg, now: Time, rec: Record, fails: bool)
    requires Inv(r, now)
    requires rec.guid in r.live && rec.lastActivity == r.live[rec.guid].rec.lastActivity
    ensures Inv(Replace(r, rec.guid, rec, fails).0, now)
  {
    if !(r.store.Some? && fails) {
      var live := r.live[rec.guid := r.live[rec.guid].(rec := rec)];
      assert live.Keys == r.live.Keys;
      SameKeysSameSize(live, r.live);
      InsertKeepsMirror(r, rec, r.live[rec.guid].conn);
      InsertKeepsRest(r, now, rec, r.live[rec.guid].conn);
    }
  }

  lemma TrackKeepsInv(r: Reg, now: Time, guid: Guid, ch: ChanId)
    requires Inv(r, now)
    ensures Inv(TrackChannel(r, guid, ch).0, now)
    ensures Inv(UntrackChannel(r, guid, ch), now)
  {
    assert ChannelsBelongToLive(TrackChannel(r, guid, ch).0);
    assert ChannelsBelongToLive(UntrackChannel(r, guid, ch));
  }

  lemma EvictKeepsInv(r: Reg, now: Time, cutoff: Time, lf: bool, ff: set<Guid>, fs: set<Guid>)
    requires Inv(r, now)
    ensures Inv(EvictIdle(r, cutoff, lf, ff, fs).removal.reg, now)
  {
    MinusShrinks(r.live, Idle(r, cutoff));
    EvictKeepsMirror(r, cutoff, lf, ff, fs);
    EvictKeepsRest(r, now, cutoff, lf, ff, fs);
  }

  lemma EvictKeepsMirror(r: Reg, cutoff: Time, lf: bool, ff: set<Guid>, fs: set<Guid>)
    requires KeyedByGuid(r) && StoreMirrorsLive(r)
    ensures var r' := EvictIdle(r, cutoff, lf, ff, fs).removal.reg; KeyedByGuid(r') && StoreMirrorsLive(r')
  {
  }

  lemma EvictKeepsRest(r: Reg, now: Time, cutoff: Time, lf: bool, ff: set<Guid>, fs: set<Guid>)
    requires ChannelsBelongToLive(r)
    requires forall g :: g in r.live ==> r.live[g].rec.lastActivity <= now
    ensures var r' := EvictIdle(r, cutoff, lf, ff, fs).removal.reg;
            && r'.live == r.live - Idle(r, cutoff) && r'.maxTotal == r.maxTotal
            && ChannelsBelongToLive(r') && forall g :: g in r'.live ==> r'.live[g].rec.lastActivity <= now
  {
  }

  lemma UpdateKeepsInv(r: Reg, now: Time, guid: Guid, key: string, allow: bool, fails: bool)
    requires Inv(r, now)
    ensures Inv(UpdateConnectorKey(r, guid, key, fails).0, now)
    ensures Inv(UpdateAllowPassword(r, guid, allow, fails).0, now)
  {
    if guid in r.live {
      ReplaceKeepsInv(r, now, r.live[guid].rec.(connectorKey := key), fails);
      ReplaceKeepsInv(r, now, r.live[guid].rec.(allowPassword := allow), fails);
    }
  }

  lemma ApplyEvict(r: Reg, now: Time, idle: nat, lf: bool, ff: set<Guid>, fs: set<Guid>)
    ensures Apply(Timed(r, now), OpEvict(idle, lf, ff, fs)) == Timed(EvictIdle(r, now - idle, lf, ff, fs).removal.reg, now)
  {
  }

  lemma SweepKeepsInv(s: Timed, op: Op)
    requires Inv(s.reg, s.now) && op.OpEvict?
    ensures Inv(Apply(s, op).reg, Apply(s, op).now)
  {
    EvictKeepsInv(s.reg, s.now, s.now - op.idle, op.listFails, op.failFirst, op.failSecond);
  }

  lemma ChangingKeepsInv(s: Timed, op: Op)
    requires Inv(s.reg, s.now) && (op.OpTouch? || op.OpUpdateKey? || op.OpUpdatePassword?)
    ensures Inv(Apply(s, op).reg, Apply(s, op).now)
  {
    match op
    case OpTouch(g) => TouchKeepsInv(s.reg, s.now, g);
    case OpUpdateKey(g, key, fails) => UpdateKeepsInv(s.reg, s.now, g, key, true, fails);
    case OpUpdatePassword(g, allow, fails) => UpdateKeepsInv(s.reg, s.now, g, "", allow, fails);
  }

  /** Every operation keeps the invariant, whichever store calls fail. */
  lemma ApplyKeepsInv(s: Timed, op: Op)
    requires Inv(s.reg, s.now)
    ensures Inv(Apply(s, op).reg, Apply(s, op).now)
  {
    match op
    case OpPut(rec, conn, fails) => PutKeepsInv(s.reg, s.now, rec, conn, fails);
    case OpTrack(g, ch) => TrackKeepsInv(s.reg, s.now, g, ch);
    case OpUntrack(g, ch) => TrackKeepsInv(s.reg, s.now, g, ch);
    case OpRemove(g, fails) => RemoveKeepsInv(s.reg, s.now, g, fails);
    case OpTick(_) =>
    case _ => if op.OpEvict? { SweepKeepsInv(s, op); } else { ChangingKeepsInv(s, op); }
  }

  /** In every state that any sequence of operations reaches from a start, however
      often the store fails: only live tunnels have tracked channels, no tracked set
      is empty, every live tunnel is mirrored in the store up to a newer activity
      time, and the global cap holds. */
  lemma EveryRunKeepsInv(store: Option<map<Guid, Record>>, maxTotal: nat, now: Time, ops: seq<Op>)
    requires store.Some? ==> forall g :: g in store.value ==> store.value[g].guid == g
    ensures Inv(Start(store, maxTotal), now)
    ensures Inv(Run(Timed(Start(store, maxTotal), now), ops).reg, Run(Timed(Start(store, maxTotal), now), ops).now)
  {
  }

  lemma RemoveUndoesInsert(r: Reg, rec: Record, conn: Option<ConnId>, fails: bool)
    requires rec.guid !in r.live && rec.guid !in r.channels
    ensures var after := Remove(StorePut(r.(live := r.live[rec.guid := Entry(rec, conn)]), rec), rec.guid, fails).reg;
            after.live == r.live && after.channels == r.channels && after.maxTotal == r.maxTotal
  {
    MinusUndoesInsert(r.live, rec.guid, Entry(rec, conn));
    MinusUndoesInsert(r.channels, rec.guid, {});
  }

  /** Removing a tunnel right after registering it restores the registry. */
  lemma RemoveUndoesPut(r: Reg, rec: Record, conn: Option<ConnId>, now: Time, putFails: bool, fails: bool)
    requires rec.guid !in r.channels && Put(r, rec, conn, now, putFails).1 == PutOk
    ensures var after := Remove(Put(r, rec, conn, now, putFails).0, rec.guid, fails).reg;
            && after.live == r.live && after.channels == r.channels && after.maxTotal == r.maxTotal
            && (!fails && r.store.Some? && rec.guid !in r.store.value ==> after.store == r.store)
  {
    var stamped := rec.(lastActivity := now);
    RemoveUndoesInsert(r, stamped, conn, fails);
    if r.store.Some? && rec.guid !in r.store.value {
      MinusUndoesInsert(r.store.value, rec.guid, stamped);
    }
  }

  // ----- the sweep ---------------------------------------------------------

  /** The sweep looks at persisted timestamps that are older than the live ones, yet
      a tunnel that is live and not idle keeps its stored record, and the records
      it does delete are exactly the expired ones without a live tunnel. */
  lemma SweepSparesLiveTunnels(r: Reg, now: Time, cutoff: Time, lf: bool, ff: set<Guid>, fs: set<Guid>, g: Guid)
    requires Inv(r, now) && r.store.Some?
    ensures var after := EvictIdle(r, cutoff, lf, ff, fs).removal.reg;
            && (g in r.live && r.live[g].rec.lastActivity >= cutoff ==>
                  g in after.live && after.live[g] == r.live[g]
                  && g in after.store.value && after.store.value[g] == r.store.value[g])
            && (!lf && g !in ff && g !in fs ==>
                  (g in after.store.value <==>
                     g in r.store.value && (if g in r.live then r.live[g].rec.lastActivity >= cutoff
                                            else r.store.value[g].lastActivity >= cutoff)))
  {
  }

  /** `Remove` applied to each GUID of `order` in turn, the store refusing the deletions
      in `fails`: final registry, all channels closed, and the connections closed, in the
      order in which they are closed. */
  function RemoveAll(r: Reg, order: seq<Guid>, fails: set<Guid>): (Reg, set<ChanId>, seq<set<ConnId>>)
    decreases |order|
  {
    if order == [] then (r, {}, [])
    else
      var one := Remove(r, order[0], order[0] in fails);
      var (rest, chans, conns) := RemoveAll(one.reg, order[1..], fails);
      (rest, one.channels + chans, [one.conns] + conns)
  }

  /** Connection `c` is closed by the k-th removal and by no other. */
  ghost predicate ClosedOnlyAt(conns: seq<set<ConnId>>, c: ConnId, k: nat) {
    && k < |conns| && c in conns[k]
    && forall j :: 0 <= j < |conns| && j != k ==> c !in conns[j]
  }

  lemma OneMoreDeleted(records: map<Guid, Record>, g: Guid, rest: set<Guid>, fails: set<Guid>)
    ensures (if g in fails then records else records - {g}) - (rest - fails) == records - ({g} + rest - fails)
  {
  }

  lemma {:induction false} RemoveAllState(r: Reg, order: seq<Guid>, fails: set<Guid>)
    ensures var all := RemoveAll(r, order, fails);
            && all.0.live == r.live - ToSet(order)
            && all.0.channels == r.channels - ToSet(order)
            && all.0.store == (if r.store.None? then None else Some(r.store.value - (ToSet(order) - fails)))
            && all.0.maxTotal == r.maxTotal
            && |all.2| == |order|
    decreases |order|
  {
    if order == [] {
      assert r.live - {} == r.live && r.channels - {} == r.channels;
      if r.store.Some? { assert r.store.value - (ToSet(order) - fails) == r.store.value; }
    } else {
      var rest := ToSet(order[1..]);
      RemoveAllState(Remove(r, order[0], order[0] in fails).reg, order[1..], fails);
      assert ToSet(order) == {order[0]} + rest;
      if r.store.Some? { OneMoreDeleted(r.store.value, order[0], rest, fails); }
    }
  }

  lemma {:induction false} RemoveAllChannels(r: Reg, order: seq<Guid>, fails: set<Guid>, ch: ChanId)
    ensures ch in RemoveAll(r, order, fails).1 <==> exists g :: g in order && ch in Tracked(r, g)
    decreases |order|
  {
    if order != [] {
      var one := Remove(r, order[0], order[0] in fails);
      RemoveAllChannels(one.reg, order[1..], fails, ch);
      assert order == [order[0]] + order[1..];
      assert forall g :: g != order[0] ==> Tracked(one.reg, g) == Tracked(r, g);
      assert RemoveAll(r, order, fails).1 == Tracked(r, order[0]) + RemoveAll(one.reg, order[1..], fails).1;
    }
  }

  /** Removing `gone` takes away tunnels of connection `c` and leaves it none. */
  ghost predicate Freed(live: map<Guid, Entry>, gone: set<Guid>, c: ConnId) {
    c in ConnsOf(live, gone) && c !in UsedConns(live - gone)
  }

  lemma FreedByFirstOrLater(live: map<Guid, Entry>, g: Guid, rest: set<Guid>, c: ConnId)
    ensures Freed(live, {g} + rest, c) <==> Freed(live, {g}, c) || Freed(live - {g}, rest, c)
    ensures !(Freed(live, {g}, c) && Freed(live - {g}, rest, c))
  {
    assert live - {g} - rest == live - ({g} + rest);
    assert ConnsOf(live, {g} + rest) == ConnsOf(live, {g}) + ConnsOf(live - {g}, rest);
    assert ConnsOf(live - {g}, rest) <= UsedConns(live - {g});
    assert UsedConns(live - {g} - rest) <= UsedConns(live - {g});
    var left := live - {g};
    forall d | d in UsedConns(left) ensures d in ConnsOf(left, rest) + UsedConns(left - rest) {
      var o :| o in left && left[o].conn == Some(d);
      assert o in rest || o in left - rest;
    }
  }

  /** Removals close a connection exactly when they removed one of its tunnels and
      left it none, and then exactly one of them closes it. */
  lemma {:induction false} RemoveAllConns(r: Reg, order: seq<Guid>, fails: set<Guid>, c: ConnId)
    ensures Freed(r.live, ToSet(order), c) ==> exists k: nat :: ClosedOnlyAt(RemoveAll(r, order, fails).2, c, k)
    ensures !Freed(r.live, ToSet(order), c) ==> forall s :: s in RemoveAll(r, order, fails).2 ==> c !in s
    decreases |order|
  {
    if order != [] {
      var one := Remove(r, order[0], order[0] in fails);
      var conns, later := RemoveAll(r, order, fails).2, RemoveAll(one.reg, order[1..], fails).2;
      RemoveAllConns(one.reg, order[1..], fails, c);
      FreedByFirstOrLater(r.live, order[0], ToSet(order[1..]), c);
      assert ToSet(order) == {order[0]} + ToSet(order[1..]);
      assert conns == [one.conns] + later;
      assert c in one.conns <==> Freed(r.live, {order[0]}, c);
      if c in one.conns {
        assert ClosedOnlyAt(conns, c, 0);
      } else if Freed(one.reg.live, ToSet(order[1..]), c) {
        var k: nat :| ClosedOnlyAt(later, c, k);
        assert ClosedOnlyAt(conns, c, k + 1);
      }
    }
  }

  /** One sweep equals removing the idle tunnels one at a time in any order: the same
      live entries and tracked channels remain, the same channels are closed, and the
      same connections are closed, each by exactly one of the removals.  The store, which
      may refuse any of the deletions, is left as by the removals, less the expired
      records that the second pass deletes. */
  lemma EvictAgreesWithRemovals(r: Reg, cutoff: Time, order: seq<Guid>, listFails: bool, failFirst: set<Guid>, failSecond: set<Guid>)
    requires ToSet(order) == Idle(r, cutoff)
    ensures var sweep := EvictIdle(r, cutoff, listFails, failFirst, failSecond);
            var (after, chans, conns) := RemoveAll(r, order, failFirst);
            && sweep.removal.reg.live == after.live
            && sweep.removal.reg.channels == after.channels
            && sweep.removal.channels == chans
            && (forall c :: c in sweep.removal.conns ==> exists k: nat :: ClosedOnlyAt(conns, c, k))
            && (forall c, closed :: closed in conns && c in closed ==> c in sweep.removal.conns)
            && (r.store.Some? ==>
                  && after.store.Some?
                  && sweep.removal.reg.store
                     == Some(after.store.value
                             - (if listFails then {} else Expired(after.store.value, after.live, cutoff) - failSecond)))
  {
    RemoveAllState(r, order, failFirst);
    var sweep := EvictIdle(r, cutoff, listFails, failFirst, failSecond);
    var (after, chans, conns) := RemoveAll(r, order, failFirst);
    forall ch ensures ch in sweep.removal.channels <==> ch in chans {
      RemoveAllChannels(r, order, failFirst, ch);
    }
    forall c ensures c in sweep.removal.conns ==> exists k: nat :: ClosedOnlyAt(conns, c, k) {
      RemoveAllConns(r, order, failFirst, c);
    }
    forall c, closed | closed in conns && c in closed ensures c in sweep.removal.conns {
      RemoveAllConns(r, order, failFirst, c);
    }
  }
}
