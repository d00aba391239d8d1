/** The registry and its memory store as the objects they are: maps updated in place
    under a lock, loops over maps in arbitrary order.  Each method is proved against
    the function of the same name in `Registry`. */
module RegistryObject {
  import opened Seqs
  import R = Registry
  import opened Registry

  class MemoryStore {
    var records: map<Guid, Record>

    constructor ()
      ensures records == map[]
    {
      records := map[];
    }

    method Put(rec: Record)
      modifies this
      ensures records == old(records)[rec.guid := rec]
    {
      records := records[rec.guid := rec];
    }

    method Get(guid: Guid) returns (rec: Option<Record>)
      ensures rec == if guid in records then Some(records[guid]) else None
    {
      rec := if guid in records then Some(records[guid]) else None;
    }

    method Delete(guid: Guid)
      modifies this
      ensures records == old(records) - {guid}
    {
      records := records - {guid};
    }

    /** Every record exactly once, in no particular order. */
    method List() returns (out: seq<Record>)
      requires forall g :: g in records ==> records[g].guid == g
      ensures Distinct(out)
      ensures forall rec :: rec in out <==> rec.guid in records && records[rec.guid] == rec
    {
      out := [];
      var todo := records.Keys;
      while todo != {}
        invariant todo <= records.Keys
        invariant Distinct(out)
        invariant forall rec :: rec in out <==> rec.guid in records && rec.guid !in todo && records[rec.guid] == rec
        decreases |todo|
      {
        var g :| g in todo;
        out := out + [records[g]];
        todo := todo - {g};
      }
    }
  }

  class TunnelRegistry {
    var live: map<Guid, Entry>
    var channels: map<Guid, set<ChanId>>
    const store: MemoryStore?
    const maxTotal: nat

    ghost function State(): (r: Reg)
      reads this, store
    {
      Reg(live, channels, if store == null then None else Some(store.records), maxTotal)
    }

    constructor (store: MemoryStore?, maxTotal: nat)
      ensures this.store == store && this.maxTotal == maxTotal
      ensures live == map[] && channels == map[]
    {
      this.store := store;
      this.maxTotal := maxTotal;
      live := map[];
      channels := map[];
    }

    method TrackChannel(guid: Guid, ch: ChanId) returns (ok: bool)
      modifies this
      ensures (State(), ok) == R.TrackChannel(old(State()), guid, ch)
    {
      if guid !in live { return false; }
      if guid !in channels { channels := channels[guid := {}]; }
      channels := channels[guid := channels[guid] + {ch}];
      assert channels == old(channels)[guid := R.Tracked(old(State()), guid) + {ch}];
      return true;
    }

    method UntrackChannel(guid: Guid, ch: ChanId)
      modifies this
      ensures State() == R.UntrackChannel(old(State()), guid, ch)
    {
      if guid in channels { channels := channels[guid := channels[guid] - {ch}]; }
      if guid !in channels || channels[guid] == {} { channels := channels - {guid}; }
    }

    method TakeChannels(guid: Guid) returns (taken: set<ChanId>)
      modifies this
      ensures taken == R.Tracked(old(State()), guid)
      ensures channels == old(channels) - {guid} && live == old(live)
    {
      taken := if guid in channels then channels[guid] else {};
      channels := channels - {guid};
    }

    method Count() returns (n: nat)
      ensures n == |live|
    {
      n := |live|;
    }

    method IsLive(guid: Guid) returns (ok: bool)
      ensures ok <==> guid in live
    {
      ok := guid in live;
    }

    method Put(rec: Record, conn: Option<ConnId>, now: Time, storeFails: bool) returns (result: PutResult)
      modifies this, store
      ensures (State(), result) == R.Put(old(State()), rec, conn, now, storeFails)
    {
      if maxTotal > 0 && |live| >= maxTotal { return TooManyTunnels; }
      if rec.guid in live { return AlreadyRegistered; }
      var stamped := rec.(lastActivity := now);
      live := live[rec.guid := Entry(stamped, conn)];
      if store != null {
        if storeFails {
          live := live - {rec.guid};
          assert live == old(live);
          return StoreFailed;
        }
        store.Put(stamped);
      }
      return PutOk;
    }

    method Lookup(guid: Guid) returns (found: Option<Entry>)
      ensures found == if guid in live then Some(live[guid]) else None
    {
      found := if guid in live then Some(live[guid]) else None;
    }

    /** The live record wins over the stored one. */
    method LookupPersisted(guid: Guid) returns (found: Option<Record>)
      ensures guid in live ==> found == Some(live[guid].rec)
      ensures guid !in live ==>
                found == if store != null && guid in store.records then Some(store.records[guid]) else None
    {
      if guid in live { return Some(live[guid].rec); }
      if store == null { return None; }
      found := store.Get(guid);
    }

    method Touch(guid: Guid, now: Time)
      modifies this
      ensures State() == R.Touch(old(State()), guid, now)
    {
      if guid !in live { return; }
      live := live[guid := live[guid].(rec := live[guid].rec.(lastActivity := now))];
    }

    method UpdateConnectorKey(guid: Guid, key: string, storeFails: bool) returns (ok: bool)
      modifies this, store
      ensures (State(), ok) == R.UpdateConnectorKey(old(State()), guid, key, storeFails)
    {
      if guid !in live { return false; }
      var updated := live[guid].rec.(connectorKey := key);
      if store != null {
        if storeFails { return false; }
        store.Put(updated);
      }
      live := live[guid := live[guid].(rec := updated)];
      return true;
    }

    method UpdateAllowPassword(guid: Guid, allow: bool, storeFails: bool) returns (ok: bool)
      modifies this, store
      ensures (State(), ok) == R.UpdateAllowPassword(old(State()), guid, allow, storeFails)
    {
      if guid !in live { return false; }
      if live[guid].rec.allowPassword == allow { return true; }
      var updated := live[guid].rec.(allowPassword := allow);
      if store != null {
        if storeFails { return false; }
        store.Put(updated);
      }
      live := live[guid := live[guid].(rec := updated)];
      return true;
    }

    /** The scan over the live entries that decides whether `conn` is still in use. */
    method StillUsed(conn: ConnId) returns (used: bool)
      ensures used <==> conn in R.UsedConns(live)
    {
      used := false;
      var todo := live.Keys;
      while todo != {}
        invariant todo <= live.Keys
        invariant !used
        invariant forall g :: g in live && g !in todo ==> live[g].conn != Some(conn)
        decreases |todo|
      {
        var g :| g in todo;
        if live[g].conn == Some(conn) { return true; }
        todo := todo - {g};
      }
    }

    /** Returns what is to be closed after the lock is released. */
    method Remove(guid: Guid, deleteFails: bool) returns (closing: set<ChanId>, conns: set<ConnId>)
      modifies this, store
      ensures Removal(State(), closing, conns) == R.Remove(old(State()), guid, deleteFails)
    {
      var entry := if guid in live then Some(live[guid]) else None;
      live := live - {guid};
      closing := TakeChannels(guid);
      if store != null && !deleteFails { store.Delete(guid); }
      conns := {};
      if entry.Some? && entry.value.conn.Some? {
        var used := StillUsed(entry.value.conn.value);
        if !used { conns := {entry.value.conn.value}; }
      }
      ghost var conn := R.ConnsOf(old(live), {guid});
      assert conn == if entry.Some? && entry.value.conn.Some? then {entry.value.conn.value} else {};
    }

    /** The deduplicating pass of the sweep over the connections of the evicted entries. */
    method ConnsToClose(idle: seq<Option<ConnId>>) returns (closing: set<ConnId>)
      ensures forall c :: c in closing <==> Some(c) in idle && c !in R.UsedConns(live)
    {
      closing := {};
      for i := 0 to |idle|
        invariant forall c :: c in closing <==> Some(c) in idle[..i] && c !in R.UsedConns(live)
      {
        assert idle[..i + 1] == idle[..i] + [idle[i]];
        if idle[i].Some? && idle[i].value !in closing {
          closing := closing + {idle[i].value};
          var used := StillUsed(idle[i].value);
          if used { closing := closing - {idle[i].value}; }
        }
      }
    }

    lemma OneMore(r: Reg, gone: set<Guid>, g: Guid)
      requires g in r.live && g !in gone
      ensures R.ChannelsOf(r, gone + {g}) == R.ChannelsOf(r, gone) + R.Tracked(r, g)
      ensures R.Tracked(r.(channels := r.channels - gone), g) == R.Tracked(r, g)
      ensures forall c :: c in R.ConnsOf(r.live, gone + {g})
                          <==> c in R.ConnsOf(r.live, gone) || r.live[g].conn == Some(c)
    {
      assert R.ConnsOf(r.live, gone) <= R.ConnsOf(r.live, gone + {g});
    }

    lemma OneMoreStored(records: map<Guid, Record>, gone: set<Guid>, fails: set<Guid>, g: Guid)
      ensures records - (gone - fails) - (if g in fails then {} else {g}) == records - (gone + {g} - fails)
    {
    }

    /** Loop body of the first pass, for an idle entry; `gone` are the entries that went
        before it. */
    method EvictOne(g: Guid, deleteFails: bool, ghost r: Reg, ghost gone: set<Guid>) returns (conn: Option<ConnId>, taken: set<ChanId>)
      requires live == r.live - gone && channels == r.channels - gone && g in live
      modifies this, store
      ensures conn == r.live[g].conn && taken == R.Tracked(r, g)
      ensures live == r.live - (gone + {g}) && channels == r.channels - (gone + {g})
      ensures store != null ==> store.records == old(store.records) - (if deleteFails then {} else {g})
    {
      MinusTwice(r.live, gone, {g});
      MinusTwice(r.channels, gone, {g});
      conn := live[g].conn;
      taken := TakeChannels(g);
      live := live - {g};
      if store != null {
        if !deleteFails { store.Delete(g); } else { assert store.records - {} == store.records; }
      }
    }

    /** The first pass after it has looked at all entries but `todo`. */
    ghost predicate Progress(r: Reg, cutoff: Time, todo: set<Guid>, evicted: seq<Guid>, conns: seq<Option<ConnId>>, closing: set<ChanId>) {
      && todo <= r.live.Keys && Distinct(evicted)
      && (forall g :: g in evicted <==> g in R.Idle(r, cutoff) && g !in todo)
      && (forall c :: Some(c) in conns <==> c in R.ConnsOf(r.live, ToSet(evicted)))
      && closing == R.ChannelsOf(r, ToSet(evicted))
    }

    lemma ProgressIdle(r: Reg, cutoff: Time, todo: set<Guid>, evicted: seq<Guid>, conns: seq<Option<ConnId>>, closing: set<ChanId>, g: Guid)
      requires Progress(r, cutoff, todo, evicted, conns, closing) && g in todo && g in R.Idle(r, cutoff)
      ensures Progress(r, cutoff, todo - {g}, evicted + [g], conns + [r.live[g].conn], closing + R.Tracked(r, g))
      ensures g !in evicted && ToSet(evicted + [g]) == ToSet(evicted) + {g}
    {
      ToSetAppend(evicted, g);
      OneMore(r, ToSet(evicted), g);
    }

    lemma ProgressBusy(r: Reg, cutoff: Time, todo: set<Guid>, evicted: seq<Guid>, conns: seq<Option<ConnId>>, closing: set<ChanId>, g: Guid)
      requires Progress(r, cutoff, todo, evicted, conns, closing) && g !in R.Idle(r, cutoff)
      ensures Progress(r, cutoff, todo - {g}, evicted, conns, closing)
    {
    }

    lemma ProgressDone(r: Reg, cutoff: Time, evicted: seq<Guid>, conns: seq<Option<ConnId>>, closing: set<ChanId>)
      requires Progress(r, cutoff, {}, evicted, conns, closing)
      ensures ToSet(evicted) == R.Idle(r, cutoff)
    {
    }

    /** The entry is still as it was, and idle exactly if it was. */
    lemma StillThere(r: Reg, cutoff: Time, todo: set<Guid>, evicted: seq<Guid>, conns: seq<Option<ConnId>>, closing: set<ChanId>, g: Guid)
      requires Progress(r, cutoff, todo, evicted, conns, closing) && g in todo
      ensures g in r.live - ToSet(evicted) && (r.live - ToSet(evicted))[g] == r.live[g]
      ensures g in R.Idle(r, cutoff) <==> r.live[g].rec.lastActivity < cutoff
    {
    }

    /** First pass of the sweep: take every idle entry out of the registry. */
    method EvictLive(cutoff: Time, failFirst: set<Guid>)
        returns (evicted: seq<Guid>, idleConns: seq<Option<ConnId>>, closing: set<ChanId>)
      modifies this, store
      ensures Distinct(evicted) && ToSet(evicted) == R.Idle(old(State()), cutoff)
      ensures forall c :: Some(c) in idleConns <==> c in R.ConnsOf(old(live), ToSet(evicted))
      ensures closing == R.ChannelsOf(old(State()), ToSet(evicted))
      ensures live == old(live) - ToSet(evicted) && channels == old(channels) - ToSet(evicted)
      ensures store != null ==> store.records == old(store.records) - (ToSet(evicted) - failFirst)
    {
      ghost var r := State();
      evicted, idleConns, closing := [], [], {};
      var todo := live.Keys;
      while todo != {}
        invariant Progress(r, cutoff, todo, evicted, idleConns, closing)
        invariant live == r.live - ToSet(evicted) && channels == r.channels - ToSet(evicted)
        invariant store != null ==> store.records == old(store.records) - (ToSet(evicted) - failFirst)
        decreases |todo|
      {
        var g :| g in todo;
        StillThere(r, cutoff, todo, evicted, idleConns, closing, g);
        if live[g].rec.lastActivity < cutoff {
          ghost var gone := ToSet(evicted);
          ProgressIdle(r, cutoff, todo, evicted, idleConns, closing, g);
          if store != null { OneMoreStored(old(store.records), gone, failFirst, g); }
          var conn, taken := EvictOne(g, g in failFirst, r, gone);
          idleConns := idleConns + [conn];
          closing := closing + taken;
          evicted := evicted + [g];
        } else {
          ProgressBusy(r, cutoff, todo, evicted, idleConns, closing, g);
        }
        todo := todo - {g};
      }
      ProgressDone(r, cutoff, evicted, idleConns, closing);
    }

    /** Second pass: expire persisted records that have no live entry. */
    method ExpirePersisted(cutoff: Time, failSecond: set<Guid>) returns (expired: seq<Guid>)
      requires store != null && forall g :: g in store.records ==> store.records[g].guid == g
      modifies store
      ensures Distinct(expired)
      ensures ToSet(expired) == R.Expired(old(store.records), live, cutoff) - failSecond
      ensures store.records == old(store.records) - ToSet(expired)
    {
      expired := [];
      var records := store.List();
      for i := 0 to |records|
        invariant Distinct(expired)
        invariant ToSet(expired) == ExpiredAmong(records[..i], live, cutoff, failSecond)
        invariant store.records == old(store.records) - ToSet(expired)
      {
        var rec := records[i];
        OneMoreListed(records, i, live, cutoff, failSecond, old(store.records));
        if rec.guid !in live && rec.lastActivity < cutoff && rec.guid !in failSecond {
          MinusTwice(old(store.records), ToSet(expired), {rec.guid});
          ToSetAppend(expired, rec.guid);
          assert rec.guid !in expired;
          store.Delete(rec.guid);
          expired := expired + [rec.guid];
        }
      }
      AllListed(records, live, cutoff, failSecond, old(store.records));
    }

    ghost predicate Lists(records: seq<Record>, stored: map<Guid, Record>) {
      && Distinct(records)
      && forall rec :: rec in records <==> rec.guid in stored && stored[rec.guid] == rec
    }

    ghost function ExpiredAmong(records: seq<Record>, live: map<Guid, Entry>, cutoff: Time, failing: set<Guid>): set<Guid> {
      set rec | rec in records && rec.guid !in live && rec.lastActivity < cutoff && rec.guid !in failing :: rec.guid
    }

    lemma OneMoreListed(records: seq<Record>, i: nat, live: map<Guid, Entry>, cutoff: Time, failing: set<Guid>, stored: map<Guid, Record>)
      requires i < |records| && Lists(records, stored)
      ensures var rec := records[i];
              && rec.guid !in ExpiredAmong(records[..i], live, cutoff, failing)
              && ExpiredAmong(records[..i + 1], live, cutoff, failing)
                 == ExpiredAmong(records[..i], live, cutoff, failing)
                    + (if rec.guid !in live && rec.lastActivity < cutoff && rec.guid !in failing then {rec.guid} else {})
    {
      assert records[..i + 1] == records[..i] + [records[i]];
      forall k | 0 <= k < i ensures records[k].guid != records[i].guid {
        assert records[k] in records && records[i] in records;
      }
    }

    lemma AllListed(records: seq<Record>, live: map<Guid, Entry>, cutoff: Time, failing: set<Guid>, stored: map<Guid, Record>)
      requires Lists(records, stored) && forall g :: g in stored ==> stored[g].guid == g
      ensures ExpiredAmong(records[..|records|], live, cutoff, failing) == R.Expired(stored, live, cutoff) - failing
    {
      assert records[..|records|] == records;
      forall g | g in stored ensures stored[g] in records {}
    }

    method EvictIdle(cutoff: Time, listFails: bool, failFirst: set<Guid>, failSecond: set<Guid>)
        returns (evicted: seq<Guid>, closing: set<ChanId>, conns: set<ConnId>)
      requires R.KeyedByGuid(State())
      modifies this, store
      ensures var sweep := R.EvictIdle(old(State()), cutoff, listFails, failFirst, failSecond);
              && Removal(State(), closing, conns) == sweep.removal
              && ToSet(evicted) == sweep.idle + sweep.expired
    {
      var idleConns;
      evicted, idleConns, closing := EvictLive(cutoff, failFirst);
      assert ToSet(evicted) == R.Idle(old(State()), cutoff);
      conns := ConnsToClose(idleConns);
      if store != null && !listFails {
        var expired := ExpirePersisted(cutoff, failSecond);
        assert ToSet(evicted + expired) == ToSet(evicted) + ToSet(expired);
        evicted := evicted + expired;
      } else if store != null {
        assert store.records - {} == store.records;
      }
    }
  }
}
