/** The connection handler as an object: its lists and its bounded notification queue
    are updated in place, its loops probe and change the shared registry.  Each
    method is proved against the table functions and the registry functions. */
module HandlerObject {
  import opened Seqs
  import opened HostPort
  import opened Registry
  import opened Tables
  import opened RegistryObject
  import R = Registry
  import L = RegistryLaws
  import S = Server
  import P = Ports

  /** The pseudo-port counter that all connections share. */
  class PortCounter {
    var value: nat

    constructor ()
      ensures value == 0
    {
      value := 0;
    }

    method AllocPseudoPort() returns (port: nat)
      modifies this
      ensures value == P.Drawn(old(value), 1)
      ensures port == P.PseudoPort(value)
    {
      value := (value + 1) % P.WORD;
      port := P.BASE + value % P.SPAN;
    }
  }

  /** Both overrides in turn, stopping at the first that fails. */
  function Overridden(r: Reg, want: S.Overrides, guid: Guid, keyFails: bool, passwordFails: bool): (Reg, bool) {
    if want.invalid then (r, false)
    else
      var key := if want.key == "" then (r, true) else UpdateConnectorKey(r, guid, want.key, keyFails);
      if !key.1 || !want.allowPassword then key else UpdateAllowPassword(key.0, guid, true, passwordFails)
  }

  /** Live and stored records agree up to a newer activity time. */
  predicate Mirrored(r: Reg) {
    KeyedByGuid(r) && L.StoreMirrorsLive(r)
  }

  lemma UpdateKeepsMirror(r: Reg, guid: Guid, key: string, allow: bool, fails: bool)
    requires Mirrored(r)
    ensures Mirrored(UpdateConnectorKey(r, guid, key, fails).0) && Mirrored(UpdateAllowPassword(r, guid, allow, fails).0)
  {
    if guid in r.live {
      L.InsertKeepsMirror(r, r.live[guid].rec.(connectorKey := key), r.live[guid].conn);
      L.InsertKeepsMirror(r, r.live[guid].rec.(allowPassword := allow), r.live[guid].conn);
    }
  }

  /** Only the tunnel's own record changes; if no override fails, it carries what was
      asked for. */
  lemma OverriddenMeans(r: Reg, want: S.Overrides, guid: Guid, keyFails: bool, passwordFails: bool)
    ensures var (r', ok) := Overridden(r, want, guid, keyFails, passwordFails);
            && r'.live.Keys == r.live.Keys && r'.live - {guid} == r.live - {guid} && r'.channels == r.channels
            && (ok ==> !want.invalid && (guid !in r.live ==> want.key == "" && !want.allowPassword))
            && (ok && guid in r.live ==>
                  r'.live[guid].rec == r.live[guid].rec.(
                    connectorKey := if want.key == "" then r.live[guid].rec.connectorKey else want.key,
                    allowPassword := want.allowPassword || r.live[guid].rec.allowPassword))
  {
  }

  lemma OverriddenMirrors(r: Reg, want: S.Overrides, guid: Guid, keyFails: bool, passwordFails: bool)
    requires Mirrored(r)
    ensures Mirrored(Overridden(r, want, guid, keyFails, passwordFails).0)
  {
    if !want.invalid {
      var key := if want.key == "" then (r, true) else UpdateConnectorKey(r, guid, want.key, keyFails);
      UpdateKeepsMirror(r, guid, want.key, true, keyFails);
      UpdateKeepsMirror(key.0, guid, "", true, passwordFails);
    }
  }

  class ConnHandler {
    const reg: TunnelRegistry
    const cfg: S.Config
    const id: ConnId
    const defaultKey: string
    var guids: seq<Guid>
    var forwards: map<string, Guid>
    var queue: seq<Guid>

    ghost function Lists(): (t: Tables)
      reads this
    {
      Tables(guids, forwards)
    }

    constructor (reg: TunnelRegistry, cfg: S.Config, id: ConnId, defaultKey: string)
      ensures this.reg == reg && this.cfg == cfg && this.id == id && this.defaultKey == defaultKey
      ensures guids == [] && forwards == map[] && queue == []
    {
      this.reg := reg;
      this.cfg := cfg;
      this.id := id;
      this.defaultKey := defaultKey;
      guids, forwards, queue := [], map[], [];
    }

    /** Prunes what the sweeper evicted and counts the rest. */
    method CountLiveForwards() returns (n: nat)
      modifies this`guids, this`forwards
      ensures Lists() == Pruned(old(Lists()), reg.live.Keys, reg.live.Keys)
      ensures n == |guids|
    {
      var all, kept := guids, [];
      for i := 0 to |all|
        invariant unchanged(this)
        invariant kept == Within(all[..i], reg.live.Keys)
      {
        OneMoreFiltered(all[..i], all[i], reg.live.Keys);
        assert all[..i + 1] == all[..i] + [all[i]];
        var live := reg.IsLive(all[i]);
        if live { kept := kept + [all[i]]; }
      }
      assert all[..|all|] == all;
      guids := kept;
      var todo := forwards.Keys;
      while todo != {}
        invariant guids == kept && queue == old(queue)
        invariant todo <= old(forwards).Keys
        invariant forwards == map k | k in old(forwards) && (k in todo || old(forwards)[k] in reg.live) :: old(forwards)[k]
        decreases |todo|
      {
        var k :| k in todo;
        var live := reg.IsLive(forwards[k]);
        if !live { forwards := forwards - {k}; }
        todo := todo - {k};
      }
      n := |guids|;
    }

    method PerConnLimitReached() returns (reached: bool)
      modifies this`guids, this`forwards
      ensures Lists() == Pruned(old(Lists()), reg.live.Keys, reg.live.Keys)
      ensures reached <==> S.AtLimit(cfg.maxPerConn, |guids|)
    {
      var n := CountLiveForwards();
      reached := cfg.maxPerConn > 0 && n >= cfg.maxPerConn;
    }

    method ReserveForwardPort(addr: string, reqPort: nat, counter: PortCounter) returns (port: Option<nat>)
      modifies counter
      ensures (port, counter.value) == P.Reserve(forwards, addr, reqPort, old(counter.value))
    {
      if reqPort != 0 {
        return if ForwardKey(addr, reqPort) in forwards then None else Some(reqPort);
      }
      for i := 0 to 20000
        invariant P.Scan(forwards, addr, counter.value, 20000 - i) == P.Scan(forwards, addr, old(counter.value), 20000)
      {
        var p := counter.AllocPseudoPort();
        if ForwardKey(addr, p) !in forwards { return Some(p); }
      }
      return None;
    }

    method EnqueueRegistration(guid: Guid) returns (ok: bool)
      modifies this`queue
      ensures ok <==> |old(queue)| < S.QueueCapacity(cfg)
      ensures queue == if ok then old(queue) + [guid] else old(queue)
    {
      ok := |queue| < S.QueueCapacity(cfg);
      if ok { queue := queue + [guid]; }
    }

    /** The region of `revokeGuid` under the connection's mutex. */
    method DropGuid(guid: Guid)
      modifies this`guids, this`forwards
      ensures Lists() == Dropped(old(Lists()), guid)
    {
      RemoveListed([guid]);
      assert ToSet([guid]) == {guid};
      ghost var kept := guids;
      var todo := forwards.Keys;
      while todo != {}
        invariant guids == kept && queue == old(queue)
        invariant todo <= old(forwards).Keys
        invariant forwards == map k | k in old(forwards) && (k in todo || old(forwards)[k] != guid) :: old(forwards)[k]
        decreases |todo|
      {
        var k :| k in todo;
        if forwards[k] == guid { forwards := forwards - {k}; }
        todo := todo - {k};
      }
    }

    method RevokeGuid(guid: Guid, deleteFails: bool)
      modifies this`guids, this`forwards, reg, reg.store
      ensures Lists() == Dropped(old(Lists()), guid)
      ensures reg.State() == R.Remove(old(reg.State()), guid, deleteFails).reg
    {
      DropGuid(guid);
      var closing, conns := reg.Remove(guid, deleteFails);
    }

    /** The zero-port case: every forward whose key splits to the address. */
    method TakeByAddress(addr: string) returns (gone: seq<Guid>)
      modifies this`forwards
      ensures var hits := CancelKeys(old(Lists()), addr, 0);
              forwards == old(forwards) - hits && ToSet(gone) == set k | k in hits :: old(forwards)[k]
    {
      gone := [];
      ghost var t := Lists();
      ghost var hits := CancelKeys(t, addr, 0);
      var todo := forwards.Keys;
      ghost var done: set<string> := {};
      while todo != {}
        invariant todo <= t.forwards.Keys
        invariant forall k :: k in done <==> k in hits && k !in todo
        invariant done <= t.forwards.Keys && forwards == t.forwards - done
        invariant forall g :: g in ToSet(gone) <==> exists k :: k in done && t.forwards[k] == g
        decreases |todo|
      {
        var k :| k in todo;
        todo := todo - {k};
        var parts := SplitHostPort(k);
        if parts.Some? && parts.value.0 == addr {
          ToSetAppend(gone, forwards[k]);
          MinusTwice(t.forwards, done, {k});
          gone := gone + [forwards[k]];
          forwards := forwards - {k};
          done := done + {k};
        }
      }
      assert done == hits;
    }

    /** The region of `revokeForward` under the mutex; returns the GUIDs to remove. */
    method TakeForwards(addr: string, port: nat) returns (gone: seq<Guid>)
      modifies this`guids, this`forwards
      ensures Lists() == Cancelled(old(Lists()), addr, port)
      ensures ToSet(gone) == CancelGuids(old(Lists()), addr, port)
    {
      if port != 0 {
        var key := ForwardKey(addr, port);
        ghost var hits := CancelKeys(Lists(), addr, port);
        if key in forwards {
          gone := [forwards[key]];
          forwards := forwards - {key};
          assert hits == {key};
        } else {
          gone := [];
          assert hits == {} && forwards - {} == forwards;
        }
      } else {
        gone := TakeByAddress(addr);
      }
      assert ToSet(gone) == CancelGuids(old(Lists()), addr, port);
      RemoveListed(gone);
    }

    /** `guids` without the elements of `gone`. */
    method RemoveListed(gone: seq<Guid>)
      modifies this`guids
      ensures guids == Without(old(guids), ToSet(gone))
    {
      var all, kept := guids, [];
      for i := 0 to |all|
        invariant unchanged(this)
        invariant kept == Without(all[..i], ToSet(gone))
      {
        OneMoreFiltered(all[..i], all[i], ToSet(gone));
        assert all[..i + 1] == all[..i] + [all[i]];
        if all[i] !in gone { kept := kept + [all[i]]; }
      }
      assert all[..|all|] == all;
      guids := kept;
    }

    /** `reg.Remove` (or `reg.Delete`) for each GUID of a list. */
    method RemoveEach(gone: seq<Guid>, deleteFails: set<Guid>)
      modifies reg, reg.store
      ensures reg.live == old(reg.live) - ToSet(gone) && reg.channels == old(reg.channels) - ToSet(gone)
      ensures reg.store != null ==> reg.store.records == old(reg.store.records) - (ToSet(gone) - deleteFails)
    {
      for i := 0 to |gone|
        invariant reg.live == old(reg.live) - ToSet(gone[..i])
        invariant reg.channels == old(reg.channels) - ToSet(gone[..i])
        invariant reg.store != null ==> reg.store.records == old(reg.store.records) - (ToSet(gone[..i]) - deleteFails)
      {
        ghost var before := ToSet(gone[..i]);
        assert gone[..i + 1] == gone[..i] + [gone[i]];
        ToSetAppend(gone[..i], gone[i]);
        MinusTwice(old(reg.live), before, {gone[i]});
        MinusTwice(old(reg.channels), before, {gone[i]});
        if reg.store != null { reg.OneMoreStored(old(reg.store.records), before, deleteFails, gone[i]); }
        var closing, conns := reg.Remove(gone[i], gone[i] in deleteFails);
      }
      assert gone[..|gone|] == gone;
    }

    method RevokeForward(addr: string, port: nat, deleteFails: set<Guid>)
      modifies this`guids, this`forwards, reg, reg.store
      ensures Lists() == Cancelled(old(Lists()), addr, port)
      ensures var gone := CancelGuids(old(Lists()), addr, port);
              && reg.live == old(reg.live) - gone && reg.channels == old(reg.channels) - gone
              && (reg.store != null ==> reg.store.records == old(reg.store.records) - (gone - deleteFails))
    {
      var gone := TakeForwards(addr, port);
      RemoveEach(gone, deleteFails);
    }

    /** On disconnect: every listed tunnel leaves the registry. */
    method Cleanup(deleteFails: set<Guid>)
      modifies reg, reg.store
      ensures reg.live == old(reg.live) - ToSet(guids) && reg.channels == old(reg.channels) - ToSet(guids)
      ensures reg.store != null ==> reg.store.records == old(reg.store.records) - (ToSet(guids) - deleteFails)
    {
      RemoveEach(guids, deleteFails);
    }

    /** Without interference from other goroutines: either both overrides are in the live
        and, if the records were in step, in the stored record, or an error is reported;
        `Overridden` says what the registry and the store then hold. */
    method ApplyEnvOverrides(want: S.Overrides, guid: Guid, keyFails: bool, passwordFails: bool) returns (ok: bool)
      modifies reg, reg.store
      ensures (reg.State(), ok) == Overridden(old(reg.State()), want, guid, keyFails, passwordFails)
      ensures want.invalid ==> !ok
      ensures ok && guid in old(reg.live) ==>
                && guid in reg.live
                && reg.live[guid].rec == old(reg.live)[guid].rec.(
                     connectorKey := if want.key == "" then old(reg.live)[guid].rec.connectorKey else want.key,
                     allowPassword := want.allowPassword || old(reg.live)[guid].rec.allowPassword)
      ensures ok && guid !in old(reg.live) ==> want.key == "" && !want.allowPassword
      ensures Mirrored(old(reg.State())) ==> Mirrored(reg.State())
      ensures ok && guid in reg.live && reg.store != null && Mirrored(old(reg.State())) ==>
                && guid in reg.store.records
                && reg.store.records[guid].connectorKey == reg.live[guid].rec.connectorKey
                && reg.store.records[guid].allowPassword == reg.live[guid].rec.allowPassword
    {
      OverriddenMeans(reg.State(), want, guid, keyFails, passwordFails);
      if Mirrored(reg.State()) { OverriddenMirrors(reg.State(), want, guid, keyFails, passwordFails); }
      if want.invalid { return false; }
      if want.key != "" {
        var set_ := reg.UpdateConnectorKey(guid, want.key, keyFails);
        if !set_ { return false; }
      }
      if want.allowPassword {
        var set_ := reg.UpdateAllowPassword(guid, true, passwordFails);
        if !set_ { return false; }
      }
      return true;
    }

    /** Fail closed: a registration whose overrides could not all be applied is removed
        from the lists and from the registry. */
    method HandleRegistration(want: S.Overrides, guid: Guid, keyFails: bool, passwordFails: bool, deleteFails: bool)
        returns (shown: Option<Record>)
      modifies this`guids, this`forwards, reg, reg.store
      ensures shown.Some? ==>
                && guid in reg.live && shown.value == reg.live[guid].rec
                && (want.key != "" ==> shown.value.connectorKey == want.key)
                && (want.allowPassword ==> shown.value.allowPassword)
                && !want.invalid && Lists() == old(Lists())
      ensures shown.Some? && reg.store != null && Mirrored(old(reg.State())) ==>
                && guid in reg.store.records
                && reg.store.records[guid].connectorKey == shown.value.connectorKey
                && reg.store.records[guid].allowPassword == shown.value.allowPassword
      ensures shown.None? ==> guid !in reg.live
      ensures var (after, ok) := Overridden(old(reg.State()), want, guid, keyFails, passwordFails);
              if ok then reg.State() == after && Lists() == old(Lists())
              else reg.State() == R.Remove(after, guid, deleteFails).reg && Lists() == Dropped(old(Lists()), guid)
    {
      var ok := ApplyEnvOverrides(want, guid, keyFails, passwordFails);
      if !ok {
        RevokeGuid(guid, deleteFails);
        return None;
      }
      var found := reg.Lookup(guid);
      shown := if found.Some? then Some(found.value.rec) else None;
    }

    lemma DropUndoesRecord(t: Tables, guid: Guid, addr: string, port: nat)
      requires guid !in t.guids && guid !in t.forwards.Values && ForwardKey(addr, port) !in t.forwards
      ensures Dropped(Recorded(t, guid, addr, port), guid) == t
    {
      OneMoreFiltered(t.guids, guid, {guid});
      NothingToDrop(t.guids, guid);
      var r := Recorded(t, guid, addr, port);
      assert forall k :: k in t.forwards ==> t.forwards[k] in t.forwards.Values;
      assert Dropped(r, guid).forwards == t.forwards;
    }

    lemma {:induction false} NothingToDrop(s: seq<Guid>, guid: Guid)
      requires guid !in s
      ensures Without(s, {guid}) == s
    {
      if s != [] { NothingToDrop(s[1..], guid); }
    }

    ghost predicate Fresh(guid: Guid)
      reads this, reg
    {
      guid !in reg.live && guid !in reg.channels && guid !in guids && guid !in forwards.Values
    }

    /** The checks and the port reservation that precede a registration. */
    method Admit(addr: string, reqPort: nat, counter: PortCounter) returns (port: Option<nat>)
      requires counter.value < P.WORD
      modifies this`guids, this`forwards, counter
      ensures Lists() == old(Lists()) || Lists() == Pruned(old(Lists()), reg.live.Keys, reg.live.Keys)
      ensures port.Some? ==>
                && Lists() == Pruned(old(Lists()), reg.live.Keys, reg.live.Keys)
                && P.Free(forwards, addr, port.value) && port.value != 0 && (reqPort != 0 ==> port.value == reqPort)
                && !S.AtLimit(cfg.maxPerConn, |guids|) && !S.AtLimit(cfg.maxTotal, |reg.live|) && defaultKey != ""
    {
      if defaultKey == "" { return None; }
      var limited := PerConnLimitReached();
      if limited { return None; }
      var total := reg.Count();
      if cfg.maxTotal > 0 && total >= cfg.maxTotal { return None; }
      P.ReserveIsFree(forwards, addr, reqPort, counter.value);
      port := ReserveForwardPort(addr, reqPort, counter);
    }

    /** Register, list and queue a tunnel, or leave nothing of it. */
    method Register(rec: Record, now: Time, storeFails: bool, deleteFails: bool) returns (ok: bool)
      requires Fresh(rec.guid) && P.Free(forwards, rec.bindAddr, rec.bindPort)
      modifies this, reg, reg.store
      ensures ok ==>
                && reg.live == old(reg.live)[rec.guid := Entry(rec.(lastActivity := now), Some(id))]
                && Lists() == Recorded(old(Lists()), rec.guid, rec.bindAddr, rec.bindPort)
                && queue == old(queue) + [rec.guid]
      ensures !ok ==> reg.live == old(reg.live) && Lists() == old(Lists()) && queue == old(queue)
      ensures reg.channels == old(reg.channels)
    {
      ghost var t, r := Lists(), reg.State();
      var result := reg.Put(rec, Some(id), now, storeFails);
      if result != PutOk { return false; }
      ListForward(rec);
      ok := EnqueueRegistration(rec.guid);
      if !ok {
        DropUndoesRecord(t, rec.guid, rec.bindAddr, rec.bindPort);
        L.RemoveUndoesPut(r, rec, Some(id), now, storeFails, deleteFails);
        RevokeGuid(rec.guid, deleteFails);
      }
    }

    method ListForward(rec: Record)
      modifies this`guids, this`forwards
      ensures Lists() == Recorded(old(Lists()), rec.guid, rec.bindAddr, rec.bindPort)
    {
      guids := guids + [rec.guid];
      forwards := forwards[ForwardKey(rec.bindAddr, rec.bindPort) := rec.guid];
    }

    /** One forward request, undisturbed: either the tunnel is registered, listed and
        queued, or nothing is left of it anywhere. */
    method HandleTcpipForward(addr: string, reqPort: nat, rec: Record, now: Time, storeFails: bool,
                              deleteFails: bool, counter: PortCounter)
        returns (port: Option<nat>)
      requires Fresh(rec.guid) && counter.value < P.WORD
      modifies this, counter, reg, reg.store
      ensures port.Some? ==>
                var t := Pruned(old(Lists()), old(reg.live).Keys, old(reg.live).Keys);
                var full := rec.(bindAddr := addr, bindPort := port.value, connectorKey := defaultKey,
                                 allowPassword := false, lastActivity := now);
                && P.Free(t.forwards, addr, port.value) && (reqPort != 0 ==> port.value == reqPort)
                && !S.AtLimit(cfg.maxPerConn, |t.guids|) && !S.AtLimit(cfg.maxTotal, |old(reg.live)|)
                && reg.live == old(reg.live)[rec.guid := Entry(full, Some(id))]
                && Lists() == Recorded(t, rec.guid, addr, port.value)
                && queue == old(queue) + [rec.guid]
      ensures port.None? ==>
                && reg.live == old(reg.live) && reg.channels == old(reg.channels) && queue == old(queue)
                && (Lists() == old(Lists()) || Lists() == Pruned(old(Lists()), old(reg.live).Keys, old(reg.live).Keys))
    {
      port := Admit(addr, reqPort, counter);
      if port.None? { return None; }
      FreshStaysFresh(old(Lists()), reg.live.Keys, rec.guid);
      var full := rec.(bindAddr := addr, bindPort := port.value, connectorKey := defaultKey, allowPassword := false);
      var ok := Register(full, now, storeFails, deleteFails);
      if !ok { return None; }
    }

    lemma FreshStaysFresh(t: Tables, alive: set<Guid>, guid: Guid)
      requires guid !in t.guids && guid !in t.forwards.Values
      ensures guid !in Pruned(t, alive, alive).guids && guid !in Pruned(t, alive, alive).forwards.Values
    {
      FilterMember(t.guids, x => x in alive, guid);
      var p := Pruned(t, alive, alive).forwards;
      assert forall k :: k in p ==> p[k] == t.forwards[k] && t.forwards[k] in t.forwards.Values;
    }
  }
}
