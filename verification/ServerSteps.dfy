/** Each step of a connection keeps that connection's invariant. */
module ServerSteps {
  import opened Seqs
  import opened Registry
  import opened Tables
  import opened Server
  import opened ServerInv
  import L = RegistryLaws
  import Ports

  // ----- parts of the invariant that a step does not look at ---------------

  lemma SessionSame(cfg: Config, issued: map<Guid, Bind>, cid: ConnId, c: Conn, c': Conn)
    requires SessionInv(cfg, issued, cid, c)
    requires c' == c.(tables := c'.tables, fwd := c'.fwd, accepted := c'.accepted)
    requires c.closer.Serving? || c'.fwd.Stopped?
    ensures SessionInv(cfg, issued, cid, c')
  {
    assert Consumed(c') == Consumed(c);
  }

  lemma ForwarderSame(cfg: Config, issued: map<Guid, Bind>, cid: ConnId, c: Conn, c': Conn)
    requires ForwarderInv(cfg, issued, cid, c)
    requires c'.tables == c.tables && c'.fwd == c.fwd
    requires c'.queued == c.queued && c'.accepted == c.accepted && c'.cancelled == c.cancelled
    ensures ForwarderInv(cfg, issued, cid, c')
  {
  }

  lemma SettingsSame(live: map<Guid, Entry>, cid: ConnId, c: Conn, c': Conn)
    requires SettingsInv(live, cid, c)
    requires c'.defaultKey == c.defaultKey && c'.sess == c.sess && c'.handled == c.handled
    ensures SettingsInv(live, cid, c')
  {
    assert forall g :: g in live && live[g].conn == Some(cid) ==> SettingsRight(c, g, live[g].rec);
  }

  /** The tables stay and nothing accounted for gets lost. */
  lemma OwnershipSame(live: map<Guid, Entry>, issued: map<Guid, Bind>, cid: ConnId, c: Conn, c': Conn)
    requires OwnershipInv(live, issued, cid, c)
    requires c'.tables == c.tables && c'.cancelled == c.cancelled && c'.failed == c.failed
    requires Accounted(c) <= Accounted(c') && HeldByForwarder(c) <= HeldByForwarder(c')
    ensures OwnershipInv(live, issued, cid, c')
  {
  }

  /** A step of the request goroutine that only moves it on. */
  lemma MoveOn(s: Sys, cid: ConnId, c: Conn, c': Conn)
    requires ConnInv(s, cid, c) && ForwarderInv(s.cfg, s.issued, cid, c')
    requires c' == c.(fwd := c'.fwd, accepted := c'.accepted)
    requires c.closer.Serving? || c'.fwd.Stopped?
    requires HeldByForwarder(c) <= HeldByForwarder(c')
    ensures ConnInv(s, cid, c')
  {
    SessionSame(s.cfg, s.issued, cid, c, c');
    SettingsSame(s.reg.live, cid, c, c');
    OwnershipSame(s.reg.live, s.issued, cid, c, c');
  }

  // ----- pruning and limits ------------------------------------------------

  lemma PruneOwnership(live: map<Guid, Entry>, issued: map<Guid, Bind>, cid: ConnId, c: Conn, c': Conn,
                       alive: set<Guid>, stillAlive: set<Guid>)
    requires OwnershipInv(live, issued, cid, c) && TablesInv(c.tables, issued)
    requires live.Keys <= stillAlive <= alive
    requires c.fwd.Waiting?
    requires c' == c.(tables := Pruned(c.tables, alive, stillAlive), fwd := c'.fwd)
    requires HeldByForwarder(c') == {}
    ensures OwnershipInv(live, issued, cid, c')
  {
    PrunedKeepsInv(c.tables, issued, alive, stillAlive);
    assert forall g :: g in c.tables.guids && g in live ==> g in c'.tables.guids;
  }

  lemma CheckConnStep(s: Sys, cid: ConnId, c: Conn, addr: string, reqPort: nat, alive: set<Guid>, stillAlive: set<Guid>)
    requires ConnInv(s, cid, c) && c.fwd.Waiting?
    ensures ConnInv(s, cid, DoCheckConn(s, c, addr, reqPort, alive, stillAlive))
  {
    var c' := DoCheckConn(s, c, addr, reqPort, alive, stillAlive);
    if c.defaultKey != "" {
      var first := alive + s.reg.live.Keys;
      var second := alive * stillAlive + s.reg.live.Keys;
      PrunedKeepsInv(c.tables, s.issued, first, second);
      assert ForwarderInv(s.cfg, s.issued, cid, c');
      PruneOwnership(s.reg.live, s.issued, cid, c, c', first, second);
      SessionSame(s.cfg, s.issued, cid, c, c');
      SettingsSame(s.reg.live, cid, c, c');
    }
  }

  lemma ReserveStep(s: Sys, cid: ConnId, c: Conn)
    requires ConnInv(s, cid, c) && c.fwd.Reserving? && s.counter < Ports.WORD
    ensures ConnInv(s, cid, DoReserve(s, c).0) && DoReserve(s, c).1 < Ports.WORD
  {
    Ports.ReserveIsFree(c.tables.forwards, c.fwd.addr, c.fwd.reqPort, s.counter);
    MoveOn(s, cid, c, DoReserve(s, c).0);
  }

  // ----- a new forward -----------------------------------------------------

  lemma RecordOwnership(live: map<Guid, Entry>, issued: map<Guid, Bind>, cid: ConnId, c: Conn, c': Conn)
    requires OwnershipInv(live, issued, cid, c) && TablesInv(c.tables, issued) && c.fwd.Recording?
    requires Ports.Free(c.tables.forwards, c.fwd.addr, c.fwd.port)
    requires c.fwd.guid in issued && issued[c.fwd.guid].addr == c.fwd.addr && issued[c.fwd.guid].port == c.fwd.port
    requires c.fwd.guid !in c.cancelled
    requires c' == c.(tables := Recorded(c.tables, c.fwd.guid, c.fwd.addr, c.fwd.port), fwd := Enqueueing(c.fwd.guid))
    ensures OwnershipInv(live, issued, cid, c')
  {
    ToSetAppend(c.tables.guids, c.fwd.guid);
    assert Accounted(c') == Accounted(c);
  }

  lemma RecordStep(s: Sys, cid: ConnId, c: Conn, c': Conn)
    requires ConnInv(s, cid, c) && c.fwd.Recording? && c.closer.Serving?
    requires c' == c.(tables := Recorded(c.tables, c.fwd.guid, c.fwd.addr, c.fwd.port), fwd := Enqueueing(c.fwd.guid))
    ensures ConnInv(s, cid, c')
  {
    RecordedKeepsInv(c.tables, s.issued, c.fwd.guid, c.fwd.addr, c.fwd.port);
    ToSetAppend(c.tables.guids, c.fwd.guid);
    assert ForwarderInv(s.cfg, s.issued, cid, c');
    RecordOwnership(s.reg.live, s.issued, cid, c, c');
    SessionSame(s.cfg, s.issued, cid, c, c');
    SettingsSame(s.reg.live, cid, c, c');
  }

  lemma EnqueueSession(cfg: Config, issued: map<Guid, Bind>, cid: ConnId, c: Conn, c': Conn, g: Guid)
    requires SessionInv(cfg, issued, cid, c) && c.closer.Serving?
    requires g !in c.queued && g in issued && issued[g].owner == cid
    requires |c.queue| < QueueCapacity(cfg)
    requires c' == c.(queue := c.queue + [g], queued := c.queued + [g], fwd := Accepting(g))
    ensures SessionInv(cfg, issued, cid, c')
  {
    ToSetAppend(c.queued, g);
    assert Consumed(c') == Consumed(c);
    var n := |c.queued| - |c.queue|;
    assert c'.queued[n..] == c.queued[n..] + [g];
  }

  lemma EnqueueStep(s: Sys, cid: ConnId, c: Conn)
    requires ConnInv(s, cid, c) && c.fwd.Enqueueing? && c.closer.Serving?
    ensures ConnInv(s, cid, DoEnqueue(s, c))
  {
    var c' := DoEnqueue(s, c);
    if c'.fwd.Accepting? {
      assert c.fwd.guid in ToSet(c.tables.guids);
      EnqueueSession(s.cfg, s.issued, cid, c, c', c.fwd.guid);
      SettingsSame(s.reg.live, cid, c, c');
      OwnershipSame(s.reg.live, s.issued, cid, c, c');
    } else {
      MoveOn(s, cid, c, c');
    }
  }

  // ----- revocation --------------------------------------------------------

  lemma DropOwnership(live: map<Guid, Entry>, issued: map<Guid, Bind>, cid: ConnId, c: Conn, c': Conn, guid: Guid)
    requires OwnershipInv(live, issued, cid, c) && TablesInv(c.tables, issued)
    requires c'.tables == Dropped(c.tables, guid) && c'.cancelled == c.cancelled && c'.failed == c.failed
    requires c'.closer == c.closer
    requires HeldByForwarder(c) <= HeldByForwarder(c') && RevokedBySession(c) <= RevokedBySession(c')
    requires guid in HeldByForwarder(c') + RevokedBySession(c') && (!c.closer.Serving? ==> guid in RevokedBySession(c'))
    ensures OwnershipInv(live, issued, cid, c')
  {
    MembersWithout(c.tables.guids, {guid});
    assert Accounted(c) <= Accounted(c');
    forall g | g in c'.tables.guids && g in live && g in issued
      ensures var k := ForwardKey(issued[g].addr, issued[g].port); k in c'.tables.forwards && c'.tables.forwards[k] == g
    {
      assert g in c.tables.guids && g != guid;
    }
  }

  lemma DropUnqueuedStep(s: Sys, cid: ConnId, c: Conn, c': Conn)
    requires ConnInv(s, cid, c) && c.fwd.Unqueued? && c.closer.Serving?
    requires c' == c.(tables := Dropped(c.tables, c.fwd.guid), fwd := Revoking({c.fwd.guid}))
    ensures ConnInv(s, cid, c')
  {
    DroppedKeepsInv(c.tables, s.issued, c.fwd.guid);
    MembersWithout(c.tables.guids, {c.fwd.guid});
    SizeWithout(c.tables.guids, {c.fwd.guid});
    assert c.fwd.guid in ToSet(c.tables.guids);
    assert ForwarderInv(s.cfg, s.issued, cid, c');
    DropOwnership(s.reg.live, s.issued, cid, c, c', c.fwd.guid);
    SessionSame(s.cfg, s.issued, cid, c, c');
    SettingsSame(s.reg.live, cid, c, c');
  }

  lemma DropFailedForwarder(cfg: Config, issued: map<Guid, Bind>, cid: ConnId, c: Conn, c': Conn, g: Guid)
    requires ForwarderInv(cfg, issued, cid, c) && g in c.queued
    requires c' == c.(tables := Dropped(c.tables, g), sess := c'.sess)
    ensures ForwarderInv(cfg, issued, cid, c')
  {
    DroppedKeepsInv(c.tables, issued, g);
    MembersWithout(c.tables.guids, {g});
  }

  lemma DropFailedStep(s: Sys, cid: ConnId, c: Conn, c': Conn)
    requires ConnInv(s, cid, c) && c.sess.Failing?
    requires c' == c.(tables := Dropped(c.tables, c.sess.guid), sess := Removing(c.sess.guid))
    ensures ConnInv(s, cid, c')
  {
    assert c.sess.guid in ToSet(Consumed(c));
    DropFailedForwarder(s.cfg, s.issued, cid, c, c', c.sess.guid);
    DropOwnership(s.reg.live, s.issued, cid, c, c', c.sess.guid);
    assert Consumed(c') == Consumed(c);
    assert SettingsInv(s.reg.live, cid, c') by {
      assert forall g :: g in s.reg.live && s.reg.live[g].conn == Some(cid) ==> SettingsRight(c, g, s.reg.live[g].rec);
    }
  }

  lemma CancelOwnership(live: map<Guid, Entry>, issued: map<Guid, Bind>, cid: ConnId, c: Conn, addr: string, port: nat)
    requires OwnershipInv(live, issued, cid, c) && TablesInv(c.tables, issued) && c.fwd.Waiting?
    ensures OwnershipInv(live, issued, cid, DoCancel(c, addr, port))
  {
    CancelledExact(c.tables, issued, addr, port);
    var c' := DoCancel(c, addr, port);
    var gone := CancelGuids(c.tables, addr, port);
    assert HeldByForwarder(c') == gone;
    assert ToSet(c.tables.guids) <= ToSet(c'.tables.guids) + gone;
    assert Accounted(c) <= Accounted(c');
    forall g | g in c'.tables.guids && g in live && g in issued
      ensures var k := ForwardKey(issued[g].addr, issued[g].port); k in c'.tables.forwards && c'.tables.forwards[k] == g
    {
      KeptForward(c.tables, issued, addr, port, g);
    }
  }

  lemma KeptForward(t: Tables, issued: map<Guid, Bind>, addr: string, port: nat, g: Guid)
    requires g in issued && g !in CancelGuids(t, addr, port)
    requires var k := ForwardKey(issued[g].addr, issued[g].port); k in t.forwards && t.forwards[k] == g
    ensures var k := ForwardKey(issued[g].addr, issued[g].port);
            k in Cancelled(t, addr, port).forwards && Cancelled(t, addr, port).forwards[k] == g
  {
    assert forall k :: k in CancelKeys(t, addr, port) ==> t.forwards[k] in CancelGuids(t, addr, port);
  }

  lemma CancelForwarder(cfg: Config, issued: map<Guid, Bind>, cid: ConnId, c: Conn, addr: string, port: nat)
    requires ForwarderInv(cfg, issued, cid, c) && c.fwd.Waiting?
    ensures ForwarderInv(cfg, issued, cid, DoCancel(c, addr, port))
    ensures OwnedBy(issued, cid, CancelGuids(c.tables, addr, port))
  {
    CancelledExact(c.tables, issued, addr, port);
    SizeWithout(c.tables.guids, CancelGuids(c.tables, addr, port));
    assert forall g :: g in CancelGuids(c.tables, addr, port) ==> g in ToSet(c.tables.guids);
  }

  lemma CancelStep(s: Sys, cid: ConnId, c: Conn, addr: string, port: nat)
    requires ConnInv(s, cid, c) && c.fwd.Waiting? && c.closer.Serving?
    ensures ConnInv(s, cid, DoCancel(c, addr, port))
  {
    var c' := DoCancel(c, addr, port);
    CancelForwarder(s.cfg, s.issued, cid, c, addr, port);
    CancelOwnership(s.reg.live, s.issued, cid, c, addr, port);
    SessionSame(s.cfg, s.issued, cid, c, c'.(cancelled := c.cancelled));
    assert Consumed(c') == Consumed(c);
    SettingsSame(s.reg.live, cid, c, c');
  }

  // ----- the session -------------------------------------------------------

  lemma TakeSession(cfg: Config, issued: map<Guid, Bind>, cid: ConnId, c: Conn, want: Overrides)
    requires SessionInv(cfg, issued, cid, c) && c.sess.Listening? && c.queue != []
    ensures SessionInv(cfg, issued, cid, DoTake(c, want))
    ensures c.queue[0] !in c.handled
  {
    var c' := DoTake(c, want);
    var n := |c.queued| - |c.queue|;
    assert c.queue[0] == c.queued[n];
    assert c'.queue == c.queued[n + 1..];
    assert Consumed(c') == Consumed(c) + [c.queue[0]];
    ToSetAppend(Consumed(c), c.queue[0]);
    assert c.queue[0] !in ToSet(Consumed(c));
  }

  lemma TakeSettings(live: map<Guid, Entry>, cid: ConnId, c: Conn, want: Overrides)
    requires SettingsInv(live, cid, c) && c.sess.Listening? && c.queue != [] && c.queue[0] !in c.handled
    ensures SettingsInv(live, cid, DoTake(c, want))
  {
    var c' := DoTake(c, want);
    forall g | g in live && live[g].conn == Some(cid) ensures SettingsRight(c', g, live[g].rec) {
      assert SettingsRight(c, g, live[g].rec);
    }
  }

  lemma TakeStep(s: Sys, cid: ConnId, c: Conn, want: Overrides)
    requires ConnInv(s, cid, c) && c.sess.Listening? && c.queue != []
    ensures ConnInv(s, cid, DoTake(c, want))
  {
    var c' := DoTake(c, want);
    TakeSession(s.cfg, s.issued, cid, c, want);
    ForwarderSame(s.cfg, s.issued, cid, c, c');
    OwnershipSame(s.reg.live, s.issued, cid, c, c');
    TakeSettings(s.reg.live, cid, c, want);
  }

  // ----- steps that remove a registry entry --------------------------------

  lemma RemovalOwnership(live: map<Guid, Entry>, issued: map<Guid, Bind>, cid: ConnId, c: Conn, c': Conn, g: Guid)
    requires OwnershipInv(live, issued, cid, c)
    requires c'.tables == c.tables && c'.cancelled == c.cancelled && c'.failed <= c.failed + {g}
    requires Accounted(c) <= Accounted(c') + {g} && HeldByForwarder(c) <= HeldByForwarder(c') + {g}
    ensures OwnershipInv(live - {g}, issued, cid, c')
  {
  }

  /** The registry entry `g` goes; the connection moves to `c'`. */
  lemma RemovalStep(s: Sys, s': Sys, cid: ConnId, c: Conn, c': Conn, g: Guid, fails: bool)
    requires ConnInv(s, cid, c)
    requires s'.cfg == s.cfg && s'.issued == s.issued && s'.reg == Remove(s.reg, g, fails).reg
    requires ForwarderInv(s.cfg, s.issued, cid, c') && SessionInv(s.cfg, s.issued, cid, c')
    requires c'.tables == c.tables && c'.cancelled == c.cancelled && c'.failed <= c.failed + {g}
    requires Accounted(c) <= Accounted(c') + {g} && HeldByForwarder(c) <= HeldByForwarder(c') + {g}
    requires c'.defaultKey == c.defaultKey && c'.handled == c.handled
    requires c'.sess == c.sess || (c.sess == Removing(g) && c'.sess == Listening)
    ensures ConnInv(s', cid, c')
  {
    RemovalOwnership(s.reg.live, s.issued, cid, c, c', g);
    RemovalSettings(s.reg.live, cid, c, c', g);
  }

  lemma RemovalSettings(live: map<Guid, Entry>, cid: ConnId, c: Conn, c': Conn, g: Guid)
    requires SettingsInv(live, cid, c)
    requires c'.defaultKey == c.defaultKey && c'.handled == c.handled
    requires c'.sess == c.sess || (c.sess == Removing(g) && c'.sess == Listening)
    ensures SettingsInv(live - {g}, cid, c')
  {
    forall x | x in live && x != g && live[x].conn == Some(cid) ensures SettingsRight(c', x, live[x].rec) {
      assert SettingsRight(c, x, live[x].rec);
    }
  }

  lemma RevokeNextForwarder(cfg: Config, issued: map<Guid, Bind>, cid: ConnId, c: Conn, c': Conn, g: Guid)
    requires ForwarderInv(cfg, issued, cid, c) && c.fwd.Revoking? && g in c.fwd.pending
    requires var left := c.fwd.pending - {g}; c' == c.(fwd := if left == {} then Waiting else Revoking(left))
    ensures ForwarderInv(cfg, issued, cid, c')
  {
    SubsetSize(c.fwd.pending - {g}, c.fwd.pending);
  }

  lemma RevokeNextStep(s: Sys, s': Sys, cid: ConnId, c: Conn, c': Conn, g: Guid, fails: bool)
    requires ConnInv(s, cid, c) && c.closer.Serving?
    requires s'.cfg == s.cfg && s'.issued == s.issued && s'.reg == Remove(s.reg, g, fails).reg
    requires c.fwd.Revoking? && g in c.fwd.pending
    requires var left := c.fwd.pending - {g}; c' == c.(fwd := if left == {} then Waiting else Revoking(left))
    ensures ConnInv(s', cid, c')
  {
    SessionSame(s.cfg, s.issued, cid, c, c');
    RevokeNextForwarder(s.cfg, s.issued, cid, c, c', g);
    RevokeNextSets(c, c', g);
    RemovalStep(s, s', cid, c, c', g, fails);
  }

  lemma RevokeNextSets(c: Conn, c': Conn, g: Guid)
    requires c.fwd.Revoking? && g in c.fwd.pending
    requires var left := c.fwd.pending - {g}; c' == c.(fwd := if left == {} then Waiting else Revoking(left))
    ensures Accounted(c) <= Accounted(c') + {g} && HeldByForwarder(c) <= HeldByForwarder(c') + {g}
  {
  }

  lemma RemoveFailedStep(s: Sys, s': Sys, cid: ConnId, c: Conn, c': Conn, fails: bool)
    requires ConnInv(s, cid, c) && c.sess.Removing?
    requires s'.cfg == s.cfg && s'.issued == s.issued && s'.reg == Remove(s.reg, c.sess.guid, fails).reg
    requires c' == c.(failed := c.failed + {c.sess.guid}, sess := Listening)
    ensures ConnInv(s', cid, c')
  {
    assert Consumed(c') == Consumed(c);
    RemovalStep(s, s', cid, c, c', c.sess.guid, fails);
  }

  lemma DeleteNextStep(s: Sys, s': Sys, cid: ConnId, c: Conn, c': Conn, fails: bool)
    requires ConnInv(s, cid, c) && c.closer.Deleting? && c.closer.todo != []
    requires s'.cfg == s.cfg && s'.issued == s.issued && s'.reg == Remove(s.reg, c.closer.todo[0], fails).reg
    requires c' == c.(closer := Deleting(c.closer.todo[1..]))
    ensures ConnInv(s', cid, c')
  {
    assert Consumed(c') == Consumed(c);
    assert ToSet(c.closer.todo) == ToSet(c'.closer.todo) + {c.closer.todo[0]};
    RemovalStep(s, s', cid, c, c', c.closer.todo[0], fails);
  }
}
