/** What holds in every state that any interleaving of the registration server reaches. */
module ServerTheorems {
  import opened Seqs
  import opened HostPort
  import opened Registry
  import opened Tables
  import opened Server
  import opened ServerInv
  import opened ServerSafety
  import L = RegistryLaws

  /** Live tunnels that run over connection `cid`. */
  function Owned(live: map<Guid, Entry>, cid: ConnId): set<Guid> {
    set g | g in live && live[g].conn == Some(cid)
  }

  /** Once a connection's clean-up has finished, at most the tunnel that its session is
      just revoking is left, and none when no such revocation is in flight. */
  lemma NoTunnelOutlivesItsConnection(start: Sys, steps: seq<Step>, cid: ConnId)
    requires GoodStart(start)
    requires cid in Run(start, steps).conns && Run(start, steps).conns[cid].closer.Finished?
    ensures var s := Run(start, steps);
            && Owned(s.reg.live, cid) <= RevokedBySession(s.conns[cid])
            && (!s.conns[cid].sess.Removing? ==> Owned(s.reg.live, cid) == {})
  {
    ReachableInv(start, steps);
  }

  lemma OwnedFits(live: map<Guid, Entry>, cfg: Config, issued: map<Guid, Bind>, cid: ConnId, c: Conn)
    requires ForwarderInv(cfg, issued, cid, c) && SessionInv(cfg, issued, cid, c)
    requires OwnershipInv(live, issued, cid, c) && cfg.maxPerConn > 0
    ensures |Owned(live, cid)| <= cfg.maxPerConn + |RevokedBySession(c)|
  {
    var rest := Owned(live, cid) - RevokedBySession(c);
    var listed := if c.closer.Serving? then ToSet(c.tables.guids)
                  else if c.closer.Deleting? then ToSet(c.closer.todo) else {};
    var held := if c.closer.Serving? then HeldByForwarder(c) else {};
    if c.closer.Serving? { SetFits(listed, c.tables.guids); }
    if c.closer.Deleting? { SetFits(listed, c.closer.todo); }
    assert rest <= listed + held;
    SubsetSize(rest, listed + held);
    assert |listed + held| <= |listed| + |held|;
    SubsetSize(Owned(live, cid), rest + RevokedBySession(c));
  }

  /** The quotas: the global cap holds always; a connection lists at most its quota; and
      its live tunnels exceed the quota by at most one, only while its session is
      between taking a failed registration off the lists and off the registry. */
  lemma QuotasHold(start: Sys, steps: seq<Step>, cid: ConnId)
    requires GoodStart(start)
    ensures var s := Run(start, steps);
            && (s.cfg.maxTotal > 0 ==> |s.reg.live| <= s.cfg.maxTotal)
            && (cid in s.conns && s.cfg.maxPerConn > 0 ==>
                  && |s.conns[cid].tables.guids| <= s.cfg.maxPerConn
                  && |Owned(s.reg.live, cid)| <= s.cfg.maxPerConn + |RevokedBySession(s.conns[cid])|)
  {
    var s := Run(start, steps);
    ReachableInv(start, steps);
    if cid in s.conns && s.cfg.maxPerConn > 0 {
      assert ConnInv(s, cid, s.conns[cid]);
      OwnedFits(s.reg.live, s.cfg, s.issued, cid, s.conns[cid]);
    }
  }

  /** The forward table of every connection agrees with the registry: each forward names
      a listed GUID, a live one sits under the address and port of its record, and
      every listed live tunnel of the connection has its forward. */
  lemma ForwardTableAgrees(start: Sys, steps: seq<Step>, cid: ConnId, g: Guid)
    requires GoodStart(start) && cid in Run(start, steps).conns
    ensures var s := Run(start, steps);
            var t := s.conns[cid].tables;
            && TablesInv(t, s.issued)
            && (g in t.guids && g in s.reg.live ==>
                  var rec := s.reg.live[g].rec;
                  && s.reg.live[g].conn == Some(cid)
                  && ForwardKey(rec.bindAddr, rec.bindPort) in t.forwards
                  && t.forwards[ForwardKey(rec.bindAddr, rec.bindPort)] == g)
  {
    var s := Run(start, steps);
    ReachableInv(start, steps);
    assert ConnInv(s, cid, s.conns[cid]);
    assert g in s.conns[cid].tables.guids ==> g in ToSet(s.conns[cid].tables.guids);
  }

  /** After a cancel request has been answered, none of the tunnels it named is live. */
  lemma CancelledTunnelsAreGone(start: Sys, steps: seq<Step>, cid: ConnId, g: Guid)
    requires GoodStart(start) && cid in Run(start, steps).conns
    requires var c := Run(start, steps).conns[cid]; g in c.cancelled && !c.fwd.Revoking?
    ensures g !in Run(start, steps).reg.live
  {
    ReachableInv(start, steps);
    var s := Run(start, steps);
    assert ConnInv(s, cid, s.conns[cid]);
    CancelledIsGone(s.cfg, s.reg.live, s.issued, cid, s.conns[cid], g);
  }

  lemma CancelledIsGone(cfg: Config, live: map<Guid, Entry>, issued: map<Guid, Bind>, cid: ConnId, c: Conn, g: Guid)
    requires ForwarderInv(cfg, issued, cid, c) && OwnershipInv(live, issued, cid, c)
    requires g in c.cancelled && !c.fwd.Revoking?
    ensures g !in live
  {
  }

  /** Forward requests answered with success are exactly those whose GUID was put on
      the session's queue, in the same order, each once. */
  lemma AcceptedMeansQueuedOnce(start: Sys, steps: seq<Step>, cid: ConnId)
    requires GoodStart(start) && cid in Run(start, steps).conns
    ensures var c := Run(start, steps).conns[cid];
            && Distinct(c.queued)
            && (if c.fwd.Accepting? then c.queued == c.accepted + [c.fwd.guid] else c.queued == c.accepted)
            && |c.queue| <= |c.queued| && c.queue == c.queued[|c.queued| - |c.queue|..]
  {
    ReachableInv(start, steps);
    var s := Run(start, steps);
    assert ConnInv(s, cid, s.conns[cid]);
    QueueMatchesReplies(s.cfg, s.issued, cid, s.conns[cid]);
  }

  lemma QueueMatchesReplies(cfg: Config, issued: map<Guid, Bind>, cid: ConnId, c: Conn)
    requires ForwarderInv(cfg, issued, cid, c) && SessionInv(cfg, issued, cid, c)
    ensures Distinct(c.queued)
    ensures if c.fwd.Accepting? then c.queued == c.accepted + [c.fwd.guid] else c.queued == c.accepted
    ensures |c.queue| <= |c.queued| && c.queue == c.queued[|c.queued| - |c.queue|..]
  {
  }

  /** With a cap configured, a new tunnel finds room in the queue if it and the tunnels
      still queued are live. */
  lemma QueueHasRoom(start: Sys, steps: seq<Step>, cid: ConnId)
    requires GoodStart(start) && cid in Run(start, steps).conns
    requires var s := Run(start, steps);
             && s.conns[cid].fwd.Enqueueing? && s.conns[cid].fwd.guid in s.reg.live
             && (s.cfg.maxPerConn > 0 || s.cfg.maxTotal > 0)
             && forall g :: g in s.conns[cid].queue ==> g in s.reg.live
    ensures var s := Run(start, steps); |s.conns[cid].queue| < QueueCapacity(s.cfg)
  {
    var s := Run(start, steps);
    ReachableInv(start, steps);
    var c := s.conns[cid];
    assert ConnInv(s, cid, c);
    assert L.Inv(s.reg, s.now) && IssuedInv(s.reg.live, s.issued) && s.reg.maxTotal == s.cfg.maxTotal;
    QueueFits(s.reg.live, s.cfg, s.issued, cid, c);
  }

  /** What is still queued was never consumed and is listed nowhere twice. */
  lemma StillQueued(cfg: Config, issued: map<Guid, Bind>, cid: ConnId, c: Conn, g: Guid)
    requires SessionInv(cfg, issued, cid, c) && g in c.queue
    ensures g in c.queued && g !in HeldBySession(c) && g in issued && issued[g].owner == cid
  {
    var n := |c.queued| - |c.queue|;
    var i :| 0 <= i < |c.queue| && c.queue[i] == g;
    assert g == c.queued[n + i] && g in ToSet(c.queued);
    assert g !in ToSet(Consumed(c)) by {
      assert forall k :: 0 <= k < n ==> Consumed(c)[k] == c.queued[k];
    }
  }

  lemma QueueListed(live: map<Guid, Entry>, cfg: Config, issued: map<Guid, Bind>, cid: ConnId, c: Conn, g: Guid)
    requires SessionInv(cfg, issued, cid, c) && OwnershipInv(live, issued, cid, c) && IssuedInv(live, issued)
    requires c.fwd.Enqueueing? && g in c.queue && g in live
    ensures g in c.tables.guids
  {
    StillQueued(cfg, issued, cid, c, g);
    assert g in Accounted(c);
  }

  lemma QueueFits(live: map<Guid, Entry>, cfg: Config, issued: map<Guid, Bind>, cid: ConnId, c: Conn)
    requires ForwarderInv(cfg, issued, cid, c) && SessionInv(cfg, issued, cid, c)
    requires OwnershipInv(live, issued, cid, c) && IssuedInv(live, issued)
    requires cfg.maxTotal > 0 ==> |live| <= cfg.maxTotal
    requires c.fwd.Enqueueing? && c.fwd.guid in live && (forall g :: g in c.queue ==> g in live)
    ensures cfg.maxPerConn > 0 ==> |c.queue| < cfg.maxPerConn
    ensures cfg.maxTotal > 0 ==> |c.queue| < cfg.maxTotal
  {
    var all := c.queue + [c.fwd.guid];
    forall g | g in c.queue ensures g in c.tables.guids && g != c.fwd.guid {
      QueueListed(live, cfg, issued, cid, c, g);
      StillQueued(cfg, issued, cid, c, g);
    }
    assert Distinct(all) by { SuffixDistinct(c.queued, |c.queued| - |c.queue|); }
    DistinctFits(all, ToSet(c.tables.guids));
    SetFits(ToSet(c.tables.guids), c.tables.guids);
    DistinctFits(all, live.Keys);
  }

  lemma SuffixDistinct(s: seq<Guid>, n: nat)
    requires Distinct(s) && n <= |s|
    ensures Distinct(s[n..])
  {
  }

  /** A registration the session has dealt with is either revoked and gone, or complete:
      if still live, its live record and its stored record have exactly the key and
      the password setting that were asked for. */
  lemma HandledMeansOverridesApplied(start: Sys, steps: seq<Step>, cid: ConnId, g: Guid)
    requires GoodStart(start) && cid in Run(start, steps).conns
    requires var c := Run(start, steps).conns[cid];
             |c.queue| <= |c.queued| && g in Consumed(c) && g !in HeldBySession(c)
    ensures var s := Run(start, steps);
            var c := s.conns[cid];
            && (g in c.handled || g in c.failed)
            && (g in c.failed ==> g !in s.reg.live)
            && (g in c.handled && g in s.reg.live ==>
                  && s.reg.live[g].rec.connectorKey == KeyFor(c, c.handled[g])
                  && s.reg.live[g].rec.allowPassword == c.handled[g].allowPassword
                  && (s.reg.store.Some? ==>
                        && g in s.reg.store.value
                        && s.reg.store.value[g].connectorKey == KeyFor(c, c.handled[g])
                        && s.reg.store.value[g].allowPassword == c.handled[g].allowPassword))
  {
    var s := Run(start, steps);
    ReachableInv(start, steps);
    var c := s.conns[cid];
    assert ConnInv(s, cid, c);
    assert g in ToSet(Consumed(c)) && g in ToSet(c.queued);
    if g in s.reg.live { assert SettingsRight(c, g, s.reg.live[g].rec); }
  }
}
