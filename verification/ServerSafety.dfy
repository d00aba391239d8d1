/** Every step of the registration server keeps the invariant, hence every reachable
    state has it. */
module ServerSafety {
  import opened Seqs
  import opened Registry
  import opened Tables
  import opened Server
  import opened ServerInv
  import opened ServerSteps
  import L = RegistryLaws
  import Ports

  // ----- updates of a live record ------------------------------------------

  /** Same tunnels on the same connections. */
  predicate SameOwners(before: map<Guid, Entry>, after: map<Guid, Entry>) {
    before.Keys == after.Keys && forall g :: g in after ==> after[g].conn == before[g].conn
  }

  lemma OwnershipSameOwners(live: map<Guid, Entry>, live': map<Guid, Entry>, issued: map<Guid, Bind>, cid: ConnId, c: Conn)
    requires OwnershipInv(live, issued, cid, c) && SameOwners(live, live')
    ensures OwnershipInv(live', issued, cid, c)
  {
  }

  lemma SessionMovesOn(cfg: Config, issued: map<Guid, Bind>, cid: ConnId, c: Conn, c': Conn)
    requires SessionInv(cfg, issued, cid, c) && !c.sess.Listening? && !c.sess.Ended?
    requires c' == c.(sess := c'.sess) && !c'.sess.Listening? && !c'.sess.Ended? && c'.sess.guid == c.sess.guid
    ensures SessionInv(cfg, issued, cid, c')
  {
    assert Consumed(c') == Consumed(c);
  }

  lemma SessionCompletes(cfg: Config, issued: map<Guid, Bind>, cid: ConnId, c: Conn, c': Conn, want: Overrides)
    requires SessionInv(cfg, issued, cid, c) && c.sess.ApplyingPassword?
    requires c' == c.(sess := Listening, handled := c.handled[c.sess.guid := want])
    ensures SessionInv(cfg, issued, cid, c')
  {
    assert Consumed(c') == Consumed(c);
  }

  lemma ApplyKeySettings(s: Sys, cid: ConnId, c: Conn, fails: bool)
    requires SettingsInv(s.reg.live, cid, c) && c.sess.ApplyingKey? && c.sess.guid !in c.handled
    ensures SettingsInv(DoApplyKey(s, c, fails).0.live, cid, DoApplyKey(s, c, fails).1)
  {
    var (reg, c') := DoApplyKey(s, c, fails);
    forall g | g in reg.live && reg.live[g].conn == Some(cid) ensures SettingsRight(c', g, reg.live[g].rec) {
      assert SettingsRight(c, g, s.reg.live[g].rec);
    }
  }

  lemma ApplyPasswordSettings(s: Sys, cid: ConnId, c: Conn, fails: bool)
    requires SettingsInv(s.reg.live, cid, c) && c.sess.ApplyingPassword? && c.sess.guid !in c.handled
    ensures SettingsInv(DoApplyPassword(s, c, fails).0.live, cid, DoApplyPassword(s, c, fails).1)
  {
    var (reg, c') := DoApplyPassword(s, c, fails);
    forall g | g in reg.live && reg.live[g].conn == Some(cid) ensures SettingsRight(c', g, reg.live[g].rec) {
      assert SettingsRight(c, g, s.reg.live[g].rec);
    }
  }

  /** What an update of the settings of `guid` does to the registry. */
  predicate Updates(before: Reg, after: Reg, guid: Guid) {
    && before.live.Keys == after.live.Keys && before.maxTotal == after.maxTotal
    && (forall g :: g in after.live && g != guid ==> after.live[g] == before.live[g])
    && (guid in after.live ==>
          && after.live[guid].conn == before.live[guid].conn
          && after.live[guid].rec.bindAddr == before.live[guid].rec.bindAddr
          && after.live[guid].rec.bindPort == before.live[guid].rec.bindPort)
  }

  lemma ReplaceRegistry(cfg: Config, r: Reg, now: Time, counter: nat, issued: map<Guid, Bind>, rec: Record, fails: bool)
    requires RegistryInv(cfg, r, now, counter, issued) && rec.guid in r.live
    requires r.live[rec.guid].rec.(connectorKey := rec.connectorKey, allowPassword := rec.allowPassword) == rec
    ensures var r' := Replace(r, rec.guid, rec, fails).0;
            RegistryInv(cfg, r', now, counter, issued) && Updates(r, r', rec.guid)
  {
    L.ReplaceKeepsInv(r, now, rec, fails);
    assert Replace(r, rec.guid, rec, fails).0.live.Keys == r.live.Keys;
  }

  lemma UpdateKeyRegistry(cfg: Config, r: Reg, now: Time, counter: nat, issued: map<Guid, Bind>, guid: Guid, key: string, fails: bool)
    requires RegistryInv(cfg, r, now, counter, issued)
    ensures var r' := UpdateConnectorKey(r, guid, key, fails).0;
            RegistryInv(cfg, r', now, counter, issued) && Updates(r, r', guid)
  {
    if guid in r.live { ReplaceRegistry(cfg, r, now, counter, issued, r.live[guid].rec.(connectorKey := key), fails); }
  }

  lemma UpdatePasswordRegistry(cfg: Config, r: Reg, now: Time, counter: nat, issued: map<Guid, Bind>, guid: Guid, fails: bool)
    requires RegistryInv(cfg, r, now, counter, issued)
    ensures var r' := UpdateAllowPassword(r, guid, true, fails).0;
            RegistryInv(cfg, r', now, counter, issued) && Updates(r, r', guid)
  {
    if guid in r.live { ReplaceRegistry(cfg, r, now, counter, issued, r.live[guid].rec.(allowPassword := true), fails); }
  }

  lemma UpdatesShrink(before: Reg, after: Reg, guid: Guid, issued: map<Guid, Bind>, cid: ConnId)
    requires Updates(before, after, guid) && IssuedInv(before.live, issued)
    requires guid in issued && issued[guid].owner == cid
    ensures forall d :: d != cid ==> Shrinks(before.live, after.live, d)
    ensures SameOwners(before.live, after.live)
  {
  }

  /** The session goroutine works on `guid`, which belongs to this connection. */
  lemma SessionGuidIsOwn(cfg: Config, issued: map<Guid, Bind>, cid: ConnId, c: Conn)
    requires SessionInv(cfg, issued, cid, c) && !c.sess.Listening? && !c.sess.Ended?
    ensures c.sess.guid in issued && issued[c.sess.guid].owner == cid && c.sess.guid !in c.handled
  {
    assert c.sess.guid in HeldBySession(c);
    assert c.sess.guid in ToSet(Consumed(c));
    assert c.sess.guid in ToSet(c.queued);
  }

  // ----- putting the pieces of the state together --------------------------

  lemma Assemble(s: Sys, s': Sys, cid: ConnId, c': Conn)
    requires AllConnsInv(s)
    requires s'.cfg == s.cfg && s'.conns == s.conns[cid := c'] && cid in s.conns
    requires Extends(s.issued, s'.issued) && IssuedInv(s'.reg.live, s'.issued)
    requires forall g :: g in s'.issued ==> g in s.issued || s'.issued[g].owner == cid
    requires forall d :: d != cid ==> Shrinks(s.reg.live, s'.reg.live, d)
    requires ConnInv(s', cid, c')
    ensures AllConnsInv(s')
  {
    forall d | d in s'.conns ensures ConnInv(s', d, s'.conns[d]) {
      if d != cid { ConnFrame(s, s', d, s.conns[d]); }
    }
  }

  /** Steps that change only the connection and perhaps the port counter. */
  lemma LocalKeepsInv(s: Sys, cid: ConnId, c': Conn, counter: nat)
    requires Inv(s) && cid in s.conns && ConnInv(s, cid, c') && counter < Ports.WORD
    ensures Inv(With(s, cid, c').(counter := counter))
  {
    var s' := With(s, cid, c').(counter := counter);
    assert ConnInv(s', cid, c');
    Assemble(s, s', cid, c');
  }

  /** From `before` to `after` entries may go and timestamps may move, nothing else. */
  predicate Benign(before: map<Guid, Entry>, after: map<Guid, Entry>) {
    forall g :: g in after ==>
      && g in before && after[g].conn == before[g].conn
      && after[g].rec.(lastActivity := before[g].rec.lastActivity) == before[g].rec
  }

  lemma BenignFrame(before: map<Guid, Entry>, after: map<Guid, Entry>, issued: map<Guid, Bind>)
    requires Benign(before, after) && IssuedInv(before, issued)
    ensures IssuedInv(after, issued)
    ensures forall d :: Shrinks(before, after, d)
  {
  }

  lemma RemovalKeepsInv(s: Sys, s': Sys, cid: ConnId, c': Conn, g: Guid, fails: bool)
    requires Inv(s) && cid in s.conns && s' == With(s, cid, c').(reg := Remove(s.reg, g, fails).reg)
    requires ConnInv(s', cid, c')
    ensures Inv(s')
  {
    L.RemoveKeepsInv(s.reg, s.now, g, fails);
    BenignFrame(s.reg.live, s'.reg.live, s.issued);
    Assemble(s, s', cid, c');
  }

  // ----- the remaining steps -----------------------------------------------

  lemma ApplyKeyConn(s: Sys, cid: ConnId, c: Conn, reg: Reg, c': Conn, fails: bool)
    requires ConnInv(s, cid, c) && c.sess.ApplyingKey? && c.sess.guid !in c.handled
    requires (reg, c') == DoApplyKey(s, c, fails) && SameOwners(s.reg.live, reg.live)
    ensures ConnInv(With(s, cid, c').(reg := reg), cid, c')
  {
    ApplyKeySettings(s, cid, c, fails);
    SessionMovesOn(s.cfg, s.issued, cid, c, c');
    OwnershipSame(s.reg.live, s.issued, cid, c, c');
    OwnershipSameOwners(s.reg.live, reg.live, s.issued, cid, c');
  }

  lemma ApplyKeyKeepsInv(s: Sys, cid: ConnId, c: Conn, fails: bool)
    requires Inv(s) && cid in s.conns && s.conns[cid] == c && c.sess.ApplyingKey?
    ensures var (reg, c') := DoApplyKey(s, c, fails); Inv(With(s, cid, c').(reg := reg))
  {
    var (reg, c') := DoApplyKey(s, c, fails);
    var s' := With(s, cid, c').(reg := reg);
    SessionGuidIsOwn(s.cfg, s.issued, cid, c);
    UpdateKeyRegistry(s.cfg, s.reg, s.now, s.counter, s.issued, c.sess.guid, c.sess.want.key, fails);
    assert Updates(s.reg, reg, c.sess.guid);
    UpdatesShrink(s.reg, reg, c.sess.guid, s.issued, cid);
    ApplyKeyConn(s, cid, c, reg, c', fails);
    Assemble(s, s', cid, c');
  }

  lemma ApplyPasswordConn(s: Sys, cid: ConnId, c: Conn, reg: Reg, c': Conn, fails: bool)
    requires ConnInv(s, cid, c) && c.sess.ApplyingPassword? && c.sess.guid !in c.handled
    requires (reg, c') == DoApplyPassword(s, c, fails) && SameOwners(s.reg.live, reg.live)
    ensures ConnInv(With(s, cid, c').(reg := reg), cid, c')
  {
    ApplyPasswordSettings(s, cid, c, fails);
    if c'.sess.Failing? { SessionMovesOn(s.cfg, s.issued, cid, c, c'); }
    else { SessionCompletes(s.cfg, s.issued, cid, c, c', c.sess.want); }
    OwnershipSame(s.reg.live, s.issued, cid, c, c');
    OwnershipSameOwners(s.reg.live, reg.live, s.issued, cid, c');
  }

  lemma ApplyPasswordKeepsInv(s: Sys, cid: ConnId, c: Conn, fails: bool)
    requires Inv(s) && cid in s.conns && s.conns[cid] == c && c.sess.ApplyingPassword?
    ensures var (reg, c') := DoApplyPassword(s, c, fails); Inv(With(s, cid, c').(reg := reg))
  {
    var (reg, c') := DoApplyPassword(s, c, fails);
    var s' := With(s, cid, c').(reg := reg);
    SessionGuidIsOwn(s.cfg, s.issued, cid, c);
    UpdatePasswordRegistry(s.cfg, s.reg, s.now, s.counter, s.issued, c.sess.guid, fails);
    assert Updates(s.reg, reg, c.sess.guid);
    UpdatesShrink(s.reg, reg, c.sess.guid, s.issued, cid);
    ApplyPasswordConn(s, cid, c, reg, c', fails);
    Assemble(s, s', cid, c');
  }

  lemma PutOwnership(live: map<Guid, Entry>, issued: map<Guid, Bind>, cid: ConnId, c: Conn, c': Conn, g: Guid, e: Entry, b: Bind)
    requires OwnershipInv(live, issued, cid, c) && c.fwd.Putting? && c.closer.Serving?
    requires g !in live && g !in issued && g !in c.tables.guids && g !in c.cancelled && g !in c.failed
    requires forall x :: x in c.tables.guids ==> x in issued
    requires c' == c.(fwd := Recording(g, c.fwd.addr, c.fwd.port))
    ensures OwnershipInv(live[g := e], issued[g := b], cid, c')
  {
  }

  lemma PutSettings(live: map<Guid, Entry>, live': map<Guid, Entry>, cid: ConnId, c: Conn, c': Conn, g: Guid, e: Entry)
    requires SettingsInv(live, cid, c) && live' == live[g := e]
    requires g !in c.handled && g !in HeldBySession(c)
    requires c'.sess == c.sess && c'.handled == c.handled && c'.defaultKey == c.defaultKey
    requires e.rec.connectorKey == c.defaultKey && !e.rec.allowPassword
    ensures SettingsInv(live', cid, c')
  {
    forall x | x in live' && live'[x].conn == Some(cid) ensures SettingsRight(c', x, live'[x].rec) {
      if x != g { assert SettingsRight(c, x, live[x].rec); }
    }
  }

  lemma SessionFrame(cfg: Config, issued: map<Guid, Bind>, issued': map<Guid, Bind>, cid: ConnId, c: Conn)
    requires SessionInv(cfg, issued, cid, c) && Extends(issued, issued')
    ensures SessionInv(cfg, issued', cid, c)
  {
  }

  lemma FreshGuid(s: Sys, cid: ConnId, c: Conn, g: Guid)
    requires ConnInv(s, cid, c) && g !in s.issued
    ensures g !in c.tables.guids && g !in c.cancelled && g !in c.failed && g !in c.handled
    ensures g !in c.queued && g !in HeldBySession(c)
  {
    assert forall x :: x in c.queued ==> x in ToSet(c.queued);
    assert forall x :: x in ToSet(Consumed(c)) ==> x in c.queued;
  }

  lemma PutForwarder(cfg: Config, issued: map<Guid, Bind>, issued': map<Guid, Bind>, cid: ConnId, c: Conn, c': Conn, g: Guid)
    requires ForwarderInv(cfg, issued, cid, c) && c.fwd.Putting?
    requires g !in c.tables.guids && g !in c.queued && g !in c.cancelled && g !in issued
    requires issued' == issued[g := Bind(c.fwd.addr, c.fwd.port, cid)]
    requires c' == c.(fwd := Recording(g, c.fwd.addr, c.fwd.port))
    ensures ForwarderInv(cfg, issued', cid, c')
  {
    ForwarderFrame(cfg, issued, issued', cid, c);
  }

  lemma PutConn(s: Sys, s': Sys, cid: ConnId, c: Conn, c': Conn, g: Guid, e: Entry)
    requires ConnInv(s, cid, c) && c.fwd.Putting? && g !in s.issued && g !in s.reg.live
    requires s'.cfg == s.cfg && s'.reg.live == s.reg.live[g := e]
    requires s'.issued == s.issued[g := Bind(c.fwd.addr, c.fwd.port, cid)]
    requires c' == c.(fwd := Recording(g, c.fwd.addr, c.fwd.port))
    requires e.rec.connectorKey == c.defaultKey && !e.rec.allowPassword
    ensures ConnInv(s', cid, c')
  {
    FreshGuid(s, cid, c, g);
    PutForwarder(s.cfg, s.issued, s'.issued, cid, c, c', g);
    SessionFrame(s.cfg, s.issued, s'.issued, cid, c);
    SessionSame(s.cfg, s'.issued, cid, c, c');
    PutOwnership(s.reg.live, s.issued, cid, c, c', g, e, s'.issued[g]);
    PutSettings(s.reg.live, s'.reg.live, cid, c, c', g, e);
  }

  lemma InsertIssued(live: map<Guid, Entry>, live': map<Guid, Entry>, issued: map<Guid, Bind>, g: Guid, e: Entry, b: Bind)
    requires IssuedInv(live, issued) && g !in issued && live' == live[g := e]
    requires e.conn == Some(b.owner) && e.rec.bindAddr == b.addr && e.rec.bindPort == b.port
    ensures IssuedInv(live', issued[g := b]) && Extends(issued, issued[g := b])
    ensures forall d :: d != b.owner ==> Shrinks(live, live', d)
  {
  }

  lemma PutInserts(r: Reg, rec: Record, conn: Option<ConnId>, now: Time, fails: bool)
    requires Put(r, rec, conn, now, fails).1 == PutOk
    ensures var r' := Put(r, rec, conn, now, fails).0;
            r'.live == r.live[rec.guid := Entry(rec.(lastActivity := now), conn)] && r'.maxTotal == r.maxTotal
    ensures rec.guid !in r.live
  {
  }

  lemma PutOkKeepsInv(s: Sys, s': Sys, cid: ConnId, c: Conn, rec: Record, fails: bool)
    requires Inv(s) && cid in s.conns && s.conns[cid] == c && c.fwd.Putting? && rec.guid !in s.issued
    requires rec.bindAddr == c.fwd.addr && rec.bindPort == c.fwd.port
    requires rec.connectorKey == c.defaultKey && !rec.allowPassword
    requires Put(s.reg, rec, Some(cid), s.now, fails) == (s'.reg, PutOk)
    requires s' == s.(reg := s'.reg, issued := s.issued[rec.guid := Bind(c.fwd.addr, c.fwd.port, cid)],
                      conns := s.conns[cid := c.(fwd := Recording(rec.guid, c.fwd.addr, c.fwd.port))])
    ensures Inv(s')
  {
    var e := Entry(rec.(lastActivity := s.now), Some(cid));
    PutInserts(s.reg, rec, Some(cid), s.now, fails);
    L.PutKeepsInv(s.reg, s.now, rec, Some(cid), fails);
    InsertIssued(s.reg.live, s'.reg.live, s.issued, rec.guid, e, s'.issued[rec.guid]);
    PutConn(s, s', cid, c, s'.conns[cid], rec.guid, e);
    Assemble(s, s', cid, s'.conns[cid]);
  }

  lemma PutKeepsInv(s: Sys, cid: ConnId, c: Conn, rec: Record, fails: bool)
    requires Inv(s) && cid in s.conns && s.conns[cid] == c && c.fwd.Putting? && rec.guid !in s.issued
    ensures Inv(DoPut(s, cid, c, rec, fails))
  {
    if Put(s.reg, NewRecord(c, rec), Some(cid), s.now, fails).1 == PutOk {
      PutOkKeepsInv(s, DoPut(s, cid, c, rec, fails), cid, c, NewRecord(c, rec), fails);
    } else {
      MoveOn(s, cid, c, c.(fwd := Waiting));
      LocalKeepsInv(s, cid, c.(fwd := Waiting), s.counter);
    }
  }

  lemma OutsideIsBenign(s: L.Timed, op: L.Op)
    requires IsOutside(op)
    ensures Benign(s.reg.live, L.Apply(s, op).reg.live) && L.Apply(s, op).reg.maxTotal == s.reg.maxTotal
  {
  }

  lemma OutsideKeepsInv(s: Sys, op: L.Op)
    requires Inv(s) && IsOutside(op)
    ensures Inv(Next(s, Outside(op)))
  {
    var t := L.Apply(L.Timed(s.reg, s.now), op);
    var s' := s.(reg := t.reg, now := t.now);
    L.ApplyKeepsInv(L.Timed(s.reg, s.now), op);
    OutsideIsBenign(L.Timed(s.reg, s.now), op);
    BenignKeepsConns(s, s');
  }

  lemma BenignKeepsConns(s: Sys, s': Sys)
    requires AllConnsInv(s) && IssuedInv(s.reg.live, s.issued) && Benign(s.reg.live, s'.reg.live)
    requires s'.cfg == s.cfg && s'.issued == s.issued && s'.conns == s.conns
    ensures AllConnsInv(s') && IssuedInv(s'.reg.live, s'.issued)
  {
    BenignFrame(s.reg.live, s'.reg.live, s.issued);
    forall d | d in s'.conns ensures ConnInv(s', d, s'.conns[d]) {
      ConnFrame(s, s', d, s.conns[d]);
    }
  }

  lemma NewConnInv(s: Sys, cid: ConnId, key: string)
    requires forall g :: g in s.reg.live ==> s.reg.live[g].conn != Some(cid)
    ensures ConnInv(s, cid, NewConn(key))
  {
    NewConnTables(s.cfg, s.issued, cid, key);
    NewConnOwnership(s.reg.live, s.issued, cid, key);
  }

  lemma NewConnTables(cfg: Config, issued: map<Guid, Bind>, cid: ConnId, key: string)
    ensures ForwarderInv(cfg, issued, cid, NewConn(key)) && SessionInv(cfg, issued, cid, NewConn(key))
  {
  }

  lemma NewConnOwnership(live: map<Guid, Entry>, issued: map<Guid, Bind>, cid: ConnId, key: string)
    requires forall g :: g in live ==> live[g].conn != Some(cid)
    ensures OwnershipInv(live, issued, cid, NewConn(key)) && SettingsInv(live, cid, NewConn(key))
  {
  }

  lemma OpenKeepsInv(s: Sys, cid: ConnId, key: string)
    requires Inv(s) && cid !in s.conns
    ensures Inv(With(s, cid, NewConn(key)))
  {
    var s' := With(s, cid, NewConn(key));
    NewConnInv(s', cid, key);
    forall d | d in s'.conns ensures ConnInv(s', d, s'.conns[d]) {
      if d != cid { ConnFrame(s, s', d, s.conns[d]); }
    }
  }

  // ----- every step, every run ---------------------------------------------

  /** The moves of the request goroutine that touch nothing shared. */
  predicate Moves(c: Conn, c': Conn) {
    match c.fwd
    case CheckingTotal(addr, port) => c' == c.(fwd := Waiting) || c' == c.(fwd := Reserving(addr, port))
    case Putting(_, _) => c' == c.(fwd := Waiting)
    case Accepting(g) => c' == c.(fwd := Waiting, accepted := c.accepted + [g])
    case Waiting => c' == c.(fwd := Stopped)
    case _ => false
  }

  lemma MovingForwarder(cfg: Config, issued: map<Guid, Bind>, cid: ConnId, c: Conn, c': Conn)
    requires ForwarderInv(cfg, issued, cid, c) && Moves(c, c')
    ensures ForwarderInv(cfg, issued, cid, c')
  {
  }

  lemma MovingActs(s: Sys, cid: ConnId, c: Conn, c': Conn)
    requires Inv(s) && cid in s.conns && c == s.conns[cid] && Moves(c, c')
    ensures Inv(With(s, cid, c'))
  {
    MovingForwarder(s.cfg, s.issued, cid, c, c');
    MoveOn(s, cid, c, c');
    LocalKeepsInv(s, cid, c', s.counter);
  }

  lemma CheckConnActs(s: Sys, cid: ConnId, c: Conn, addr: string, reqPort: nat, alive: set<Guid>, still: set<Guid>)
    requires Inv(s) && cid in s.conns && c == s.conns[cid]
    ensures Inv(Act(s, cid, CheckConn(addr, reqPort, alive, still)))
  {
    if c.fwd.Waiting? {
      CheckConnStep(s, cid, c, addr, reqPort, alive, still);
      LocalKeepsInv(s, cid, DoCheckConn(s, c, addr, reqPort, alive, still), s.counter);
    }
  }

  lemma PutActs(s: Sys, s': Sys, cid: ConnId, rec: Record, fails: bool)
    requires Inv(s) && cid in s.conns && s' == Act(s, cid, PutTunnel(rec, fails)) && s' != s
    ensures Inv(s')
  {
    ActPuts(s, cid, rec, fails);
    PutKeepsInv(s, cid, s.conns[cid], rec, fails);
  }

  lemma ActPuts(s: Sys, cid: ConnId, rec: Record, fails: bool)
    requires cid in s.conns && Act(s, cid, PutTunnel(rec, fails)) != s
    ensures s.conns[cid].fwd.Putting? && rec.guid !in s.issued
    ensures Act(s, cid, PutTunnel(rec, fails)) == DoPut(s, cid, s.conns[cid], rec, fails)
  {
  }

  lemma ReserveActs(s: Sys, cid: ConnId, c: Conn)
    requires Inv(s) && cid in s.conns && c == s.conns[cid]
    ensures Inv(Act(s, cid, ReservePort))
  {
    if c.fwd.Reserving? {
      var (c', counter) := DoReserve(s, c);
      ReserveStep(s, cid, c);
      LocalKeepsInv(s, cid, c', counter);
    }
  }

  lemma RegistrationActs(s: Sys, cid: ConnId, c: Conn, a: Action)
    requires Inv(s) && cid in s.conns && c == s.conns[cid]
    requires a.RecordTunnel? || a.Enqueue? || a.DropUnqueued? || a.Cancel? || a.DropFailed?
    ensures Inv(Act(s, cid, a))
  {
    var s' := Act(s, cid, a);
    if s' != s {
      var c' := s'.conns[cid];
      match a
      case RecordTunnel =>
        RecordStep(s, cid, c, c');
        LocalKeepsInv(s, cid, c', s.counter);
      case Enqueue =>
        EnqueueStep(s, cid, c);
        LocalKeepsInv(s, cid, c', s.counter);
      case DropUnqueued =>
        DropUnqueuedStep(s, cid, c, c');
        LocalKeepsInv(s, cid, c', s.counter);
      case Cancel(addr, port) =>
        CancelStep(s, cid, c, addr, port);
        LocalKeepsInv(s, cid, c', s.counter);
      case DropFailed =>
        DropFailedStep(s, cid, c, c');
        LocalKeepsInv(s, cid, c', s.counter);
    }
  }

  lemma RevokeNextActs(s: Sys, s': Sys, cid: ConnId, c: Conn, c': Conn, g: Guid, fails: bool)
    requires Inv(s) && cid in s.conns && c == s.conns[cid]
    requires s' == With(s, cid, c').(reg := Remove(s.reg, g, fails).reg)
    requires c.fwd.Revoking? && g in c.fwd.pending
    requires var left := c.fwd.pending - {g}; c' == c.(fwd := if left == {} then Waiting else Revoking(left))
    ensures Inv(s')
  {
    assert ConnInv(s, cid, c);
    RevokeNextStep(s, s', cid, c, c', g, fails);
    RemovalKeepsInv(s, s', cid, c', g, fails);
  }

  lemma RemoveFailedActs(s: Sys, s': Sys, cid: ConnId, c: Conn, c': Conn, fails: bool)
    requires Inv(s) && cid in s.conns && c == s.conns[cid] && c.sess.Removing?
    requires s' == With(s, cid, c').(reg := Remove(s.reg, c.sess.guid, fails).reg)
    requires c' == c.(failed := c.failed + {c.sess.guid}, sess := Listening)
    ensures Inv(s')
  {
    assert ConnInv(s, cid, c);
    RemoveFailedStep(s, s', cid, c, c', fails);
    RemovalKeepsInv(s, s', cid, c', c.sess.guid, fails);
  }

  lemma DeleteNextActs(s: Sys, s': Sys, cid: ConnId, c: Conn, c': Conn, fails: bool)
    requires Inv(s) && cid in s.conns && c == s.conns[cid] && c.closer.Deleting? && c.closer.todo != []
    requires s' == With(s, cid, c').(reg := Remove(s.reg, c.closer.todo[0], fails).reg)
    requires c' == c.(closer := Deleting(c.closer.todo[1..]))
    ensures Inv(s')
  {
    assert ConnInv(s, cid, c);
    DeleteNextStep(s, s', cid, c, c', fails);
    RemovalKeepsInv(s, s', cid, c', c.closer.todo[0], fails);
  }

  lemma RevocationActs(s: Sys, s': Sys, cid: ConnId, a: Action)
    requires Inv(s) && cid in s.conns && s' == Act(s, cid, a) && s' != s
    requires a.RevokeNext? || a.RemoveFailed? || a.DeleteNext?
    ensures Inv(s')
  {
    var c, c' := s.conns[cid], s'.conns[cid];
    match a
    case RevokeNext(g, fails) => RevokeNextActs(s, s', cid, c, c', g, fails);
    case RemoveFailed(fails) => RemoveFailedActs(s, s', cid, c, c', fails);
    case DeleteNext(fails) =>
      if c.closer.todo == [] {
        CloserStep(s, cid, c, c');
        LocalKeepsInv(s, cid, c', s.counter);
      } else {
        DeleteNextActs(s, s', cid, c, c', fails);
      }
  }

  lemma CloserStep(s: Sys, cid: ConnId, c: Conn, c': Conn)
    requires ConnInv(s, cid, c) && c.fwd.Stopped?
    requires || (c.closer == Serving && c' == c.(closer := Deleting(c.tables.guids)))
             || (c.closer == Deleting([]) && c' == c.(closer := Finished))
    ensures ConnInv(s, cid, c')
  {
    assert Consumed(c') == Consumed(c);
    OwnershipSame(s.reg.live, s.issued, cid, c, c');
    SettingsSame(s.reg.live, cid, c, c');
  }

  lemma EndSessionStep(s: Sys, cid: ConnId, c: Conn, c': Conn)
    requires ConnInv(s, cid, c) && c.sess.Listening? && c' == c.(sess := Ended)
    ensures ConnInv(s, cid, c')
  {
    ForwarderSame(s.cfg, s.issued, cid, c, c');
    assert Consumed(c') == Consumed(c);
    OwnershipSame(s.reg.live, s.issued, cid, c, c');
    assert SettingsInv(s.reg.live, cid, c') by {
      assert forall g :: g in s.reg.live && s.reg.live[g].conn == Some(cid) ==> SettingsRight(c, g, s.reg.live[g].rec);
    }
  }

  lemma SessionActs(s: Sys, cid: ConnId, c: Conn, a: Action)
    requires Inv(s) && cid in s.conns && c == s.conns[cid]
    requires a.TakeNotification? || a.ApplyKey? || a.ApplyPassword? || a.EndSession? || a.Snapshot?
    ensures Inv(Act(s, cid, a))
  {
    var s' := Act(s, cid, a);
    if s' != s {
      var c' := s'.conns[cid];
      match a
      case TakeNotification(want) =>
        TakeStep(s, cid, c, want);
        LocalKeepsInv(s, cid, c', s.counter);
      case ApplyKey(fails) => ApplyKeyKeepsInv(s, cid, c, fails);
      case ApplyPassword(fails) => ApplyPasswordKeepsInv(s, cid, c, fails);
      case EndSession =>
        EndSessionStep(s, cid, c, c');
        LocalKeepsInv(s, cid, c', s.counter);
      case Snapshot =>
        CloserStep(s, cid, c, c');
        LocalKeepsInv(s, cid, c', s.counter);
    }
  }

  lemma ActKeepsInv(s: Sys, s': Sys, cid: ConnId, a: Action)
    requires Inv(s) && cid in s.conns && s' == Act(s, cid, a)
    ensures Inv(s')
  {
    match a
    case DropUnqueued => RegistrationActs(s, cid, s.conns[cid], a);
    case Cancel(_, _) => RegistrationActs(s, cid, s.conns[cid], a);
    case RevokeNext(_, _) => if s' != s { RevocationActs(s, s', cid, a); }
    case DropFailed => RegistrationActs(s, cid, s.conns[cid], a);
    case RemoveFailed(_) => if s' != s { RevocationActs(s, s', cid, a); }
    case DeleteNext(_) => if s' != s { RevocationActs(s, s', cid, a); }
    case TakeNotification(_) => SessionActs(s, cid, s.conns[cid], a);
    case ApplyKey(_) => SessionActs(s, cid, s.conns[cid], a);
    case ApplyPassword(_) => SessionActs(s, cid, s.conns[cid], a);
    case EndSession => SessionActs(s, cid, s.conns[cid], a);
    case Snapshot => SessionActs(s, cid, s.conns[cid], a);
    case CheckConn(addr, reqPort, alive, still) => CheckConnActs(s, cid, s.conns[cid], addr, reqPort, alive, still);
    case ReservePort => ReserveActs(s, cid, s.conns[cid]);
    case PutTunnel(rec, fails) =>
      if s' != s { PutActs(s, s', cid, rec, fails); }
    case RecordTunnel => RegistrationActs(s, cid, s.conns[cid], a);
    case Enqueue => RegistrationActs(s, cid, s.conns[cid], a);
    case _ =>
      if s' != s { MovingActs(s, cid, s.conns[cid], s'.conns[cid]); }
  }

  lemma NextKeepsInv(s: Sys, step: Step)
    requires Inv(s)
    ensures Inv(Next(s, step))
  {
    match step
    case Open(cid, key) => if cid !in s.conns { OpenKeepsInv(s, cid, key); }
    case Outside(op) => if IsOutside(op) { OutsideKeepsInv(s, op); }
    case On(cid, a) => if cid in s.conns { ActKeepsInv(s, Act(s, cid, a), cid, a); }
  }

  lemma {:induction false} RunKeepsInv(s: Sys, steps: seq<Step>)
    requires Inv(s)
    ensures Inv(Run(s, steps))
    decreases |steps|
  {
    if steps != [] {
      NextKeepsInv(s, steps[0]);
      RunKeepsInv(Next(s, steps[0]), steps[1..]);
    }
  }

  /** A start with any store contents keyed by GUID and any counter value. */
  predicate GoodStart(s: Sys) {
    && s == Init(s.cfg, s.reg.store, s.now, s.counter)
    && KeyedByGuid(s.reg) && s.counter < Ports.WORD
  }

  /** Every state that any interleaving reaches has the invariant. */
  lemma ReachableInv(start: Sys, steps: seq<Step>)
    requires GoodStart(start)
    ensures Inv(Run(start, steps))
  {
    RunKeepsInv(start, steps);
  }
}
