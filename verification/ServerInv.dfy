/** The inductive invariant of the registration server and its preservation by every
    step of every goroutine. */
module ServerInv {
  import opened Seqs
  import opened Registry
  import opened Tables
  import opened Server
  import L = RegistryLaws
  import Ports

  // ----- the invariant of one connection -----------------------------------

  /** GUIDs taken off the queue so far. */
  function Consumed(c: Conn): seq<Guid>
    requires |c.queue| <= |c.queued|
  {
    c.queued[..|c.queued| - |c.queue|]
  }

  function HeldBySession(c: Conn): set<Guid> {
    if c.sess.Listening? || c.sess.Ended? then {} else {c.sess.guid}
  }

  /** GUIDs out of the tables whose registry entry the session is about to remove. */
  function RevokedBySession(c: Conn): set<Guid> {
    if c.sess.Removing? then {c.sess.guid} else {}
  }

  /** GUIDs the request goroutine has in hand outside the tables. */
  function HeldByForwarder(c: Conn): set<Guid> {
    match c.fwd
    case Recording(g, _, _) => {g}
    case Revoking(pending) => pending
    case _ => {}
  }

  /** Where a live tunnel of the connection can still be found. */
  ghost function Accounted(c: Conn): set<Guid> {
    (match c.closer
     case Serving => ToSet(c.tables.guids) + HeldByForwarder(c)
     case Deleting(todo) => ToSet(todo)
     case Finished => {}) + RevokedBySession(c)
  }

  predicate OwnedBy(issued: map<Guid, Bind>, cid: ConnId, guids: set<Guid>) {
    forall g :: g in guids ==> g in issued && issued[g].owner == cid
  }

  /** The part that does not mention the registry: tables and request goroutine. */
  ghost predicate ForwarderInv(cfg: Config, issued: map<Guid, Bind>, cid: ConnId, c: Conn) {
    var n := |c.tables.guids|;
    var room := cfg.maxPerConn > 0 ==> n < cfg.maxPerConn;
    && TablesInv(c.tables, issued)
    && OwnedBy(issued, cid, ToSet(c.tables.guids))
    && (cfg.maxPerConn > 0 ==> n <= cfg.maxPerConn)
    && (!c.fwd.Accepting? ==> c.accepted == c.queued)
    && match c.fwd
       case Waiting => true
       case CheckingTotal(_, _) => room
       case Reserving(_, _) => room
       case Putting(addr, port) => room && Ports.Free(c.tables.forwards, addr, port) && port != 0
       case Recording(g, addr, port) =>
         && room && Ports.Free(c.tables.forwards, addr, port) && port != 0
         && g in issued && issued[g] == Bind(addr, port, cid) && g !in c.tables.guids && g !in c.queued
         && g !in c.cancelled
       case Enqueueing(g) => g in c.tables.guids && g !in c.queued
       case Unqueued(g) => g in c.tables.guids && g !in c.queued
       case Revoking(pending) =>
         OwnedBy(issued, cid, pending) && (cfg.maxPerConn > 0 ==> n + |pending| <= cfg.maxPerConn)
       case Accepting(g) => c.queued == c.accepted + [g]
       case Stopped => true
  }

  /** The part about the queue, the session goroutine and the clean-up. */
  ghost predicate SessionInv(cfg: Config, issued: map<Guid, Bind>, cid: ConnId, c: Conn) {
    && Distinct(c.queued)
    && OwnedBy(issued, cid, ToSet(c.queued))
    && |c.queue| <= |c.queued|
    && c.queue == c.queued[|c.queued| - |c.queue|..]
    && |c.queue| <= QueueCapacity(cfg)
    && ToSet(Consumed(c)) == c.handled.Keys + c.failed + HeldBySession(c)
    && c.handled.Keys !! c.failed !! HeldBySession(c)
    && (!c.closer.Serving? ==> c.fwd.Stopped?)
    && (c.closer.Deleting? ==>
          && OwnedBy(issued, cid, ToSet(c.closer.todo))
          && (cfg.maxPerConn > 0 ==> |c.closer.todo| <= cfg.maxPerConn))
    && OwnedBy(issued, cid, c.cancelled)
  }

  /** Every live tunnel of the connection is accounted for, cancelled ones only while
      their removal is pending, and listed live ones have their forward. */
  ghost predicate OwnershipInv(live: map<Guid, Entry>, issued: map<Guid, Bind>, cid: ConnId, c: Conn) {
    && (forall g :: g in live && live[g].conn == Some(cid) ==> g in Accounted(c))
    && (forall g :: g in c.tables.guids && g in live && g in issued ==>
          var k := ForwardKey(issued[g].addr, issued[g].port);
          k in c.tables.forwards && c.tables.forwards[k] == g)
    && (forall g :: g in c.cancelled && g in live ==> g in HeldByForwarder(c))
    && (forall g :: g in c.failed ==> g !in live)
  }

  function KeyFor(c: Conn, want: Overrides): string {
    if want.key == "" then c.defaultKey else want.key
  }

  /** The access settings a live tunnel of the connection must have. */
  predicate SettingsRight(c: Conn, g: Guid, rec: Record) {
    if g in c.handled then
      rec.connectorKey == KeyFor(c, c.handled[g]) && rec.allowPassword == c.handled[g].allowPassword
    else if c.sess.ApplyingPassword? && c.sess.guid == g then
      rec.connectorKey == KeyFor(c, c.sess.want) && !rec.allowPassword
    else if (c.sess.Failing? || c.sess.Removing?) && c.sess.guid == g then true
    else rec.connectorKey == c.defaultKey && !rec.allowPassword
  }

  predicate SettingsInv(live: map<Guid, Entry>, cid: ConnId, c: Conn) {
    forall g :: g in live && live[g].conn == Some(cid) ==> SettingsRight(c, g, live[g].rec)
  }

  ghost predicate ConnInv(s: Sys, cid: ConnId, c: Conn) {
    && ForwarderInv(s.cfg, s.issued, cid, c)
    && SessionInv(s.cfg, s.issued, cid, c)
    && OwnershipInv(s.reg.live, s.issued, cid, c)
    && SettingsInv(s.reg.live, cid, c)
  }

  /** Live entries carry the bind they were issued with and belong to that connection. */
  predicate IssuedInv(live: map<Guid, Entry>, issued: map<Guid, Bind>) {
    forall g :: g in live ==>
      && g in issued
      && live[g].conn == Some(issued[g].owner)
      && live[g].rec.bindAddr == issued[g].addr
      && live[g].rec.bindPort == issued[g].port
  }

  /** The half about the shared registry. */
  predicate RegistryInv(cfg: Config, reg: Reg, now: Time, counter: nat, issued: map<Guid, Bind>) {
    && L.Inv(reg, now)
    && reg.maxTotal == cfg.maxTotal
    && counter < Ports.WORD
    && IssuedInv(reg.live, issued)
  }

  ghost predicate AllConnsInv(s: Sys) {
    && (forall g :: g in s.issued ==> s.issued[g].owner in s.conns)
    && (forall cid :: cid in s.conns ==> ConnInv(s, cid, s.conns[cid]))
  }

  ghost predicate Inv(s: Sys) {
    RegistryInv(s.cfg, s.reg, s.now, s.counter, s.issued) && AllConnsInv(s)
  }

  // ----- frame: what a step does to the other connections ------------------

  /** From `before` to `after`, no tunnel of connection `cid` appeared, changed hands or
      changed its access settings. */
  predicate Shrinks(before: map<Guid, Entry>, after: map<Guid, Entry>, cid: ConnId) {
    forall g :: g in after && after[g].conn == Some(cid) ==>
      && g in before && before[g].conn == Some(cid)
      && after[g].rec.connectorKey == before[g].rec.connectorKey
      && after[g].rec.allowPassword == before[g].rec.allowPassword
  }

  predicate Extends(before: map<Guid, Bind>, after: map<Guid, Bind>) {
    forall g :: g in before ==> g in after && after[g] == before[g]
  }

  lemma ForwarderFrame(cfg: Config, issued: map<Guid, Bind>, issued': map<Guid, Bind>, cid: ConnId, c: Conn)
    requires ForwarderInv(cfg, issued, cid, c) && Extends(issued, issued')
    ensures ForwarderInv(cfg, issued', cid, c)
  {
  }

  lemma OwnershipFrame(live: map<Guid, Entry>, live': map<Guid, Entry>, issued: map<Guid, Bind>,
                       issued': map<Guid, Bind>, cid: ConnId, c: Conn)
    requires OwnershipInv(live, issued, cid, c)
    requires IssuedInv(live', issued')
    requires OwnedBy(issued, cid, ToSet(c.tables.guids) + c.cancelled + c.failed)
    requires Extends(issued, issued') && Shrinks(live, live', cid)
    ensures OwnershipInv(live', issued', cid, c)
  {
    forall g | g in c.tables.guids || g in c.cancelled || g in c.failed
      ensures g in live' ==> g in live && issued'[g] == issued[g]
    {
      assert g in ToSet(c.tables.guids) + c.cancelled + c.failed;
    }
  }

  /** A connection that takes no part in a step keeps its invariant. */
  lemma ConnFrame(s: Sys, s': Sys, cid: ConnId, c: Conn)
    requires ConnInv(s, cid, c)
    requires s'.cfg == s.cfg && Extends(s.issued, s'.issued)
    requires IssuedInv(s'.reg.live, s'.issued) && Shrinks(s.reg.live, s'.reg.live, cid)
    ensures ConnInv(s', cid, c)
  {
    ForwarderFrame(s.cfg, s.issued, s'.issued, cid, c);
    assert forall g :: g in c.failed ==> g in ToSet(Consumed(c));
    assert forall g :: g in Consumed(c) ==> g in ToSet(c.queued);
    OwnershipFrame(s.reg.live, s'.reg.live, s.issued, s'.issued, cid, c);
  }
}
