/** The registration server as a state machine.  Every mutex-protected region is one
    step; the goroutines of all registrar connections, the sweeper and the connect
    side interleave between regions in any order.

    A connection has three goroutines that matter here: the one that serves global
    requests, the one that serves the single registration session, and the one that
    waits for the transport to end and then cleans up. */
module Server {
  import opened Seqs
  import opened Registry
  import opened Tables
  import L = RegistryLaws
  import Ports

  /** Zero means unlimited in both fields. */
  datatype Config = Config(maxPerConn: nat, maxTotal: nat)

  /** What the session's env requests asked for; an empty key means none was given. */
  datatype Overrides = Overrides(key: string, allowPassword: bool, invalid: bool)

  /** Where the global-request goroutine stands, named after what it does next. */
  datatype Forwarder =
    | Waiting
    | CheckingTotal(addr: string, reqPort: nat)
    | Reserving(addr: string, reqPort: nat)
    | Putting(addr: string, port: nat)
    | Recording(guid: Guid, addr: string, port: nat)
    | Enqueueing(guid: Guid)
    | Unqueued(guid: Guid)
    | Revoking(pending: set<Guid>)
    | Accepting(guid: Guid)
    | Stopped

  datatype Session =
    | Listening
    | ApplyingKey(guid: Guid, want: Overrides)
    | ApplyingPassword(guid: Guid, want: Overrides)
    | Failing(guid: Guid)
    | Removing(guid: Guid)
    | Ended

  datatype Closer = Serving | Deleting(todo: seq<Guid>) | Finished

  /** The last five fields are history: GUIDs ever queued, GUIDs whose forward request
      was answered with success, registrations completed, registrations revoked
      because an override failed, and GUIDs named by a cancel request. */
  datatype Conn = Conn(
    defaultKey: string,
    tables: Tables,
    queue: seq<Guid>,
    fwd: Forwarder,
    sess: Session,
    closer: Closer,
    queued: seq<Guid>,
    accepted: seq<Guid>,
    handled: map<Guid, Overrides>,
    failed: set<Guid>,
    cancelled: set<Guid>)

  /** `issued` remembers every GUID ever registered, with its bind and its connection. */
  datatype Sys = Sys(
    cfg: Config,
    reg: Reg,
    now: Time,
    counter: nat,
    issued: map<Guid, Bind>,
    conns: map<ConnId, Conn>)

  function QueueCapacity(cfg: Config): (n: nat)
    ensures n > 0
    ensures cfg.maxPerConn > 0 ==> n <= cfg.maxPerConn
    ensures cfg.maxTotal > 0 ==> n <= cfg.maxTotal
    ensures n == cfg.maxPerConn || n == cfg.maxTotal || (n == 1024 && cfg.maxPerConn == 0 && cfg.maxTotal == 0)
  {
    var perConn := cfg.maxPerConn;
    var capacity := if cfg.maxTotal > 0 && (perConn == 0 || cfg.maxTotal < perConn) then cfg.maxTotal else perConn;
    if capacity > 0 then capacity else 1024
  }

  function NewConn(key: string): Conn {
    Conn(key, Tables([], map[]), [], Waiting, Listening, Serving, [], [], map[], {}, {})
  }

  function Init(cfg: Config, store: Option<map<Guid, Record>>, now: Time, counter: nat): Sys {
    Sys(cfg, L.Start(store, cfg.maxTotal), now, counter, map[], map[])
  }

  // ----- steps of one connection -------------------------------------------

  datatype Action =
    | CheckConn(addr: string, reqPort: nat, alive: set<Guid>, stillAlive: set<Guid>)
    | CheckTotal
    | ReservePort
    | KeygenFails
    | PutTunnel(rec: Record, storeFails: bool)
    | RecordTunnel
    | Enqueue
    | DropUnqueued
    | Accept
    | Cancel(cancelAddr: string, cancelPort: nat)
    | RevokeNext(guid: Guid, deleteFails: bool)
    | TakeNotification(want: Overrides)
    | ApplyKey(storeFails: bool)
    | ApplyPassword(storeFails: bool)
    | DropFailed
    | RemoveFailed(deleteFails: bool)
    | EndSession
    | StopRequests
    | Snapshot
    | DeleteNext(deleteFails: bool)

  function AtLimit(limit: nat, n: nat): bool {
    limit > 0 && n >= limit
  }

  /** The per-connection check prunes first.  Its probes of the registry are separate
      regions, so a sweep may run between them: a probe may have seen a GUID that is
      gone by the end of the pass, but never misses one that is still live. */
  function DoCheckConn(s: Sys, c: Conn, addr: string, reqPort: nat, alive: set<Guid>, stillAlive: set<Guid>): Conn {
    var first := alive + s.reg.live.Keys;
    var second := alive * stillAlive + s.reg.live.Keys;
    var t := Pruned(c.tables, first, second);
    if c.defaultKey == "" then c
    else c.(tables := t, fwd := if AtLimit(s.cfg.maxPerConn, |t.guids|) then Waiting else CheckingTotal(addr, reqPort))
  }

  function DoReserve(s: Sys, c: Conn): (Conn, nat)
    requires c.fwd.Reserving?
  {
    var (port, counter) := Ports.Reserve(c.tables.forwards, c.fwd.addr, c.fwd.reqPort, s.counter);
    (c.(fwd := if port.Some? then Putting(c.fwd.addr, port.value) else Waiting), counter)
  }

  /** The record that a forward request registers: the request's bind address, the
      reserved port and the connection's default key, password login off. */
  function NewRecord(c: Conn, rec: Record): Record
    requires c.fwd.Putting?
  {
    rec.(bindAddr := c.fwd.addr, bindPort := c.fwd.port, connectorKey := c.defaultKey, allowPassword := false)
  }

  function DoPut(s: Sys, cid: ConnId, c: Conn, rec: Record, storeFails: bool): Sys
    requires c.fwd.Putting?
  {
    var (reg, result) := Put(s.reg, NewRecord(c, rec), Some(cid), s.now, storeFails);
    if result == PutOk then
      s.(reg := reg,
         issued := s.issued[rec.guid := Bind(c.fwd.addr, c.fwd.port, cid)],
         conns := s.conns[cid := c.(fwd := Recording(rec.guid, c.fwd.addr, c.fwd.port))])
    else s.(conns := s.conns[cid := c.(fwd := Waiting)])
  }

  function DoEnqueue(s: Sys, c: Conn): Conn
    requires c.fwd.Enqueueing?
  {
    var g := c.fwd.guid;
    if |c.queue| < QueueCapacity(s.cfg) then
      c.(queue := c.queue + [g], queued := c.queued + [g], fwd := Accepting(g))
    else c.(fwd := Unqueued(g))
  }

  function DoCancel(c: Conn, addr: string, port: nat): Conn {
    var gone := CancelGuids(c.tables, addr, port);
    c.(tables := Cancelled(c.tables, addr, port),
       cancelled := c.cancelled + gone,
       fwd := if gone == {} then Waiting else Revoking(gone))
  }

  function DoTake(c: Conn, want: Overrides): Conn
    requires c.queue != []
  {
    var g := c.queue[0];
    c.(queue := c.queue[1..], sess := if want.invalid then Failing(g) else ApplyingKey(g, want))
  }

  function DoApplyKey(s: Sys, c: Conn, storeFails: bool): (Reg, Conn)
    requires c.sess.ApplyingKey?
  {
    var g, want := c.sess.guid, c.sess.want;
    if want.key == "" then (s.reg, c.(sess := ApplyingPassword(g, want)))
    else
      var (reg, ok) := UpdateConnectorKey(s.reg, g, want.key, storeFails);
      (reg, c.(sess := if ok then ApplyingPassword(g, want) else Failing(g)))
  }

  function DoApplyPassword(s: Sys, c: Conn, storeFails: bool): (Reg, Conn)
    requires c.sess.ApplyingPassword?
  {
    var g, want := c.sess.guid, c.sess.want;
    var (reg, ok) := if want.allowPassword then UpdateAllowPassword(s.reg, g, true, storeFails) else (s.reg, true);
    (reg, if ok then c.(sess := Listening, handled := c.handled[g := want]) else c.(sess := Failing(g)))
  }

  /** One step of connection `cid`; a step whose goroutine is elsewhere changes nothing. */
  function Act(s: Sys, cid: ConnId, a: Action): Sys
    requires cid in s.conns
  {
    var c := s.conns[cid];
    match a
    case CheckConn(addr, reqPort, alive, stillAlive) =>
      if c.fwd.Waiting? then With(s, cid, DoCheckConn(s, c, addr, reqPort, alive, stillAlive)) else s
    case CheckTotal =>
      if c.fwd.CheckingTotal? then
        With(s, cid, c.(fwd := if AtLimit(s.cfg.maxTotal, |s.reg.live|) then Waiting
                               else Reserving(c.fwd.addr, c.fwd.reqPort)))
      else s
    case ReservePort =>
      if c.fwd.Reserving? then
        var (c', counter) := DoReserve(s, c);
        With(s, cid, c').(counter := counter)
      else s
    case KeygenFails => if c.fwd.Putting? then With(s, cid, c.(fwd := Waiting)) else s
    case PutTunnel(rec, storeFails) =>
      if c.fwd.Putting? && rec.guid !in s.issued then DoPut(s, cid, c, rec, storeFails) else s
    case RecordTunnel =>
      if c.fwd.Recording? then
        With(s, cid, c.(tables := Recorded(c.tables, c.fwd.guid, c.fwd.addr, c.fwd.port), fwd := Enqueueing(c.fwd.guid)))
      else s
    case Enqueue => if c.fwd.Enqueueing? then With(s, cid, DoEnqueue(s, c)) else s
    case DropUnqueued =>
      if c.fwd.Unqueued? then
        With(s, cid, c.(tables := Dropped(c.tables, c.fwd.guid), fwd := Revoking({c.fwd.guid})))
      else s
    case Accept =>
      if c.fwd.Accepting? then With(s, cid, c.(accepted := c.accepted + [c.fwd.guid], fwd := Waiting)) else s
    case Cancel(addr, port) => if c.fwd.Waiting? then With(s, cid, DoCancel(c, addr, port)) else s
    case RevokeNext(g, fails) =>
      if c.fwd.Revoking? && g in c.fwd.pending then
        var left := c.fwd.pending - {g};
        With(s, cid, c.(fwd := if left == {} then Waiting else Revoking(left))).(reg := Remove(s.reg, g, fails).reg)
      else s
    case TakeNotification(want) =>
      if c.sess.Listening? && c.queue != [] then With(s, cid, DoTake(c, want)) else s
    case ApplyKey(fails) =>
      if c.sess.ApplyingKey? then
        var (reg, c') := DoApplyKey(s, c, fails);
        With(s, cid, c').(reg := reg)
      else s
    case ApplyPassword(fails) =>
      if c.sess.ApplyingPassword? then
        var (reg, c') := DoApplyPassword(s, c, fails);
        With(s, cid, c').(reg := reg)
      else s
    case DropFailed =>
      if c.sess.Failing? then
        With(s, cid, c.(tables := Dropped(c.tables, c.sess.guid), sess := Removing(c.sess.guid)))
      else s
    case RemoveFailed(fails) =>
      if c.sess.Removing? then
        With(s, cid, c.(failed := c.failed + {c.sess.guid}, sess := Listening))
          .(reg := Remove(s.reg, c.sess.guid, fails).reg)
      else s
    case EndSession => if c.sess.Listening? then With(s, cid, c.(sess := Ended)) else s
    case StopRequests => if c.fwd.Waiting? then With(s, cid, c.(fwd := Stopped)) else s
    case Snapshot =>
      if c.fwd.Stopped? && c.closer.Serving? then With(s, cid, c.(closer := Deleting(c.tables.guids))) else s
    case DeleteNext(fails) =>
      if c.closer.Deleting? then
        if c.closer.todo == [] then With(s, cid, c.(closer := Finished))
        else
          With(s, cid, c.(closer := Deleting(c.closer.todo[1..])))
            .(reg := Remove(s.reg, c.closer.todo[0], fails).reg)
      else s
  }

  function With(s: Sys, cid: ConnId, c: Conn): Sys {
    s.(conns := s.conns[cid := c])
  }

  // ----- runs --------------------------------------------------------------

  datatype Step =
    | Open(cid: ConnId, key: string)
    | On(cid: ConnId, action: Action)
    | Outside(op: L.Op)

  /** Operations of the sweeper, of the connect side and of the clock. */
  predicate IsOutside(op: L.Op) {
    op.OpTouch? || op.OpTrack? || op.OpUntrack? || op.OpEvict? || op.OpTick?
  }

  function Next(s: Sys, step: Step): Sys {
    match step
    case Open(cid, key) => if cid in s.conns then s else With(s, cid, NewConn(key))
    case On(cid, a) => if cid in s.conns then Act(s, cid, a) else s
    case Outside(op) =>
      if IsOutside(op) then
        var t := L.Apply(L.Timed(s.reg, s.now), op);
        s.(reg := t.reg, now := t.now)
      else s
  }

  function Run(s: Sys, steps: seq<Step>): Sys
    decreases |steps|
  {
    if steps == [] then s else Run(Next(s, steps[0]), steps[1..])
  }
}
