/** The tunnel registry of the reverse-tunnel plugin as a value, one function per
    operation.  Every operation runs under one mutex, so each function is one
    atomic step of a concurrent run.  Faults of the session store are parameters. */
module Registry {
  import opened Seqs

  type Guid = string
  type ConnId = nat
  type ChanId = nat
  type Time = int

  datatype Record = Record(
    guid: Guid,
    targetUser: string,
    bindAddr: string,
    bindPort: nat,
    connectorKey: string,
    upstreamKeyPEM: string,
    upstreamKeyPub: string,
    allowPassword: bool,
    createdAt: Time,
    lastActivity: Time)

  /** `conn` is None where the Go code holds a nil `ssh.Conn`. */
  datatype Entry = Entry(rec: Record, conn: Option<ConnId>)

  /** `store` is None when no session store is configured; `maxTotal == 0` means unlimited. */
  datatype Reg = Reg(
    live: map<Guid, Entry>,
    channels: map<Guid, set<ChanId>>,
    store: Option<map<Guid, Record>>,
    maxTotal: nat)

  datatype PutResult = PutOk | TooManyTunnels | AlreadyRegistered | StoreFailed

  /** What a removal leaves to be closed once the lock is released. */
  datatype Removal = Removal(reg: Reg, channels: set<ChanId>, conns: set<ConnId>)

  // ----- insertion and updates ---------------------------------------------

  function StorePut(r: Reg, rec: Record): Reg {
    if r.store.None? then r else r.(store := Some(r.store.value[rec.guid := rec]))
  }

  function StoreDelete(r: Reg, guid: Guid, fails: bool): Reg {
    if r.store.None? || fails then r else r.(store := Some(r.store.value - {guid}))
  }

  function Put(r: Reg, rec: Record, conn: Option<ConnId>, now: Time, storeFails: bool): (Reg, PutResult) {
    if r.maxTotal > 0 && |r.live| >= r.maxTotal then (r, TooManyTunnels)
    else if rec.guid in r.live then (r, AlreadyRegistered)
    else if r.store.Some? && storeFails then (r, StoreFailed)
    else
      var stamped := rec.(lastActivity := now);
      (StorePut(r.(live := r.live[rec.guid := Entry(stamped, conn)]), stamped), PutOk)
  }

  function Touch(r: Reg, guid: Guid, now: Time): Reg {
    if guid !in r.live then r
    else r.(live := r.live[guid := r.live[guid].(rec := r.live[guid].rec.(lastActivity := now))])
  }

  /** Persist first, swap the live record in only after the store accepted it. */
  function Replace(r: Reg, guid: Guid, rec: Record, storeFails: bool): (Reg, bool)
    requires guid in r.live
  {
    if r.store.Some? && storeFails then (r, false)
    else (StorePut(r.(live := r.live[guid := r.live[guid].(rec := rec)]), rec), true)
  }

  function UpdateConnectorKey(r: Reg, guid: Guid, key: string, storeFails: bool): (Reg, bool) {
    if guid !in r.live then (r, false)
    else Replace(r, guid, r.live[guid].rec.(connectorKey := key), storeFails)
  }

  function UpdateAllowPassword(r: Reg, guid: Guid, allow: bool, storeFails: bool): (Reg, bool) {
    if guid !in r.live then (r, false)
    else if r.live[guid].rec.allowPassword == allow then (r, true)
    else Replace(r, guid, r.live[guid].rec.(allowPassword := allow), storeFails)
  }

  // ----- channel tracking --------------------------------------------------

  function Tracked(r: Reg, guid: Guid): set<ChanId> {
    if guid in r.channels then r.channels[guid] else {}
  }

  function TrackChannel(r: Reg, guid: Guid, ch: ChanId): (Reg, bool) {
    if guid !in r.live then (r, false)
    else (r.(channels := r.channels[guid := Tracked(r, guid) + {ch}]), true)
  }

  function UntrackChannel(r: Reg, guid: Guid, ch: ChanId): Reg {
    var left := Tracked(r, guid) - {ch};
    r.(channels := if left == {} then r.channels - {guid} else r.channels[guid := left])
  }

  // ----- removal -----------------------------------------------------------

  /** The registrar connections that some live entry refers to. */
  function UsedConns(live: map<Guid, Entry>): set<ConnId> {
    set g | g in live && live[g].conn.Some? :: live[g].conn.value
  }

  /** The registrar connections of the entries in `guids`. */
  function ConnsOf(live: map<Guid, Entry>, guids: set<Guid>): set<ConnId> {
    set g | g in guids && g in live && live[g].conn.Some? :: live[g].conn.value
  }

  /** The channels tracked for the tunnels in `guids`. */
  function ChannelsOf(r: Reg, guids: set<Guid>): set<ChanId> {
    set g, ch | g in guids && ch in Tracked(r, g) :: ch
  }

  /** Both `Remove` and `Delete`: drop the live entry, its channels and its stored
      record; close the registrar connection when this was its last forward. */
  function Remove(r: Reg, guid: Guid, deleteFails: bool): Removal {
    var live := r.live - {guid};
    Removal(
      StoreDelete(r.(live := live, channels := r.channels - {guid}), guid, deleteFails),
      Tracked(r, guid),
      ConnsOf(r.live, {guid}) - UsedConns(live))
  }

  function Idle(r: Reg, cutoff: Time): set<Guid> {
    set g | g in r.live && r.live[g].rec.lastActivity < cutoff
  }

  /** Records of the store that have no live entry in `live` and are older than `cutoff`. */
  function Expired(store: map<Guid, Record>, live: map<Guid, Entry>, cutoff: Time): set<Guid> {
    set g | g in store && g !in live && store[g].lastActivity < cutoff
  }

  /** Outcome of one sweep.  `failFirst` and `failSecond` are the GUIDs for which the
      store refuses the deletion of the live half and of the persisted half. */
  datatype Sweep = Sweep(removal: Removal, idle: set<Guid>, expired: set<Guid>)

  function EvictIdle(r: Reg, cutoff: Time, listFails: bool,
                     failFirst: set<Guid>, failSecond: set<Guid>): Sweep {
    var idle := Idle(r, cutoff);
    var live := r.live - idle;
    var closing := ChannelsOf(r, idle);
    var conns := ConnsOf(r.live, idle) - UsedConns(live);
    var swept := r.(live := live, channels := r.channels - idle);
    if r.store.None? then Sweep(Removal(swept, closing, conns), idle, {})
    else
      var store := r.store.value - (idle - failFirst);
      var expired := if listFails then {} else Expired(store, live, cutoff) - failSecond;
      Sweep(Removal(swept.(store := Some(store - expired)), closing, conns), idle, expired)
  }

  /** Store keys and live keys are the GUIDs of the records they hold. */
  predicate KeyedByGuid(r: Reg) {
    && (forall g :: g in r.live ==> r.live[g].rec.guid == g)
    && (r.store.Some? ==> forall g :: g in r.store.value ==> r.store.value[g].guid == g)
  }
}
