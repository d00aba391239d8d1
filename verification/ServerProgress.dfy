/** A forward request that nothing interrupts: when it is served, and what it leaves. */
module ServerProgress {
  import opened Seqs
  import opened Registry
  import opened Tables
  import opened Server
  import Ports

  /** The goroutine's way through one request, from the check of the quota to the reply. */
  function Serving(cid: ConnId, addr: string, reqPort: nat, rec: Record): seq<Step> {
    Choosing(cid, addr, reqPort) + Registering(cid, rec)
  }

  function Choosing(cid: ConnId, addr: string, reqPort: nat): seq<Step> {
    [On(cid, CheckConn(addr, reqPort, {}, {})), On(cid, CheckTotal), On(cid, ReservePort)]
  }

  function Registering(cid: ConnId, rec: Record): seq<Step> {
    [On(cid, PutTunnel(rec, false)), On(cid, RecordTunnel), On(cid, Enqueue), On(cid, Accept)]
  }

  /** The tables after the quota check has pruned them. */
  function Kept(s: Sys, c: Conn): Tables {
    Pruned(c.tables, s.reg.live.Keys, s.reg.live.Keys)
  }

  /** No limit and no conflict: a default key, room under both caps and in the queue, a
      port to be had, a fresh GUID. */
  predicate Admissible(s: Sys, cid: ConnId, addr: string, reqPort: nat, guid: Guid) {
    && cid in s.conns && s.conns[cid].fwd.Waiting? && s.conns[cid].defaultKey != ""
    && !AtLimit(s.cfg.maxPerConn, |Kept(s, s.conns[cid]).guids|)
    && !AtLimit(s.cfg.maxTotal, |s.reg.live|) && !AtLimit(s.reg.maxTotal, |s.reg.live|)
    && Ports.Reserve(Kept(s, s.conns[cid]).forwards, addr, reqPort, s.counter).0.Some?
    && guid !in s.issued && guid !in s.reg.live
    && |s.conns[cid].queue| < QueueCapacity(s.cfg)
  }

  function PortFor(s: Sys, cid: ConnId, addr: string, reqPort: nat): (Option<nat>, nat)
    requires cid in s.conns
  {
    Ports.Reserve(Kept(s, s.conns[cid]).forwards, addr, reqPort, s.counter)
  }

  /** A port has been chosen. */
  function Chosen(s: Sys, cid: ConnId, addr: string, reqPort: nat, guid: Guid): Sys
    requires Admissible(s, cid, addr, reqPort, guid)
  {
    var c := s.conns[cid];
    var (port, counter) := PortFor(s, cid, addr, reqPort);
    With(s, cid, c.(tables := Kept(s, c), fwd := Putting(addr, port.value))).(counter := counter)
  }

  /** The record of the tunnel. */
  function NewTunnel(s: Sys, cid: ConnId, addr: string, port: nat, rec: Record): Record
    requires cid in s.conns
  {
    rec.(bindAddr := addr, bindPort := port, connectorKey := s.conns[cid].defaultKey, allowPassword := false, lastActivity := s.now)
  }

  lemma RunPair(s: Sys, a: Step, rest: seq<Step>)
    ensures Run(s, [a] + rest) == Run(Next(s, a), rest)
  {
    assert ([a] + rest)[1..] == rest;
  }

  lemma {:induction false} RunConcat(s: Sys, a: seq<Step>, b: seq<Step>)
    ensures Run(s, a + b) == Run(Run(s, a), b)
    decreases |a|
  {
    var all := a + b;
    if a == [] {
      assert all == b;
    } else {
      assert all[0] == a[0] && all[1..] == a[1..] + b;
      RunConcat(Next(s, a[0]), a[1..], b);
    }
  }

  lemma WithTwice(s: Sys, cid: ConnId, a: Conn, b: Conn)
    ensures With(With(s, cid, a), cid, b) == With(s, cid, b)
  {
  }

  lemma CheckPasses(s: Sys, cid: ConnId, addr: string, reqPort: nat, guid: Guid)
    requires Admissible(s, cid, addr, reqPort, guid)
    ensures var c := s.conns[cid];
            Next(s, On(cid, CheckConn(addr, reqPort, {}, {})))
            == With(s, cid, c.(tables := Kept(s, c), fwd := CheckingTotal(addr, reqPort)))
  {
    var alive := s.reg.live.Keys;
    assert {} + alive == alive && {} * {} + alive == alive;
  }

  lemma TotalPasses(s: Sys, cid: ConnId, c: Conn)
    requires c.fwd.CheckingTotal? && !AtLimit(s.cfg.maxTotal, |s.reg.live|)
    ensures Next(With(s, cid, c), On(cid, CheckTotal)) == With(s, cid, c.(fwd := Reserving(c.fwd.addr, c.fwd.reqPort)))
  {
    WithTwice(s, cid, c, c.(fwd := Reserving(c.fwd.addr, c.fwd.reqPort)));
  }

  lemma PortIsFound(s: Sys, cid: ConnId, c: Conn)
    requires c.fwd.Reserving? && Ports.Reserve(c.tables.forwards, c.fwd.addr, c.fwd.reqPort, s.counter).0.Some?
    ensures var (port, counter) := Ports.Reserve(c.tables.forwards, c.fwd.addr, c.fwd.reqPort, s.counter);
            Next(With(s, cid, c), On(cid, ReservePort))
            == With(s, cid, c.(fwd := Putting(c.fwd.addr, port.value))).(counter := counter)
  {
    var (port, counter) := Ports.Reserve(c.tables.forwards, c.fwd.addr, c.fwd.reqPort, s.counter);
    WithTwice(s, cid, c, c.(fwd := Putting(c.fwd.addr, port.value)));
  }

  lemma PortIsChosen(s: Sys, cid: ConnId, addr: string, reqPort: nat, guid: Guid)
    requires Admissible(s, cid, addr, reqPort, guid)
    ensures Run(s, Choosing(cid, addr, reqPort)) == Chosen(s, cid, addr, reqPort, guid)
  {
    var steps := Choosing(cid, addr, reqPort);
    var c1 := s.conns[cid].(tables := Kept(s, s.conns[cid]), fwd := CheckingTotal(addr, reqPort));
    var c2 := c1.(fwd := Reserving(addr, reqPort));
    CheckPasses(s, cid, addr, reqPort, guid);
    TotalPasses(s, cid, c1);
    PortIsFound(s, cid, c2);
    RunPair(s, steps[0], [steps[1], steps[2]]);
    RunPair(With(s, cid, c1), steps[1], [steps[2]]);
    RunPair(With(s, cid, c2), steps[2], []);
    assert steps == [steps[0]] + [steps[1], steps[2]] && [steps[1], steps[2]] == [steps[1]] + [steps[2]];
    assert [steps[2]] + [] == [steps[2]];
  }

  /** What registering leaves of a connection whose port is chosen. */
  predicate Registered(s: Sys, s': Sys, cid: ConnId, rec: Record, live: Record)
    requires cid in s.conns && s.conns[cid].fwd.Putting?
  {
    var c := s.conns[cid];
    && s'.reg == StorePut(s.reg.(live := s.reg.live[rec.guid := Entry(live, Some(cid))]), live)
    && s'.issued == s.issued[rec.guid := Bind(c.fwd.addr, c.fwd.port, cid)]
    && s'.counter == s.counter && s'.now == s.now && s'.cfg == s.cfg
    && s'.conns == s.conns[cid := c.(tables := Recorded(c.tables, rec.guid, c.fwd.addr, c.fwd.port),
                                     queue := c.queue + [rec.guid], queued := c.queued + [rec.guid],
                                     accepted := c.accepted + [rec.guid], fwd := Waiting)]
  }

  lemma TunnelIsRegistered(s: Sys, cid: ConnId, rec: Record, s': Sys)
    requires cid in s.conns && s.conns[cid].fwd.Putting? && rec.guid !in s.issued && rec.guid !in s.reg.live
    requires !AtLimit(s.reg.maxTotal, |s.reg.live|) && |s.conns[cid].queue| < QueueCapacity(s.cfg)
    requires s' == Next(Next(Next(Next(s, On(cid, PutTunnel(rec, false))), On(cid, RecordTunnel)), On(cid, Enqueue)), On(cid, Accept))
    ensures Registered(s, s', cid, rec, NewRecord(s.conns[cid], rec).(lastActivity := s.now))
  {
    var c := s.conns[cid];
    var s1 := Next(s, On(cid, PutTunnel(rec, false)));
    var c1 := c.(fwd := Recording(rec.guid, c.fwd.addr, c.fwd.port));
    assert s1 == DoPut(s, cid, c, rec, false) && s1.conns == s.conns[cid := c1];
    var c2 := c1.(tables := Recorded(c.tables, rec.guid, c.fwd.addr, c.fwd.port), fwd := Enqueueing(rec.guid));
    var s2 := Next(s1, On(cid, RecordTunnel));
    assert s2 == With(s1, cid, c2) && s2.conns == s.conns[cid := c2];
    var c3 := c2.(queue := c.queue + [rec.guid], queued := c.queued + [rec.guid], fwd := Accepting(rec.guid));
    var s3 := Next(s2, On(cid, Enqueue));
    assert s3 == With(s2, cid, c3) && s3.conns == s.conns[cid := c3];
  }

  /** An admissible request is served: the tunnel is live and stored under the requested
      address and the reserved port, listed, queued and answered with success. */
  lemma ForwardIsServed(s: Sys, cid: ConnId, addr: string, reqPort: nat, rec: Record, s': Sys)
    requires Admissible(s, cid, addr, reqPort, rec.guid)
    requires s' == Run(s, Serving(cid, addr, reqPort, rec))
    ensures var c := s.conns[cid];
            var (port, counter) := PortFor(s, cid, addr, reqPort);
            var live := NewTunnel(s, cid, addr, port.value, rec);
            && s'.counter == counter
            && s'.reg == StorePut(s.reg.(live := s.reg.live[rec.guid := Entry(live, Some(cid))]), live)
            && s'.conns == s.conns[cid := c.(tables := Recorded(Kept(s, c), rec.guid, addr, port.value),
                                             queue := c.queue + [rec.guid], queued := c.queued + [rec.guid],
                                             accepted := c.accepted + [rec.guid], fwd := Waiting)]
  {
    var s1 := Chosen(s, cid, addr, reqPort, rec.guid);
    RunConcat(s, Choosing(cid, addr, reqPort), Registering(cid, rec));
    PortIsChosen(s, cid, addr, reqPort, rec.guid);
    RunFour(s1, Registering(cid, rec));
    TunnelIsRegistered(s1, cid, rec, s');
    assert s1.conns[cid := s'.conns[cid]] == s.conns[cid := s'.conns[cid]];
  }

  lemma RunFour(s: Sys, steps: seq<Step>)
    requires |steps| == 4
    ensures Run(s, steps) == Next(Next(Next(Next(s, steps[0]), steps[1]), steps[2]), steps[3])
  {
    assert steps == [steps[0]] + ([steps[1]] + ([steps[2]] + ([steps[3]] + [])));
    RunPair(s, steps[0], [steps[1]] + ([steps[2]] + ([steps[3]] + [])));
    var s1 := Next(s, steps[0]);
    RunPair(s1, steps[1], [steps[2]] + ([steps[3]] + []));
    var s2 := Next(s1, steps[1]);
    RunPair(s2, steps[2], [steps[3]] + []);
    RunPair(Next(s2, steps[2]), steps[3], []);
  }
}
