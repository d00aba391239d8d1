/** Two runs that show the hypotheses of the server theorems are needed. */
module ServerExamples {
  import opened Seqs
  import opened Registry
  import opened Tables
  import opened Server
  import opened ServerInv
  import opened ServerSafety
  import opened ServerTheorems
  import Ports
  import P = ServerProgress

  function Rec(g: Guid): Record {
    Record(g, "user", "", 0, "", "", "", false, 0, 0)
  }

  /** One forward request for a fixed port, served without interruption up to the
      point where its GUID is to be queued. */
  function Forward(g: Guid, port: nat): seq<Step> {
    [On(0, CheckConn("h", port, {}, {})), On(0, CheckTotal), On(0, ReservePort),
     On(0, PutTunnel(Rec(g), false)), On(0, RecordTunnel)]
  }

  predicate Ready(s: Sys, g: Guid, port: nat) {
    && 0 in s.conns && s.conns[0].fwd.Waiting? && s.conns[0].defaultKey != ""
    && s.conns[0].tables == Tables([], map[])
    && s.cfg == Config(1, 0) && s.reg.maxTotal == 0 && s.reg.store.None?
    && g !in s.issued && g !in s.reg.live && port != 0
  }

  lemma CheckPasses(s: Sys, g: Guid, port: nat)
    requires Ready(s, g, port)
    ensures Next(s, On(0, CheckConn("h", port, {}, {}))) == With(s, 0, s.conns[0].(fwd := CheckingTotal("h", port)))
  {
    var c := s.conns[0];
    var alive := s.reg.live.Keys;
    assert {} + alive == alive && {} * {} + alive == alive;
    assert Pruned(c.tables, alive, alive) == Tables([], map[]);
  }

  lemma PortIsReserved(s: Sys, g: Guid, port: nat)
    requires Ready(s, g, port)
    ensures var s1 := With(s, 0, s.conns[0].(fwd := CheckingTotal("h", port)));
            var s2 := With(s, 0, s.conns[0].(fwd := Reserving("h", port)));
            && Next(s1, On(0, CheckTotal)) == s2
            && Next(s2, On(0, ReservePort)) == With(s, 0, s.conns[0].(fwd := Putting("h", port)))
  {
  }

  /** The state after the tunnel was registered and recorded. */
  function Registered(s: Sys, g: Guid, port: nat): Sys
    requires Ready(s, g, port)
  {
    var c := s.conns[0];
    var rec := Rec(g).(bindAddr := "h", bindPort := port, connectorKey := c.defaultKey, lastActivity := s.now);
    s.(reg := s.reg.(live := s.reg.live[g := Entry(rec, Some(0))]),
       issued := s.issued[g := Bind("h", port, 0)],
       conns := s.conns[0 := c.(tables := Tables([g], map[ForwardKey("h", port) := g]), fwd := Enqueueing(g))])
  }

  lemma TunnelIsRecorded(s: Sys, g: Guid, port: nat)
    requires Ready(s, g, port)
    ensures var s3 := With(s, 0, s.conns[0].(fwd := Putting("h", port)));
            Next(Next(s3, On(0, PutTunnel(Rec(g), false))), On(0, RecordTunnel)) == Registered(s, g, port)
  {
    var s3 := With(s, 0, s.conns[0].(fwd := Putting("h", port)));
    var s4 := Next(s3, On(0, PutTunnel(Rec(g), false)));
    var s5 := Next(s4, On(0, RecordTunnel));
    assert s5.conns == s.conns[0 := s5.conns[0]];
    assert s5.conns[0].tables == Tables([g], map[ForwardKey("h", port) := g]);
  }

  /** A forward request that meets no limit and no conflict leaves its tunnel live under
      the requested address and port. */
  lemma ForwardSucceeds(s: Sys, g: Guid, port: nat)
    requires Ready(s, g, port)
    ensures Run(s, Forward(g, port)) == Registered(s, g, port)
  {
    CheckPasses(s, g, port);
    PortIsReserved(s, g, port);
    TunnelIsRecorded(s, g, port);
    Unroll5(s, On(0, CheckConn("h", port, {}, {})), On(0, CheckTotal), On(0, ReservePort),
            On(0, PutTunnel(Rec(g), false)), On(0, RecordTunnel));
  }

  lemma Unroll5(s: Sys, a: Step, b: Step, c: Step, d: Step, e: Step)
    ensures Run(s, [a, b, c, d, e]) == Next(Next(Next(Next(Next(s, a), b), c), d), e)
  {
    assert [a, b, c, d, e] == [a] + ([b] + ([c] + ([d] + [e])));
    P.RunConcat(s, [a], [b] + ([c] + ([d] + [e])));
    var s1 := Next(s, a);
    P.RunConcat(s1, [b], [c] + ([d] + [e]));
    var s2 := Next(s1, b);
    P.RunConcat(s2, [c], [d] + [e]);
    P.RunConcat(Next(s2, c), [d], [e]);
  }

  lemma RunOneMore(s: Sys, steps: seq<Step>, last: Step)
    ensures Run(s, steps + [last]) == Next(Run(s, steps), last)
  {
    P.RunConcat(s, steps, [last]);
  }

  /** Connection 0 is idle, with a quota of one tunnel; `a` and `b` are unused GUIDs. */
  predicate Idling(s: Sys, a: Guid, b: Guid, p: nat) {
    && Ready(s, a, p) && Ready(s, b, p) && a != b
    && s.conns[0].sess.Listening? && s.conns[0].queue == []
  }

  /** The first tunnel is registered, queued and accepted. */
  lemma FirstTunnel(s: Sys, a: Guid, b: Guid, p: nat) returns (s': Sys, steps: seq<Step>)
    requires Idling(s, a, b, p)
    ensures s' == Run(s, steps) && s'.reg == Registered(s, a, p).reg && s'.issued == Registered(s, a, p).issued
    ensures s'.cfg == s.cfg && 0 in s'.conns
    ensures s'.conns[0] == s.conns[0].(tables := Tables([a], map[ForwardKey("h", p) := a]), queue := [a],
                                       queued := s.conns[0].queued + [a], accepted := s.conns[0].accepted + [a])
  {
    ForwardSucceeds(s, a, p);
    var s1 := Registered(s, a, p);
    var s2 := Next(s1, On(0, Enqueue));
    s' := Next(s2, On(0, Accept));
    RunOneMore(s, Forward(a, p), On(0, Enqueue));
    RunOneMore(s, Forward(a, p) + [On(0, Enqueue)], On(0, Accept));
    steps := Forward(a, p) + [On(0, Enqueue)] + [On(0, Accept)];
  }

  lemma EmptyAgain(g: Guid, p: nat)
    ensures Dropped(Tables([g], map[ForwardKey("h", p) := g]), g) == Tables([], map[])
    ensures p != 0 ==> CancelGuids(Tables([g], map[ForwardKey("h", p) := g]), "h", p) == {g}
    ensures p != 0 ==> Cancelled(Tables([g], map[ForwardKey("h", p) := g]), "h", p) == Tables([], map[])
  {
    var t := Tables([g], map[ForwardKey("h", p) := g]);
    if p != 0 {
      assert CancelKeys(t, "h", p) == {ForwardKey("h", p)};
      assert CancelGuids(t, "h", p) == {g};
    }
  }

  /** One accepted, still queued tunnel `a`; `b` is an unused GUID. */
  predicate OneTunnel(s: Sys, a: Guid, b: Guid, p: nat) {
    && 0 in s.conns && s.conns[0].fwd.Waiting? && s.conns[0].defaultKey != "" && s.conns[0].sess.Listening?
    && s.conns[0].tables == Tables([a], map[ForwardKey("h", p) := a]) && s.conns[0].queue == [a]
    && s.cfg == Config(1, 0) && s.reg.maxTotal == 0 && s.reg.store.None?
    && b !in s.issued && b !in s.reg.live && p != 0
    && a in s.reg.live && s.reg.live[a].conn == Some(0)
  }

  const RejectKey := On(0, TakeNotification(Overrides("", false, true)))
  const DropIt := On(0, DropFailed)

  lemma RevocationBegins(s: Sys, a: Guid, b: Guid, p: nat)
    requires OneTunnel(s, a, b, p)
    ensures var s' := Next(Next(s, RejectKey), DropIt);
            Ready(s', b, p) && s'.conns[0].sess == Removing(a) && s'.reg == s.reg
  {
    EmptyAgain(a, p);
    var s1 := Next(s, RejectKey);
    assert s1.conns[0].sess == Failing(a) && s1.reg == s.reg && s1.conns[0].tables == s.conns[0].tables;
  }

  /** The per-connection quota really can be exceeded by one while the session is in the
      middle of a revocation. */
  lemma QuotaExceededDuringRevocation(s: Sys, a: Guid, b: Guid, p: nat)
    requires OneTunnel(s, a, b, p)
    ensures var s' := Run(s, [RejectKey] + [DropIt] + Forward(b, p));
            0 in s'.conns && s'.conns[0].sess.Removing? && |Owned(s'.reg.live, 0)| > s.cfg.maxPerConn
  {
    RevocationBegins(s, a, b, p);
    var s1 := Next(Next(s, RejectKey), DropIt);
    RunOneMore(s, [RejectKey], DropIt);
    P.RunConcat(s, [RejectKey] + [DropIt], Forward(b, p));
    ForwardSucceeds(s1, b, p);
    SubsetSize({a, b}, Owned(Registered(s1, b, p).reg.live, 0));
  }

  lemma CancelCompletes(s: Sys, a: Guid, b: Guid, p: nat)
    requires OneTunnel(s, a, b, p)
    ensures var s' := Next(Next(s, On(0, Cancel("h", p))), On(0, RevokeNext(a, false)));
            Ready(s', b, p) && s'.conns[0].queue == [a]
  {
    EmptyAgain(a, p);
    var s1 := Next(s, On(0, Cancel("h", p)));
    assert s1.conns[0].fwd == Revoking({a}) && s1.conns[0].tables == Tables([], map[]) && s1.reg == s.reg;
    assert {a} - {a} == {};
  }

  /** With a cap configured the queue can still overflow, if a queued tunnel was
      cancelled before the session took its notification. */
  lemma QueueOverflowsAfterCancel(s: Sys, a: Guid, b: Guid, p: nat)
    requires OneTunnel(s, a, b, p)
    ensures var s' := Run(s, [On(0, Cancel("h", p))] + [On(0, RevokeNext(a, false))] + Forward(b, p) + [On(0, Enqueue)]);
            0 in s'.conns && s'.conns[0].fwd == Unqueued(b)
  {
    var cancel, revoke := On(0, Cancel("h", p)), On(0, RevokeNext(a, false));
    CancelCompletes(s, a, b, p);
    var s1 := Next(Next(s, cancel), revoke);
    RunOneMore(s, [cancel], revoke);
    P.RunConcat(s, [cancel] + [revoke], Forward(b, p));
    RunOneMore(s, [cancel] + [revoke] + Forward(b, p), On(0, Enqueue));
    ForwardSucceeds(s1, b, p);
  }

  /** States with one tunnel are reachable: open a connection and forward once. */
  lemma OneTunnelIsReachable(a: Guid, b: Guid, p: nat) returns (start: Sys, steps: seq<Step>)
    requires a != b && p != 0
    ensures GoodStart(start) && OneTunnel(Run(start, steps), a, b, p)
  {
    start := Init(Config(1, 0), None, 0, 0);
    var open := [Open(0, "k")];
    var s := Next(start, open[0]);
    assert Run(start, open) == s;
    var s', rest := FirstTunnel(s, a, b, p);
    P.RunConcat(start, open, rest);
    steps := open + rest;
  }
}
