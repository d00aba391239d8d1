/** The downstream-to-upstream direction of a pipe with the forwarding filter and the env
    injector installed: what a whole packet stream becomes. */
module Pipeline {
  import opened Seqs
  import opened Wire
  import opened Forwarding
  import opened HookChain
  import opened EnvInject

  /** A packet on the upstream connection and whether the injector made it. */
  datatype Sent = Sent(packet: Bytes, injected: bool)

  function FilterHook(cfg: Config): Hook {
    p => HookResult(Decide(cfg, p), false, [])
  }

  function InjectHook(env: map<Bytes, Bytes>, order: seq<Bytes>): Hook
    requires forall k :: k in order ==> k in env
  {
    p => Inject(env, order, p)
  }

  function Injected(writes: seq<Bytes>): (r: seq<Sent>)
    ensures |r| == |writes|
  {
    seq(|writes|, i requires 0 <= i < |writes| => Sent(writes[i], true))
  }

  /** What the packet pump sends upstream: the hooks' own writes, then the packet the
      chain lets through, if any. */
  function PumpOne(hooks: seq<Hook>, p: Bytes): seq<Sent> {
    var r := Chain(hooks, Some(p));
    Injected(r.writes) +
    (if !r.failed && r.verdict.action == Transform && r.verdict.out.Some? then [Sent(r.verdict.out.value, false)] else [])
  }

  /** A stream of packets.  `orders` gives, per packet, the order in which the injector
      would iterate over its map; `front` are hooks that only look, such as the live
      stream and the recorders. */
  function Pump(front: seq<Hook>, cfg: Config, env: map<Bytes, Bytes>, orders: seq<seq<Bytes>>, packets: seq<Bytes>): seq<Sent>
    requires |orders| == |packets|
    requires forall o, k :: o in orders && k in o ==> k in env
  {
    if packets == [] then []
    else
      PumpOne(front + [FilterHook(cfg), InjectHook(env, orders[0])], packets[0])
      + Pump(front, cfg, env, orders[1..], packets[1..])
  }

  /** The reference: each packet that is not blocked, preceded by the env requests for its
      channel if it is a well-formed session request. */
  function Expected(cfg: Config, env: map<Bytes, Bytes>, orders: seq<seq<Bytes>>, packets: seq<Bytes>): seq<Sent>
    requires |orders| == |packets|
    requires forall o, k :: o in orders && k in o ==> k in env
  {
    if packets == [] then []
    else
      (if Blocked(cfg, packets[0]) then [] else Group(env, orders[0], packets[0]))
      + Expected(cfg, env, orders[1..], packets[1..])
  }

  function Group(env: map<Bytes, Bytes>, order: seq<Bytes>, p: Bytes): seq<Sent>
    requires forall k :: k in order ==> k in env
  {
    var r := ParseChannelRequest(p);
    (if r.Some? && StartsSession(r.value.kind) then Injected(EnvPackets(r.value.channel, env, order)) else [])
    + [Sent(p, false)]
  }

  lemma BlockedNeverTriggers(cfg: Config, p: Bytes)
    requires Blocked(cfg, p)
    ensures !Triggers(p) && p != []
  {
  }

  lemma PumpOneIsGroup(front: seq<Hook>, cfg: Config, env: map<Bytes, Bytes>, order: seq<Bytes>, p: Bytes)
    requires forall h :: h in front ==> Inspects(h)
    requires forall k :: k in order ==> k in env
    ensures PumpOne(front + [FilterHook(cfg), InjectHook(env, order)], p)
            == if Blocked(cfg, p) then [] else Group(env, order, p)
  {
    var filter, inject := FilterHook(cfg), InjectHook(env, order);
    InspectorsDoNotMatter(front, [filter, inject], Some(p));
    TriggersMeansSessionRequest(p);
    var v := Decide(cfg, Some(p));
    assert [filter, inject][1..] == [inject] && [inject][1..] == [];
    assert Chain([inject], v.out) == Before(Inject(env, order, v.out).writes, Chain([], v.out));
    if Blocked(cfg, p) {
      BlockedNeverTriggers(cfg, p);
    } else {
      assert v == Verdict(Transform, Some(p));
      var writes := Inject(env, order, Some(p)).writes;
      assert [] + (writes + []) == writes;
    }
  }

  /** For every packet stream the upstream receives exactly the reference stream. */
  lemma {:induction false} PumpSendsExpected(front: seq<Hook>, cfg: Config, env: map<Bytes, Bytes>,
                                             orders: seq<seq<Bytes>>, packets: seq<Bytes>)
    requires |orders| == |packets|
    requires forall o, k :: o in orders && k in o ==> k in env
    requires forall h :: h in front ==> Inspects(h)
    ensures Pump(front, cfg, env, orders, packets) == Expected(cfg, env, orders, packets)
  {
    if packets != [] {
      PumpOneIsGroup(front, cfg, env, orders[0], packets[0]);
      PumpSendsExpected(front, cfg, env, orders[1..], packets[1..]);
    }
  }

  /** The packets that came from the client. */
  function FromClient(sent: seq<Sent>): seq<Bytes> {
    if sent == [] then []
    else (if sent[0].injected then [] else [sent[0].packet]) + FromClient(sent[1..])
  }

  lemma {:induction false} FromClientConcat(a: seq<Sent>, b: seq<Sent>)
    ensures FromClient(a + b) == FromClient(a) + FromClient(b)
  {
    if a == [] {
      assert a + b == b;
    } else {
      assert (a + b)[1..] == a[1..] + b;
      FromClientConcat(a[1..], b);
    }
  }

  lemma {:induction false} NoneFromClient(writes: seq<Bytes>)
    ensures FromClient(Injected(writes)) == []
  {
    if writes != [] {
      assert Injected(writes)[1..] == Injected(writes[1..]);
      NoneFromClient(writes[1..]);
    }
  }

  /** Without the injected packets, the upstream stream is the input without exactly the
      blocked packets, unchanged and in order. */
  lemma {:induction false} NothingElseIsTouched(front: seq<Hook>, cfg: Config, env: map<Bytes, Bytes>,
                                                orders: seq<seq<Bytes>>, packets: seq<Bytes>)
    requires |orders| == |packets|
    requires forall o, k :: o in orders && k in o ==> k in env
    requires forall h :: h in front ==> Inspects(h)
    ensures FromClient(Pump(front, cfg, env, orders, packets)) == Filter(packets, p => !Blocked(cfg, p))
  {
    if packets != [] {
      var head := PumpOne(front + [FilterHook(cfg), InjectHook(env, orders[0])], packets[0]);
      PumpOneIsGroup(front, cfg, env, orders[0], packets[0]);
      FromClientConcat(head, Pump(front, cfg, env, orders[1..], packets[1..]));
      NothingElseIsTouched(front, cfg, env, orders[1..], packets[1..]);
      if !Blocked(cfg, packets[0]) {
        GroupHasOneClientPacket(env, orders[0], packets[0]);
      }
    }
  }

  lemma GroupHasOneClientPacket(env: map<Bytes, Bytes>, order: seq<Bytes>, p: Bytes)
    requires forall k :: k in order ==> k in env
    ensures FromClient(Group(env, order, p)) == [p]
  {
    var r := ParseChannelRequest(p);
    var writes := if r.Some? && StartsSession(r.value.kind) then EnvPackets(r.value.channel, env, order) else [];
    assert Group(env, order, p) == Injected(writes) + [Sent(p, false)];
    FromClientConcat(Injected(writes), [Sent(p, false)]);
    NoneFromClient(writes);
  }

  predicate IsSessionRequest(p: Bytes) {
    ParseChannelRequest(p).Some? && StartsSession(ParseChannelRequest(p).value.kind)
  }

  /** The `|env|` packets before position `j` are the whole environment, as env requests
      for the channel of the request at `j`. */
  ghost predicate EnvironmentBefore(sent: seq<Sent>, j: nat, env: map<Bytes, Bytes>)
    requires j < |sent| && IsSessionRequest(sent[j].packet)
  {
    var channel := ParseChannelRequest(sent[j].packet).value.channel;
    && |env| <= j
    && (forall i :: j - |env| <= i < j ==> sent[i].injected)
    && (forall k :: k in env ==>
          exists i :: j - |env| <= i < j && ReadEnv(sent[i].packet) == Some((channel, k, env[k])))
  }

  lemma GroupHasEnvironment(env: map<Bytes, Bytes>, order: seq<Bytes>, p: Bytes)
    requires IsSessionRequest(p) && Representable(env) && Enumerates(order, env)
    ensures forall k :: k in order ==> k in env
    ensures var g := Group(env, order, p);
            |g| == |env| + 1 && g[|env|] == Sent(p, false) && EnvironmentBefore(g, |env|, env)
  {
    var channel := ParseChannelRequest(p).value.channel;
    InjectedEntriesAreTheEnvironment(channel, env, order);
    InjectedReadBack(env, channel, EnvPackets(channel, env, order), p);
  }

  lemma InjectedReadBack(env: map<Bytes, Bytes>, channel: nat, writes: seq<Bytes>, p: Bytes)
    requires forall k :: k in env ==> exists i :: 0 <= i < |writes| && ReadEnv(writes[i]) == Some((channel, k, env[k]))
    ensures var g := Injected(writes) + [Sent(p, false)];
            && (forall i :: 0 <= i < |writes| ==> g[i].injected)
            && (forall k :: k in env ==> exists i :: 0 <= i < |writes| && ReadEnv(g[i].packet) == Some((channel, k, env[k])))
  {
    var g := Injected(writes) + [Sent(p, false)];
    assert forall i :: 0 <= i < |writes| ==> g[i] == Sent(writes[i], true);
    forall k | k in env ensures exists i :: 0 <= i < |writes| && ReadEnv(g[i].packet) == Some((channel, k, env[k])) {
      var i :| 0 <= i < |writes| && ReadEnv(writes[i]) == Some((channel, k, env[k]));
      assert g[i].packet == writes[i];
    }
  }

  lemma ShiftEnvironment(front: seq<Sent>, sent: seq<Sent>, j: nat, env: map<Bytes, Bytes>)
    requires j < |sent| && IsSessionRequest(sent[j].packet) && EnvironmentBefore(sent, j, env)
    ensures EnvironmentBefore(front + sent, |front| + j, env)
  {
    var all, n := front + sent, |front|;
    assert forall i :: 0 <= i < |sent| ==> all[n + i] == sent[i];
    var channel := ParseChannelRequest(sent[j].packet).value.channel;
    forall k | k in env
      ensures exists i :: n + j - |env| <= i < n + j && ReadEnv(all[i].packet) == Some((channel, k, env[k]))
    {
      var i :| j - |env| <= i < j && ReadEnv(sent[i].packet) == Some((channel, k, env[k]));
      assert all[n + i] == sent[i];
    }
  }

  lemma ExtendEnvironment(sent: seq<Sent>, back: seq<Sent>, j: nat, env: map<Bytes, Bytes>)
    requires j < |sent| && IsSessionRequest(sent[j].packet) && EnvironmentBefore(sent, j, env)
    ensures EnvironmentBefore(sent + back, j, env)
  {
    var all := sent + back;
    assert forall i :: 0 <= i < |sent| ==> all[i] == sent[i];
    var channel := ParseChannelRequest(sent[j].packet).value.channel;
    forall k | k in env
      ensures exists i :: j - |env| <= i < j && ReadEnv(all[i].packet) == Some((channel, k, env[k]))
    {
      var i :| j - |env| <= i < j && ReadEnv(sent[i].packet) == Some((channel, k, env[k]));
      assert all[i] == sent[i];
    }
  }

  /** Every session request of a stream is directly preceded by the environment. */
  ghost predicate AllFollowEnvironment(sent: seq<Sent>, env: map<Bytes, Bytes>) {
    forall j :: 0 <= j < |sent| && !sent[j].injected && IsSessionRequest(sent[j].packet) ==> EnvironmentBefore(sent, j, env)
  }

  lemma ConcatFollowsEnvironment(head: seq<Sent>, tail: seq<Sent>, env: map<Bytes, Bytes>)
    requires AllFollowEnvironment(head, env) && AllFollowEnvironment(tail, env)
    ensures AllFollowEnvironment(head + tail, env)
  {
    var all := head + tail;
    forall j | 0 <= j < |all| && !all[j].injected && IsSessionRequest(all[j].packet) ensures EnvironmentBefore(all, j, env) {
      if j < |head| {
        assert all[j] == head[j];
        ExtendEnvironment(head, tail, j, env);
      } else {
        assert all[j] == tail[j - |head|];
        ShiftEnvironment(head, tail, j - |head|, env);
      }
    }
  }

  lemma GroupFollowsEnvironment(env: map<Bytes, Bytes>, order: seq<Bytes>, p: Bytes)
    requires Representable(env) && Enumerates(order, env) && forall k :: k in order ==> k in env
    ensures AllFollowEnvironment(Group(env, order, p), env)
  {
    var g := Group(env, order, p);
    assert forall j :: 0 <= j < |g| && !g[j].injected ==> j == |g| - 1 && g[j] == Sent(p, false);
    if IsSessionRequest(p) { GroupHasEnvironment(env, order, p); }
  }

  /** Every session request that reaches the upstream is directly preceded by one env
      request per configured entry, for its own channel. */
  lemma {:induction false} SessionRequestsFollowTheirEnvironment(front: seq<Hook>, cfg: Config, env: map<Bytes, Bytes>,
                                                                 orders: seq<seq<Bytes>>, packets: seq<Bytes>)
    requires |orders| == |packets| && (forall o :: o in orders ==> Enumerates(o, env)) && Representable(env)
    requires forall o, k :: o in orders && k in o ==> k in env
    requires forall h :: h in front ==> Inspects(h)
    ensures AllFollowEnvironment(Pump(front, cfg, env, orders, packets), env)
    decreases |packets|
  {
    if packets != [] {
      var head := PumpOne(front + [FilterHook(cfg), InjectHook(env, orders[0])], packets[0]);
      PumpOneIsGroup(front, cfg, env, orders[0], packets[0]);
      GroupFollowsEnvironment(env, orders[0], packets[0]);
      SessionRequestsFollowTheirEnvironment(front, cfg, env, orders[1..], packets[1..]);
      ConcatFollowsEnvironment(head, Pump(front, cfg, env, orders[1..], packets[1..]), env);
    }
  }
}
