/** The env injector: before each shell, exec or subsystem request it sends the upstream
    one env request per configured entry (sections 5.4 and 6.4 of RFC 4254). */
module EnvInject {
  import opened Seqs
  import opened Wire
  import opened Forwarding
  import opened HookChain

  predicate StartsSession(kind: Bytes) {
    kind == Ascii("shell") || kind == Ascii("exec") || kind == Ascii("subsystem")
  }

  /** The injector's own framing check on a channel request. */
  predicate Triggers(p: Bytes) {
    && |p| >= 9 && p[0] == MSG_CHANNEL_REQUEST
    && |p| >= 9 + ReadU32(p[5..9]) + 1
    && StartsSession(p[9..9 + ReadU32(p[5..9])])
  }

  function EnvPacket(channel: nat, name: Bytes, value: Bytes): Bytes {
    [MSG_CHANNEL_REQUEST] + U32(channel) + String(Ascii("env")) + [0] + String(name) + String(value)
  }

  function EnvPackets(channel: nat, env: map<Bytes, Bytes>, order: seq<Bytes>): (r: seq<Bytes>)
    requires forall k :: k in order ==> k in env
    ensures |r| == |order|
  {
    seq(|order|, i requires 0 <= i < |order| => EnvPacket(channel, order[i], env[order[i]]))
  }

  /** An iteration order of the env map. */
  ghost predicate Enumerates(order: seq<Bytes>, env: map<Bytes, Bytes>) {
    Distinct(order) && ToSet(order) == env.Keys
  }

  /** The injector as a hook that iterates over the map in the given order. */
  function Inject(env: map<Bytes, Bytes>, order: seq<Bytes>, packet: Option<Bytes>): HookResult
    requires forall k :: k in order ==> k in env
  {
    var writes := if packet.Some? && Triggers(packet.value)
                  then EnvPackets(ReadU32(packet.value[1..5]), env, order) else [];
    HookResult(Verdict(Transform, packet), false, writes)
  }

  // ----- what the framing check means --------------------------------------

  lemma SliceWord(p: Bytes, i: nat)
    requires i + 4 <= |p|
    ensures ReadU32(p[i..]) == ReadU32(p[i..i + 4])
  {
    assert forall k :: 0 <= k < 4 ==> p[i..][k] == p[i..i + 4][k];
  }

  /** The check accepts exactly the well-formed channel requests of the three types. */
  lemma TriggersMeansSessionRequest(p: Bytes)
    ensures Triggers(p) <==> ParseChannelRequest(p).Some? && StartsSession(ParseChannelRequest(p).value.kind)
    ensures Triggers(p) ==> ReadU32(p[1..5]) == ParseChannelRequest(p).value.channel
  {
    if |p| >= 9 && p[0] == MSG_CHANNEL_REQUEST {
      SliceWord(p, 5);
      SliceWord(p, 1);
      var n := ReadU32(p[5..9]);
      if |p| >= 9 + n {
        assert p[5..][4..4 + n] == p[9..9 + n];
        assert p[5..][4 + n..] == p[9 + n..];
      }
    }
  }

  // ----- what the injected packets say -------------------------------------

  /** Channel, name and value that an upstream server reads from an env request. */
  function ReadEnv(p: Bytes): Option<(nat, Bytes, Bytes)> {
    var r := ParseChannelRequest(p);
    if r.None? || r.value.kind != Ascii("env") || r.value.wantReply then None
    else
      var name := TakeString(r.value.rest);
      if name.None? then None
      else
        var value := TakeString(name.value.1);
        if value.None? || value.value.1 != [] then None
        else Some((r.value.channel, name.value.0, value.value.0))
  }

  lemma EnvHeadReadsBack(channel: nat, name: Bytes, value: Bytes)
    requires channel < WORD
    ensures ParseChannelRequest(EnvPacket(channel, name, value))
            == Some(ChannelRequest(channel, Ascii("env"), false, String(name) + String(value)))
  {
    var p := EnvPacket(channel, name, value);
    var tail := String(name) + String(value);
    var kind: Bytes := Ascii("env");
    var rest: Bytes := [0] + tail;
    assert p[1..] == U32(channel) + (String(kind) + rest);
    ReadU32Encoded(channel, String(kind) + rest);
    assert p[5..] == String(kind) + rest;
    TakeStringEncoded(kind, rest);
    assert rest[1..] == tail;
  }

  lemma EnvPacketReadsBack(channel: nat, name: Bytes, value: Bytes)
    requires channel < WORD && |name| < WORD && |value| < WORD
    ensures ReadEnv(EnvPacket(channel, name, value)) == Some((channel, name, value))
  {
    EnvHeadReadsBack(channel, name, value);
    TakeStringEncoded(name, String(value));
    assert String(value) == String(value) + [];
    TakeStringEncoded(value, []);
  }

  predicate Representable(env: map<Bytes, Bytes>) {
    forall k :: k in env ==> |k| < WORD && |env[k]| < WORD
  }

  /** Whatever the iteration order, the upstream reads exactly the configured entries,
      each once, all addressed to the channel. */
  lemma InjectedEntriesAreTheEnvironment(channel: nat, env: map<Bytes, Bytes>, order: seq<Bytes>)
    requires channel < WORD && Representable(env) && Enumerates(order, env)
    ensures forall k :: k in order ==> k in env
    ensures var sent := EnvPackets(channel, env, order);
            && |sent| == |env|
            && (forall i :: 0 <= i < |sent| ==> ReadEnv(sent[i]) == Some((channel, order[i], env[order[i]])))
            && (forall k :: k in env ==> exists i :: 0 <= i < |sent| && ReadEnv(sent[i]) == Some((channel, k, env[k])))
            && Distinct(sent)
  {
    assert forall k :: k in order <==> k in ToSet(order);
    var sent := EnvPackets(channel, env, order);
    forall i | 0 <= i < |sent| ensures ReadEnv(sent[i]) == Some((channel, order[i], env[order[i]])) {
      EnvPacketReadsBack(channel, order[i], env[order[i]]);
    }
    DistinctFits(order, env.Keys);
    SetFits(env.Keys, order);
    forall k | k in env ensures exists i :: 0 <= i < |sent| && ReadEnv(sent[i]) == Some((channel, k, env[k])) {
      var i :| 0 <= i < |order| && order[i] == k;
      assert ReadEnv(sent[i]) == Some((channel, k, env[k]));
    }
  }

  // ----- the injector as it runs -------------------------------------------

  /** The upstream connection; writes fail once `room` is used up. */
  class Upstream {
    var written: seq<Bytes>
    var room: nat

    constructor (room: nat)
      ensures written == [] && this.room == room
    {
      written := [];
      this.room := room;
    }

    method Write(p: Bytes) returns (ok: bool)
      modifies this
      ensures ok <==> old(room) > 0
      ensures written == if ok then old(written) + [p] else old(written)
      ensures room == if ok then old(room) - 1 else old(room)
    {
      ok := room > 0;
      if ok {
        written := written + [p];
        room := room - 1;
      }
    }
  }

  /** The order in which a loop over the map visits it: any. */
  method RangeOver(env: map<Bytes, Bytes>) returns (order: seq<Bytes>)
    ensures Enumerates(order, env) && forall k :: k in order ==> k in env
  {
    order := [];
    var todo := env.Keys;
    while todo != {}
      invariant todo <= env.Keys
      invariant Distinct(order) && ToSet(order) == env.Keys - todo
      decreases |todo|
    {
      var k :| k in todo;
      ToSetAppend(order, k);
      assert k !in ToSet(order);
      order := order + [k];
      todo := todo - {k};
    }
    assert forall k :: k in order ==> k in ToSet(order);
  }

  /** The loop over the env map.  If a write fails, the writes before it stand. */
  method WriteAll(channel: nat, env: map<Bytes, Bytes>, up: Upstream) returns (failed: bool, order: seq<Bytes>)
    modifies up
    ensures Enumerates(order, env) && forall k :: k in order ==> k in env
    ensures failed <==> |order| > old(up.room)
    ensures up.written == old(up.written)
            + (if failed then EnvPackets(channel, env, order)[..old(up.room)] else EnvPackets(channel, env, order))
  {
    order := RangeOver(env);
    ghost var packets := EnvPackets(channel, env, order);
    for i := 0 to |order|
      invariant i <= old(up.room) && up.room == old(up.room) - i
      invariant up.written == old(up.written) + packets[..i]
    {
      var ok := up.Write(EnvPacket(channel, order[i], env[order[i]]));
      if !ok {
        return true, order;
      }
      assert packets[..i + 1] == packets[..i] + [packets[i]];
    }
    assert packets[..|order|] == packets;
    failed := false;
  }

  /** One packet through the injector; a failed write ends the pipe with an error. */
  method Down(env: map<Bytes, Bytes>, packet: Option<Bytes>, up: Upstream)
      returns (verdict: Verdict, failed: bool, order: seq<Bytes>)
    modifies up
    ensures Enumerates(order, env) && forall k :: k in order ==> k in env
    ensures verdict == Inject(env, order, packet).verdict
    ensures var writes := Inject(env, order, packet).writes;
            && (failed <==> |writes| > old(up.room))
            && up.written == old(up.written) + (if failed then writes[..old(up.room)] else writes)
  {
    verdict, failed := Verdict(Transform, packet), false;
    order := RangeOver(env);
    if packet.None? || |packet.value| < 9 || packet.value[0] != MSG_CHANNEL_REQUEST { return; }
    var p := packet.value;
    var n := ReadU32(p[5..9]);
    if |p| < 9 + n + 1 { return; }
    if !StartsSession(p[9..9 + n]) { return; }
    failed, order := WriteAll(ReadU32(p[1..5]), env, up);
  }
}
