/** The port-forwarding filter of the packet pipe: what it decides about a packet, and
    its two counters, which keep locally made replies in request order. */
module Forwarding {
  import opened Seqs
  import opened Wire

  datatype Method = Transform | Reply

  /** What a hook returns; `out` is None where the Go code returns a nil packet. */
  datatype Verdict = Verdict(action: Method, out: Option<Bytes>)

  datatype Config = Config(disableLocal: bool, disableRemote: bool)

  predicate IsRemoteForwardRequest(kind: Bytes) {
    || kind == Ascii("tcpip-forward") || kind == Ascii("cancel-tcpip-forward")
    || kind == Ascii("streamlocal-forward@openssh.com") || kind == Ascii("cancel-streamlocal-forward@openssh.com")
  }

  predicate IsLocalForwardChannel(kind: Bytes) {
    kind == Ascii("direct-tcpip") || kind == Ascii("direct-streamlocal@openssh.com")
  }

  /** A well-formed global request that the configuration forbids. */
  predicate BlockedRequest(cfg: Config, p: Bytes) {
    var r := ParseGlobalRequest(p);
    r.Some? && cfg.disableRemote && IsRemoteForwardRequest(r.value.kind)
  }

  /** A well-formed channel open that the configuration forbids. */
  predicate BlockedOpen(cfg: Config, p: Bytes) {
    var r := ParseChannelOpen(p);
    r.Some? && cfg.disableLocal && IsLocalForwardChannel(r.value.kind)
  }

  predicate Blocked(cfg: Config, p: Bytes) {
    BlockedRequest(cfg, p) || BlockedOpen(cfg, p)
  }

  predicate WantsReply(p: Bytes) {
    ParseGlobalRequest(p).Some? && ParseGlobalRequest(p).value.wantReply
  }

  function OpenFailure(sender: nat): Bytes {
    [MSG_CHANNEL_OPEN_FAILED] + U32(sender) + U32(1) + String(Ascii("port forwarding is disabled")) + String([])
  }

  /** What `down` returns for a packet, after any wait. */
  function Decide(cfg: Config, packet: Option<Bytes>): Verdict {
    if packet.None? || packet.value == [] then Verdict(Transform, packet)
    else
      var p := packet.value;
      if BlockedRequest(cfg, p) then
        if WantsReply(p) then Verdict(Reply, Some([MSG_REQUEST_FAILURE])) else Verdict(Transform, None)
      else if BlockedOpen(cfg, p) then Verdict(Reply, Some(OpenFailure(ParseChannelOpen(p).value.sender)))
      else Verdict(Transform, packet)
  }

  /** Want-reply global requests seen, and answered. */
  datatype Counters = Counters(seen: nat, replied: nat)

  /** Outcome of the first half of `down`: an answer, or a place in the reply order to
      wait for. */
  datatype Entered = Done(verdict: Verdict) | MustWait(mySeq: nat)

  class ForwardingFilter {
    const cfg: Config
    var seen: nat
    var replied: nat

    ghost function State(): (c: Counters)
      reads this
    {
      Counters(seen, replied)
    }

    constructor (disableLocal: bool, disableRemote: bool)
      ensures cfg == Config(disableLocal, disableRemote)
      ensures State() == Counters(0, 0)
    {
      cfg := Config(disableLocal, disableRemote);
      seen, replied := 0, 0;
    }

    /** `down` up to the point where a blocked request has to wait its turn. */
    method Enter(packet: Option<Bytes>) returns (r: Entered)
      modifies this
      ensures var reserves := packet.Some? && WantsReply(packet.value);
              && State() == (if reserves then Counters(old(seen) + 1, old(replied)) else old(State()))
              && r == (if reserves && BlockedRequest(cfg, packet.value) then MustWait(old(seen))
                       else Done(Decide(cfg, packet)))
    {
      if packet.None? || |packet.value| == 0 { return Done(Verdict(Transform, packet)); }
      var p := packet.value;
      if p[0] == MSG_GLOBAL_REQUEST {
        var request := ParseGlobalRequest(p);
        if request.None? { return Done(Verdict(Transform, packet)); }
        var blocked := cfg.disableRemote && IsRemoteForwardRequest(request.value.kind);
        if !request.value.wantReply {
          return Done(Verdict(Transform, if blocked then None else packet));
        }
        var mySeq := seen;
        seen := seen + 1;
        if !blocked { return Done(Verdict(Transform, packet)); }
        return MustWait(mySeq);
      }
      if p[0] == MSG_CHANNEL_OPEN {
        var open := ParseChannelOpen(p);
        if open.None? || !cfg.disableLocal || !IsLocalForwardChannel(open.value.kind) {
          return Done(Verdict(Transform, packet));
        }
        return Done(Verdict(Reply, Some(OpenFailure(open.value.sender))));
      }
      return Done(Verdict(Transform, packet));
    }

    /** One turn of the wait loop: the answer is released once every earlier request
        has been answered. */
    method TryRelease(mySeq: nat) returns (released: Option<Verdict>)
      modifies this`replied
      ensures released.Some? <==> old(replied) >= mySeq
      ensures released.Some? ==> released.value == Verdict(Reply, Some([MSG_REQUEST_FAILURE]))
      ensures replied == if released.Some? then old(replied) + 1 else old(replied)
    {
      if replied < mySeq { return None; }
      replied := replied + 1;
      return Some(Verdict(Reply, Some([MSG_REQUEST_FAILURE])));
    }

    method Up(packet: Bytes) returns (r: Verdict)
      modifies this`replied
      ensures r == Verdict(Transform, Some(packet))
      ensures replied == old(replied) + (if IsGlobalReply(packet) then 1 else 0)
    {
      if |packet| > 0 && (packet[0] == MSG_REQUEST_SUCCESS || packet[0] == MSG_REQUEST_FAILURE) {
        replied := replied + 1;
      }
      return Verdict(Transform, Some(packet));
    }
  }

  predicate IsGlobalReply(p: Bytes) {
    |p| > 0 && (p[0] == MSG_REQUEST_SUCCESS || p[0] == MSG_REQUEST_FAILURE)
  }
}
