/** The chain of packet hooks: each hook sees what the previous one returned, and the
    chain stops at the first error or reply.  A hook's own upstream writes are part of
    its result. */
module HookChain {
  import opened Seqs
  import opened Wire
  import opened Forwarding

  datatype HookResult = HookResult(verdict: Verdict, failed: bool, writes: seq<Bytes>)

  type Hook = Option<Bytes> -> HookResult

  predicate Stops(r: HookResult) {
    r.failed || r.verdict.action == Reply
  }

  function Before(writes: seq<Bytes>, r: HookResult): HookResult {
    r.(writes := writes + r.writes)
  }

  /** What the chain returns and writes for one packet. */
  function Chain(hooks: seq<Hook>, packet: Option<Bytes>): HookResult {
    if hooks == [] then HookResult(Verdict(Transform, packet), false, [])
    else
      var r := hooks[0](packet);
      if Stops(r) then r else Before(r.writes, Chain(hooks[1..], r.verdict.out))
  }

  /** Chains compose: a longer chain is the first part, and, unless that stopped, the
      second part applied to its output. */
  lemma {:induction false} ChainComposes(a: seq<Hook>, b: seq<Hook>, packet: Option<Bytes>)
    ensures var first := Chain(a, packet);
            Chain(a + b, packet) == if Stops(first) then first else Before(first.writes, Chain(b, first.verdict.out))
  {
    if a == [] {
      assert a + b == b;
      assert [] + Chain(b, packet).writes == Chain(b, packet).writes;
    } else {
      assert (a + b)[1..] == a[1..] + b;
      var r := a[0](packet);
      ChainComposes(a[1..], b, r.verdict.out);
      var rest := Chain(a[1..], r.verdict.out);
      if !Stops(r) && !Stops(rest) {
        var last := Chain(b, rest.verdict.out);
        assert r.writes + (rest.writes + last.writes) == (r.writes + rest.writes) + last.writes;
      }
    }
  }

  /** A hook that only looks. */
  ghost predicate Inspects(h: Hook) {
    forall p :: h(p) == HookResult(Verdict(Transform, p), false, [])
  }

  lemma {:induction false} InspectorsDoNotMatter(a: seq<Hook>, b: seq<Hook>, packet: Option<Bytes>)
    requires forall h :: h in a ==> Inspects(h)
    ensures Chain(a + b, packet) == Chain(b, packet)
  {
    if a == [] {
      assert a + b == b;
    } else {
      assert (a + b)[1..] == a[1..] + b;
      assert Inspects(a[0]);
      InspectorsDoNotMatter(a[1..], b, packet);
      assert [] + Chain(b, packet).writes == Chain(b, packet).writes;
    }
  }

  class Hooks {
    var hooks: seq<Hook>

    constructor ()
      ensures hooks == []
    {
      hooks := [];
    }

    method Append(hook: Option<Hook>)
      modifies this
      ensures hooks == old(hooks) + (if hook.Some? then [hook.value] else [])
    {
      if hook.Some? { hooks := hooks + [hook.value]; }
    }

    /** The loop of the installed hook function. */
    method Call(packet: Option<Bytes>) returns (r: HookResult)
      ensures r == Chain(hooks, packet)
    {
      r := HookResult(Verdict(Transform, packet), false, []);
      for i := 0 to |hooks|
        invariant !Stops(r)
        invariant Chain(hooks, packet) == Before(r.writes, Chain(hooks[i..], r.verdict.out))
      {
        var next := hooks[i](r.verdict.out);
        assert hooks[i..][1..] == hooks[i + 1..];
        ghost var tail := Chain(hooks[i + 1..], next.verdict.out);
        assert r.writes + (next.writes + tail.writes) == (r.writes + next.writes) + tail.writes;
        r := Before(r.writes, next);
        if Stops(r) { return; }
      }
      assert r.writes + [] == r.writes;
    }
  }
}
