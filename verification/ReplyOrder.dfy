/** The two goroutines of a pipe around the forwarding filter, and the upstream server:
    in every interleaving the client gets the replies to its global requests in
    request order (section 4 of RFC 4254).

    A reply counts as released when the filter counts it.  The upstream answers each
    want-reply request it receives once, in order. */
module ReplyOrder {
  import opened Seqs
  import opened Wire
  import opened Forwarding

  /** The downstream-to-upstream goroutine: idle, holding a request it has numbered and
      will pass on, or waiting with a blocked request. */
  datatype Down = Idle | Passing(n: nat) | Waiting(n: nat)

  datatype Origin = Upstream | Local

  /** `toUp` and `fromUp` are the numbers of the requests and replies in flight;
      `asked` records, per numbered request, whether it was blocked; `released` the
      replies handed to the client, with the request each answers. */
  datatype Sys = Sys(
    cfg: Config,
    counters: Counters,
    down: Down,
    toUp: seq<nat>,
    fromUp: seq<nat>,
    asked: seq<bool>,
    released: seq<(nat, Origin)>)

  datatype Step =
    | Packet(p: Bytes)       // the client sends a packet, `down` numbers it if it wants a reply
    | HandOver               // a numbered request goes to the upstream
    | TryRelease             // one turn of the wait loop in `down`
    | Answer                 // the upstream answers the oldest request it has
    | UpReply                // `up` passes a reply to the client

  /** The `up` hook is installed only when remote forwarding is disabled. */
  predicate UpInstalled(cfg: Config) {
    cfg.disableRemote
  }

  function Next(s: Sys, step: Step): Sys {
    match step
    case Packet(p) =>
      if s.down.Idle? && WantsReply(p) then
        var n, blocked := s.counters.seen, BlockedRequest(s.cfg, p);
        s.(counters := s.counters.(seen := n + 1),
           asked := s.asked + [blocked],
           down := if blocked then Waiting(n) else Passing(n))
      else s
    case HandOver => if s.down.Passing? then s.(down := Idle, toUp := s.toUp + [s.down.n]) else s
    case TryRelease =>
      if s.down.Waiting? && s.counters.replied >= s.down.n then
        s.(counters := s.counters.(replied := s.counters.replied + 1),
           released := s.released + [(s.down.n, Local)],
           down := Idle)
      else s
    case Answer =>
      if s.toUp != [] then s.(toUp := s.toUp[1..], fromUp := s.fromUp + [s.toUp[0]]) else s
    case UpReply =>
      if s.fromUp != [] then
        s.(fromUp := s.fromUp[1..],
           released := s.released + [(s.fromUp[0], Upstream)],
           counters := if UpInstalled(s.cfg) then s.counters.(replied := s.counters.replied + 1) else s.counters)
      else s
  }

  function Run(s: Sys, steps: seq<Step>): Sys
    decreases |steps|
  {
    if steps == [] then s else Run(Next(s, steps[0]), steps[1..])
  }

  function Init(cfg: Config): Sys {
    Sys(cfg, Counters(0, 0), Idle, [], [], [], [])
  }

  // ----- the invariant -----------------------------------------------------

  function Range(a: nat, b: nat): seq<nat>
    requires a <= b
  {
    seq(b - a, i requires 0 <= i < b - a => a + i)
  }

  /** Requests passed on, or about to be, and not answered yet, oldest first. */
  function Unanswered(s: Sys): seq<nat> {
    s.fromUp + s.toUp + (if s.down.Passing? then [s.down.n] else [])
  }

  function HoldsBlocked(s: Sys): nat {
    if s.down.Waiting? then 1 else 0
  }

  predicate Inv(s: Sys) {
    var r := |s.released|;
    && |s.asked| == s.counters.seen
    && s.counters.replied == (if UpInstalled(s.cfg) then r else 0)
    && r + HoldsBlocked(s) <= s.counters.seen
    && Unanswered(s) == Range(r, s.counters.seen - HoldsBlocked(s))
    && (s.down.Waiting? ==> s.down.n == s.counters.seen - 1)
    && (forall k :: 0 <= k < r ==> s.released[k].0 == k && (s.released[k].1.Local? <==> s.asked[k]))
    && (forall k :: r <= k < |s.asked| ==> (s.asked[k] <==> s.down.Waiting? && k == s.down.n))
    && (!UpInstalled(s.cfg) ==> !s.down.Waiting?)
  }

  lemma RangeTail(a: nat, b: nat)
    requires a < b
    ensures Range(a, b)[0] == a && Range(a, b)[1..] == Range(a + 1, b)
    ensures Range(a, b) == Range(a, b - 1) + [b - 1]
  {
  }

  lemma PacketKeepsInv(s: Sys, p: Bytes)
    requires Inv(s) && s.down.Idle? && WantsReply(p)
    ensures Inv(Next(s, Packet(p)))
  {
    RangeTail(|s.released|, s.counters.seen + 1);
    assert s.fromUp + s.toUp + [] == s.fromUp + s.toUp;
  }

  lemma UpReplyKeepsInv(s: Sys)
    requires Inv(s) && s.fromUp != []
    ensures Inv(Next(s, UpReply))
  {
    var s' := Next(s, UpReply);
    var r, hi := |s.released|, s.counters.seen - HoldsBlocked(s);
    assert Unanswered(s)[0] == s.fromUp[0];
    assert Unanswered(s') == Unanswered(s)[1..];
    assert |Unanswered(s)| == hi - r;
    RangeTail(r, hi);
  }

  lemma AnswerKeepsInv(s: Sys)
    requires Inv(s) && s.toUp != []
    ensures Inv(Next(s, Answer))
  {
    assert s.fromUp + s.toUp == (s.fromUp + [s.toUp[0]]) + s.toUp[1..];
  }

  lemma ReleaseKeepsInv(s: Sys)
    requires Inv(s) && s.down.Waiting? && s.counters.replied >= s.down.n
    ensures Inv(Next(s, TryRelease))
  {
    assert Unanswered(Next(s, TryRelease)) == Unanswered(s) == [];
  }

  lemma NextKeepsInv(s: Sys, step: Step)
    requires Inv(s)
    ensures Inv(Next(s, step))
  {
    if Next(s, step) != s {
      match step
      case Packet(p) => PacketKeepsInv(s, p);
      case HandOver => assert s.fromUp + s.toUp + [s.down.n] == s.fromUp + (s.toUp + [s.down.n]) + [];
      case TryRelease => ReleaseKeepsInv(s);
      case Answer => AnswerKeepsInv(s);
      case UpReply => UpReplyKeepsInv(s);
    }
  }

  lemma {:induction false} RunKeepsInv(s: Sys, steps: seq<Step>)
    requires Inv(s)
    ensures Inv(Run(s, steps))
    decreases |steps|
  {
    if steps != [] {
      NextKeepsInv(s, steps[0]);
      RunKeepsInv(Next(s, steps[0]), steps[1..]);
    }
  }

  // ----- the theorems ------------------------------------------------------

  /** In every interleaving, the k-th reply the client gets answers its k-th want-reply
      request, made locally exactly if that request was blocked; and the requests
      counted but not yet answered are those passed on and unanswered, plus the one
      `down` is waiting with. */
  lemma RepliesInRequestOrder(cfg: Config, steps: seq<Step>)
    ensures var s := Run(Init(cfg), steps);
            && |s.released| <= |s.asked|
            && (forall k :: 0 <= k < |s.released| ==>
                  s.released[k].0 == k && (s.released[k].1 == Local <==> s.asked[k]))
            && (cfg.disableRemote ==>
                  s.counters.seen - s.counters.replied == |Unanswered(s)| + HoldsBlocked(s))
  {
    RunKeepsInv(Init(cfg), steps);
    RunKeepsConfig(Init(cfg), steps);
  }

  lemma {:induction false} RunKeepsConfig(s: Sys, steps: seq<Step>)
    ensures Run(s, steps).cfg == s.cfg
    decreases |steps|
  {
    if steps != [] { RunKeepsConfig(Next(s, steps[0]), steps[1..]); }
  }

  /** Where `up` is not installed, `down` never waits. */
  lemma NoWaitWithoutUp(cfg: Config, steps: seq<Step>)
    requires !cfg.disableRemote
    ensures !Run(Init(cfg), steps).down.Waiting?
  {
    RunKeepsInv(Init(cfg), steps);
    RunKeepsConfig(Init(cfg), steps);
  }

  /** While `down` waits, its distance to release is the number of earlier requests that
      the upstream still owes an answer; it is positive exactly while release is not
      possible. */
  lemma WaitsForUpstreamOnly(cfg: Config, steps: seq<Step>)
    requires Run(Init(cfg), steps).down.Waiting?
    ensures var s := Run(Init(cfg), steps);
            && s.down.n - s.counters.replied == |s.fromUp| + |s.toUp|
            && (Next(s, TryRelease) == s <==> s.fromUp + s.toUp != [])
  {
    RunKeepsInv(Init(cfg), steps);
    var s := Run(Init(cfg), steps);
    assert Unanswered(s) == s.fromUp + s.toUp;
  }

  /** Every step of a waiting state leaves it waiting with the same distance, except a
      reply through `up`, which brings it one closer, and the release itself. */
  lemma DistanceFallsWithEachReply(s: Sys, step: Step)
    requires Inv(s) && s.down.Waiting?
    ensures var s' := Next(s, step);
            if s'.down.Waiting? then
              && s'.down == s.down
              && s'.counters.replied == s.counters.replied + (if step == UpReply && s.fromUp != [] then 1 else 0)
            else step == TryRelease && s.counters.replied == s.down.n
  {
  }

  /** The steps by which the upstream side works off what it owes. */
  function Drain(owed: nat): seq<Step> {
    if owed == 0 then [] else [Answer, UpReply] + Drain(owed - 1)
  }

  /** A waiting `down` is never stuck: once the upstream has answered what it owes, the
      local reply goes out. */
  lemma {:induction false} WaitEnds(s: Sys)
    requires Inv(s) && s.down.Waiting?
    ensures var s' := Run(s, Drain(|s.fromUp| + |s.toUp|) + [TryRelease]);
            s'.down.Idle? && s'.released != [] && s'.released[|s'.released| - 1] == (s.down.n, Local)
    decreases |s.fromUp| + |s.toUp|
  {
    var owed := |s.fromUp| + |s.toUp|;
    var steps := Drain(owed) + [TryRelease];
    assert |Unanswered(s)| == owed && owed == s.down.n - |s.released|;
    if owed == 0 {
      assert steps == [TryRelease];
      assert Run(s, steps) == Next(s, TryRelease);
    } else {
      var s1 := Next(s, Answer);
      var s2 := Next(s1, UpReply);
      var rest := Drain(owed - 1) + [TryRelease];
      assert steps == [Answer, UpReply] + rest;
      assert steps[1..] == [UpReply] + rest && ([UpReply] + rest)[1..] == rest;
      NextKeepsInv(s, Answer);
      NextKeepsInv(s1, UpReply);
      WaitEnds(s2);
    }
  }
}
