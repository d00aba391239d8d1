/** The admin aggregator's refresh: backends are queried in parallel and their answers
    are merged as they come in. */
module Aggregator {
  import opened Seqs

  type Addr = string
  type Id = string
  type ClientId = nat

  /** The answer of one query. */
  datatype Reply = Info(addr: Addr, id: Id, version: string) | QueryFailed(addr: Addr)

  datatype Cache = Cache(addr: Addr, version: string)

  /** The merge state that the query goroutines share under one mutex. */
  datatype Merge = Merge(infos: map<Id, Cache>, dupes: map<Id, seq<Addr>>, failed: seq<Addr>)

  function Add(m: Merge, r: Reply): Merge {
    match r
    case QueryFailed(addr) => m.(failed := m.failed + [addr])
    case Info(addr, id, version) =>
      if id in m.infos then
        m.(dupes := m.dupes[id := (if id in m.dupes then m.dupes[id] else []) + [m.infos[id].addr, addr]],
           infos := m.infos - {id})
      else if id in m.dupes then m.(dupes := m.dupes[id := m.dupes[id] + [addr]])
      else m.(infos := m.infos[id := Cache(addr, version)])
  }

  /** Replies merged in the order in which they arrive. */
  function AddAll(m: Merge, replies: seq<Reply>): Merge
    decreases |replies|
  {
    if replies == [] then m else AddAll(Add(m, replies[0]), replies[1..])
  }

  const EMPTY := Merge(map[], map[], [])

  // ----- what the merge means ----------------------------------------------

  /** The replies that report an id, in arrival order. */
  function Reporting(replies: seq<Reply>, id: Id): (r: seq<Reply>)
    ensures forall x :: x in r ==> x.Info? && x.id == id && x in replies
  {
    if replies == [] then []
    else (if replies[0].Info? && replies[0].id == id then [replies[0]] else []) + Reporting(replies[1..], id)
  }

  function Addrs(replies: seq<Reply>): (a: seq<Addr>)
    ensures |a| == |replies|
  {
    seq(|replies|, i requires 0 <= i < |replies| => replies[i].addr)
  }

  /** The endpoints whose query failed, in arrival order. */
  function Failures(replies: seq<Reply>): seq<Addr> {
    if replies == [] then []
    else (if replies[0].QueryFailed? then [replies[0].addr] else []) + Failures(replies[1..])
  }

  lemma {:induction false} FailuresAreKept(m: Merge, replies: seq<Reply>)
    ensures AddAll(m, replies).failed == m.failed + Failures(replies)
    decreases |replies|
  {
    if replies != [] { FailuresAreKept(Add(m, replies[0]), replies[1..]); }
  }

  /** An id reported once is resolved to its reporter; one reported more often is listed
      as a conflict with every reporter's address. */
  predicate Resolves(m: Merge, id: Id, reports: seq<Reply>)
    requires forall x :: x in reports ==> x.Info? && x.id == id
  {
    if |reports| == 0 then id !in m.infos && id !in m.dupes
    else if |reports| == 1 then
      id in m.infos && m.infos[id] == Cache(reports[0].addr, reports[0].version) && id !in m.dupes
    else id !in m.infos && id in m.dupes && m.dupes[id] == Addrs(reports)
  }

  lemma AddResolves(m: Merge, id: Id, before: seq<Reply>, r: Reply)
    requires Resolves(m, id, Reporting(before, id))
    ensures Resolves(Add(m, r), id, Reporting(before + [r], id))
  {
    ReportingAppend(before, r, id);
    var reports := Reporting(before, id);
    if r.Info? && r.id == id {
      assert Addrs(reports + [r]) == Addrs(reports) + [r.addr];
      if |reports| == 1 { assert Addrs(reports) == [reports[0].addr]; }
    }
  }

  lemma {:induction false} ReportingAppend(a: seq<Reply>, r: Reply, id: Id)
    ensures Reporting(a + [r], id) == Reporting(a, id) + (if r.Info? && r.id == id then [r] else [])
  {
    if a == [] {
      assert a + [r] == [r] && [r][1..] == [];
    } else {
      assert (a + [r])[1..] == a[1..] + [r];
      ReportingAppend(a[1..], r, id);
    }
  }

  lemma {:induction false} AddAllConcat(m: Merge, a: seq<Reply>, b: seq<Reply>)
    ensures AddAll(m, a + b) == AddAll(AddAll(m, a), b)
    decreases |a|
  {
    if a == [] {
      assert a + b == b;
    } else {
      assert (a + b)[1..] == a[1..] + b;
      AddAllConcat(Add(m, a[0]), a[1..], b);
    }
  }

  /** For every order of the replies and every id: resolved exactly when one query
      reported it, listed as a conflict exactly when several did. */
  lemma {:induction false} MergeResolvesEveryId(replies: seq<Reply>, id: Id)
    ensures Resolves(AddAll(EMPTY, replies), id, Reporting(replies, id))
    decreases |replies|
  {
    if replies != [] {
      var n := |replies| - 1;
      var before := replies[..n];
      MergeResolvesEveryId(before, id);
      AddAllConcat(EMPTY, before, [replies[n]]);
      assert replies == before + [replies[n]];
      AddResolves(AddAll(EMPTY, before), id, before, replies[n]);
    }
  }

  lemma {:induction false} ReportingCounts(replies: seq<Reply>, id: Id, r: Reply)
    ensures multiset(Reporting(replies, id))[r] == if r.Info? && r.id == id then multiset(replies)[r] else 0
    decreases |replies|
  {
    if replies != [] {
      ReportingCounts(replies[1..], id, r);
      var first, rest := [replies[0]], replies[1..];
      assert replies == first + rest;
      assert multiset(replies) == multiset(first) + multiset(rest);
      if Reporting(replies, id) != Reporting(rest, id) {
        assert multiset(first + Reporting(rest, id)) == multiset(first) + multiset(Reporting(rest, id));
      }
    }
  }

  lemma SameReports(a: seq<Reply>, b: seq<Reply>, id: Id)
    requires multiset(a) == multiset(b)
    ensures multiset(Reporting(a, id)) == multiset(Reporting(b, id))
  {
    var x, y := multiset(Reporting(a, id)), multiset(Reporting(b, id));
    forall r: Reply ensures x[r] == y[r] {
      ReportingCounts(a, id, r);
      ReportingCounts(b, id, r);
    }
  }

  lemma SameSize(a: seq<Reply>, b: seq<Reply>)
    requires multiset(a) == multiset(b)
    ensures |a| == |b|
  {
    assert |multiset(a)| == |a| && |multiset(b)| == |b|;
  }

  lemma SameAddrs(a: seq<Reply>, b: seq<Reply>)
    requires multiset(a) == multiset(b)
    ensures ToSet(Addrs(a)) <= ToSet(Addrs(b))
  {
    forall x | x in Addrs(a) ensures x in Addrs(b) {
      var i :| 0 <= i < |a| && Addrs(a)[i] == x;
      assert a[i] in multiset(a) && a[i] in multiset(b);
      var j :| 0 <= j < |b| && b[j] == a[i];
      assert Addrs(b)[j] == x;
    }
  }

  /** The answer does not depend on the order in which the replies arrive. */
  lemma OrderDoesNotMatter(a: seq<Reply>, b: seq<Reply>, id: Id)
    requires multiset(a) == multiset(b)
    ensures var m, n := AddAll(EMPTY, a), AddAll(EMPTY, b);
            && (id in m.infos <==> id in n.infos) && (id in m.infos ==> m.infos[id] == n.infos[id])
            && (id in m.dupes <==> id in n.dupes)
            && (id in m.dupes ==> ToSet(m.dupes[id]) == ToSet(n.dupes[id]))
  {
    MergeResolvesEveryId(a, id);
    MergeResolvesEveryId(b, id);
    SameReporting(a, b, id);
  }

  lemma SameReporting(a: seq<Reply>, b: seq<Reply>, id: Id)
    requires multiset(a) == multiset(b)
    ensures var x, y := Reporting(a, id), Reporting(b, id);
            && |x| == |y| && (|x| == 1 ==> x[0] == y[0])
            && ToSet(Addrs(x)) == ToSet(Addrs(y))
  {
    SameReports(a, b, id);
    var x, y := Reporting(a, id), Reporting(b, id);
    SameSize(x, y);
    if |x| == 1 { OnlyReport(x, y); }
    SameAddrs(x, y);
    SameAddrs(y, x);
  }

  lemma OnlyReport(x: seq<Reply>, y: seq<Reply>)
    requires multiset(x) == multiset(y) && |x| == |y| == 1
    ensures x[0] == y[0]
  {
    assert x == [x[0]] && y == [y[0]];
    assert x[0] in multiset(y);
  }

  // ----- when a conflict means two endpoints -------------------------------

  /** Two endpoints with different addresses reported the id. */
  ghost predicate TwoEndpoints(arrived: seq<Reply>, id: Id) {
    exists x, y :: x in Reporting(arrived, id) && y in Reporting(arrived, id) && x.addr != y.addr
  }

  /** Whatever the queried endpoints answer, in whatever order, an id reported more than
      once was reported by two of them. */
  ghost predicate ConflictsMeanTwoEndpoints(queried: seq<Addr>) {
    forall arrived, id :: multiset(Addrs(arrived)) == multiset(queried) && |Reporting(arrived, id)| >= 2
                          ==> TwoEndpoints(arrived, id)
  }

  lemma {:induction false} CountOfDistinct(s: seq<Addr>, x: Addr)
    requires Distinct(s)
    ensures multiset(s)[x] <= 1
  {
    if s != [] {
      assert s == [s[0]] + s[1..];
      assert s[0] !in s[1..];
      CountOfDistinct(s[1..], x);
    }
  }

  lemma CountOfRepeated(s: seq<Addr>, i: nat, j: nat)
    requires i < j < |s| && s[i] == s[j]
    ensures multiset(s)[s[i]] >= 2
  {
    var a, b := s[..j], s[j..];
    assert s == a + b;
    assert multiset(s) == multiset(a) + multiset(b);
    assert a[i] in a && b[0] in b;
  }

  lemma DistinctEitherWay(a: seq<Addr>, b: seq<Addr>)
    requires multiset(a) == multiset(b) && Distinct(b)
    ensures Distinct(a)
  {
    forall i, j | 0 <= i < j < |a| ensures a[i] != a[j] {
      CountOfDistinct(b, a[i]);
      if a[i] == a[j] { CountOfRepeated(a, i, j); }
    }
  }

  lemma {:induction false} DistinctReporters(replies: seq<Reply>, id: Id)
    requires Distinct(Addrs(replies))
    ensures Distinct(Addrs(Reporting(replies, id)))
    decreases |replies|
  {
    if replies != [] {
      var rest := replies[1..];
      assert Addrs(rest) == Addrs(replies)[1..];
      DistinctReporters(rest, id);
      var tail := Reporting(rest, id);
      if replies[0].Info? && replies[0].id == id {
        ReporterIsNew(replies, tail);
        assert Addrs([replies[0]] + tail) == [replies[0].addr] + Addrs(tail);
        DistinctConcat([replies[0].addr], Addrs(tail));
      } else {
        assert Reporting(replies, id) == tail;
      }
    }
  }

  lemma ReporterIsNew(replies: seq<Reply>, tail: seq<Reply>)
    requires replies != [] && Distinct(Addrs(replies)) && forall x :: x in tail ==> x in replies[1..]
    ensures replies[0].addr !in Addrs(tail)
  {
    var rest := replies[1..];
    forall k | 0 <= k < |tail| ensures Addrs(tail)[k] != replies[0].addr {
      assert tail[k] in tail;
      var m :| 0 <= m < |rest| && rest[m] == tail[k];
      assert Addrs(replies)[m + 1] == tail[k].addr && Addrs(replies)[0] == replies[0].addr;
    }
  }

  /** With no endpoint queried twice, an id was reported more than once exactly when two
      endpoints reported it. */
  lemma DistinctMeansTwoEndpoints(queried: seq<Addr>, arrived: seq<Reply>, id: Id)
    requires Distinct(queried) && multiset(Addrs(arrived)) == multiset(queried)
    ensures |Reporting(arrived, id)| >= 2 <==> TwoEndpoints(arrived, id)
  {
    DistinctEitherWay(Addrs(arrived), queried);
    DistinctReporters(arrived, id);
    var r := Reporting(arrived, id);
    if |r| >= 2 {
      assert Addrs(r)[0] != Addrs(r)[1];
      assert r[0] in r && r[1] in r && r[0].addr != r[1].addr;
    }
    TwoEndpointsReportTwice(arrived, id);
  }

  lemma TwoEndpointsReportTwice(arrived: seq<Reply>, id: Id)
    ensures TwoEndpoints(arrived, id) ==> |Reporting(arrived, id)| >= 2
  {
  }

  /** The endpoint listed twice answers both queries, everybody else fails. */
  function OnlyAnswers(queried: seq<Addr>, addr: Addr, id: Id): (r: seq<Reply>)
    ensures |r| == |queried|
  {
    seq(|queried|, i requires 0 <= i < |queried| => if queried[i] == addr then Info(addr, id, "") else QueryFailed(queried[i]))
  }

  lemma {:induction false} AnswersOf(queried: seq<Addr>, addr: Addr, id: Id)
    ensures |Reporting(OnlyAnswers(queried, addr, id), id)| == multiset(queried)[addr]
    ensures forall x :: x in Reporting(OnlyAnswers(queried, addr, id), id) ==> x.addr == addr
    decreases |queried|
  {
    if queried != [] {
      assert queried == [queried[0]] + queried[1..];
      assert OnlyAnswers(queried, addr, id)[1..] == OnlyAnswers(queried[1..], addr, id);
      AnswersOf(queried[1..], addr, id);
    }
  }

  /** Conflicts mean two endpoints if and only if no endpoint is queried twice. */
  lemma ConflictsMeanTwoEndpointsExactly(queried: seq<Addr>)
    ensures ConflictsMeanTwoEndpoints(queried) <==> Distinct(queried)
  {
    if Distinct(queried) {
      forall arrived, id | multiset(Addrs(arrived)) == multiset(queried) && |Reporting(arrived, id)| >= 2
        ensures TwoEndpoints(arrived, id)
      {
        DistinctMeansTwoEndpoints(queried, arrived, id);
      }
    } else {
      var i, j :| 0 <= i < j < |queried| && queried[i] == queried[j];
      var arrived := OnlyAnswers(queried, queried[i], "");
      assert Addrs(arrived) == queried;
      CountOfRepeated(queried, i, j);
      AnswersOf(queried, queried[i], "");
      assert !TwoEndpoints(arrived, "");
    }
  }

  // ----- the aggregator ----------------------------------------------------

  /** The addresses of a conflict without repetitions, by the in-place filter with a
      set of addresses already seen. */
  method Dedupe(addrs: seq<Addr>) returns (uniq: seq<Addr>)
    ensures Distinct(uniq) && ToSet(uniq) == ToSet(addrs)
  {
    uniq := [];
    var seen: set<Addr> := {};
    for i := 0 to |addrs|
      invariant Distinct(uniq)
      invariant seen == ToSet(uniq) == ToSet(addrs[..i])
    {
      assert addrs[..i + 1] == addrs[..i] + [addrs[i]];
      ToSetAppend(addrs[..i], addrs[i]);
      if addrs[i] !in seen {
        ToSetAppend(uniq, addrs[i]);
        seen := seen + {addrs[i]};
        uniq := uniq + [addrs[i]];
      }
    }
    assert addrs[..|addrs|] == addrs;
  }

  /** Endpoints that end up with a client: known ones and those that can be dialled. */
  predicate Reachable(clients: map<Addr, ClientId>, undialable: set<Addr>, addr: Addr) {
    addr in clients || addr !in undialable
  }

  function Queried(clients: map<Addr, ClientId>, undialable: set<Addr>, addrs: seq<Addr>): seq<Addr> {
    Filter(addrs, a => Reachable(clients, undialable, a))
  }

  function Unreached(clients: map<Addr, ClientId>, undialable: set<Addr>, addrs: seq<Addr>): seq<Addr> {
    Filter(addrs, a => !Reachable(clients, undialable, a))
  }

  lemma QueriedAppend(clients: map<Addr, ClientId>, undialable: set<Addr>, addrs: seq<Addr>, addr: Addr)
    ensures Queried(clients, undialable, addrs + [addr])
            == Queried(clients, undialable, addrs) + (if Reachable(clients, undialable, addr) then [addr] else [])
    ensures Unreached(clients, undialable, addrs + [addr])
            == Unreached(clients, undialable, addrs) + (if Reachable(clients, undialable, addr) then [] else [addr])
  {
    FilterConcat(addrs, [addr], a => Reachable(clients, undialable, a));
    FilterConcat(addrs, [addr], a => !Reachable(clients, undialable, a));
  }

  /** The collector loop: replies are merged as they come in. */
  method Collect(arrived: seq<Reply>) returns (m: Merge)
    ensures m == AddAll(EMPTY, arrived) && m.failed == Failures(arrived)
  {
    FailuresAreKept(EMPTY, arrived);
    assert EMPTY.failed + Failures(arrived) == Failures(arrived);
    m := EMPTY;
    for i := 0 to |arrived|
      invariant m == AddAll(EMPTY, arrived[..i])
    {
      AddAllConcat(EMPTY, arrived[..i], [arrived[i]]);
      assert arrived[..i + 1] == arrived[..i] + [arrived[i]];
      m := Add(m, arrived[i]);
    }
    assert arrived[..|arrived|] == arrived;
  }

  /** The conflict report: every duplicated id with its addresses, each once. */
  method Conflicts(dupes: map<Id, seq<Addr>>) returns (conflicts: map<Id, seq<Addr>>)
    ensures conflicts.Keys == dupes.Keys
    ensures forall id :: id in conflicts ==> Distinct(conflicts[id]) && ToSet(conflicts[id]) == ToSet(dupes[id])
  {
    conflicts := map[];
    var todo := dupes.Keys;
    while todo != {}
      invariant todo <= dupes.Keys && conflicts.Keys == dupes.Keys - todo
      invariant forall id :: id in conflicts ==> Distinct(conflicts[id]) && ToSet(conflicts[id]) == ToSet(dupes[id])
      decreases |todo|
    {
      var id :| id in todo;
      var uniq := Dedupe(dupes[id]);
      conflicts := conflicts[id := uniq];
      todo := todo - {id};
    }
  }

  class Aggregator {
    var clients: map<Addr, ClientId>
    var infos: map<Id, Cache>
    var nextClient: nat

    constructor ()
      ensures clients == map[] && infos == map[]
    {
      clients, infos, nextClient := map[], map[], 0;
    }

    /** Drop clients of endpoints that have gone, dial the new ones. */
    method Redial(addrs: seq<Addr>, undialable: set<Addr>) returns (toQuery: seq<Addr>, errs: seq<Addr>)
      modifies this`clients, this`nextClient
      ensures clients.Keys == set a | a in addrs && Reachable(old(clients), undialable, a)
      ensures forall a :: a in clients && a in old(clients) ==> clients[a] == old(clients)[a]
      ensures toQuery == Queried(old(clients), undialable, addrs)
      ensures errs == Unreached(old(clients), undialable, addrs)
    {
      ghost var known := clients;
      clients := map a | a in clients && a in addrs :: clients[a];
      toQuery, errs := [], [];
      for i := 0 to |addrs|
        invariant forall a :: a in clients <==> a in addrs && (a in known || (a in addrs[..i] && a !in undialable))
        invariant forall a :: a in clients && a in known ==> clients[a] == known[a]
        invariant toQuery == Queried(known, undialable, addrs[..i]) && errs == Unreached(known, undialable, addrs[..i])
      {
        assert addrs[..i + 1] == addrs[..i] + [addrs[i]];
        QueriedAppend(known, undialable, addrs[..i], addrs[i]);
        if addrs[i] in clients {
          toQuery := toQuery + [addrs[i]];
        } else if addrs[i] !in undialable {
          clients := clients[addrs[i] := nextClient];
          nextClient := nextClient + 1;
          toQuery := toQuery + [addrs[i]];
        } else {
          errs := errs + [addrs[i]];
        }
      }
      assert addrs[..|addrs|] == addrs;
    }

    /** One refresh.  `arrived` are the replies to the queries in the order in which
        they come in, any order of one reply per query.  `errs` are the endpoints that
        could not be dialled and then those whose query failed. */
    method Refresh(addrs: seq<Addr>, undialable: set<Addr>, arrived: seq<Reply>)
        returns (result: map<Id, Cache>, conflicts: map<Id, seq<Addr>>, errs: seq<Addr>)
      requires multiset(Addrs(arrived)) == multiset(Queried(clients, undialable, addrs))
      modifies this
      ensures result == infos
      ensures forall id :: id in result <==> |Reporting(arrived, id)| == 1
      ensures forall id :: id in result ==> var r := Reporting(arrived, id)[0]; result[id] == Cache(r.addr, r.version)
      ensures forall id :: id in conflicts <==> |Reporting(arrived, id)| >= 2
      ensures forall id :: id in conflicts ==>
                Distinct(conflicts[id]) && ToSet(conflicts[id]) == ToSet(Addrs(Reporting(arrived, id)))
      ensures Distinct(Queried(old(clients), undialable, addrs)) ==>
                forall id :: id in conflicts <==> TwoEndpoints(arrived, id)
      ensures errs == Unreached(old(clients), undialable, addrs) + Failures(arrived)
      ensures clients.Keys == set a | a in addrs && Reachable(old(clients), undialable, a)
      ensures forall r :: r in arrived ==> r.addr in clients
    {
      ghost var known := clients;
      var toQuery, undialled := Redial(addrs, undialable);
      forall r | r in arrived ensures r.addr in clients.Keys {
        QueriedHaveClients(known, undialable, addrs, arrived, r);
      }
      var m := Collect(arrived);
      conflicts := Conflicts(m.dupes);
      infos := m.infos;
      result := infos;
      errs := undialled + m.failed;
      RefreshMeaning(m, arrived, conflicts);
      if Distinct(Queried(known, undialable, addrs)) {
        forall id ensures |Reporting(arrived, id)| >= 2 <==> TwoEndpoints(arrived, id) {
          DistinctMeansTwoEndpoints(Queried(known, undialable, addrs), arrived, id);
        }
      }
    }

    lemma RefreshMeaning(m: Merge, arrived: seq<Reply>, conflicts: map<Id, seq<Addr>>)
      requires m == AddAll(EMPTY, arrived) && conflicts.Keys == m.dupes.Keys
      requires forall id :: id in conflicts ==> ToSet(conflicts[id]) == ToSet(m.dupes[id])
      ensures forall id :: id in m.infos <==> |Reporting(arrived, id)| == 1
      ensures forall id :: id in m.infos ==> var r := Reporting(arrived, id)[0]; m.infos[id] == Cache(r.addr, r.version)
      ensures forall id :: id in conflicts <==> |Reporting(arrived, id)| >= 2
      ensures forall id :: id in conflicts ==> ToSet(conflicts[id]) == ToSet(Addrs(Reporting(arrived, id)))
    {
      forall id ensures Resolves(m, id, Reporting(arrived, id)) { MergeResolvesEveryId(arrived, id); }
    }

    lemma QueriedHaveClients(known: map<Addr, ClientId>, undialable: set<Addr>, addrs: seq<Addr>, arrived: seq<Reply>, r: Reply)
      requires multiset(Addrs(arrived)) == multiset(Queried(known, undialable, addrs)) && r in arrived
      ensures r.addr in addrs && Reachable(known, undialable, r.addr)
    {
      var i :| 0 <= i < |arrived| && arrived[i] == r;
      assert Addrs(arrived)[i] == r.addr;
      assert r.addr in multiset(Addrs(arrived));
      assert r.addr in Queried(known, undialable, addrs);
    }

    method ClientFor(id: Id) returns (client: Option<ClientId>)
      ensures client == if id in infos && infos[id].addr in clients then Some(clients[infos[id].addr]) else None
    {
      if id !in infos { return None; }
      client := if infos[id].addr in clients then Some(clients[infos[id].addr]) else None;
    }
  }

  /** After a refresh an id has a client exactly when one query reported it, and it is the
      client of that reporter. */
  method RefreshThenRoute(a: Aggregator, addrs: seq<Addr>, undialable: set<Addr>, arrived: seq<Reply>, id: Id)
      returns (client: Option<ClientId>)
    requires multiset(Addrs(arrived)) == multiset(Queried(a.clients, undialable, addrs))
    modifies a
    ensures var reports := Reporting(arrived, id);
            && (client.Some? <==> |reports| == 1)
            && (client.Some? ==> reports[0].addr in a.clients && client.value == a.clients[reports[0].addr])
  {
    var result, conflicts, errs := a.Refresh(addrs, undialable, arrived);
    client := a.ClientFor(id);
  }

  /** An endpoint that discovery lists twice conflicts with itself: its id is unroutable
      although no other endpoint reported it. */
  method DuplicateEndpointConflictsWithItself(addr: Addr, id: Id, version: string)
      returns (conflicts: map<Id, seq<Addr>>, client: Option<ClientId>)
    ensures id in conflicts && conflicts[id] == [addr] && client == None
    ensures !TwoEndpoints([Info(addr, id, version), Info(addr, id, version)], id)
  {
    var r := Info(addr, id, version);
    var arrived := [r, r];
    ReportedTwice(r, arrived);
    var a := new Aggregator();
    QueriedTwice(addr);
    var result, errs;
    result, conflicts, errs := a.Refresh([addr, addr], {}, arrived);
    client := a.ClientFor(id);
    OnlyOne(conflicts[id], addr);
  }

  lemma ReportedTwice(r: Reply, arrived: seq<Reply>)
    requires r.Info? && arrived == [r, r]
    ensures Reporting(arrived, r.id) == arrived
    ensures Addrs(arrived) == [r.addr, r.addr] && ToSet(Addrs(arrived)) == {r.addr}
  {
    ReportingAppend([], r, r.id);
    ReportingAppend([r], r, r.id);
    assert [] + [r] == [r] && [r] + [r] == arrived;
  }

  lemma QueriedTwice(addr: Addr)
    ensures Queried(map[], {}, [addr, addr]) == [addr, addr]
  {
    QueriedAppend(map[], {}, [addr], addr);
    QueriedAppend(map[], {}, [], addr);
    assert [] + [addr] == [addr] && [addr] + [addr] == [addr, addr];
  }

  lemma OnlyOne(s: seq<Addr>, addr: Addr)
    requires Distinct(s) && ToSet(s) == {addr}
    ensures s == [addr]
  {
    assert forall x :: x in s <==> x in ToSet(s);
    assert addr in ToSet(s);
    DistinctFits(s, {addr});
  }
}
