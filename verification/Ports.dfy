/** Choosing a bind port: a fixed port is taken as is, port zero draws pseudo-ports
    from a 32-bit counter shared by all connections. */
module Ports {
  import opened Seqs
  import opened HostPort
  import opened Registry
  import opened Tables

  const WORD: int := 0x1_0000_0000
  const BASE := 40000
  const SPAN := 20000

  /** The counter after the i-th draw from `counter`, with 32-bit wrap-around. */
  function Drawn(counter: nat, i: nat): nat {
    (counter + i) % WORD
  }

  function PseudoPort(n: nat): (p: nat)
    ensures BASE <= p < BASE + SPAN
  {
    BASE + n % SPAN
  }

  predicate Free(forwards: map<string, Guid>, addr: string, port: nat) {
    ForwardKey(addr, port) !in forwards
  }

  /** The retry loop: the first free pseudo-port among the next `tries` draws. */
  function Scan(forwards: map<string, Guid>, addr: string, counter: nat, tries: nat): (Option<nat>, nat)
    decreases tries
  {
    if tries == 0 then (None, counter)
    else
      var n := Drawn(counter, 1);
      if Free(forwards, addr, PseudoPort(n)) then (Some(PseudoPort(n)), n)
      else Scan(forwards, addr, n, tries - 1)
  }

  function Reserve(forwards: map<string, Guid>, addr: string, reqPort: nat, counter: nat): (Option<nat>, nat) {
    if reqPort != 0 then (if Free(forwards, addr, reqPort) then Some(reqPort) else None, counter)
    else Scan(forwards, addr, counter, SPAN)
  }

  lemma {:induction false} ScanOutcome(forwards: map<string, Guid>, addr: string, counter: nat, tries: nat)
    requires counter < WORD
    ensures var (port, after) := Scan(forwards, addr, counter, tries);
            && after < WORD
            && (port.None? <==> NoneFree(forwards, addr, counter, tries))
            && (port.Some? ==> Free(forwards, addr, port.value) && BASE <= port.value < BASE + SPAN)
    decreases tries
  {
    if tries > 0 {
      var n := Drawn(counter, 1);
      ScanOutcome(forwards, addr, n, tries - 1);
      NoneFreeStep(forwards, addr, counter, tries);
    }
  }

  predicate NoneFree(forwards: map<string, Guid>, addr: string, counter: nat, tries: nat) {
    forall i :: 1 <= i <= tries ==> !Free(forwards, addr, PseudoPort(Drawn(counter, i)))
  }

  lemma DrawnTwice(counter: nat, i: nat)
    ensures Drawn(Drawn(counter, 1), i) == Drawn(counter, i + 1)
  {
    var q := (counter + 1) / WORD;
    assert counter + 1 == q * WORD + Drawn(counter, 1);
    assert (counter + 1 + i) == q * WORD + (Drawn(counter, 1) + i);
  }

  lemma NoneFreeStep(forwards: map<string, Guid>, addr: string, counter: nat, tries: nat)
    requires tries > 0
    ensures NoneFree(forwards, addr, counter, tries) <==>
              !Free(forwards, addr, PseudoPort(Drawn(counter, 1))) && NoneFree(forwards, addr, Drawn(counter, 1), tries - 1)
  {
    var n := Drawn(counter, 1);
    forall i: nat ensures Drawn(n, i) == Drawn(counter, i + 1) { DrawnTwice(counter, i); }
    forall i | 2 <= i <= tries
      ensures Free(forwards, addr, PseudoPort(Drawn(counter, i))) == Free(forwards, addr, PseudoPort(Drawn(n, i - 1)))
    {
      assert Drawn(n, i - 1) == Drawn(counter, i);
    }
    if NoneFree(forwards, addr, counter, tries) {
      forall i | 1 <= i <= tries - 1 ensures !Free(forwards, addr, PseudoPort(Drawn(n, i))) {
        assert Drawn(n, i) == Drawn(counter, i + 1);
      }
    }
  }

  /** A reservation, fixed or drawn, never collides and is never port zero. */
  lemma ReserveIsFree(forwards: map<string, Guid>, addr: string, reqPort: nat, counter: nat)
    requires counter < WORD
    ensures var (port, after) := Reserve(forwards, addr, reqPort, counter);
            && after < WORD
            && (port.Some? ==> Free(forwards, addr, port.value) && port.value != 0)
            && (port.Some? ==> if reqPort != 0 then port.value == reqPort else BASE <= port.value < BASE + SPAN)
            && (reqPort != 0 ==> (port.Some? <==> Free(forwards, addr, reqPort)))
  {
    ScanOutcome(forwards, addr, counter, SPAN);
  }

  /** The 20000 draws do not meet the wrap-around of the counter. */
  predicate NoWrap(counter: nat) {
    counter + SPAN < WORD || counter == WORD - 1
  }

  lemma DrawsCoverAllPorts(counter: nat, port: nat) returns (i: nat)
    requires counter < WORD && NoWrap(counter) && BASE <= port < BASE + SPAN
    ensures 1 <= i <= SPAN && PseudoPort(Drawn(counter, i)) == port
  {
    var start := if counter == WORD - 1 then 0 else counter + 1;
    i := 1 + (port - BASE - start) % SPAN;
    assert Drawn(counter, i) == start + (i - 1);
  }

  /** Away from the wrap-around, port zero is served exactly when some pseudo-port is
      free for the address. */
  lemma ReserveServesFreePorts(forwards: map<string, Guid>, addr: string, counter: nat)
    requires counter < WORD && NoWrap(counter)
    ensures Reserve(forwards, addr, 0, counter).0.Some?
            <==> exists p :: BASE <= p < BASE + SPAN && Free(forwards, addr, p)
  {
    ScanOutcome(forwards, addr, counter, SPAN);
    if p :| BASE <= p < BASE + SPAN && Free(forwards, addr, p) {
      var i := DrawsCoverAllPorts(counter, p);
      assert Free(forwards, addr, PseudoPort(Drawn(counter, i)));
    }
  }

  /** A pseudo-port that no draw of a wrapping scan produces, because 2^32 is not a
      multiple of 20000. */
  function MissedPort(counter: nat): nat
    requires counter < WORD && !NoWrap(counter)
  {
    var beforeWrap := WORD - 1 - counter;
    BASE + if beforeWrap <= 7296 then 19999 else 27295 - beforeWrap
  }

  lemma MissedPortIsMissed(counter: nat, i: nat)
    requires counter < WORD && !NoWrap(counter) && 1 <= i <= SPAN
    ensures BASE <= MissedPort(counter) < BASE + SPAN
    ensures PseudoPort(Drawn(counter, i)) != MissedPort(counter)
  {
    var beforeWrap := WORD - 1 - counter;
    if i <= beforeWrap {
      assert Drawn(counter, i) == counter + i;
      assert counter + i == 214748 * SPAN + 7295 - beforeWrap + i;
    } else {
      assert Drawn(counter, i) == i - 1 - beforeWrap;
    }
  }

  /** The forwards of one connection on the first `n` pseudo-ports of an address, save
      one, as they would be recorded one after the other, each under its own GUID. */
  function FullTable(addr: string, missed: nat, n: nat): Tables {
    if n == 0 then Tables([], map[])
    else if BASE + n - 1 == missed then FullTable(addr, missed, n - 1)
    else Recorded(FullTable(addr, missed, n - 1), Decimal(BASE + n - 1), addr, BASE + n - 1)
  }

  function FullBinds(addr: string, n: nat): map<Guid, Bind> {
    if n == 0 then map[] else FullBinds(addr, n - 1)[Decimal(BASE + n - 1) := Bind(addr, BASE + n - 1, 0)]
  }

  lemma {:induction false} BindsAre(addr: string, n: nat, port: nat)
    ensures Decimal(port) in FullBinds(addr, n) <==> BASE <= port < BASE + n
    ensures BASE <= port < BASE + n ==> FullBinds(addr, n)[Decimal(port)] == Bind(addr, port, 0)
  {
    if n > 0 {
      BindsAre(addr, n - 1, port);
      if Decimal(port) == Decimal(BASE + n - 1) { DecimalInjective(port, BASE + n - 1); }
    }
  }

  lemma MoreBinds(t: Tables, bound: map<Guid, Bind>, guid: Guid, bind: Bind)
    requires TablesInv(t, bound) && guid !in bound
    ensures TablesInv(t, bound[guid := bind]) && guid !in t.guids
  {
  }

  /** The handler can hold that table. */
  lemma {:induction false} FullTableIsPossible(addr: string, missed: nat, n: nat)
    ensures TablesInv(FullTable(addr, missed, n), FullBinds(addr, n))
  {
    if n > 0 {
      var port := BASE + n - 1;
      FullTableIsPossible(addr, missed, n - 1);
      BindsAre(addr, n - 1, port);
      MoreBinds(FullTable(addr, missed, n - 1), FullBinds(addr, n - 1), Decimal(port), Bind(addr, port, 0));
      if port != missed {
        RecordedKeepsInv(FullTable(addr, missed, n - 1), FullBinds(addr, n), Decimal(port), addr, port);
      }
    }
  }

  lemma {:induction false} FullTableLeaves(addr: string, missed: nat, n: nat, port: nat)
    ensures Free(FullTable(addr, missed, n).forwards, addr, port) <==> port == missed || !(BASE <= port < BASE + n)
  {
    if n > 0 {
      var last := BASE + n - 1;
      FullTableLeaves(addr, missed, n - 1, port);
      if ForwardKey(addr, port) == ForwardKey(addr, last) { ForwardKeyInjective(Bind(addr, port, 0), Bind(addr, last, 0)); }
    }
  }

  /** Every scan that wraps refuses an address although one of its pseudo-ports is free. */
  lemma WrappingScanMissesAFreePort(addr: string, counter: nat, t: Tables)
    requires counter < WORD && !NoWrap(counter) && t == FullTable(addr, MissedPort(counter), SPAN)
    ensures TablesInv(t, FullBinds(addr, SPAN))
    ensures BASE <= MissedPort(counter) < BASE + SPAN && Free(t.forwards, addr, MissedPort(counter))
    ensures Reserve(t.forwards, addr, 0, counter).0.None?
  {
    var missed := MissedPort(counter);
    FullTableIsPossible(addr, missed, SPAN);
    MissedPortIsMissed(counter, 1);
    FullTableLeaves(addr, missed, SPAN, missed);
    ScanOutcome(t.forwards, addr, counter, SPAN);
    forall i | 1 <= i <= SPAN ensures !Free(t.forwards, addr, PseudoPort(Drawn(counter, i))) {
      MissedPortIsMissed(counter, i);
      FullTableLeaves(addr, missed, SPAN, PseudoPort(Drawn(counter, i)));
    }
  }

  predicate SomePortFree(forwards: map<string, Guid>, addr: string) {
    exists p :: BASE <= p < BASE + SPAN && Free(forwards, addr, p)
  }

  /** Port zero is served whenever one of the pseudo-ports is free, whatever consistent
      tables the connection holds. */
  ghost predicate Reliable(addr: string, counter: nat) {
    forall t, bound :: TablesInv(t, bound) && SomePortFree(t.forwards, addr) ==> Reserve(t.forwards, addr, 0, counter).0.Some?
  }

  lemma ReliableExactly(addr: string, counter: nat)
    requires counter < WORD
    ensures Reliable(addr, counter) <==> NoWrap(counter)
  {
    if NoWrap(counter) {
      forall t: Tables | SomePortFree(t.forwards, addr) ensures Reserve(t.forwards, addr, 0, counter).0.Some? {
        ReserveServesFreePorts(t.forwards, addr, counter);
      }
    } else {
      var t := FullTable(addr, MissedPort(counter), SPAN);
      WrappingScanMissesAFreePort(addr, counter, t);
      assert SomePortFree(t.forwards, addr);
    }
  }
}
