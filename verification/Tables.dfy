/** A registrar connection's bookkeeping: the list of its GUIDs and the forward table
    that maps "address:port" to a GUID.  One function per region that the connection's
    mutex protects. */
module Tables {
  import opened Seqs
  import opened HostPort
  import opened Registry

  datatype Tables = Tables(guids: seq<Guid>, forwards: map<string, Guid>)

  /** Bind address and port a tunnel was registered with, and the connection that did it. */
  datatype Bind = Bind(addr: string, port: nat, owner: ConnId)

  function ForwardKey(addr: string, port: nat): string {
    JoinHostPort(addr, Decimal(port))
  }

  function Dropped(t: Tables, guid: Guid): Tables {
    Tables(Without(t.guids, {guid}), map k | k in t.forwards && t.forwards[k] != guid :: t.forwards[k])
  }

  function Recorded(t: Tables, guid: Guid, addr: string, port: nat): Tables {
    Tables(t.guids + [guid], t.forwards[ForwardKey(addr, port) := guid])
  }

  /** The two pruning loops: the first keeps the GUIDs it finds in `alive`, the
      second, which probes the registry later, the forwards it finds in `stillAlive`. */
  function Pruned(t: Tables, alive: set<Guid>, stillAlive: set<Guid>): Tables {
    Tables(Within(t.guids, alive),
           map k | k in t.forwards && t.forwards[k] in stillAlive :: t.forwards[k])
  }

  /** The forward-table keys that a cancel request names: the exact key for a
      nonzero port, every key that splits to the address for port zero. */
  function CancelKeys(t: Tables, addr: string, port: nat): set<string> {
    if port != 0 then {ForwardKey(addr, port)} * t.forwards.Keys
    else set k | k in t.forwards && SplitsTo(k, addr)
  }

  function CancelGuids(t: Tables, addr: string, port: nat): set<Guid> {
    set k | k in CancelKeys(t, addr, port) :: t.forwards[k]
  }

  function Cancelled(t: Tables, addr: string, port: nat): Tables {
    Tables(Without(t.guids, CancelGuids(t, addr, port)), t.forwards - CancelKeys(t, addr, port))
  }

  // ----- the table invariant -----------------------------------------------

  /** Every forward belongs to a listed GUID and sits under the key of the address and
      port that GUID was bound to; `bound` remembers them for every GUID ever issued. */
  ghost predicate TablesInv(t: Tables, bound: map<Guid, Bind>) {
    && Distinct(t.guids)
    && (forall g :: g in t.guids ==> g in bound)
    && (forall k :: k in t.forwards ==>
          && t.forwards[k] in t.guids
          && k == ForwardKey(bound[t.forwards[k]].addr, bound[t.forwards[k]].port))
  }

  lemma ForwardKeyInjective(a: Bind, b: Bind)
    requires ForwardKey(a.addr, a.port) == ForwardKey(b.addr, b.port)
    ensures a.addr == b.addr && a.port == b.port
  {
    JoinInjective(a.addr, Decimal(a.port), b.addr, Decimal(b.port));
    DecimalInjective(a.port, b.port);
  }

  /** The forward table is one-to-one: a GUID sits under one key, and two GUIDs with a
      forward have different addresses or ports. */
  lemma ForwardsOneToOne(t: Tables, bound: map<Guid, Bind>, k1: string, k2: string)
    requires TablesInv(t, bound) && k1 in t.forwards && k2 in t.forwards
    ensures k1 == k2 <==> t.forwards[k1] == t.forwards[k2]
    ensures k1 == k2 <==> SameBind(bound[t.forwards[k1]], bound[t.forwards[k2]])
  {
  }

  predicate SameBind(a: Bind, b: Bind) {
    a.addr == b.addr && a.port == b.port
  }

  lemma MembersWithout(s: seq<Guid>, gone: set<Guid>)
    ensures Distinct(s) ==> Distinct(Without(s, gone))
    ensures forall g :: g in Without(s, gone) <==> g in s && g !in gone
  {
    if Distinct(s) { FilterDistinct(s, x => x !in gone); }
    forall g ensures g in Without(s, gone) <==> g in s && g !in gone {
      FilterMember(s, x => x !in gone, g);
    }
  }

  lemma SizeWithout(s: seq<Guid>, gone: set<Guid>)
    requires Distinct(s) && forall g :: g in gone ==> g in s
    ensures |Without(s, gone)| + |gone| <= |s|
  {
    MembersWithout(s, gone);
    DistinctFits(Without(s, gone), ToSet(s) - gone);
    SetFits(ToSet(s), s);
    assert ToSet(s) * gone == gone;
    assert |ToSet(s) - gone| == |ToSet(s)| - |ToSet(s) * gone|;
  }

  lemma DroppedKeepsInv(t: Tables, bound: map<Guid, Bind>, guid: Guid)
    requires TablesInv(t, bound)
    ensures TablesInv(Dropped(t, guid), bound)
  {
    MembersWithout(t.guids, {guid});
  }

  lemma PrunedKeepsInv(t: Tables, bound: map<Guid, Bind>, alive: set<Guid>, stillAlive: set<Guid>)
    requires TablesInv(t, bound) && stillAlive <= alive
    ensures TablesInv(Pruned(t, alive, stillAlive), bound)
    ensures forall g :: g in Pruned(t, alive, stillAlive).guids <==> g in t.guids && g in alive
  {
    FilterDistinct(t.guids, x => x in alive);
    forall g ensures g in Pruned(t, alive, stillAlive).guids <==> g in t.guids && g in alive {
      FilterMember(t.guids, x => x in alive, g);
    }
  }

  lemma RecordedKeepsInv(t: Tables, bound: map<Guid, Bind>, guid: Guid, addr: string, port: nat)
    requires TablesInv(t, bound)
    requires guid !in t.guids && guid in bound && bound[guid].addr == addr && bound[guid].port == port
    ensures TablesInv(Recorded(t, guid, addr, port), bound)
  {
  }

  /** A cancel with a port hits exactly the forward bound to that address and port. */
  lemma SpecificCancelExact(t: Tables, bound: map<Guid, Bind>, addr: string, port: nat, k: string)
    requires TablesInv(t, bound) && port != 0 && k in t.forwards
    ensures k in CancelKeys(t, addr, port) <==> bound[t.forwards[k]].addr == addr && bound[t.forwards[k]].port == port
  {
    if k == ForwardKey(addr, port) { ForwardKeyInjective(bound[t.forwards[k]], Bind(addr, port, 0)); }
  }

  /** A cancel without a port hits the forwards bound to exactly that address if the
      address has no brackets, and otherwise to the address with a pair of brackets
      around it, which the key format cannot tell apart. */
  lemma ZeroPortCancelExact(t: Tables, bound: map<Guid, Bind>, addr: string, k: string)
    requires TablesInv(t, bound) && k in t.forwards
    ensures k in CancelKeys(t, addr, 0) <==>
              var a := bound[t.forwards[k]].addr;
              (NoBrackets(a) && a == addr) || Bracketed(a, addr)
  {
    var b := bound[t.forwards[k]];
    SplitUndoesJoin(b.addr, Decimal(b.port));
  }

  /** A registrar that cancels its own forward without a port gets it revoked exactly
      when the address it bound has no brackets. */
  lemma ZeroPortCancelOfOwnAddress(t: Tables, bound: map<Guid, Bind>, k: string)
    requires TablesInv(t, bound) && k in t.forwards
    ensures var a := bound[t.forwards[k]].addr;
            k in CancelKeys(t, a, 0) <==> NoBrackets(a)
  {
    var a := bound[t.forwards[k]].addr;
    ZeroPortCancelExact(t, bound, a, k);
    assert !Bracketed(a, a) by { assert |"[" + a + "]"| == |a| + 2; }
  }

  /** A cancel removes the named forwards and their GUIDs and nothing else. */
  lemma CancelledExact(t: Tables, bound: map<Guid, Bind>, addr: string, port: nat)
    requires TablesInv(t, bound)
    ensures var t' := Cancelled(t, addr, port);
            && TablesInv(t', bound)
            && (forall k :: k in t'.forwards <==> k in t.forwards && k !in CancelKeys(t, addr, port))
            && (forall k :: k in t'.forwards ==> t'.forwards[k] == t.forwards[k])
            && (forall g :: g in t'.guids <==> g in t.guids && g !in CancelGuids(t, addr, port))
  {
    var gone := CancelGuids(t, addr, port);
    MembersWithout(t.guids, gone);
    var t' := Cancelled(t, addr, port);
    forall k | k in t'.forwards ensures t'.forwards[k] in t'.guids {
      forall c | c in CancelKeys(t, addr, port) ensures t.forwards[c] != t.forwards[k] {
        ForwardsOneToOne(t, bound, c, k);
      }
    }
  }
}
