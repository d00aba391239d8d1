/** Sequence vocabulary shared by the models: filtering, distinctness, subsequences,
    and the in-place slice filter (`kept := s[:0]; append`) that the Go code uses
    wherever it prunes a slice. */
module Seqs {

  datatype Option<+T> = None | Some(value: T)

  ghost predicate Distinct<T>(s: seq<T>) {
    forall i, j :: 0 <= i < j < |s| ==> s[i] != s[j]
  }

  ghost function ToSet<T>(s: seq<T>): set<T> {
    set x | x in s
  }

  /** The elements of `s` that satisfy `keep`, in order. */
  function Filter<T>(s: seq<T>, keep: T -> bool): (r: seq<T>)
    ensures |r| <= |s|
    ensures forall x :: x in r ==> x in s && keep(x)
  {
    if s == [] then []
    else (if keep(s[0]) then [s[0]] else []) + Filter(s[1..], keep)
  }

  /** `s` without the elements of `gone`, in order. */
  function Without<T(==)>(s: seq<T>, gone: set<T>): (r: seq<T>) {
    Filter(s, x => x !in gone)
  }

  /** `s` restricted to the elements of `alive`, in order. */
  function Within<T(==)>(s: seq<T>, alive: set<T>): (r: seq<T>) {
    Filter(s, x => x in alive)
  }

  lemma OneMoreFiltered<T>(s: seq<T>, x: T, gone: set<T>)
    ensures Without(s + [x], gone) == Without(s, gone) + (if x in gone then [] else [x])
    ensures Within(s + [x], gone) == Within(s, gone) + (if x in gone then [x] else [])
  {
    FilterConcat(s, [x], y => y !in gone);
    FilterConcat(s, [x], y => y in gone);
  }

  lemma {:induction false} FilterMember<T>(s: seq<T>, keep: T -> bool, x: T)
    ensures x in Filter(s, keep) <==> x in s && keep(x)
  {
    if s != [] {
      FilterMember(s[1..], keep, x);
      assert s == [s[0]] + s[1..];
    }
  }

  lemma {:induction false} FilterDistinct<T>(s: seq<T>, keep: T -> bool)
    requires Distinct(s)
    ensures Distinct(Filter(s, keep))
  {
    if s != [] {
      FilterDistinct(s[1..], keep);
      assert s[0] !in s[1..];
    }
  }

  lemma {:induction false} FilterConcat<T>(a: seq<T>, b: seq<T>, keep: T -> bool)
    ensures Filter(a + b, keep) == Filter(a, keep) + Filter(b, keep)
  {
    if a == [] {
      assert a + b == b;
    } else {
      var all, rest := a + b, a[1..] + b;
      assert all[0] == a[0] && all[1..] == rest;
      FilterConcat(a[1..], b, keep);
      var head := if keep(a[0]) then [a[0]] else [];
      assert head + (Filter(a[1..], keep) + Filter(b, keep)) == (head + Filter(a[1..], keep)) + Filter(b, keep);
    }
  }

  lemma DistinctConcat<T>(a: seq<T>, b: seq<T>)
    requires Distinct(a) && Distinct(b) && forall x :: x in a ==> x !in b
    ensures Distinct(a + b)
  {
    var ab := a + b;
    forall i, j | 0 <= i < j < |ab| ensures ab[i] != ab[j] {
      if i < |a| <= j { assert ab[i] in a && ab[j] in b; }
    }
  }

  /** A distinct sequence drawn from a finite set is no longer than the set. */
  lemma {:induction false} DistinctFits<T>(s: seq<T>, inside: set<T>)
    requires Distinct(s)
    requires forall x :: x in s ==> x in inside
    ensures |s| <= |inside|
  {
    if s != [] {
      assert s[0] !in s[1..];
      DistinctFits(s[1..], inside - {s[0]});
    }
  }

  /** A set drawn from a sequence is no larger than the sequence. */
  lemma {:induction false} SetFits<T>(inside: set<T>, s: seq<T>)
    requires forall x :: x in inside ==> x in s
    ensures |inside| <= |s|
  {
    if s == [] {
      assert forall x :: x in inside ==> x in s;
      assert inside == {};
    } else {
      SetFits(inside - {s[0]}, s[1..]);
      assert |inside - {s[0]}| >= |inside| - 1;
    }
  }

  lemma SubsetSize<T>(a: set<T>, b: set<T>)
    requires a <= b
    ensures |a| <= |b|
  {
    if a != {} {
      var x :| x in a;
      SubsetSize(a - {x}, b - {x});
    }
  }

  lemma ToSetAppend<T>(s: seq<T>, x: T)
    ensures ToSet(s + [x]) == ToSet(s) + {x}
  {
  }

  lemma InsertSize<K, V>(m: map<K, V>, k: K, v: V)
    requires k !in m
    ensures |m[k := v]| == |m| + 1
  {
    assert m[k := v].Keys == m.Keys + {k};
  }

  lemma MinusShrinks<K, V>(m: map<K, V>, gone: set<K>)
    ensures |m - gone| <= |m|
  {
    assert (m - gone).Keys <= m.Keys;
    SubsetSize((m - gone).Keys, m.Keys);
  }

  lemma MinusUndoesInsert<K, V>(m: map<K, V>, k: K, v: V)
    requires k !in m
    ensures m[k := v] - {k} == m
    ensures m - {k} == m
  {
  }

  lemma MinusAfterInsert<K, V>(m: map<K, V>, k: K, v: V, gone: set<K>)
    ensures m[k := v] - gone == if k in gone then m - gone else (m - gone)[k := v]
  {
  }

  lemma MinusTwice<K, V>(m: map<K, V>, a: set<K>, b: set<K>)
    ensures m - a - b == m - (a + b) == m - b - a
  {
  }

  /** `small` is obtained from `big` by deleting elements. */
  predicate Subsequence<T(==)>(small: seq<T>, big: seq<T>)
    decreases |big|
  {
    if small == [] then true
    else if big == [] then false
    else if small[0] == big[0] then Subsequence(small[1..], big[1..])
    else Subsequence(small, big[1..])
  }

  /** The Go idiom `kept := a[:0]; for _, x := range a { if keep(x) { kept = append(kept, x) } }`
      on the first `n` cells: reader and writer share the backing array, and the
      writer never overtakes the reader. */
  method FilterInPlace<T>(a: array<T>, n: nat, keep: T -> bool) returns (kept: nat)
    requires n <= a.Length
    modifies a
    ensures kept <= n
    ensures a[..kept] == Filter(old(a[..n]), keep)
    ensures a[n..] == old(a[n..])
  {
    kept := 0;
    for i := 0 to n
      invariant kept <= i
      invariant a[i..] == old(a[i..])
      invariant a[..kept] == Filter(old(a[..i]), keep)
    {
      ghost var before := old(a[..i]);
      FilterConcat(before, [old(a[i])], keep);
      assert old(a[..i + 1]) == before + [old(a[i])];
      assert a[i] == a[i..][0] == old(a[i..])[0] == old(a[i]);
      if keep(a[i]) {
        a[kept] := a[i];
        assert a[..kept + 1] == a[..kept] + [old(a[i])];
        kept := kept + 1;
      }
      assert a[i + 1..] == old(a[i + 1..]) by {
        assert forall k :: i + 1 <= k < a.Length ==> a[k] == a[i + 1..][k - i - 1];
      }
    }
  }
}
