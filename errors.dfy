/** Error aggregation.  An aggregate error is the sequence of the messages
    of its member errors (nested aggregates are flattened into it, as
    go-multierror's Append does); nil is the empty sequence.  Sorting orders
    messages byte-wise, which for the characters of a string is the order of
    their code points. */
module Errors {
  import opened Wrappers

  /** The messages of the failing outcomes, in order. */
  function Collect(outcomes: seq<Option<string>>): seq<string> {
    if outcomes == [] then []
    else
      var last := outcomes[|outcomes| - 1];
      Collect(outcomes[..|outcomes| - 1]) + (if last.Some? then [last.value] else [])
  }

  /** Collect is nil exactly when every outcome passed. */
  lemma {:induction false} CollectEmptyIff(outcomes: seq<Option<string>>)
    ensures Collect(outcomes) == [] <==> forall i :: 0 <= i < |outcomes| ==> outcomes[i].None?
  {
    if outcomes != [] {
      var init := outcomes[..|outcomes| - 1];
      CollectEmptyIff(init);
      assert forall i :: 0 <= i < |init| ==> init[i] == outcomes[i];
    }
  }

  /** Collect keeps exactly one message per failing outcome, in input order:
      its k-th message comes from the idx[k]-th outcome, the indices increase,
      and every failing outcome is among them. */
  lemma {:induction false} CollectIsFailingSubsequence(outcomes: seq<Option<string>>)
    returns (idx: seq<nat>)
    ensures |idx| == |Collect(outcomes)|
    ensures forall k :: 0 <= k < |idx| ==> idx[k] < |outcomes| && outcomes[idx[k]] == Some(Collect(outcomes)[k])
    ensures forall k, l :: 0 <= k < l < |idx| ==> idx[k] < idx[l]
    ensures forall i :: 0 <= i < |outcomes| && outcomes[i].Some? ==> i in idx
  {
    if outcomes == [] {
      idx := [];
    } else {
      var n := |outcomes| - 1;
      var init := outcomes[..n];
      var last := outcomes[n];
      var prev := CollectIsFailingSubsequence(init);
      var c, cp := Collect(outcomes), Collect(init);
      assert c == cp + (if last.Some? then [last.value] else []);
      if last.Some? {
        idx := prev + [n];
      } else {
        idx := prev;
      }
      forall k | 0 <= k < |idx|
        ensures idx[k] < |outcomes| && outcomes[idx[k]] == Some(c[k])
      {
        if k < |prev| {
          assert init[prev[k]] == outcomes[prev[k]];
          assert c[k] == cp[k];
        }
      }
      forall i | 0 <= i < |outcomes| && outcomes[i].Some?
        ensures i in idx
      {
        if i < n {
          assert init[i] == outcomes[i];
          assert i in prev;
        }
      }
    }
  }

  lemma {:induction false} CollectAppend(a: seq<Option<string>>, b: seq<Option<string>>)
    ensures Collect(a + b) == Collect(a) + Collect(b)
  {
    if b == [] {
      assert a + b == a;
    } else {
      var n := |b| - 1;
      assert (a + b)[..|a + b| - 1] == a + b[..n];
      CollectAppend(a, b[..n]);
    }
  }

  /** Go's `<` on strings, read as "a sorts no later than b". */
  predicate Leq(a: string, b: string) {
    if a == [] then true
    else if b == [] then false
    else if a[0] != b[0] then a[0] < b[0]
    else Leq(a[1..], b[1..])
  }

  lemma {:induction false} LeqTotal(a: string, b: string)
    ensures Leq(a, b) || Leq(b, a)
  {
    if a != [] && b != [] && a[0] == b[0] {
      LeqTotal(a[1..], b[1..]);
    }
  }

  lemma {:induction false} LeqAntisymmetric(a: string, b: string)
    requires Leq(a, b) && Leq(b, a)
    ensures a == b
  {
    if a != [] && b != [] {
      LeqAntisymmetric(a[1..], b[1..]);
      assert a == [a[0]] + a[1..];
      assert b == [b[0]] + b[1..];
    }
  }

  lemma {:induction false} LeqTransitive(a: string, b: string, c: string)
    requires Leq(a, b) && Leq(b, c)
    ensures Leq(a, c)
  {
    if a != [] && b != [] && c != [] && a[0] == b[0] && b[0] == c[0] {
      LeqTransitive(a[1..], b[1..], c[1..]);
    }
  }

  predicate Sorted(s: seq<string>) {
    forall i, j :: 0 <= i < j < |s| ==> Leq(s[i], s[j])
  }

  /** Insertion of one message into a sorted sequence. */
  function Insert(x: string, s: seq<string>): (r: seq<string>)
    requires Sorted(s)
    ensures Sorted(r)
    ensures multiset(r) == multiset(s) + multiset{x}
  {
    if s == [] then [x]
    else if Leq(x, s[0]) then
      assert forall j :: 0 <= j < |s| ==> Leq(x, s[j]) by {
        forall j | 0 <= j < |s| ensures Leq(x, s[j]) {
          if j > 0 { LeqTransitive(x, s[0], s[j]); }
        }
      }
      [x] + s
    else
      LeqTotal(x, s[0]);
      assert s == [s[0]] + s[1..];
      var rest := Insert(x, s[1..]);
      LeqAllMembers(s[0], s[1..], rest, x);
      PrependSorted(s[0], rest);
      [s[0]] + rest
  }

  lemma PrependSorted(h: string, t: seq<string>)
    requires Sorted(t)
    requires forall j :: 0 <= j < |t| ==> Leq(h, t[j])
    ensures Sorted([h] + t)
  {
    var u := [h] + t;
    forall i, j | 0 <= i < j < |u| ensures Leq(u[i], u[j]) {
      if i > 0 { assert u[i] == t[i - 1] && u[j] == t[j - 1]; }
    }
  }

  /** A lower bound of t and of x bounds every element of a permutation of t + [x]. */
  lemma LeqAllMembers(h: string, t: seq<string>, u: seq<string>, x: string)
    requires Sorted([h] + t)
    requires Leq(h, x)
    requires multiset(u) == multiset(t) + multiset{x}
    ensures forall j :: 0 <= j < |u| ==> Leq(h, u[j])
  {
    forall j | 0 <= j < |u| ensures Leq(h, u[j]) {
      assert u[j] in multiset(u);
      if u[j] != x {
        assert u[j] in multiset(t);
        var i :| 0 <= i < |t| && t[i] == u[j];
        assert ([h] + t)[0] == h && ([h] + t)[i + 1] == t[i];
        assert Leq(([h] + t)[0], ([h] + t)[i + 1]);
      }
    }
  }

  /** The sort applied to the collected errors: a sorted permutation. */
  function SortErrors(s: seq<string>): (r: seq<string>)
    ensures Sorted(r)
    ensures multiset(r) == multiset(s)
  {
    if s == [] then []
    else
      assert s == [s[0]] + s[1..];
      Insert(s[0], SortErrors(s[1..]))
  }

  /** A sorted permutation is unique, so the sorted aggregate does not depend
      on the order in which the errors were collected. */
  lemma {:induction false} SortedPermutationUnique(a: seq<string>, b: seq<string>)
    requires Sorted(a) && Sorted(b)
    requires multiset(a) == multiset(b)
    ensures a == b
  {
    if a != [] {
      assert |b| == |a| by { assert |multiset(b)| == |multiset(a)|; }
      assert a[0] in multiset(b);
      var k :| 0 <= k < |b| && b[k] == a[0];
      assert b[0] in multiset(a);
      var j :| 0 <= j < |a| && a[j] == b[0];
      if a[0] != b[0] {
        assert Leq(a[0], a[j]) && Leq(b[0], b[k]);
        LeqAntisymmetric(a[0], b[0]);
      }
      assert a == [a[0]] + a[1..];
      assert b == [b[0]] + b[1..];
      assert multiset(a) == multiset{a[0]} + multiset(a[1..]);
      assert multiset(b) == multiset{b[0]} + multiset(b[1..]);
      assert a[0] == b[0];
      assert multiset(a[1..]) == multiset(a) - multiset{a[0]};
      assert multiset(b[1..]) == multiset(b) - multiset{b[0]};
      SortedPermutationUnique(a[1..], b[1..]);
    }
  }
}
