/**
 Client names and service ids. The code only compares and orders them, so a
 natural number stands for each; a "normalised" list is strictly ascending.
 */
module Lists {

  type Name = nat
  type Service = nat

  function Front<T>(s: seq<T>): seq<T>
    requires s != []
  {
    s[..|s| - 1]
  }

  function Last<T>(s: seq<T>): T
    requires s != []
  {
    s[|s| - 1]
  }

  ghost predicate Ascending(s: seq<nat>) {
    |s| <= 1 || (Ascending(Front(s)) && Last(Front(s)) < Last(s))
  }

  lemma TakeNext<T>(s: seq<T>, i: nat)
    requires i < |s|
    ensures s[..i + 1] == s[..i] + [s[i]]
  {
  }

  /** Every element is less than the last, and all are less in turn. */
  lemma {:induction false} AscendingAll(s: seq<nat>)
    requires Ascending(s)
    ensures forall i, j | 0 <= i < j < |s| :: s[i] < s[j]
  {
    if |s| > 1 { AscendingAll(Front(s)); }
  }

  ghost predicate Sorted(s: seq<nat>) {
    forall i, j | 0 <= i < j < |s| :: s[i] <= s[j]
  }

  lemma {:induction false} BelowLast(s: seq<nat>)
    requires Ascending(s) && s != []
    ensures Ascending(Front(s)) && forall x | x in Front(s) :: x < Last(s)
  {
    if |s| > 1 {
      BelowLast(Front(s));
      assert Front(s) == Front(Front(s)) + [Last(Front(s))];
    }
  }

  lemma AscendingSnoc(s: seq<nat>, x: nat)
    requires Ascending(s) && forall y | y in s :: y < x
    ensures Ascending(s + [x])
  {
    assert Front(s + [x]) == s;
    if s != [] { assert Last(s) in s; }
  }

  /** Inserts x into an ascending list, keeping it free of duplicates. */
  function Insert(s: seq<nat>, x: nat): (r: seq<nat>)
    requires Ascending(s)
    ensures Ascending(r)
    ensures forall y :: y in r <==> y == x || y in s
  {
    if s == [] then [x]
    else
      BelowLast(s);
      assert s == Front(s) + [Last(s)];
      if Last(s) < x then
        AscendingSnoc(s, x);
        s + [x]
      else if Last(s) == x then s
      else
        AscendingSnoc(Insert(Front(s), x), Last(s));
        Insert(Front(s), x) + [Last(s)]
  }

  /** The canonical form of a list: sorted, without duplicates. */
  function Norm(s: seq<nat>): (r: seq<nat>)
    ensures Ascending(r)
    ensures forall y :: y in r <==> y in s
  {
    if s == [] then []
    else
      assert s == Front(s) + [Last(s)];
      Insert(Norm(Front(s)), Last(s))
  }

  lemma DropLast(a: seq<nat>)
    requires Ascending(a) && a != []
    ensures Ascending(Front(a))
    ensures forall x :: x in Front(a) <==> x in a && x != Last(a)
    ensures forall x | x in a :: x <= Last(a)
  {
    BelowLast(a);
    assert a == Front(a) + [Last(a)];
  }

  /** Two normalised lists with the same members are the same list. */
  lemma {:induction false} AscendingUnique(a: seq<nat>, b: seq<nat>)
    requires Ascending(a) && Ascending(b)
    requires forall x :: x in a <==> x in b
    ensures a == b
  {
    assert b != [] ==> b[0] in a;
    if a != [] {
      assert a[0] in b;
      DropLast(a);
      DropLast(b);
      assert Last(a) in b && Last(b) in a;
      AscendingUnique(Front(a), Front(b));
      assert a == Front(a) + [Last(a)];
      assert b == Front(b) + [Last(b)];
    }
  }

  lemma NormEqual(a: seq<nat>, b: seq<nat>)
    ensures Norm(a) == Norm(b) <==> (forall x :: x in a <==> x in b)
  {
    if forall x :: x in a <==> x in b {
      AscendingUnique(Norm(a), Norm(b));
    } else {
      var x :| !(x in a <==> x in b);
      assert !(x in Norm(a) <==> x in Norm(b));
    }
  }

  function Members(s: seq<nat>): (r: set<nat>)
    ensures forall x :: x in r <==> x in s
  {
    set x | x in s
  }

  /** The members of s that are in keep, in order. */
  function Keep(s: seq<nat>, keep: set<nat>): (r: seq<nat>)
    ensures forall x :: x in r <==> x in s && x in keep
  {
    if s == [] then []
    else
      assert s == Front(s) + [Last(s)];
      if Last(s) in keep then Keep(Front(s), keep) + [Last(s)] else Keep(Front(s), keep)
  }

  lemma KeepNone(s: seq<nat>)
    ensures Keep(s, {}) == []
  {
    if s != [] { KeepNone(Front(s)); }
  }

  /** The members of s that are not in drop, in order. */
  function Without(s: seq<nat>, drop: set<nat>): (r: seq<nat>)
    ensures forall x :: x in r <==> x in s && x !in drop
  {
    Keep(s, Members(s) - drop)
  }

  /** r is s with some of its elements left out. */
  ghost predicate InOrder(r: seq<nat>, s: seq<nat>)
    decreases |s|
  {
    r == [] || (s != [] && InOrder(if Last(r) == Last(s) then Front(r) else r, Front(s)))
  }

  /** Keeping changes neither the order nor how often a member that is kept occurs. */
  lemma {:induction false} KeepExact(s: seq<nat>, keep: set<nat>)
    ensures InOrder(Keep(s, keep), s)
    ensures forall x | x in keep :: multiset(Keep(s, keep))[x] == multiset(s)[x]
  {
    if s != [] {
      KeepExact(Front(s), keep);
      KeepCounts(s, keep);
      var r := Keep(Front(s), keep);
      if Last(s) in keep {
        assert Front(r + [Last(s)]) == r;
      } else {
        assert r != [] ==> Last(r) in r;
      }
    }
  }

  lemma KeepCounts(s: seq<nat>, keep: set<nat>)
    requires s != [] && forall x | x in keep :: multiset(Keep(Front(s), keep))[x] == multiset(Front(s))[x]
    ensures forall x | x in keep :: multiset(Keep(s, keep))[x] == multiset(s)[x]
  {
    assert s == Front(s) + [Last(s)];
  }

  lemma {:induction false} KeepHead(s: seq<nat>, keep: set<nat>)
    requires s != []
    ensures Keep(s, keep) == (if s[0] in keep then [s[0]] else []) + Keep(s[1..], keep)
  {
    if |s| > 1 {
      KeepHead(Front(s), keep);
      assert Front(s)[1..] == Front(s[1..]);
    }
  }

  lemma {:induction false} KeepAscending(s: seq<nat>, keep: set<nat>)
    requires Ascending(s)
    ensures Ascending(Keep(s, keep))
  {
    if s != [] {
      BelowLast(s);
      KeepAscending(Front(s), keep);
      if Last(s) in keep { AscendingSnoc(Keep(Front(s), keep), Last(s)); }
    }
  }

  /** The elements of s, each where it first occurs. */
  function Firsts(s: seq<nat>): (r: seq<nat>)
    ensures forall x :: x in r <==> x in s
  {
    if s == [] then []
    else
      assert s == Front(s) + [Last(s)];
      if Last(s) in Front(s) then Firsts(Front(s)) else Firsts(Front(s)) + [Last(s)]
  }

  ghost predicate Distinct(s: seq<nat>) {
    forall i, j | 0 <= i < j < |s| :: Differ(s, i, j)
  }

  ghost predicate Differ(s: seq<nat>, i: nat, j: nat)
    requires i < |s| && j < |s|
  {
    s[i] != s[j]
  }

  lemma DistinctTail(s: seq<nat>)
    requires Distinct(s) && s != []
    ensures Distinct(s[1..]) && s[0] !in s[1..]
  {
    forall i, j | 0 <= i < j < |s[1..]| ensures Differ(s[1..], i, j) {
      assert Differ(s, i + 1, j + 1);
    }
    forall j | 0 <= j < |s[1..]| ensures s[1..][j] != s[0] {
      assert Differ(s, 0, j + 1);
    }
  }

  lemma DistinctSnoc(s: seq<nat>, x: nat)
    requires Distinct(s) && x !in s
    ensures Distinct(s + [x])
  {
    forall i, j | 0 <= i < j < |s + [x]| ensures Differ(s + [x], i, j) {
      if j < |s| { assert Differ(s, i, j); }
    }
  }

  lemma {:induction false} FirstsExact(s: seq<nat>)
    ensures Distinct(Firsts(s)) && InOrder(Firsts(s), s)
  {
    if s != [] {
      FirstsExact(Front(s));
      var r := Firsts(Front(s));
      assert Front(r + [Last(s)]) == r;
      if Last(s) !in Front(s) { DistinctSnoc(r, Last(s)); }
      if Last(s) in Front(s) && r != [] && Last(r) == Last(s) {
        InOrderSnoc(r, Front(s), Last(s));
      }
    }
  }

  /** What comes later in s changes nothing before it. */
  lemma {:induction false} FirstsPrefix(s: seq<nat>, k: nat)
    requires k <= |s|
    ensures Firsts(s[..k]) <= Firsts(s)
  {
    if k == |s| {
      assert s[..k] == s;
    } else {
      FirstsPrefix(Front(s), k);
      assert Front(s)[..k] == s[..k];
    }
  }

  lemma {:induction false} InOrderFront(r: seq<nat>, s: seq<nat>)
    requires r != [] && InOrder(r, s)
    ensures InOrder(Front(r), s)
    decreases |s|
  {
    if Last(r) == Last(s) {
      InOrderWeaken(Front(r), s);
    } else {
      InOrderFront(r, Front(s));
      InOrderWeaken(Front(r), s);
    }
  }

  lemma {:induction false} InOrderWeaken(r: seq<nat>, s: seq<nat>)
    requires s != [] && InOrder(r, Front(s))
    ensures InOrder(r, s)
    decreases |s|, 0
  {
    if r != [] && Last(r) == Last(s) { InOrderFront(r, Front(s)); }
  }

  lemma InOrderSnoc(r: seq<nat>, s: seq<nat>, x: nat)
    requires InOrder(r, s)
    ensures InOrder(r, s + [x])
  {
    assert Front(s + [x]) == s;
    InOrderWeaken(r, s + [x]);
  }

  /** b is a with d after it. */
  ghost predicate Appended(a: seq<nat>, b: seq<nat>, d: seq<nat>) {
    b == a + d
  }

  lemma AppendedMore(a: seq<nat>, b: seq<nat>, c: seq<nat>, d: seq<nat>, e: seq<nat>)
    requires Appended(a, b, d) && Appended(b, c, e)
    ensures Appended(a, c, d + e)
  {
  }

  function InsertSorted(s: seq<nat>, x: nat): (r: seq<nat>)
    requires Sorted(s)
    ensures Sorted(r)
    ensures |r| == |s| + 1
    ensures forall y :: y in r <==> y == x || y in s
  {
    if s == [] || s[|s| - 1] <= x then s + [x]
    else
      var last := s[|s| - 1];
      assert s == s[..|s| - 1] + [last];
      var r := InsertSorted(s[..|s| - 1], x);
      assert forall i | 0 <= i < |r| :: r[i] in r && r[i] <= last;
      r + [last]
  }

  /** slices.Sort, as an insertion sort. */
  method Sort(s: seq<nat>) returns (out: seq<nat>)
    ensures Sorted(out)
    ensures |out| == |s| && forall x :: x in out <==> x in s
  {
    out := [];
    for i := 0 to |s|
      invariant Sorted(out)
      invariant |out| == i && forall x :: x in out <==> x in s[..i]
    {
      assert s[..i + 1] == s[..i] + [s[i]];
      out := InsertSorted(out, s[i]);
    }
    assert s[..|s|] == s;
  }

  /** slices.Compact on a sorted list. */
  method Compact(s: seq<nat>) returns (out: seq<nat>)
    requires Sorted(s)
    ensures Ascending(out)
    ensures forall x :: x in out <==> x in s
  {
    out := [];
    for i := 0 to |s|
      invariant Ascending(out) && Members(out) == Members(s[..i])
      invariant if i == 0 then out == [] else out != [] && Last(out) == s[i - 1]
    {
      assert s[..i + 1] == s[..i] + [s[i]];
      if i == 0 || s[i] != s[i - 1] {
        if i > 0 { DropLast(out); }
        AscendingSnoc(out, s[i]);
        out := out + [s[i]];
      }
    }
    assert s[..|s|] == s;
    assert forall x :: x in Members(out) <==> x in Members(s);
  }

  /** normaliseIDs and the sort-and-compact endings of heldOpen and baselineFrom. */
  method Normalise(ids: seq<nat>) returns (out: seq<nat>)
    ensures out == Norm(ids)
  {
    var sorted := Sort(ids);
    out := Compact(sorted);
    AscendingUnique(out, Norm(ids));
  }

  /** slices.BinarySearch, as the membership test it is used for. */
  method BinarySearch(s: seq<nat>, x: nat) returns (found: bool)
    requires Sorted(s)
    ensures found <==> x in s
  {
    var lo, hi := 0, |s|;
    while lo < hi
      invariant 0 <= lo <= hi <= |s|
      invariant forall i | 0 <= i < lo :: s[i] < x
      invariant forall i | hi <= i < |s| :: s[i] > x
    {
      var mid := (lo + hi) / 2;
      if s[mid] == x { return true; }
      if s[mid] < x { lo := mid + 1; } else { hi := mid; }
    }
    return false;
  }
}
