/** Counting the members of a finite set of indices. */
module Sets {

  lemma Least(s: set<nat>) returns (lo: nat)
    requires s != {}
    ensures lo in s && forall i | i in s :: lo <= i
    decreases |s|
  {
    lo :| lo in s;
    if s != {lo} {
      var rest := s - {lo};
      var other := Least(rest);
      assert s == rest + {lo};
      if other < lo { lo := other; }
    }
  }

  lemma {:induction false} RangeSize(s: set<nat>, lo: nat, n: nat)
    requires forall i | i in s :: lo <= i < lo + n
    ensures |s| <= n
  {
    if n == 0 {
      forall i: nat ensures i !in s {}
      assert s == {};
    } else {
      RangeSize(s - {lo + n - 1}, lo, n - 1);
    }
  }

  lemma {:induction false} RangeIs(s: set<nat>, lo: nat, n: nat)
    requires forall i :: i in s <==> lo <= i < lo + n
    ensures |s| == n
  {
    if n == 0 {
      assert s == {};
    } else {
      RangeIs(s - {lo + n - 1}, lo, n - 1);
    }
  }

  /** An injection cannot end in a smaller set. */
  lemma {:induction false} Injects(s: set<nat>, t: set<nat>, f: map<nat, nat>)
    requires f.Keys == s && forall i | i in s :: f[i] in t
    requires forall i, j | i in s && j in s && i != j :: f[i] != f[j]
    ensures |s| <= |t|
    decreases |s|
  {
    if s != {} {
      var i :| i in s;
      Injects(s - {i}, t - {f[i]}, f - {i});
    }
  }
}
