/** Adding up the values of a finite map, and counting in a sequence. */
module Sums {
  ghost function Sum(w: map<nat, nat>): nat
    decreases |w|
  {
    if w == map[] then 0
    else
      var k :| k in w;
      w[k] + Sum(w - {k})
  }

  /** Which key is taken first does not matter. */
  lemma {:induction false} SumTakes(w: map<nat, nat>, k: nat)
    requires k in w
    ensures Sum(w) == w[k] + Sum(w - {k})
    decreases |w|
  {
    var first :| first in w && Sum(w) == w[first] + Sum(w - {first});
    if first != k {
      SumTakes(w - {first}, k);
      SumTakes(w - {k}, first);
      assert w - {first} - {k} == w - {k} - {first};
    }
  }

  lemma SumUpdates(w: map<nat, nat>, k: nat, v: nat)
    ensures Sum(w[k := v]) == Sum(w - {k}) + v
    ensures Sum(w) == Sum(w - {k}) + if k in w then w[k] else 0
  {
    SumTakes(w[k := v], k);
    assert w[k := v] - {k} == w - {k};
    if k in w {
      SumTakes(w, k);
    } else {
      assert w - {k} == w;
    }
  }

  /** How many elements satisfy the predicate. */
  function Tally<T>(s: seq<T>, p: T -> bool): nat {
    if s == [] then 0 else Tally(s[..|s| - 1], p) + if p(s[|s| - 1]) then 1 else 0
  }

  lemma {:induction false} TallyJoin<T>(a: seq<T>, b: seq<T>, p: T -> bool)
    ensures Tally(a + b, p) == Tally(a, p) + Tally(b, p)
    decreases |b|
  {
    if b == [] {
      assert a + b == a;
    } else {
      var all := a + b;
      assert all[..|all| - 1] == a + b[..|b| - 1];
      TallyJoin(a, b[..|b| - 1], p);
    }
  }

  lemma TallyOne<T>(s: seq<T>, x: T, p: T -> bool)
    ensures Tally(s + [x], p) == Tally(s, p) + if p(x) then 1 else 0
  {
    assert (s + [x])[..|s|] == s;
  }
}
