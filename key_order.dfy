/**
 * The ascending key order in which the name index's `level_map` is
 * iterated (the order of `std::string`: character by character, a proper
 * prefix first), and the three iterator operations the scan uses:
 * `begin()`, `last()` and `iter++`.
 */
module KeyOrder {

  /** `a < b` for strings: lexicographic by character code. */
  predicate Less(a: string, b: string)
    decreases |a|
  {
    if |a| == 0 then |b| > 0
    else if |b| == 0 then false
    else if a[0] == b[0] then Less(a[1..], b[1..])
    else a[0] < b[0]
  }

  lemma {:induction false} LessIrreflexive(a: string)
    ensures !Less(a, a)
    decreases |a|
  {
    if |a| > 0 {
      LessIrreflexive(a[1..]);
    }
  }

  lemma {:induction false} LessTransitive(a: string, b: string, c: string)
    requires Less(a, b) && Less(b, c)
    ensures Less(a, c)
    decreases |a|
  {
    if |a| > 0 && a[0] == b[0] && b[0] == c[0] {
      LessTransitive(a[1..], b[1..], c[1..]);
    }
  }

  lemma {:induction false} LessTotal(a: string, b: string)
    requires a != b
    ensures Less(a, b) || Less(b, a)
    decreases |a|
  {
    if |a| > 0 && |b| > 0 && a[0] == b[0] {
      assert a == [a[0]] + a[1..] && b == [b[0]] + b[1..];
      LessTotal(a[1..], b[1..]);
    }
  }

  lemma LessAsymmetric(a: string, b: string)
    requires Less(a, b)
    ensures !Less(b, a)
  {
  }

  /** `m` is the smallest element of `s`. */
  predicate IsLeast(m: string, s: set<string>) {
    m in s && forall x :: x in s && x != m ==> Less(m, x)
  }

  /** `m` is the largest element of `s`. */
  predicate IsGreatest(m: string, s: set<string>) {
    m in s && forall x :: x in s && x != m ==> Less(x, m)
  }

  /** `begin()`: the smallest key of a non-empty index. */
  method Least(s: set<string>) returns (m: string)
    requires s != {}
    ensures IsLeast(m, s)
  {
    m :| m in s;
    var rest := s - {m};
    while rest != {}
      invariant rest <= s && m in s && m !in rest
      invariant forall x :: x in s && x !in rest && x != m ==> Less(m, x)
      decreases rest
    {
      var x :| x in rest;
      if Less(x, m) {
        forall y | y in s && y !in rest && y != m
          ensures Less(x, y)
        {
          LessTransitive(x, m, y);
        }
        m := x;
      } else {
        LessTotal(x, m);
      }
      rest := rest - {x};
    }
  }

  /** `last(key)`: the largest key of a non-empty index. */
  method Greatest(s: set<string>) returns (m: string)
    requires s != {}
    ensures IsGreatest(m, s)
  {
    m :| m in s;
    var rest := s - {m};
    while rest != {}
      invariant rest <= s && m in s && m !in rest
      invariant forall x :: x in s && x !in rest && x != m ==> Less(x, m)
      decreases rest
    {
      var x :| x in rest;
      if Less(m, x) {
        forall y | y in s && y !in rest && y != m
          ensures Less(y, x)
        {
          LessTransitive(y, m, x);
        }
        m := x;
      } else {
        LessTotal(x, m);
      }
      rest := rest - {x};
    }
  }

  /** The keys of `s` strictly above `k`. */
  function Above(s: set<string>, k: string): (r: set<string>)
    ensures forall x :: x in r <==> x in s && Less(k, x)
  {
    set x | x in s && Less(k, x)
  }

  /** The keys of `s` at or above `k`: those a forward walk from `k` has still to visit. */
  function NotBelow(s: set<string>, k: string): (r: set<string>)
    ensures forall x :: x in r <==> x in s && !Less(x, k)
  {
    set x | x in s && !Less(x, k)
  }

  /**
   * `iter++` from key `k`: the next key of the index; it exists when some
   * key lies above `k`.
   */
  method Next(keys: set<string>, k: string) returns (n: string)
    requires Above(keys, k) != {}
    ensures n in keys && Less(k, n)
    ensures forall x :: x in keys && Less(k, x) && x != n ==> Less(n, x)
  {
    n := Least(Above(keys, k));
  }
}
