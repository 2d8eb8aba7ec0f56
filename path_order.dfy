/** The order JavaScript's `<` and `>` put on two strings, and the three-way
    comparator the extension sorts discovered projects with. */
module PathOrder {

  /** `a < b` on strings: the first differing character decides, and a proper
      prefix comes before every extension of it. */
  predicate Below(a: string, b: string)
    decreases |a|
  {
    if |b| == 0 then false
    else if |a| == 0 then true
    else if a[0] != b[0] then a[0] < b[0]
    else Below(a[1..], b[1..])
  }

  lemma {:induction false} BelowIrreflexive(a: string)
    ensures !Below(a, a)
    decreases |a|
  {
    if |a| > 0 {
      BelowIrreflexive(a[1..]);
    }
  }

  lemma {:induction false} BelowTransitive(a: string, b: string, c: string)
    requires Below(a, b) && Below(b, c)
    ensures Below(a, c)
    decreases |a|
  {
    if |a| > 0 && a[0] == b[0] && b[0] == c[0] {
      BelowTransitive(a[1..], b[1..], c[1..]);
    }
  }

  lemma BelowAsymmetric(a: string, b: string)
    ensures Below(a, b) ==> !Below(b, a)
  {
  }

  lemma {:induction false} BelowTrichotomy(a: string, b: string)
    ensures Below(a, b) || a == b || Below(b, a)
    decreases |a|
  {
    if |a| > 0 && |b| > 0 && a[0] == b[0] {
      BelowTrichotomy(a[1..], b[1..]);
      assert a == [a[0]] + a[1..];
      assert b == [b[0]] + b[1..];
    }
  }

  /** The comparator passed to `sort` when the projects are posted:
      `a < b ? -1 : a > b ? 1 : 0`. */
  function ComparePaths(a: string, b: string): (r: int)
    ensures r == -1 <==> Below(a, b)
    ensures r == 1 <==> Below(b, a)
    ensures r == 0 <==> a == b
  {
    BelowAsymmetric(a, b);
    BelowTrichotomy(a, b);
    BelowIrreflexive(a);
    if Below(a, b) then -1 else if Below(b, a) then 1 else 0
  }

  /** The comparator is consistent, as `Array.prototype.sort` requires:
      swapping the operands negates the answer, and it is transitive. */
  lemma CompareConsistent(a: string, b: string, c: string)
    ensures ComparePaths(a, b) == -ComparePaths(b, a)
    ensures ComparePaths(a, b) <= 0 && ComparePaths(b, c) <= 0 ==> ComparePaths(a, c) <= 0
  {
    if ComparePaths(a, b) <= 0 && ComparePaths(b, c) <= 0 && Below(c, a) {
      BelowTrichotomy(a, b);
      if Below(a, b) {
        BelowTransitive(c, a, b);
      }
    }
  }
}
