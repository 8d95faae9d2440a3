/** Strict lexicographic order on strings (by character code), used to show that
    the client's code tables hold no duplicates: a table listed in strictly
    increasing order cannot repeat an entry. */
module Lexicographic {

  /** `a` comes strictly before `b`. */
  predicate Below(a: string, b: string)
  {
    BelowFrom(a, b, 0)
  }

  /** `a` and `b` agree before position `i`, and from there on `a` comes strictly first. */
  predicate BelowFrom(a: string, b: string, i: nat)
    decreases |a| - i
  {
    if i >= |a| then i < |b|
    else if i >= |b| then false
    else a[i] < b[i] || (a[i] == b[i] && BelowFrom(a, b, i + 1))
  }

  lemma {:induction false} BelowFromIrreflexive(a: string, i: nat)
    ensures !BelowFrom(a, a, i)
    decreases |a| - i
  {
    if i < |a| { BelowFromIrreflexive(a, i + 1); }
  }

  lemma {:induction false} BelowFromTransitive(a: string, b: string, c: string, i: nat)
    requires BelowFrom(a, b, i) && BelowFrom(b, c, i)
    ensures BelowFrom(a, c, i)
    decreases |a| - i
  {
    if i < |a| && i < |b| && a[i] == b[i] && b[i] == c[i] {
      BelowFromTransitive(a, b, c, i + 1);
    }
  }

  lemma BelowIrreflexive(a: string)
    ensures !Below(a, a)
  {
    BelowFromIrreflexive(a, 0);
  }

  lemma BelowTransitive(a: string, b: string, c: string)
    requires Below(a, b) && Below(b, c)
    ensures Below(a, c)
  {
    BelowFromTransitive(a, b, c, 0);
  }

  /** Along positions `0 .. n-1` of `at`, each code comes strictly before the next. */
  ghost predicate Increasing<T>(n: nat, at: nat --> T, code: T -> string)
    requires forall i: nat :: i < n ==> at.requires(i)
  {
    forall i: nat :: i + 1 < n ==> Below(code(at(i)), code(at(i + 1)))
  }

  lemma {:induction false} IncreasingBelow<T>(n: nat, at: nat --> T, code: T -> string, i: nat, j: nat)
    requires forall k: nat :: k < n ==> at.requires(k)
    requires Increasing(n, at, code)
    requires i < j < n
    ensures Below(code(at(i)), code(at(j)))
    decreases j - i
  {
    if i + 1 < j {
      IncreasingBelow(n, at, code, i + 1, j);
      BelowTransitive(code(at(i)), code(at(i + 1)), code(at(j)));
    }
  }

  /** Along an increasing listing, two positions with the same code are the same position. */
  lemma IncreasingInjective<T>(n: nat, at: nat --> T, code: T -> string, i: nat, j: nat)
    requires forall k: nat :: k < n ==> at.requires(k)
    requires Increasing(n, at, code)
    requires i < n && j < n
    ensures code(at(i)) == code(at(j)) ==> i == j
  {
    if i < j {
      IncreasingBelow(n, at, code, i, j);
      BelowIrreflexive(code(at(i)));
    } else if j < i {
      IncreasingBelow(n, at, code, j, i);
      BelowIrreflexive(code(at(j)));
    }
  }
}
