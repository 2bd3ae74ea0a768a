/** Options, and sums of an integer measure over the rows of a table. */
module Sums {

  datatype Option<+T> = None | Some(value: T)

  function Min(a: int, b: int): (r: int)
    ensures r <= a && r <= b && (r == a || r == b)
  {
    if a <= b then a else b
  }

  function Sum<T>(s: seq<T>, f: T -> int): int {
    if s == [] then 0 else Sum(s[..|s| - 1], f) + f(s[|s| - 1])
  }

  lemma {:induction false} SumAppend<T>(s: seq<T>, t: seq<T>, f: T -> int)
    ensures Sum(s + t, f) == Sum(s, f) + Sum(t, f)
  {
    if t == [] {
      assert s + t == s;
    } else {
      SumAppend(s, t[..|t| - 1], f);
      assert (s + t)[..|s + t| - 1] == s + t[..|t| - 1];
    }
  }

  lemma SumOne<T>(x: T, f: T -> int)
    ensures Sum([x], f) == f(x)
  {
    assert Sum([x][..0], f) == 0;
  }

  lemma SumPush<T>(s: seq<T>, x: T, f: T -> int)
    ensures Sum(s + [x], f) == Sum(s, f) + f(x)
  {
    assert (s + [x])[..|s|] == s;
  }

  lemma {:induction false} SumUpdate<T>(s: seq<T>, i: nat, x: T, f: T -> int)
    requires i < |s|
    ensures Sum(s[i := x], f) == Sum(s, f) - f(s[i]) + f(x)
  {
    if i == |s| - 1 {
      assert s[i := x][..i] == s[..i];
    } else {
      SumUpdate(s[..|s| - 1], i, x, f);
      assert s[i := x][..|s| - 1] == s[..|s| - 1][i := x];
    }
  }

  /** Two tables whose rows measure the same have the same sum. */
  lemma {:induction false} SumSame<T, U>(s: seq<T>, t: seq<U>, f: T -> int, g: U -> int)
    requires |s| == |t|
    requires forall i | 0 <= i < |s| :: f(s[i]) == g(t[i])
    ensures Sum(s, f) == Sum(t, g)
  {
    if s != [] {
      SumSame(s[..|s| - 1], t[..|t| - 1], f, g);
    }
  }

  /** Sums add up row by row. */
  lemma {:induction false} SumAdds<T>(s: seq<T>, f: T -> int, g: T -> int, h: T -> int)
    requires forall i | 0 <= i < |s| :: f(s[i]) == g(s[i]) + h(s[i])
    ensures Sum(s, f) == Sum(s, g) + Sum(s, h)
  {
    if s != [] {
      SumAdds(s[..|s| - 1], f, g, h);
    }
  }

  lemma {:induction false} SumZero<T>(s: seq<T>, f: T -> int)
    requires forall i | 0 <= i < |s| :: f(s[i]) == 0
    ensures Sum(s, f) == 0
  {
    if s != [] {
      SumZero(s[..|s| - 1], f);
    }
  }

  /** A sum of non-negative measures is at least each of its terms. */
  lemma {:induction false} SumAtLeast<T>(s: seq<T>, f: T -> int)
    requires forall i | 0 <= i < |s| :: f(s[i]) >= 0
    ensures Sum(s, f) >= 0
    ensures forall i | 0 <= i < |s| :: f(s[i]) <= Sum(s, f)
  {
    if s != [] {
      var front := s[..|s| - 1];
      assert forall i | 0 <= i < |front| :: front[i] == s[i];
      SumAtLeast(front, f);
    }
  }

  lemma {:induction false} SumMonotone<T>(s: seq<T>, f: T -> int, g: T -> int)
    requires forall i | 0 <= i < |s| :: f(s[i]) <= g(s[i])
    ensures Sum(s, f) <= Sum(s, g)
  {
    if s != [] {
      SumMonotone(s[..|s| - 1], f, g);
    }
  }

  /** Row by row no more, so no more in all. */
  lemma {:induction false} SumBelow<T>(s: seq<T>, t: seq<T>, f: T -> int)
    requires |s| == |t| && forall i | 0 <= i < |s| :: f(s[i]) <= f(t[i])
    ensures Sum(s, f) <= Sum(t, f)
  {
    if s != [] {
      SumBelow(s[..|s| - 1], t[..|t| - 1], f);
    }
  }

  /** When exactly one row can measure anything, it is the whole sum. */
  lemma {:induction false} SumSingle<T>(s: seq<T>, k: nat, f: T -> int)
    requires k < |s|
    requires forall i | 0 <= i < |s| && i != k :: f(s[i]) == 0
    ensures Sum(s, f) == f(s[k])
  {
    if k == |s| - 1 {
      SumZero(s[..|s| - 1], f);
    } else {
      SumSingle(s[..|s| - 1], k, f);
    }
  }
}
