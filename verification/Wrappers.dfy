/** Optional values. */
module Wrappers {
  datatype Option<+T> = None | Some(value: T)
}

/** The dish record that search, recommendation and parsing share. */
module Menu {
  datatype Food = Food(id: int, name: string, restaurantId: int, restaurant: string, price: real)
}

/** Reciprocals, with the products spelled out. */
module Reciprocals {
  lemma Inverse(a: real)
    requires a > 0.0
    ensures 1.0 / a > 0.0 && (1.0 / a) * a == 1.0
  {
  }

  lemma Larger(a: real, b: real, x: real, y: real)
    requires 0.0 < a < b && x * a == 1.0 && y * b == 1.0 && y > 0.0
    ensures x > y
  {
    assert y * (b - a) > 0.0;
    assert y * b - y * a == y * (b - a);
    assert (x - y) * a == x * a - y * a;
    assert (x - y) * a > 0.0;
  }

  /** A larger number has a smaller reciprocal. */
  lemma LargerInverse(a: real, b: real)
    requires 0.0 < a < b
    ensures 1.0 / a > 1.0 / b > 0.0
  {
    Inverse(a);
    Inverse(b);
    Larger(a, b, 1.0 / a, 1.0 / b);
  }
}

/** Python's substring search and replacement. */
module Strings {
  /** The position of the first occurrence of `t` in `s`; past the end when there is none. */
  function Find(s: string, t: string): (i: nat)
    ensures i <= |s| + 1
    ensures i <= |s| ==> i + |t| <= |s| && s[i..i + |t|] == t
  {
    if |t| <= |s| && s[..|t|] == t then 0
    else if s == [] then 1
    else
      var i := Find(s[1..], t);
      assert i <= |s[1..]| ==> s[i + 1..i + 1 + |t|] == s[1..][i..i + |t|];
      i + 1
  }

  predicate Contains(s: string, t: string) { Find(s, t) <= |s| }

  predicate OccursAt(s: string, t: string, i: nat) { i + |t| <= |s| && s[i..i + |t|] == t }

  /** No occurrence comes before the position found, and none is there when none is found. */
  lemma {:induction false} FindIsFirst(s: string, t: string, i: nat)
    requires OccursAt(s, t, i)
    ensures Find(s, t) <= i
  {
    if i == 0 {
      assert s[..|t|] == s[0..0 + |t|];
    } else {
      assert s[1..][i - 1..i - 1 + |t|] == s[i..i + |t|];
      FindIsFirst(s[1..], t, i - 1);
    }
  }

  lemma ContainsIff(s: string, t: string)
    ensures Contains(s, t) <==> exists i: nat :: OccursAt(s, t, i)
  {
    if Contains(s, t) {
      assert OccursAt(s, t, Find(s, t));
    }
    if i: nat :| OccursAt(s, t, i) {
      FindIsFirst(s, t, i);
    }
  }

  /** `s.replace(t, v, 1)` */
  function ReplaceFirst(s: string, t: string, v: string): string {
    var i := Find(s, t);
    if i <= |s| then s[..i] + v + s[i + |t|..] else s
  }
}
