/** Arithmetic progressions: the turns that a round-robin cursor gives to one of its positions.
    Position `off` of a cursor that cycles through `step` positions is chosen in the rounds
    off, off + step, off + 2 * step, ... */
module Progression {

  /** The j-th member of the progression. Defined by addition, so that clients reason linearly. */
  function At(off: nat, step: nat, j: nat): nat {
    if j == 0 then off else At(off, step, j - 1) + step
  }

  lemma {:induction false} Closed(off: nat, step: nat, j: nat)
    ensures At(off, step, j) == off + step * j
  {
    if j == 0 {
    } else {
      Closed(off, step, j - 1);
    }
  }

  lemma {:induction false} Order(off: nat, step: nat, i: nat, j: nat)
    requires step >= 1
    ensures i < j <==> At(off, step, i) < At(off, step, j)
    decreases i + j, i
  {
    if i > j {
      Order(off, step, j, i);
    } else if i < j {
      if i < j - 1 {
        Order(off, step, i, j - 1);
      }
    }
  }

  /** `n` is the number of members of the progression below `bound`. */
  ghost predicate Counts(off: nat, step: nat, bound: nat, n: nat) {
    && (n > 0 ==> At(off, step, n - 1) < bound)
    && bound <= At(off, step, n)
  }

  lemma CountsLess(off: nat, step: nat, bound: nat, n: nat, j: nat)
    requires step >= 1
    requires Counts(off, step, bound, n)
    ensures At(off, step, j) < bound <==> j < n
  {
    Order(off, step, j, n);
    if n > 0 {
      Order(off, step, n - 1, j);
    }
  }

  lemma {:induction false} Shift(off: nat, step: nat, a: nat, b: nat)
    ensures At(off, step, a + b) == At(off, step, a) + step * b
  {
    if b == 0 {
    } else {
      Shift(off, step, a, b - 1);
      assert step * b == step * (b - 1) + step;
    }
  }

  /** A progression of a progression is a progression. */
  lemma {:induction false} Compose(off: nat, stride: nat, o: nat, s: nat, j: nat)
    ensures At(off, stride, At(o, s, j)) == At(off + stride * o, stride * s, j)
  {
    if j == 0 {
      Closed(off, stride, o);
    } else {
      Compose(off, stride, o, s, j - 1);
      Shift(off, stride, At(o, s, j - 1), s);
    }
  }

  lemma MulAtLeast(step: nat, n: int)
    requires n >= 1
    ensures step * n >= step
  {
    assert step * n == step * (n - 1) + step;
    assert step * (n - 1) >= 0;
  }

  lemma QuotientUnique(step: nat, a: int, r: nat, b: int, s: nat)
    requires r < step && s < step
    requires step * a + r == step * b + s
    ensures a == b && r == s
  {
    assert step * (a - b) == step * a - step * b;
    assert step * (b - a) == step * b - step * a;
    if a > b {
      MulAtLeast(step, a - b);
    } else if b > a {
      MulAtLeast(step, b - a);
    }
  }

  lemma Split(off: nat, step: nat, x: nat, n: nat)
    requires off < step
    requires x == step * n + off
    ensures x % step == off && x / step == n
  {
    QuotientUnique(step, x / step, x % step, n, off);
  }

  lemma OnProgression(off: nat, step: nat, x: nat) returns (q: nat)
    requires step >= 1 && x % step == off
    ensures x == At(off, step, q)
  {
    q := x / step;
    Closed(off, step, q);
  }

  /** The number of members below a member is its position. */
  lemma Member(off: nat, step: nat, q: nat, n: nat)
    requires step >= 1 && Counts(off, step, At(off, step, q), n)
    ensures q == n
  {
    CountsLess(off, step, At(off, step, q), n, q);
    if q > n {
      Order(off, step, n, q);
    }
  }

  lemma NoHit(off: nat, step: nat, bound: nat, n: nat)
    requires off < step && Counts(off, step, bound, n) && bound != At(off, step, n)
    ensures bound % step != off
  {
    if bound % step == off {
      var q := OnProgression(off, step, bound);
      Member(off, step, q, n);
    }
  }

  /** The cursor stands on position `off` in round `bound` exactly when `bound` is the next
      member of the progression; the quotient is then the number of earlier turns. */
  lemma Hit(off: nat, step: nat, bound: nat, n: nat)
    requires off < step
    requires Counts(off, step, bound, n)
    ensures bound % step == off <==> bound == At(off, step, n)
    ensures bound == At(off, step, n) ==> bound / step == n
  {
    if bound == At(off, step, n) {
      Closed(off, step, n);
      Split(off, step, bound, n);
    } else if bound % step == off {
      NoHit(off, step, bound, n);
    }
  }

  /** One more round: the cursor advances modulo the number of positions. */
  lemma NextTurn(k: nat, step: nat)
    requires step >= 1
    ensures (k % step + 1) % step == (k + 1) % step
  {
    var q, r := k / step, k % step;
    assert k == step * q + r;
    if r + 1 < step {
      Split(r + 1, step, k + 1, q);
    } else {
      assert step * (q + 1) == step * q + step;
      Split(0, step, k + 1, q + 1);
    }
  }
}
