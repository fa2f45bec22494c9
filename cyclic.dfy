/** Cyclic positions over `n` slots, as used by the flashcard deck
    (`(prev + 1) % cards.length`, `(prev - 1 + cards.length) % cards.length`) and the
    slideshow (`(prevIndex + 1) % images.length`). Operands are never negative there, so
    JavaScript's `%` and Dafny's agree. */
module Cyclic {

  /** `(i + 1) % n`: the next slot, wrapping from the last to the first. */
  function Next(i: nat, n: nat): (j: nat)
    requires n > 0
    ensures j < n
    ensures i + 1 < n ==> j == i + 1
    ensures i + 1 == n ==> j == 0
  {
    (i + 1) % n
  }

  /** `(i - 1 + n) % n`: the previous slot, wrapping from the first to the last. */
  function Prev(i: nat, n: nat): (j: nat)
    requires n > 0
    ensures j < n
    ensures 0 < i < n + 1 ==> j == i - 1
    ensures i == 0 ==> j == n - 1
  {
    (i - 1 + n) % n
  }

  /** Going forward then back, or back then forward, returns to the same slot. */
  lemma NextPrevInverse(i: nat, n: nat)
    requires i < n
    ensures Prev(Next(i, n), n) == i
    ensures Next(Prev(i, n), n) == i
  {
  }

  /** The slot reached after `k` steps forward from `i`. */
  function Advance(i: nat, n: nat, k: nat): (j: nat)
    requires n > 0
    ensures i < n ==> j < n
  {
    if k == 0 then i else Next(Advance(i, n, k - 1), n)
  }

  /** `k` steps forward from slot `i` land on `(i + k) % n`. */
  lemma {:induction false} AdvanceIsShift(i: nat, n: nat, k: nat)
    requires i < n
    ensures Advance(i, n, k) == (i + k) % n
  {
    if k == 0 {
      ModOfShift(0, n, i);
    } else {
      AdvanceIsShift(i, n, k - 1);
      NextOfRemainder(i + k - 1, n);
    }
  }

  /** One step forward from `x % n` is `(x + 1) % n`. */
  lemma NextOfRemainder(x: nat, n: nat)
    requires n > 0
    ensures Next(x % n, n) == (x + 1) % n
  {
    var q, r := x / n, x % n;
    assert x == q * n + r;
    if r + 1 < n {
      ModOfShift(q, n, r + 1);
    } else {
      assert x + 1 == (q + 1) * n + 0;
      ModOfShift(q + 1, n, 0);
    }
  }

  /** `(q * n + r) % n == r` for `r < n`. */
  lemma ModOfShift(q: nat, n: nat, r: nat)
    requires r < n
    ensures (q * n + r) % n == r
  {
    var x := q * n + r;
    var q', r' := x / n, x % n;
    assert x == q' * n + r';
    // a different quotient would put `x` in another block of `n` numbers
    if q' < q {
      BlocksAreOrdered(q', q, n);
      assert false;
    } else if q' > q {
      BlocksAreOrdered(q, q', n);
      assert false;
    }
  }

  /** A later block of `n` numbers starts after an earlier one ends. */
  lemma {:induction false} BlocksAreOrdered(a: nat, b: nat, n: nat)
    requires a < b
    ensures a * n + n <= b * n
    decreases b - a
  {
    assert b * n == (b - 1) * n + n;
    if b - 1 > a {
      BlocksAreOrdered(a, b - 1, n);
    }
  }

  /** `n` steps forward bring every slot back to itself. */
  lemma FullCycle(i: nat, n: nat)
    requires i < n
    ensures Advance(i, n, n) == i
  {
    AdvanceIsShift(i, n, n);
    ModOfShift(1, n, i);
  }
}
