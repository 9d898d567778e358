/**
 * Wrap-around index arithmetic shared by the carousel and by the lightboxes of
 * the home page and the DadTrack page.
 *
 * The source computes every step with JavaScript's `%`, whose remainder
 * truncates toward zero (its sign follows the dividend), while Dafny's `%` is
 * Euclidean. `JsRem` writes the JavaScript operator out; `Succ` and `Pred` are
 * the independent reference definitions of "one step forward / back on a ring
 * of n slots" that the handlers are proved against.
 */
module Navigation {

  /** A list length that the source never lets be zero. */
  type Positive = n: nat | n > 0 witness 1

  /** JavaScript's `a % n` for a positive divisor. */
  function JsRem(a: int, n: Positive): (r: int)
    ensures a >= 0 ==> 0 <= r < n
    ensures a < 0 ==> -(n as int) < r <= 0
  {
    if a >= 0 then a % n else -((-a) % n)
  }

  /** An index is usable for a list of n entries. */
  predicate InRange(i: int, n: nat) {
    0 <= i < n
  }

  /** One step forward on a ring of n slots: the last slot wraps to the first. */
  function Succ(i: int, n: Positive): int {
    if i == n - 1 then 0 else i + 1
  }

  /** One step back on a ring of n slots: the first slot wraps to the last. */
  function Pred(i: int, n: Positive): int {
    if i == 0 then n - 1 else i - 1
  }

  /** `k` steps forward from `i`. */
  function Advance(i: int, k: nat, n: Positive): (r: int)
    requires InRange(i, n)
    ensures InRange(r, n)
  {
    if k == 0 then i else Succ(Advance(i, k - 1, n), n)
  }

  /** The JavaScript remainder agrees with Dafny's on a non-negative dividend. */
  lemma JsRemNonNegative(a: int, n: Positive)
    requires a >= 0
    ensures JsRem(a, n) == a % n
  {
  }

  /** `(i + 1) % n`, as written in the page lightboxes, is one step forward. */
  lemma JsNextIsSucc(i: int, n: Positive)
    requires InRange(i, n)
    ensures JsRem(i + 1, n) == Succ(i, n)
  {
  }

  /** `(i + 1 + n) % n`, as the carousel computes it, is one step forward too. */
  lemma JsShiftedNextIsSucc(i: int, n: Positive)
    requires InRange(i, n)
    ensures JsRem(i + 1 + n, n) == Succ(i, n)
  {
    JsShiftedInRange(i + 1, n);
  }

  /** `(i - 1 + n) % n`, as both the carousel and the lightboxes compute it, is one step back. */
  lemma JsPrevIsPred(i: int, n: Positive)
    requires InRange(i, n)
    ensures JsRem(i - 1 + n, n) == Pred(i, n)
  {
    JsShiftedInRange(i - 1, n);
  }

  /** `(index + n) % n` lands in range for every index no smaller than -n, and keeps an in-range index. */
  lemma JsShiftedInRange(index: int, n: Positive)
    requires index >= -(n as int)
    ensures InRange(JsRem(index + n, n), n)
    ensures InRange(index, n) ==> JsRem(index + n, n) == index
    ensures index == n ==> JsRem(index + n, n) == 0
    ensures -(n as int) <= index < 0 ==> JsRem(index + n, n) == index + n
  {
  }

  /** Only an index below -n can leave `(index + n) % n` out of range. */
  lemma JsRemNonNegativeRange(index: int, n: Positive)
    ensures index >= -(n as int) ==> InRange(JsRem(index + n, n), n)
    ensures InRange(index, n) ==> JsRem(index + n, n) == index
  {
    if index >= -(n as int) {
      JsShiftedInRange(index, n);
    }
  }

  /** Stepping back undoes stepping forward, and the other way round. */
  lemma SuccPredInverse(i: int, n: Positive)
    requires InRange(i, n)
    ensures Pred(Succ(i, n), n) == i
    ensures Succ(Pred(i, n), n) == i
  {
  }

  /** Before reaching the last slot, k steps forward from i land on i + k. */
  lemma {:induction false} AdvanceWithoutWrap(i: int, k: nat, n: Positive)
    requires InRange(i, n) && i + k < n
    ensures Advance(i, k, n) == i + k
  {
    if k > 0 {
      AdvanceWithoutWrap(i, k - 1, n);
    }
  }

  /** a + b steps forward are a steps forward followed by b more. */
  lemma {:induction false} AdvanceAdditive(i: int, a: nat, b: nat, n: Positive)
    requires InRange(i, n)
    ensures Advance(i, a + b, n) == Advance(Advance(i, a, n), b, n)
  {
    if b > 0 {
      AdvanceAdditive(i, a, b - 1, n);
    }
  }

  /** n steps forward on a ring of n slots return to the start. */
  lemma FullTurn(i: int, n: Positive)
    requires InRange(i, n)
    ensures Advance(i, n, n) == i
  {
    var toEnd := n - 1 - i;
    AdvanceWithoutWrap(i, toEnd, n);
    assert Advance(i, toEnd + 1, n) == Succ(n - 1, n) == 0;
    AdvanceAdditive(i, toEnd + 1, i, n);
    AdvanceWithoutWrap(0, i, n);
    assert toEnd + 1 + i == n;
  }
}
