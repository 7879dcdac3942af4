/**
 * Index arithmetic on a ring of `n` positions, as main.js writes it for the
 * gallery cursor (main.js:661), the thumbnail window (main.js:664-668, 682),
 * thumbnail clicks (main.js:562) and lightbox navigation (main.js:643).
 *
 * main.js always adds `n` before taking `% n`, so the left operand is never
 * negative and JavaScript's truncating `%` agrees with Dafny's Euclidean `%`.
 */
module Circular {

  /** The two directions the arrows, keys and swipes pass: -1 (previous) and +1 (next). */
  predicate IsDirection(d: int) {
    d == 1 || d == -1
  }

  /** `(i + d + n) % n`: one step of a cursor around the ring. */
  function Step(i: nat, d: int, n: nat): (r: nat)
    requires i < n && IsDirection(d)
    ensures r < n
    ensures d == 1 ==> r == (if i + 1 == n then 0 else i + 1)
    ensures d == -1 ==> r == (if i == 0 then n - 1 else i - 1)
  {
    (i + d + n) % n
  }

  /** `k` steps in the same direction. */
  function StepN(i: nat, d: int, n: nat, k: nat): (r: nat)
    requires i < n && IsDirection(d)
    ensures r < n
  {
    if k == 0 then i else Step(StepN(i, d, n, k - 1), d, n)
  }

  /** The images a window of `w` slots shows from `cursor`: slot `j` holds `items[(cursor + j) % n]`. */
  function Window<T>(items: seq<T>, cursor: nat, w: nat): seq<T>
    requires |items| > 0
  {
    seq(w, j requires 0 <= j < w => items[(cursor + j) % |items|])
  }

  /** The gallery index a click on thumbnail `r` of the row opens: `(cursor + r) % n` (main.js:562). */
  function ThumbnailIndex(cursor: nat, r: nat, n: nat): (k: nat)
    requires n > 0
    ensures k < n
  {
    (cursor + r) % n
  }

  // ---------------------------------------------------------------------
  // Modular arithmetic helpers

  lemma MulAtLeast(a: int, n: int)
    requires a >= 1 && n > 0
    ensures a * n >= n
  {
  }

  /** Euclidean remainders are unique. */
  lemma ModUnique(x: int, n: int, q: int, r: int)
    requires n > 0 && 0 <= r < n && x == q * n + r
    ensures x % n == r
  {
    var q', r' := x / n, x % n;
    assert (q - q') * n == r' - r;
    if q - q' >= 1 { MulAtLeast(q - q', n); assert false; }
    if q' - q >= 1 { MulAtLeast(q' - q, n); assert false; }
  }

  /** Adding whole turns does not move a position on the ring. */
  lemma AddTurns(y: int, n: int, m: int)
    requires n > 0
    ensures (y + m * n) % n == y % n
  {
    ModUnique(y + m * n, n, y / n + m, y % n);
  }

  /** Reducing the left operand first does not change the result. */
  lemma ModAddLeft(a: int, b: int, n: int)
    requires n > 0
    ensures (a % n + b) % n == (a + b) % n
  {
    AddTurns(a % n + b, n, a / n);
  }

  // ---------------------------------------------------------------------
  // Properties of the cursor

  /** A step is the mathematical `(i + d) mod n`. */
  lemma StepIsMod(i: nat, d: int, n: nat)
    requires i < n && IsDirection(d)
    ensures Step(i, d, n) == (i + d) % n
  {
    AddTurns(i + d, n, 1);
  }

  /** The signed distance `k * d` that `k` steps in direction `d` travel. */
  function Travel(d: int, k: nat): int
    requires IsDirection(d)
  {
    if d == 1 then k as int else -(k as int)
  }

  /** `k` steps in direction `d` land on `(i + k*d) mod n`, however many full turns that makes. */
  lemma {:induction false} StepNIsMod(i: nat, d: int, n: nat, k: nat)
    requires i < n && IsDirection(d)
    ensures StepN(i, d, n, k) == (i + Travel(d, k)) % n
  {
    if k > 0 {
      StepNIsMod(i, d, n, k - 1);
      StepIsMod(StepN(i, d, n, k - 1), d, n);
      ModAddLeft(i + Travel(d, k - 1), d, n);
    }
  }

  /** `n` steps in the same direction bring the cursor back to where it started. */
  lemma FullTurn(i: nat, d: int, n: nat)
    requires i < n && IsDirection(d)
    ensures StepN(i, d, n, n) == i
  {
    StepNIsMod(i, d, n, n);
    if d == 1 { ModUnique(i + n, n, 1, i); } else { ModUnique(i - n, n, -1, i); }
  }

  /** A step back undoes a step forward, and the other way round. */
  lemma StepInverse(i: nat, d: int, n: nat)
    requires i < n && IsDirection(d)
    ensures Step(Step(i, d, n), -d, n) == i
  {
  }

  // ---------------------------------------------------------------------
  // Properties of the window

  /** Rotating forward by one shifts the window one slot to the left and brings in the next image. */
  lemma WindowForward<T>(items: seq<T>, cursor: nat, w: nat)
    requires cursor < |items|
    ensures Window(items, Step(cursor, 1, |items|), w) == Window(items, cursor, w + 1)[1..]
  {
    var n := |items|;
    var c := Step(cursor, 1, n);
    StepIsMod(cursor, 1, n);
    forall j | 0 <= j < w
      ensures Window(items, c, w)[j] == Window(items, cursor, w + 1)[j + 1]
    {
      ModAddLeft(cursor + 1, j, n);
      assert cursor + 1 + j == cursor + (j + 1);
    }
  }

  /** Rotating back by one shifts the window one slot to the right and brings in the previous image. */
  lemma WindowBackward<T>(items: seq<T>, cursor: nat, w: nat)
    requires cursor < |items|
    ensures Window(items, Step(cursor, -1, |items|), w + 1)[1..] == Window(items, cursor, w)
  {
    var n := |items|;
    var c := Step(cursor, -1, n);
    StepIsMod(cursor, -1, n);
    forall j | 0 <= j < w
      ensures Window(items, c, w + 1)[j + 1] == Window(items, cursor, w)[j]
    {
      ModAddLeft(cursor - 1, j + 1, n);
      assert cursor - 1 + (j + 1) == cursor + j;
    }
  }

  /** A window as wide as the gallery is the gallery rotated to start at the cursor: every image once. */
  lemma WindowFullIsRotation<T>(items: seq<T>, cursor: nat)
    requires cursor < |items|
    ensures Window(items, cursor, |items|) == items[cursor..] + items[..cursor]
  {
    var n := |items|;
    var r := items[cursor..] + items[..cursor];
    forall j | 0 <= j < n
      ensures Window(items, cursor, n)[j] == r[j]
    {
      if cursor + j >= n {
        ModUnique(cursor + j, n, 1, cursor + j - n);
        assert r[j] == items[..cursor][j - (n - cursor)];
      } else {
        assert r[j] == items[cursor..][j];
      }
    }
  }

  /** So a window as wide as the gallery shows each image exactly as often as the gallery holds it. */
  lemma WindowFullIsPermutation<T>(items: seq<T>, cursor: nat)
    requires cursor < |items|
    ensures multiset(Window(items, cursor, |items|)) == multiset(items)
  {
    WindowFullIsRotation(items, cursor);
    assert items == items[..cursor] + items[cursor..];
  }

  /** A click on thumbnail `r` opens exactly the image a committed window shows in slot `r`. */
  lemma ThumbnailShowsWindowSlot<T>(items: seq<T>, cursor: nat, w: nat, r: nat)
    requires |items| > 0 && r < w
    ensures items[ThumbnailIndex(cursor, r, |items|)] == Window(items, cursor, w)[r]
  {
  }
}
