/**
 * `PhotoStack`: a carousel of `n` images drawn as a stack. A timer advances
 * the front index by one (wrapping); each image's distance from the front,
 * its offset, decides whether it is drawn (the front three) and how it is
 * placed. JavaScript's `%` is modelled as the truncating remainder it is.
 */
module PhotoStack {
  import opened Wrappers

  /** Cards with an offset above this are not drawn. */
  const MaxDrawnOffset: int := 2

  function Abs(x: int): int
  {
    if x < 0 then -x else x
  }

  function Min(a: int, b: int): int
  {
    if a <= b then a else b
  }

  /** JavaScript's `a % b` on integers: truncates toward zero, so the result takes the dividend's sign. */
  function JsRem(a: int, b: int): (r: int)
    requires b != 0
    ensures 0 <= a ==> 0 <= r < Abs(b)
    ensures a < 0 ==> -Abs(b) < r <= 0
    ensures 0 <= a && 0 < b ==> r == a % b
  {
    var m := Abs(a) % Abs(b);
    if a < 0 then -m else m
  }

  /** The timer callback `(prev + 1) % images.length`; with no images the index is left alone. */
  function Step(index: int, n: nat): (r: int)
    ensures 0 < n && 0 <= index < n ==> 0 <= r < n
    ensures 0 < n && 0 <= index < n ==> r == if index == n - 1 then 0 else index + 1
  {
    if n == 0 then index else JsRem(index + 1, n)
  }

  /** The index after `k` timer ticks. */
  function Advance(index: int, n: nat, k: nat): int
  {
    if k == 0 then index else Step(Advance(index, n, k - 1), n)
  }

  // Euclidean remainder facts (Dafny's `%`) used by the rotation proofs.

  lemma {:induction false} MulAtLeast(n: int, d: int)
    requires 0 < n && 1 <= d
    ensures n * d >= n
    decreases d
  {
    if d > 1 {
      MulAtLeast(n, d - 1);
      assert n * d == n * (d - 1) + n;
    }
  }

  /** The remainder is determined by any quotient/remainder split. */
  lemma ModUnique(x: int, n: int, q: int, r: int)
    requires 0 < n && 0 <= r < n && x == n * q + r
    ensures x % n == r
  {
    var q', r' := x / n, x % n;
    assert x == n * q' + r';
    var d := q - q';
    assert n * d == n * q - n * q';
    assert n * d == r' - r;
    if d >= 1 {
      MulAtLeast(n, d);
    } else if d <= -1 {
      MulAtLeast(n, -d);
    }
  }

  lemma ModSucc(a: int, n: int)
    requires 0 < n
    ensures (a + 1) % n == if a % n == n - 1 then 0 else a % n + 1
  {
    var q, r := a / n, a % n;
    if r == n - 1 {
      assert a + 1 == n * (q + 1) + 0;
      ModUnique(a + 1, n, q + 1, 0);
    } else {
      assert a + 1 == n * q + (r + 1);
      ModUnique(a + 1, n, q, r + 1);
    }
  }

  /** One tick after `x` reduced is `x + 1` reduced. */
  lemma StepOfRemainder(x: int, n: nat)
    requires 0 < n
    ensures Step(x % n, n) == (x + 1) % n
  {
    ModSucc(x, n);
  }

  /** `k` ticks move the front index `k` places round the circle. */
  lemma {:induction false} AdvanceIsRotation(index: int, n: nat, k: nat)
    requires 0 <= index < n
    ensures Advance(index, n, k) == (index + k) % n
  {
    if k == 0 {
      ModUnique(index, n, 0, index);
    } else {
      var j: nat := k - 1;
      AdvanceIsRotation(index, n, j);
      StepOfRemainder(index + j, n);
      assert index + j + 1 == index + k;
    }
  }

  /** After one tick per image the front card is the one it started with. */
  lemma FullCycle(index: int, n: nat)
    requires 0 <= index < n
    ensures Advance(index, n, n) == index
  {
    AdvanceIsRotation(index, n, n);
    ModUnique(index + n, n, 1, index);
  }

  /** Reducing a value below `2 * n` subtracts `n` at most once. */
  lemma RemBelowTwice(x: int, n: int)
    requires 0 < n && 0 <= x < 2 * n
    ensures x % n == if x < n then x else x - n
  {
    if x < n {
      ModUnique(x, n, 0, x);
    } else {
      ModUnique(x, n, 1, x - n);
    }
  }

  /** `(i - index + images.length) % images.length`: how far card `i` sits behind the front. */
  function Offset(i: int, index: int, n: nat): (k: int)
    requires 0 <= i < n && 0 <= index < n
    ensures 0 <= k < n
    ensures (index + k) % n == i
    ensures i == index ==> k == 0
  {
    // The dividend is always positive, so the truncating and the Euclidean remainder agree.
    var dividend := i - index + n;
    assert 0 < dividend < 2 * n;
    RemBelowTwice(dividend, n);
    var k := JsRem(dividend, n);
    RemBelowTwice(index + k, n);
    k
  }

  /** The card `k` places behind the front has offset `k`: offsets run over every value in `[0, n)`. */
  lemma OffsetInverse(index: int, n: nat, k: int)
    requires 0 <= index < n && 0 <= k < n
    ensures Offset((index + k) % n, index, n) == k
  {
    var i := (index + k) % n;
    var k' := Offset(i, index, n);
    RemBelowTwice(index + k, n);
    RemBelowTwice(index + k', n);
  }

  /** Different cards never share an offset. */
  lemma OffsetInjective(i: int, j: int, index: int, n: nat)
    requires 0 <= i < n && 0 <= j < n && 0 <= index < n
    requires Offset(i, index, n) == Offset(j, index, n)
    ensures i == j
  {
  }

  /** How a drawn card is placed (`scale` is left out). */
  datatype Pose = Pose(offset: int, y: int, z: int, zIndex: int, rotate: int)

  /** The animation target of a drawn card at `offset` in a stack of `n`. */
  function PoseAt(offset: int, n: nat): (p: Pose)
    requires 0 <= offset
    ensures p.offset == offset && p.y == 15 * offset && p.z == -50 * offset && p.zIndex == n - offset
    ensures p.rotate == if offset % 2 == 0 then 2 * offset else -2 * offset
  {
    Pose(offset,
         offset * 15,
         -offset * 50,
         n - offset,
         if JsRem(offset, 2) == 0 then offset * 2 else offset * -2)
  }

  /** The three drawn positions, tabulated. */
  lemma PoseTable(n: nat)
    ensures PoseAt(0, n) == Pose(0, 0, 0, n, 0)
    ensures PoseAt(1, n) == Pose(1, 15, -50, n - 1, -2)
    ensures PoseAt(2, n) == Pose(2, 30, -100, n - 2, 4)
  {
  }

  /** The card for image `i`: `None` (`return null`) when it is more than two behind the front. */
  function Card(i: int, index: int, n: nat): (c: Option<Pose>)
    requires 0 <= i < n && 0 <= index < n
    ensures c.Some? <==> Offset(i, index, n) <= MaxDrawnOffset
    ensures c.Some? ==> c.value == PoseAt(Offset(i, index, n), n)
    ensures i == index ==> c == Some(PoseAt(0, n))
  {
    var offset := Offset(i, index, n);
    if offset > MaxDrawnOffset then None else Some(PoseAt(offset, n))
  }

  /** `images.map(...)`: one entry per image, in image order. */
  function Cards(n: nat, index: int): (cards: seq<Option<Pose>>)
    requires 0 < n ==> 0 <= index < n
    ensures |cards| == n
    ensures forall i :: 0 <= i < n ==> cards[i] == Card(i, index, n)
  {
    seq(n, i requires 0 <= i < n => Card(i, index, n))
  }

  /** The positions of the cards that are drawn. */
  function Drawn(cards: seq<Option<Pose>>): set<int>
  {
    set i | 0 <= i < |cards| && cards[i].Some?
  }

  /** The cards fewer than `m` places behind the front, collected one offset at a time. */
  function Front(index: int, n: nat, m: nat): set<int>
    requires 0 < n
  {
    if m == 0 then {} else Front(index, n, m - 1) + {(index + m - 1) % n}
  }

  lemma {:induction false} FrontIsOffsetsBelow(index: int, n: nat, m: nat)
    requires 0 <= index < n && m <= n
    ensures |Front(index, n, m)| == m
    ensures forall i :: i in Front(index, n, m) <==> 0 <= i < n && Offset(i, index, n) < m
  {
    if m > 0 {
      FrontIsOffsetsBelow(index, n, m - 1);
      var newest := (index + m - 1) % n;
      OffsetInverse(index, n, m - 1);
      assert newest !in Front(index, n, m - 1);
      forall i | 0 <= i < n && Offset(i, index, n) == m - 1
        ensures i == newest
      {
      }
    }
  }

  /** Exactly `min(n, 3)` cards are drawn: the front one and the (up to) two behind it. */
  lemma DrawnCount(n: nat, index: int)
    requires 0 < n ==> 0 <= index < n
    ensures |Drawn(Cards(n, index))| == Min(n, MaxDrawnOffset + 1)
  {
    var cards := Cards(n, index);
    if n == 0 {
      assert Drawn(cards) == {};
    } else {
      var m := Min(n, MaxDrawnOffset + 1);
      FrontIsOffsetsBelow(index, n, m);
      assert Drawn(cards) == Front(index, n, m);
    }
  }

  /** The front card is drawn on top of every other card, and the stacking order follows the offsets. */
  lemma StackingOrder(n: nat, index: int, i: int, j: int)
    requires 0 <= index < n && 0 <= i < n && 0 <= j < n
    requires Card(i, index, n).Some? && Card(j, index, n).Some?
    ensures Card(index, index, n) == Some(PoseAt(0, n)) && PoseAt(0, n).zIndex == n
    ensures Card(i, index, n).value.zIndex <= n
    ensures Card(i, index, n).value.zIndex > Card(j, index, n).value.zIndex
        <==> Offset(i, index, n) < Offset(j, index, n)
    ensures i != j ==> Card(i, index, n).value.zIndex != Card(j, index, n).value.zIndex
  {
  }

  class PhotoStack {
    /** `images.length`, fixed for the component's lifetime. */
    const imageCount: nat
    var index: int

    predicate Valid()
      reads this
    {
      0 < imageCount ==> 0 <= index < imageCount
    }

    /** `useState(0)`. */
    constructor (imageCount: nat)
      ensures this.imageCount == imageCount && index == 0 && Valid()
    {
      this.imageCount := imageCount;
      index := 0;
    }

    /** One firing of the interval callback. */
    method Tick()
      requires Valid()
      modifies this
      ensures Valid() && index == Step(old(index), imageCount)
    {
      if imageCount > 0 {
        index := JsRem(index + 1, imageCount);
      }
    }

    /** The rendered stack for the current index. */
    function Render(): (cards: seq<Option<Pose>>)
      reads this
      requires Valid()
      ensures |cards| == imageCount
      ensures |Drawn(cards)| == Min(imageCount, MaxDrawnOffset + 1)
    {
      DrawnCount(imageCount, index);
      Cards(imageCount, index)
    }
  }
}
