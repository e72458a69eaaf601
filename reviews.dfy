/**
 * The review carousel: the index of the shown review, moved by the arrow buttons,
 * the dots and a 6 s auto-advance interval, all modulo the number of reviews; the
 * dot row that marks the current review; and the five-star rating row.
 */
module Reviews {
  import opened Counting

  /** The star ratings of the testimonials on the page, in order. */
  const Ratings: seq<int> := [5, 5, 5, 5, 5, 5]

  /** The number of testimonials on the page. */
  const ReviewCount: nat := |Ratings|

  /** `(prev + 1) % n`: the following review, wrapping from the last to the first. */
  function Next(i: nat, n: nat): (j: nat)
    requires n > 0
    ensures j < n
    ensures i < n ==> j == (if i == n - 1 then 0 else i + 1)
  {
    (i + 1) % n
  }

  /** `(prev - 1 + n) % n`: the preceding review, wrapping from the first to the last. */
  function Prev(i: nat, n: nat): (j: nat)
    requires n > 0
    ensures j < n
    ensures i < n ==> j == (if i == 0 then n - 1 else i - 1)
  {
    (i - 1 + n) % n
  }

  /** Back then forward, or forward then back, returns to the same review. */
  lemma PrevNextInverse(i: nat, n: nat)
    requires i < n
    ensures Prev(Next(i, n), n) == i
    ensures Next(Prev(i, n), n) == i
  {
  }

  /** The index after `k` auto-advance ticks from `i`. */
  function Advance(i: nat, k: nat, n: nat): (j: nat)
    requires i < n
    ensures j < n
  {
    if k == 0 then i else Next(Advance(i, k - 1, n), n)
  }

  /** Within one cycle, `k` ticks move the index `k` places forward, wrapping once past the last review. */
  lemma {:induction false} AdvanceWithinCycle(i: nat, k: nat, n: nat)
    requires i < n && k <= n
    ensures Advance(i, k, n) == if i + k < n then i + k else i + k - n
  {
    if k > 0 {
      AdvanceWithinCycle(i, k - 1, n);
    }
  }

  /** `a` ticks followed by `b` ticks are `a + b` ticks. */
  lemma {:induction false} AdvanceCompose(i: nat, a: nat, b: nat, n: nat)
    requires i < n
    ensures Advance(i, a + b, n) == Advance(Advance(i, a, n), b, n)
  {
    if b > 0 {
      AdvanceCompose(i, a, b - 1, n);
    }
  }

  /** A full cycle of `n` ticks comes back to the starting review, so the rotation has period `n`. */
  lemma FullCycleReturns(i: nat, k: nat, n: nat)
    requires i < n
    ensures Advance(i, n, n) == i
    ensures Advance(i, k + n, n) == Advance(i, k, n)
  {
    AdvanceWithinCycle(i, n, n);
    AdvanceCompose(i, n, k, n);
  }

  /** The carousel dots: dot `k` is marked active exactly when it is the current review. */
  function Dots(current: nat, n: nat): (d: seq<bool>)
    ensures |d| == n
  {
    seq(n, k => k == current)
  }

  /** Exactly one dot is active when the current review is on the page, none otherwise. */
  lemma {:induction false} ExactlyOneActiveDot(current: nat, n: nat)
    ensures CountTrue(Dots(current, n)) == if current < n then 1 else 0
    ensures forall k :: 0 <= k < n ==> (Dots(current, n)[k] <==> k == current)
  {
    if n > 0 {
      ExactlyOneActiveDot(current, n - 1);
      assert Dots(current, n) == Dots(current, n - 1) + [n - 1 == current];
      OccurrencesAppend(Dots(current, n - 1), [n - 1 == current], true);
    }
  }

  /** `renderStars(rating)`: five stars, star `k` filled when `k < rating`. */
  function Stars(rating: int): (stars: seq<bool>)
    ensures |stars| == 5
  {
    seq(5, k => k < rating)
  }

  function Clamp(x: int, lo: int, hi: int): int
    requires lo <= hi
  {
    if x < lo then lo else if x > hi then hi else x
  }

  /** Counting the filled stars over the first `n` positions. */
  lemma {:induction false} FilledPrefix(rating: int, n: nat)
    ensures CountTrue(seq(n, k => k < rating)) == Clamp(rating, 0, n)
  {
    var s := seq(n, k => k < rating);
    if n > 0 {
      var t := seq(n - 1, k => k < rating);
      FilledPrefix(rating, n - 1);
      assert s == t + [n - 1 < rating];
      OccurrencesAppend(t, [n - 1 < rating], true);
    }
  }

  /** Of the five stars exactly `min(rating, 5)` are filled (none for a rating of 0 or less). */
  lemma StarsFilled(rating: int)
    ensures CountTrue(Stars(rating)) == Clamp(rating, 0, 5)
  {
    FilledPrefix(rating, 5);
  }

  /** Every testimonial on the page shows all five stars filled. */
  lemma EveryReviewShowsFiveStars(k: nat)
    requires k < ReviewCount
    ensures CountTrue(Stars(Ratings[k])) == 5
  {
    StarsFilled(Ratings[k]);
  }

  /** The carousel's mutable index. */
  class Carousel {
    const count: nat
    var currentSlide: nat

    ghost predicate Valid()
      reads this
    {
      count > 0 && currentSlide < count
    }

    constructor (n: nat)
      requires n > 0
      ensures Valid() && count == n && currentSlide == 0
    {
      count := n;
      currentSlide := 0;
    }

    /** The "next" arrow. */
    method NextSlide()
      requires Valid()
      modifies this
      ensures Valid()
      ensures currentSlide == Next(old(currentSlide), count)
    {
      currentSlide := Next(currentSlide, count);
    }

    /** The "previous" arrow. */
    method PrevSlide()
      requires Valid()
      modifies this
      ensures Valid()
      ensures currentSlide == Prev(old(currentSlide), count)
    {
      currentSlide := Prev(currentSlide, count);
    }

    /** A dot: the dots are drawn one per review, so the index passed is in range. */
    method GoToSlide(index: nat)
      requires Valid()
      requires index < count
      modifies this
      ensures Valid()
      ensures currentSlide == index
    {
      currentSlide := index;
    }

    /** One tick of the 6 s auto-advance interval. */
    method AutoAdvance()
      requires Valid()
      modifies this
      ensures Valid()
      ensures currentSlide == Advance(old(currentSlide), 1, count)
      ensures currentSlide == (if old(currentSlide) == count - 1 then 0 else old(currentSlide) + 1)
    {
      currentSlide := Next(currentSlide, count);
    }
  }
}
