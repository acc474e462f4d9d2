/** The dashboard: a three-slide carousel moved by next, previous, the
    indicators and a timer, and a featured list of at most six materials. */
module Dashboard {
  import opened Remote
  import opened Entities

  /** `slides.length`: the slide array is a fixed literal of three. */
  const SlideCount := 3
  /** The `slice(0, 6)` bound on the featured list. */
  const FeaturedLimit := 6

  /** JavaScript's `%` on integers: the result takes the sign of `a`
      (truncation), unlike Dafny's Euclidean `%`. */
  function JsRemainder(a: int, n: int): (r: int)
    requires n > 0
    ensures a >= 0 ==> 0 <= r < n
    ensures a < 0 ==> -n < r <= 0
    ensures (a - r) % n == 0
  {
    var m := if a >= 0 then a else -a;
    DividesDifference(m, n);
    if a >= 0 then m % n else -(m % n)
  }

  /** `m - m % n` is a multiple of `n`, and so is its negation. */
  lemma DividesDifference(m: int, n: int)
    requires n > 0
    ensures (m - m % n) % n == 0
    ensures (-(m - m % n)) % n == 0
  {
    var q := m / n;
    assert m - m % n == q * n;
    MultipleModZero(q, n);
    MultipleModZero(-q, n);
    assert -(q * n) == (-q) * n;
  }

  /** A multiple of `n` leaves no remainder. */
  lemma MultipleModZero(q: int, n: int)
    requires n > 0
    ensures (q * n) % n == 0
  {
    var r := (q * n) % n;
    var d := (q * n) / n;
    assert (q - d) * n == r by {
      assert q * n == d * n + r;
      assert (q - d) * n == q * n - d * n;
    }
    if q - d >= 1 {
      AtLeastOnce(q - d, n);
    } else if q - d <= -1 {
      AtLeastOnce(d - q, n);
    }
  }

  /** A positive multiple of `n` is at least `n`. */
  lemma {:induction false} AtLeastOnce(k: int, n: int)
    requires k >= 1 && n > 0
    ensures k * n >= n
    decreases k
  {
    if k > 1 {
      AtLeastOnce(k - 1, n);
      assert k * n == (k - 1) * n + n;
    }
  }

  /** An index below `n` is its own remainder and `n` wraps to 0: every
      case `NextSlide` meets on a valid index, and `PrevSlide`'s from slides
      0 and 1; its other cases rest on `JsRemainder`'s general contract. */
  lemma SmallRemainders(a: int, n: int)
    requires n > 0
    ensures 0 <= a < n ==> JsRemainder(a, n) == a
    ensures a == n ==> JsRemainder(a, n) == 0
  {
    if 0 <= a < n {
      var d := a / n;
      assert a == d * n + a % n;
      if d >= 1 {
        AtLeastOnce(d, n);
      } else if d <= -1 {
        AtLeastOnce(-d, n);
      }
    } else if a == n {
      MultipleModZero(1, n);
    }
  }

  /** `(prev + 1) % slides.length`. */
  function NextSlide(i: int, n: int): (j: int)
    requires n > 0
    ensures 0 <= i < n ==> 0 <= j < n
    ensures 0 <= i < n - 1 ==> j == i + 1
    ensures i == n - 1 ==> j == 0
  {
    SmallRemainders(i + 1, n);
    JsRemainder(i + 1, n)
  }

  /** `(prev - 1 + slides.length) % slides.length`. */
  function PrevSlide(i: int, n: int): (j: int)
    requires n > 0
    ensures 0 <= i < n ==> 0 <= j < n
    ensures 0 < i < n ==> j == i - 1
    ensures i == 0 ==> j == n - 1
  {
    SmallRemainders(i - 1 + n, n);
    JsRemainder(i - 1 + n, n)
  }

  /** Previous undoes next and next undoes previous on every valid index. */
  lemma NextPrevInverse(i: int, n: int)
    requires 0 <= i < n
    ensures PrevSlide(NextSlide(i, n), n) == i
    ensures NextSlide(PrevSlide(i, n), n) == i
  {
  }

  /** Pressing next `k` times from `i`. */
  function NextTimes(i: int, n: int, k: nat): int
    requires n > 0
  {
    if k == 0 then i else NextSlide(NextTimes(i, n, k - 1), n)
  }

  /** Up to one full round, `k` presses of next move `k` slides forward,
      wrapping past the last slide once; `n` presses come back to the start. */
  lemma {:induction false} NextTimesWraps(i: int, n: int, k: nat)
    requires 0 <= i < n && k <= n
    ensures NextTimes(i, n, k) == if i + k < n then i + k else i + k - n
  {
    if k > 0 {
      NextTimesWraps(i, n, k - 1);
    }
  }

  lemma FullRoundReturns(i: int, n: int)
    requires 0 <= i < n
    ensures NextTimes(i, n, n) == i
  {
    NextTimesWraps(i, n, n);
  }

  /** The slides' visibility flags: `index === currentSlide`. */
  function VisibleSlides(n: nat, current: int): (visible: seq<bool>)
    ensures |visible| == n
    ensures 0 <= current < n ==> visible[current]
    ensures forall i :: 0 <= i < n && visible[i] ==> i == current
  {
    seq(n, i => i == current)
  }

  /** `materials.slice(0, 6)`. */
  function Featured(materials: seq<Material>): (shown: seq<Material>)
    ensures |shown| <= FeaturedLimit
    ensures |shown| == if |materials| < FeaturedLimit then |materials| else FeaturedLimit
    ensures shown == materials[..|shown|]
  {
    if |materials| <= FeaturedLimit then materials else materials[..FeaturedLimit]
  }

  class DashboardPage {
    var currentSlide: int
    var featured: seq<Material>
    var isLoading: bool

    ghost predicate Valid()
      reads this
    {
      0 <= currentSlide < SlideCount && |featured| <= FeaturedLimit
    }

    constructor ()
      ensures Valid() && currentSlide == 0 && featured == [] && isLoading
    {
      currentSlide, featured, isLoading := 0, [], true;
    }

    method Next()
      requires Valid()
      modifies this`currentSlide
      ensures Valid() && currentSlide == NextSlide(old(currentSlide), SlideCount)
    {
      currentSlide := (currentSlide + 1) % SlideCount;
    }

    /** The five-second interval callback does what next does. */
    method AutoAdvance()
      requires Valid()
      modifies this`currentSlide
      ensures Valid() && currentSlide == NextSlide(old(currentSlide), SlideCount)
    {
      Next();
    }

    method Prev()
      requires Valid()
      modifies this`currentSlide
      ensures Valid() && currentSlide == PrevSlide(old(currentSlide), SlideCount)
    {
      currentSlide := (currentSlide - 1 + SlideCount) % SlideCount;
    }

    /** An indicator button; there is one per slide. */
    method Select(index: int)
      requires Valid() && 0 <= index < SlideCount
      modifies this`currentSlide
      ensures Valid() && currentSlide == index
    {
      currentSlide := index;
    }

    /** The fetch effect: the first six fetched materials, or the list as
        it was when the fetch fails; loading ends either way. */
    method LoadFeatured(fetched: Call<seq<Material>>)
      requires Valid()
      modifies this`featured, this`isLoading
      ensures Valid() && !isLoading
      ensures fetched.Ok? ==> featured == Featured(fetched.value)
      ensures fetched.Fail? ==> featured == old(featured)
    {
      if fetched.Ok? {
        featured := Featured(fetched.value);
      }
      isLoading := false;
    }
  }
}
