/** The home-page carousel: three slides and a current index moved forwards, backwards or to a
    chosen dot. */
module Hero {

  datatype Slide = Slide(id: int, image: string, subtitle: string, title: string, buttonText: string)

  const Slides: seq<Slide> := [
    Slide(1, "https://images.unsplash.com/photo-1469334031218-e382a71b716b?q=80&w=2070&auto=format&fit=crop",
          "Nueva Colección", "Atrévete a ser tú misma", "Comprar Ahora"),
    Slide(2, "https://images.unsplash.com/photo-1490481651871-ab68de25d43d?q=80&w=2070&auto=format&fit=crop",
          "Otoño / Invierno 2024", "Elegancia Atemporal", "Ver Colección"),
    Slide(3, "https://images.unsplash.com/photo-1445205170230-053b83016050?q=80&w=2071&auto=format&fit=crop",
          "Edición Limitada", "Estilo y Confort", "Descubrir Más")
  ]

  /** JavaScript's `%`: the remainder takes the sign of the dividend (truncating division). */
  function JsRem(a: int, n: int): (r: int)
    requires n > 0
    ensures a >= 0 ==> 0 <= r < n && r == a % n
    ensures a < 0 ==> -n < r <= 0 && (a - r) % n == 0
  {
    if a >= 0 then a % n else NegRemCongruent(a, n); -((-a) % n)
  }

  /** For a negative dividend, the truncating remainder differs from it by a multiple of `n`. */
  lemma NegRemCongruent(a: int, n: int)
    requires n > 0 && a < 0
    ensures (a - -((-a) % n)) % n == 0
  {
    var b := -a;
    var q, m := b / n, b % n;
    assert b == n * q + m;
    assert a - -m == n * -q;
    MultipleMod(n, -q);
  }

  lemma MultipleMod(n: int, q: int)
    requires n > 0
    ensures (n * q) % n == 0
  {
    var x := n * q;
    var d, r := x / n, x % n;
    assert x == n * d + r && 0 <= r < n;
    var e := q - d;
    assert n * e == r;
    if e >= 1 {
      MulAtLeast(n, e);
    } else if e <= -1 {
      MulAtLeast(n, -e);
    }
  }

  lemma {:induction false} MulAtLeast(n: int, e: int)
    requires n > 0 && e >= 1
    ensures n * e >= n
    decreases e
  {
    if e > 1 {
      MulAtLeast(n, e - 1);
      assert n * e == n * (e - 1) + n;
    }
  }

  /** `(prev + 1) % slides.length`. */
  function Next(i: int, n: int): int
    requires n > 0
  {
    JsRem(i + 1, n)
  }

  /** `(prev - 1 + slides.length) % slides.length`. */
  function Prev(i: int, n: int): int
    requires n > 0
  {
    JsRem(i - 1 + n, n)
  }

  /** The index after `k` steps forward. */
  function Advance(i: int, n: int, k: nat): int
    requires n > 0
  {
    if k == 0 then i else Next(Advance(i, n, k - 1), n)
  }

  /** A remainder of a dividend below the divisor is the dividend itself. */
  lemma ModBelow(a: int, n: int)
    requires 0 <= a < n
    ensures a % n == a
  {
  }

  /** A remainder of a dividend in `[n, 2n)` is the dividend less the divisor. */
  lemma ModOnce(a: int, n: int)
    requires 0 < n <= a < 2 * n
    ensures a % n == a - n
  {
  }

  /** From an index in range, both steps stay in range. */
  lemma StepsInRange(i: int, n: int)
    requires n > 0 && 0 <= i < n
    ensures 0 <= Next(i, n) < n && 0 <= Prev(i, n) < n
    ensures Next(i, n) == if i == n - 1 then 0 else i + 1
    ensures Prev(i, n) == if i == 0 then n - 1 else i - 1
  {
    if i < n - 1 {
      ModBelow(i + 1, n);
    } else {
      ModOnce(i + 1, n);
    }
    if i > 0 {
      ModOnce(i - 1 + n, n);
    } else {
      ModBelow(i - 1 + n, n);
    }
  }

  /** A step back undoes a step forward and a step forward undoes a step back. */
  lemma NextPrevInverse(i: int, n: int)
    requires n > 0 && 0 <= i < n
    ensures Prev(Next(i, n), n) == i
    ensures Next(Prev(i, n), n) == i
  {
    StepsInRange(i, n);
    StepsInRange(Next(i, n), n);
    StepsInRange(Prev(i, n), n);
  }

  /** Up to `n` steps forward from an index in range move it `k` places, wrapping past the end once. */
  lemma {:induction false} AdvanceWraps(i: int, n: int, k: nat)
    requires n > 0 && 0 <= i < n && k <= n
    ensures Advance(i, n, k) == if i + k < n then i + k else i + k - n
  {
    if k > 0 {
      AdvanceWraps(i, n, k - 1);
      StepsInRange(Advance(i, n, k - 1), n);
    }
  }

  /** As many steps forward as there are slides come back to the start. */
  lemma FullTurn(i: int, n: int)
    requires 0 <= i < n
    ensures Advance(i, n, n) == i
  {
    AdvanceWraps(i, n, n);
  }

  class Carousel {
    var currentSlide: int

    predicate Valid()
      reads this
    {
      0 <= currentSlide < |Slides|
    }

    constructor ()
      ensures Valid() && currentSlide == 0
    {
      currentSlide := 0;
    }

    /** `nextSlide`; the five-second interval takes the same step. */
    method NextSlide()
      requires Valid()
      modifies this
      ensures Valid()
      ensures currentSlide == Next(old(currentSlide), |Slides|)
      ensures currentSlide == if old(currentSlide) == |Slides| - 1 then 0 else old(currentSlide) + 1
    {
      StepsInRange(currentSlide, |Slides|);
      currentSlide := Next(currentSlide, |Slides|);
    }

    method PrevSlide()
      requires Valid()
      modifies this
      ensures Valid()
      ensures currentSlide == Prev(old(currentSlide), |Slides|)
      ensures currentSlide == if old(currentSlide) == 0 then |Slides| - 1 else old(currentSlide) - 1
    {
      StepsInRange(currentSlide, |Slides|);
      currentSlide := Prev(currentSlide, |Slides|);
    }

    /** Clicking the dot of slide `index` (one dot is drawn per slide). */
    method SelectDot(index: int)
      requires 0 <= index < |Slides|
      modifies this
      ensures Valid() && currentSlide == index
    {
      currentSlide := index;
    }
  }
}
