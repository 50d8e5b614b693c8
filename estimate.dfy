/** The page-count heuristic of the fitting engine (`estimatePDFPages`).

    The serialised content length stands in for the ink the content needs; the
    usable page area is the page minus an 80pt horizontal and a 120pt vertical
    allowance, and half of that area is assumed to be filled. */
module PageEstimate {

  /** A page size given as concrete dimensions in points. */
  datatype PageGeometry = PageGeometry(width: real, height: real)

  const HorizontalAllowance: real := 80.0
  const VerticalAllowance: real := 120.0
  const FillRatio: real := 0.5

  /** Geometry for which the usable area is positive. */
  predicate ValidGeometry(g: PageGeometry) {
    g.width > HorizontalAllowance && g.height > VerticalAllowance
  }

  function UsableArea(g: PageGeometry): (a: real)
    requires ValidGeometry(g)
    ensures a > 0.0
  {
    var w, h := g.width - HorizontalAllowance, g.height - VerticalAllowance;
    assert w * h > 0.0 by { PositiveProduct(w, h); }
    w * h
  }

  /** The area that one page is assumed to hold. */
  function PageCapacity(g: PageGeometry): (c: real)
    requires ValidGeometry(g)
    ensures c > 0.0
  {
    UsableArea(g) * FillRatio
  }

  /** `Math.ceil`: the least integer not below x. */
  function Ceil(x: real): (r: int)
    ensures x <= r as real < x + 1.0
  {
    if x.Floor as real == x then x.Floor else x.Floor + 1
  }

  /** `Math.ceil(contentLength / (pageArea * 0.5))`. */
  function EstimatePages(contentLength: nat, g: PageGeometry): (pages: int)
    requires ValidGeometry(g)
    ensures (pages as real) * PageCapacity(g) >= contentLength as real
    ensures ((pages - 1) as real) * PageCapacity(g) < contentLength as real
  {
    var c := PageCapacity(g);
    var r := Ceil(contentLength as real / c);
    CeilingOfQuotient(contentLength as real, c, r as real);
    r
  }

  /** A real r with n / c <= r < n / c + 1 brackets n between (r - 1) * c and r * c. */
  lemma CeilingOfQuotient(n: real, c: real, r: real)
    requires c > 0.0 && n / c <= r < n / c + 1.0
    ensures r * c >= n && (r - 1.0) * c < n
  {
    var q := n / c;
    assert q * c == n;
    ScaleMonotone(q, r, c);
    var s := r - 1.0;
    ScaleStrict(s, q, c);
    assert s * c < n;
  }

  /** Of two ceilings over the same positive divisor, the one of the smaller
      dividend is not the larger. */
  lemma CeilingMonotone(p: int, q: int, a: real, b: real, c: real)
    requires c > 0.0 && a <= b
    requires ((p - 1) as real) * c < a
    requires (q as real) * c >= b
    ensures p <= q
  {
    if p > q {
      ScaleMonotone(q as real, (p - 1) as real, c);
      assert false;
    }
  }

  lemma PositiveProduct(a: real, b: real)
    requires a > 0.0 && b > 0.0
    ensures a * b > 0.0
  {
  }

  lemma ScaleMonotone(a: real, b: real, c: real)
    requires a <= b && c > 0.0
    ensures a * c <= b * c
  {
    assert b * c - a * c == (b - a) * c;
    if a < b { PositiveProduct(b - a, c); }
  }

  lemma ScaleStrict(a: real, b: real, c: real)
    requires a < b && c > 0.0
    ensures a * c < b * c
  {
    assert b * c - a * c == (b - a) * c;
    PositiveProduct(b - a, c);
  }

  /** The estimate is never negative, and it is zero exactly for empty content:
      the heuristic itself has no floor of one page. */
  lemma EstimateSign(contentLength: nat, g: PageGeometry)
    requires ValidGeometry(g)
    ensures EstimatePages(contentLength, g) >= 0
    ensures EstimatePages(contentLength, g) == 0 <==> contentLength == 0
  {
    var p, c := EstimatePages(contentLength, g), PageCapacity(g);
    if p < 0 {
      ScaleMonotone(p as real, 0.0, c);
      assert false;
    }
    if p == 0 {
      assert (p as real) * c == 0.0;
    }
    if contentLength == 0 && p > 0 {
      ScaleMonotone(0.0, (p - 1) as real, c);
      assert false;
    }
  }

  /** The serialisation of a content array is never shorter than `[]`, so
      for any serialised content the estimate is at least one page. */
  lemma SerialisedContentNeedsAPage(contentLength: nat, g: PageGeometry)
    requires ValidGeometry(g) && contentLength >= 2
    ensures EstimatePages(contentLength, g) >= 1
  {
    EstimateSign(contentLength, g);
  }

  /** The content fits on one page exactly when its length is at most the
      capacity of one page: this is what the fitting loop's first test decides. */
  lemma FitsOnOnePage(contentLength: nat, g: PageGeometry)
    requires ValidGeometry(g)
    ensures EstimatePages(contentLength, g) <= 1 <==> contentLength as real <= PageCapacity(g)
  {
    var p, c := EstimatePages(contentLength, g), PageCapacity(g);
    if p <= 1 {
      ScaleMonotone(p as real, 1.0, c);
    } else {
      ScaleMonotone(1.0, (p - 1) as real, c);
    }
  }

  /** For fixed geometry, more content never gives fewer pages. */
  lemma EstimateMonotone(shorter: nat, longer: nat, g: PageGeometry)
    requires ValidGeometry(g)
    requires shorter <= longer
    ensures EstimatePages(shorter, g) <= EstimatePages(longer, g)
  {
    CeilingMonotone(EstimatePages(shorter, g), EstimatePages(longer, g), shorter as real, longer as real, PageCapacity(g));
  }

  /** Doubling the content length doubles the estimate, up to the rounding of
      the ceiling: the new estimate is twice the old one or one less. */
  lemma EstimateDoubling(contentLength: nat, g: PageGeometry)
    requires ValidGeometry(g)
    ensures var p, p2 := EstimatePages(contentLength, g), EstimatePages(2 * contentLength, g);
      2 * p - 1 <= p2 <= 2 * p
  {
    var n := contentLength as real;
    assert (2 * contentLength) as real == 2.0 * n;
    CeilingDoubles(EstimatePages(contentLength, g), EstimatePages(2 * contentLength, g), n, PageCapacity(g));
  }

  /** If p is the ceiling of n / c and p2 that of 2n / c, then p2 is 2p or 2p - 1. */
  lemma CeilingDoubles(p: int, p2: int, n: real, c: real)
    requires c > 0.0
    requires (p as real) * c >= n && ((p - 1) as real) * c < n
    requires (p2 as real) * c >= 2.0 * n && ((p2 - 1) as real) * c < 2.0 * n
    ensures 2 * p - 1 <= p2 <= 2 * p
  {
    var a, b := p as real, p2 as real;
    if p2 > 2 * p {
      ScaleMonotone(2.0 * a, b - 1.0, c);
      assert false;
    }
    if p2 < 2 * p - 1 {
      ScaleMonotone(b, 2.0 * a - 2.0, c);
      assert false;
    }
  }
}
