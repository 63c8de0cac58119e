/** The progress grid shared by the page and the generator: 365 days laid out row by row in
    19 columns, each day classified against the day of the year, and the layout sizes from
    which the dot centres are computed. */
module Grid {
  import opened Canvas2D

  const Cols: int := 19
  const TotalDays: int := 365

  /** A named palette: the six colours every rendered element takes its colour from. */
  datatype Theme = Theme(bg: string, dotEmpty: string, dotFilled: string, dotGlow: string,
                         text: string, highlight: string)

  // ---------------------------------------------------------------- cells

  function Column(i: int): int
    requires 1 <= i
  {
    (i - 1) % Cols
  }

  function Row(i: int): int
    requires 1 <= i
  {
    (i - 1) / Cols
  }

  /** Day i sits in a cell of the 19 x 20 grid, and reading the cells row by row gives i back. */
  lemma CellOfDay(i: int)
    requires 1 <= i <= TotalDays
    ensures 0 <= Column(i) < Cols && 0 <= Row(i) < 20
    ensures Row(i) * Cols + Column(i) + 1 == i
  {
  }

  /** No two days share a cell. */
  lemma CellsDistinct(i: int, j: int)
    requires 1 <= i <= TotalDays && 1 <= j <= TotalDays && i != j
    ensures Row(i) != Row(j) || Column(i) != Column(j)
  {
    CellOfDay(i);
    CellOfDay(j);
  }

  /** Every cell of the first 19 rows holds a day, and the last row holds days 362..365 only:
      365 == 19 * 19 + 4. */
  lemma CellsUsed(r: int, c: int)
    requires 0 <= c < Cols && (0 <= r < 19 || (r == 19 && c < 4))
    ensures 1 <= r * Cols + c + 1 <= TotalDays
    ensures Row(r * Cols + c + 1) == r && Column(r * Cols + c + 1) == c
  {
  }

  lemma LastRow(i: int)
    requires 1 <= i <= TotalDays
    ensures Row(i) == 19 <==> 362 <= i
  {
  }

  // ---------------------------------------------------------------- styles

  datatype Style = Past | Today | Future

  /** How day i of the grid is drawn when today is day `doy` of the year. */
  function StyleOf(i: int, doy: int): Style {
    if i < doy then Past else if i == doy then Today else Future
  }

  /** The number of days among 1..n drawn in style s. */
  function CountStyle(n: nat, doy: int, s: Style): nat {
    if n == 0 then 0
    else CountStyle(n - 1, doy, s) + (if StyleOf(n, doy) == s then 1 else 0)
  }

  /** A count that starts at 0 and grows by one exactly on the days of style s counts the days
      of style s. */
  lemma {:induction false} CountsByStyle(c: nat -> nat, n: nat, doy: int, s: Style)
    requires c(0) == 0
    requires forall k: nat :: 1 <= k <= n ==> c(k) == c(k - 1) + (if StyleOf(k, doy) == s then 1 else 0)
    ensures c(n) == CountStyle(n, doy, s)
  {
    if n > 0 {
      CountsByStyle(c, n - 1, doy, s);
    }
  }

  function Clamp(x: int, lo: int, hi: int): int
    requires lo <= hi
  {
    if x < lo then lo else if x > hi then hi else x
  }

  /** Among days 1..n: doy - 1 are past (clamped to 0..n), today is drawn only when doy is one
      of them, and the rest are future. */
  lemma {:induction false} StyleCounts(n: nat, doy: int)
    ensures CountStyle(n, doy, Past) == Clamp(doy - 1, 0, n)
    ensures CountStyle(n, doy, Today) == if 1 <= doy <= n then 1 else 0
    ensures CountStyle(n, doy, Future) == n - Clamp(doy, 0, n)
  {
    if n > 0 {
      StyleCounts(n - 1, doy);
    }
  }

  // ---------------------------------------------------------------- layout

  /** The sizes and offsets, in pixels, that place the header and the grid on a surface. */
  datatype Layout = Layout(width: real, height: real, margin: real, gap: real,
                           yearFont: real, dayFont: real, yearY: real, dayY: real,
                           yStart: real, glowBlur: real, lineWidth: real)

  /** The dot diameter: 19 dots and 18 gaps fill the width between the margins. */
  function DotSize(L: Layout): real {
    ((L.width - L.margin * 2.0) - (Cols - 1) as real * L.gap) / Cols as real
  }

  function Radius(L: Layout): real {
    DotSize(L) / 2.0
  }

  /** The distance between the centres of neighbouring dots. */
  function Pitch(L: Layout): real {
    DotSize(L) + L.gap
  }

  /** k pitches of length p. */
  function Steps(k: int, p: real): real {
    k as real * p
  }

  /** The circle drawn for day i. */
  function Centre(L: Layout, i: int): Circle
    requires 1 <= i
  {
    Circle(L.margin + Radius(L) + Steps(Column(i), Pitch(L)),
           L.yStart + Steps(Row(i), Pitch(L)),
           Radius(L))
  }

  /** Dots have a positive size and an outline thinner than the gap between them. */
  predicate Sound(L: Layout) {
    DotSize(L) > 0.0 && 0.0 <= L.lineWidth < L.gap
  }

  /** The grid, outlines included, lies inside the surface and below the day counter. */
  predicate Fits(L: Layout) {
    var edge := Radius(L) + L.lineWidth / 2.0;
    L.margin - L.lineWidth / 2.0 >= 0.0
    && L.yStart - edge > L.dayY
    && L.yStart + 19.0 * Pitch(L) + edge <= L.height
  }

  /** The first column's dots start at the left margin and the last column's end at the right
      margin. */
  lemma GridSpansMargins(L: Layout)
    ensures Centre(L, 1).cx - Radius(L) == L.margin
    ensures Centre(L, Cols).cx + Radius(L) == L.width - L.margin
  {
  }

  lemma StepsBetween(k: int, hi: int, p: real)
    requires 0 <= k <= hi && p >= 0.0
    ensures 0.0 <= Steps(k, p) <= Steps(hi, p) == hi as real * p
  {
    assert hi as real * p - k as real * p == (hi - k) as real * p;
  }

  lemma StepsApart(a: int, b: int, p: real)
    requires a < b && p >= 0.0
    ensures Steps(b, p) - Steps(a, p) >= p
  {
    assert b as real * p - a as real * p == (b - a - 1) as real * p + p;
    StepsBetween(0, b - a - 1, p);
  }

  /** Centres move right along a row and down from row to row. */
  lemma CentresOrdered(L: Layout, i: int, j: int)
    requires Sound(L) && 1 <= i && 1 <= j
    ensures Row(i) == Row(j) && Column(i) < Column(j) ==> Centre(L, i).cx < Centre(L, j).cx
    ensures Row(i) < Row(j) ==> Centre(L, i).cy < Centre(L, j).cy
  {
    if Column(i) < Column(j) {
      StepsApart(Column(i), Column(j), Pitch(L));
    }
    if Row(i) < Row(j) {
      StepsApart(Row(i), Row(j), Pitch(L));
    }
  }

  function Abs(x: real): real {
    if x < 0.0 then -x else x
  }

  /** Two different days are a whole pitch apart in some direction, so neither their discs nor
      their outlines touch. */
  lemma DotsApart(L: Layout, i: int, j: int)
    requires Sound(L) && 1 <= i <= TotalDays && 1 <= j <= TotalDays && i != j
    ensures Abs(Centre(L, i).cx - Centre(L, j).cx) >= Pitch(L)
         || Abs(Centre(L, i).cy - Centre(L, j).cy) >= Pitch(L)
    ensures Pitch(L) > 2.0 * Radius(L) + L.lineWidth
  {
    CellsDistinct(i, j);
    var p := Pitch(L);
    if Column(i) < Column(j) {
      StepsApart(Column(i), Column(j), p);
    } else if Column(j) < Column(i) {
      StepsApart(Column(j), Column(i), p);
    } else if Row(i) < Row(j) {
      StepsApart(Row(i), Row(j), p);
    } else {
      StepsApart(Row(j), Row(i), p);
    }
  }

  /** When the layout fits, every dot and its outline lie inside the surface, below the header. */
  lemma DotInside(L: Layout, i: int)
    requires Sound(L) && Fits(L) && 1 <= i <= TotalDays
    ensures var c, edge := Centre(L, i), Radius(L) + L.lineWidth / 2.0;
      0.0 <= c.cx - edge && c.cx + edge <= L.width
      && L.dayY < c.cy - edge && c.cy + edge <= L.height
  {
    CellOfDay(i);
    var p := Pitch(L);
    StepsBetween(Column(i), Cols - 1, p);
    StepsBetween(Row(i), 19, p);
    assert L.margin + 2.0 * Radius(L) + 18.0 * p == L.width - L.margin;
  }
}
