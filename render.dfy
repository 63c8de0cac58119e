/** What one call of the renderer paints, as a function of its inputs and of the canvas settings
    it starts from: the background, the two header lines, then one circular path per day of the
    grid. Both copies of the renderer (the page's drawWallpaper and the generator's
    generateWallpaper) are proved to append exactly `Frame(...)` to the canvas trace. */
module Render {
  import opened Canvas2D
  import opened Grid
  import opened Decimal
  import Calendar

  /** The two copies differ in one statement: the page also resets `shadowBlur` to 0 after
      filling a past dot. */
  datatype Variant = PageCopy | GeneratorCopy

  /** The outline drawn around today's dot. */
  const RingColour: string := "#fff"

  /** The header's second line, "Day N of 365". */
  function DayText(doy: int): string {
    "Day " + IntToString(doy) + " of " + IntToString(TotalDays)
  }

  /** Background, year and day counter, all painted with the shadow the canvas starts with. */
  function HeaderOps(L: Layout, th: Theme, year: int, doy: int, s: ShadowState): seq<Op> {
    var sh := Effect(s);
    [ Op.FillRect(0.0, 0.0, L.width, L.height, th.bg, sh),
      Op.FillText(IntToString(year), L.width / 2.0, L.yearY, th.highlight, Font(true, L.yearFont), "center", sh),
      Op.FillText(DayText(doy), L.width / 2.0, L.dayY, th.text, Font(false, L.dayFont), "center", sh) ]
  }

  /** Steps 1 and 3 of a render: the background, then the year and the day counter, centred. */
  method DrawHeader(canvas: Canvas, L: Layout, th: Theme, year: int, doy: int)
    modifies canvas`fillStyle, canvas`font, canvas`textAlign, canvas`trace
    ensures canvas.trace == old(canvas.trace) + HeaderOps(L, th, year, doy, old(canvas.CurrentPen()).shadow)
    ensures canvas.CurrentPen() == HeaderPen(th, old(canvas.CurrentPen()))
    ensures canvas.font == Font(false, L.dayFont) && canvas.textAlign == "center"
  {
    canvas.fillStyle := th.bg;
    canvas.FillRect(0.0, 0.0, L.width, L.height);

    canvas.textAlign := "center";
    canvas.font := Font(true, L.yearFont);
    canvas.fillStyle := th.highlight;
    canvas.FillText(IntToString(year), L.width / 2.0, L.yearY);
    canvas.font := Font(false, L.dayFont);
    canvas.fillStyle := th.text;
    canvas.FillText("Day " + IntToString(doy) + " of " + IntToString(TotalDays), L.width / 2.0, L.dayY);
  }

  /** The primitives painted for day i, given the settings before its turn. */
  function DotOps(L: Layout, th: Theme, doy: int, i: int, p: Pen): seq<Op>
    requires 1 <= i
  {
    var c := [Centre(L, i)];
    match StyleOf(i, doy)
    case Past => [FillPath(c, th.dotFilled, Effect(p.shadow))]
    case Today => [FillPath(c, th.dotGlow, Effect(ShadowState(L.glowBlur, th.dotGlow))),
                   StrokePath(c, RingColour, LineWidthAfter(p.lineWidth, L.lineWidth), Effect(ShadowState(0.0, th.dotGlow)))]
    case Future => [StrokePath(c, th.dotEmpty, LineWidthAfter(p.lineWidth, L.lineWidth), Effect(p.shadow))]
  }

  /** DotOps spelled out for each style. */
  lemma DotOpsByStyle(L: Layout, th: Theme, doy: int, i: int, p: Pen)
    requires 1 <= i
    ensures var c := [Centre(L, i)];
      && (i < doy ==> DotOps(L, th, doy, i, p) == [FillPath(c, th.dotFilled, Effect(p.shadow))])
      && (i == doy ==> DotOps(L, th, doy, i, p) == [FillPath(c, th.dotGlow, Effect(ShadowState(L.glowBlur, th.dotGlow))),
                                                     StrokePath(c, RingColour, LineWidthAfter(p.lineWidth, L.lineWidth), Effect(ShadowState(0.0, th.dotGlow)))])
      && (i > doy ==> DotOps(L, th, doy, i, p) == [StrokePath(c, th.dotEmpty, LineWidthAfter(p.lineWidth, L.lineWidth), Effect(p.shadow))])
  {
  }

  /** The settings after day i's turn. */
  function PenNext(L: Layout, th: Theme, v: Variant, doy: int, i: int, p: Pen): Pen {
    match StyleOf(i, doy)
    case Past => p.(fill := th.dotFilled,
                    shadow := if v == PageCopy then p.shadow.(blur := 0.0) else p.shadow)
    case Today => Pen(th.dotGlow, RingColour, LineWidthAfter(p.lineWidth, L.lineWidth), ShadowState(0.0, th.dotGlow))
    case Future => p.(stroke := th.dotEmpty, lineWidth := LineWidthAfter(p.lineWidth, L.lineWidth))
  }

  /** PenNext spelled out for each style. */
  lemma PenNextByStyle(L: Layout, th: Theme, v: Variant, doy: int, i: int, p: Pen)
    ensures i < doy ==>
      PenNext(L, th, v, doy, i, p) == p.(fill := th.dotFilled, shadow := if v == PageCopy then p.shadow.(blur := 0.0) else p.shadow)
    ensures i == doy ==> PenNext(L, th, v, doy, i, p) == Pen(th.dotGlow, RingColour, LineWidthAfter(p.lineWidth, L.lineWidth), ShadowState(0.0, th.dotGlow))
    ensures i > doy ==> PenNext(L, th, v, doy, i, p) == p.(stroke := th.dotEmpty, lineWidth := LineWidthAfter(p.lineWidth, L.lineWidth))
  {
  }

  /** The settings after days 1..n. */
  function PenAfter(L: Layout, th: Theme, v: Variant, doy: int, n: nat, p0: Pen): Pen {
    if n == 0 then p0 else PenNext(L, th, v, doy, n, PenAfter(L, th, v, doy, n - 1, p0))
  }

  /** The primitives painted for days 1..n, in order. */
  function DotsOps(L: Layout, th: Theme, v: Variant, doy: int, n: nat, p0: Pen): seq<Op> {
    if n == 0 then []
    else DotsOps(L, th, v, doy, n - 1, p0) + DotOps(L, th, doy, n, PenAfter(L, th, v, doy, n - 1, p0))
  }

  /** The settings when the grid starts: the header leaves `fillStyle` at the text colour. */
  function HeaderPen(th: Theme, p0: Pen): Pen {
    p0.(fill := th.text)
  }

  /** Everything one render paints, starting from settings p0. */
  function Frame(L: Layout, th: Theme, v: Variant, year: int, doy: int, p0: Pen): seq<Op> {
    HeaderOps(L, th, year, doy, p0.shadow) + DotsOps(L, th, v, doy, TotalDays, HeaderPen(th, p0))
  }

  /** The settings one render leaves behind. */
  function FinalPen(L: Layout, th: Theme, v: Variant, doy: int, p0: Pen): Pen {
    PenAfter(L, th, v, doy, TotalDays, HeaderPen(th, p0))
  }

  // ---------------------------------------------------------------- counting primitives

  /** A kind of primitive to count. */
  datatype Probe = FilledIn(colour: string) | Stroked | Glowing

  predicate Matches(op: Op, pr: Probe) {
    match pr
    case FilledIn(c) => op.FillPath? && op.colour == c
    case Stroked => op.StrokePath?
    case Glowing => op.shadow.Glow?
  }

  function CountOps(ops: seq<Op>, pr: Probe): nat {
    if ops == [] then 0
    else CountOps(ops[..|ops| - 1], pr) + (if Matches(ops[|ops| - 1], pr) then 1 else 0)
  }

  lemma {:induction false} CountOpsAppend(a: seq<Op>, b: seq<Op>, pr: Probe)
    ensures CountOps(a + b, pr) == CountOps(a, pr) + CountOps(b, pr)
    decreases |b|
  {
    if b == [] {
      assert a + b == a;
    } else {
      assert (a + b)[..|a + b| - 1] == a + b[..|b| - 1];
      assert (a + b)[|a + b| - 1] == b[|b| - 1];
      CountOpsAppend(a, b[..|b| - 1], pr);
    }
  }

  function Indicator(b: bool): nat {
    if b then 1 else 0
  }

  /** The count over one day's primitives. */
  lemma DotCount(L: Layout, th: Theme, doy: int, i: int, p: Pen, pr: Probe)
    requires 1 <= i
    ensures var ops := DotOps(L, th, doy, i, p);
      CountOps(ops, pr) == Indicator(Matches(ops[0], pr)) + (if |ops| == 2 then Indicator(Matches(ops[1], pr)) else 0)
  {
    CountShort(DotOps(L, th, doy, i, p), pr);
  }

  lemma CountShort(ops: seq<Op>, pr: Probe)
    requires 1 <= |ops| <= 2
    ensures CountOps(ops, pr) == Indicator(Matches(ops[0], pr)) + (if |ops| == 2 then Indicator(Matches(ops[1], pr)) else 0)
  {
    if |ops| == 2 {
      assert ops[..1][..0] == [];
      assert ops[..1][0] == ops[0];
    } else {
      assert ops[..0] == [];
    }
  }

  /** Day by day: one primitive per past or future day, two for today. */
  lemma {:induction false} DotsOpsLength(L: Layout, th: Theme, v: Variant, doy: int, n: nat, p0: Pen)
    ensures |DotsOps(L, th, v, doy, n, p0)| == n + CountStyle(n, doy, Today)
  {
    if n > 0 {
      DotsOpsLength(L, th, v, doy, n - 1, p0);
    }
  }

  /** Past days are filled in `dotFilled` and today is filled in `dotGlow`. */
  lemma DotsOpsFills(L: Layout, th: Theme, v: Variant, doy: int, n: nat, p0: Pen)
    requires th.dotFilled != th.dotGlow
    ensures var ops := DotsOps(L, th, v, doy, n, p0);
      && CountOps(ops, FilledIn(th.dotFilled)) == CountStyle(n, doy, Past)
      && CountOps(ops, FilledIn(th.dotGlow)) == CountStyle(n, doy, Today)
  {
    var filled := (k: nat) => CountOps(DotsOps(L, th, v, doy, k, p0), FilledIn(th.dotFilled));
    var glowing := (k: nat) => CountOps(DotsOps(L, th, v, doy, k, p0), FilledIn(th.dotGlow));
    forall k: nat | 1 <= k <= n
      ensures CountOps(DotsOps(L, th, v, doy, k, p0), FilledIn(th.dotFilled))
           == CountOps(DotsOps(L, th, v, doy, k - 1, p0), FilledIn(th.dotFilled)) + Indicator(k < doy)
      ensures CountOps(DotsOps(L, th, v, doy, k, p0), FilledIn(th.dotGlow))
           == CountOps(DotsOps(L, th, v, doy, k - 1, p0), FilledIn(th.dotGlow)) + Indicator(k == doy)
    {
      FillStep(L, th, v, doy, k, p0);
    }
    assert DotsOps(L, th, v, doy, 0, p0) == [];
    CountsByStyle(filled, n, doy, Past);
    CountsByStyle(glowing, n, doy, Today);
  }

  /** Day n adds one `dotFilled` fill if it is past and one `dotGlow` fill if it is today. */
  lemma FillStep(L: Layout, th: Theme, v: Variant, doy: int, n: nat, p0: Pen)
    requires 1 <= n && th.dotFilled != th.dotGlow
    ensures CountOps(DotsOps(L, th, v, doy, n, p0), FilledIn(th.dotFilled))
         == CountOps(DotsOps(L, th, v, doy, n - 1, p0), FilledIn(th.dotFilled)) + Indicator(n < doy)
    ensures CountOps(DotsOps(L, th, v, doy, n, p0), FilledIn(th.dotGlow))
         == CountOps(DotsOps(L, th, v, doy, n - 1, p0), FilledIn(th.dotGlow)) + Indicator(n == doy)
  {
    DotsOpsCountStep(L, th, v, doy, n, p0, FilledIn(th.dotFilled));
    DotsOpsCountStep(L, th, v, doy, n, p0, FilledIn(th.dotGlow));
    DotFills(L, th, doy, n, PenAfter(L, th, v, doy, n - 1, p0));
  }

  /** A count over days 1..n is the count over days 1..n-1 plus day n's. */
  lemma DotsOpsCountStep(L: Layout, th: Theme, v: Variant, doy: int, n: nat, p0: Pen, pr: Probe)
    requires 1 <= n
    ensures CountOps(DotsOps(L, th, v, doy, n, p0), pr)
         == CountOps(DotsOps(L, th, v, doy, n - 1, p0), pr) + CountOps(DotOps(L, th, doy, n, PenAfter(L, th, v, doy, n - 1, p0)), pr)
  {
    CountOpsAppend(DotsOps(L, th, v, doy, n - 1, p0), DotOps(L, th, doy, n, PenAfter(L, th, v, doy, n - 1, p0)), pr);
  }

  /** One day's fills: `dotFilled` for a past day, `dotGlow` for today, none for a future day. */
  lemma DotFills(L: Layout, th: Theme, doy: int, i: int, p: Pen)
    requires 1 <= i && th.dotFilled != th.dotGlow
    ensures CountOps(DotOps(L, th, doy, i, p), FilledIn(th.dotFilled)) == Indicator(i < doy)
    ensures CountOps(DotOps(L, th, doy, i, p), FilledIn(th.dotGlow)) == Indicator(i == doy)
  {
    DotCount(L, th, doy, i, p, FilledIn(th.dotFilled));
    DotCount(L, th, doy, i, p, FilledIn(th.dotGlow));
  }

  /** Today and the future days are stroked. */
  lemma {:induction false} DotsOpsStrokes(L: Layout, th: Theme, v: Variant, doy: int, n: nat, p0: Pen)
    ensures CountOps(DotsOps(L, th, v, doy, n, p0), Stroked) == CountStyle(n, doy, Today) + CountStyle(n, doy, Future)
  {
    if n > 0 {
      var p := PenAfter(L, th, v, doy, n - 1, p0);
      var prev := DotsOps(L, th, v, doy, n - 1, p0);
      var last := DotOps(L, th, doy, n, p);
      DotsOpsStrokes(L, th, v, doy, n - 1, p0);
      CountOpsAppend(prev, last, Stroked);
      DotCount(L, th, doy, n, p, Stroked);
    }
  }

  // ---------------------------------------------------------------- the glow

  /** Once shadowBlur is 0 it is 0 again after every day's turn, and after today's turn it is 0
      whatever it was before. */
  lemma {:induction false} ShadowSettles(L: Layout, th: Theme, v: Variant, doy: int, n: nat, p0: Pen)
    ensures p0.shadow.blur == 0.0 ==> PenAfter(L, th, v, doy, n, p0).shadow.blur == 0.0
    ensures 1 <= doy <= n ==> PenAfter(L, th, v, doy, n, p0).shadow.blur == 0.0
  {
    if n > 0 {
      ShadowSettles(L, th, v, doy, n - 1, p0);
    }
  }

  /** In the page's copy every dot of a real day of the year (doy >= 1) leaves shadowBlur at 0. */
  lemma {:induction false} PageShadowSettles(L: Layout, th: Theme, doy: int, n: nat, p0: Pen)
    requires 1 <= doy && 1 <= n
    ensures PenAfter(L, th, PageCopy, doy, n, p0).shadow.blur == 0.0
  {
    if n > 1 {
      PageShadowSettles(L, th, doy, n - 1, p0);
    }
  }

  /** Every glowing primitive among ops is today's fill in `dotGlow` with the glow blur. */
  predicate OnlyTodayGlows(ops: seq<Op>, L: Layout, th: Theme, doy: int) {
    forall k :: 0 <= k < |ops| && Matches(ops[k], Glowing) ==>
      1 <= doy && ops[k] == FillPath([Centre(L, doy)], th.dotGlow, Glow(L.glowBlur, th.dotGlow))
  }

  /** Without a shadow set before its turn, a day paints a glow only if it is today, and then only
      on its fill. */
  lemma DotGlow(L: Layout, th: Theme, doy: int, i: int, p: Pen)
    requires 1 <= i && p.shadow.blur == 0.0 && L.glowBlur > 0.0
    ensures OnlyTodayGlows(DotOps(L, th, doy, i, p), L, th, doy)
    ensures CountOps(DotOps(L, th, doy, i, p), Glowing) == Indicator(i == doy)
  {
    CountShort(DotOps(L, th, doy, i, p), Glowing);
  }

  /** Starting without a shadow, the only primitive painted with a glow is today's fill. */
  lemma {:induction false} GlowOnlyOnToday(L: Layout, th: Theme, v: Variant, doy: int, n: nat, p0: Pen)
    requires p0.shadow.blur == 0.0 && L.glowBlur > 0.0
    ensures OnlyTodayGlows(DotsOps(L, th, v, doy, n, p0), L, th, doy)
  {
    if n > 0 {
      var p := PenAfter(L, th, v, doy, n - 1, p0);
      var prev := DotsOps(L, th, v, doy, n - 1, p0);
      var last := DotOps(L, th, doy, n, p);
      GlowOnlyOnToday(L, th, v, doy, n - 1, p0);
      ShadowSettles(L, th, v, doy, n - 1, p0);
      DotGlow(L, th, doy, n, p);
      ConcatKeepsOnlyTodayGlows(prev, last, L, th, doy);
      assert DotsOps(L, th, v, doy, n, p0) == prev + last;
    }
  }

  /** Starting without a shadow, there is one glowing primitive when today is among the days
      drawn, and none otherwise. */
  lemma GlowCount(L: Layout, th: Theme, v: Variant, doy: int, n: nat, p0: Pen)
    requires p0.shadow.blur == 0.0 && L.glowBlur > 0.0
    ensures CountOps(DotsOps(L, th, v, doy, n, p0), Glowing) == CountStyle(n, doy, Today)
  {
    var glows := (k: nat) => CountOps(DotsOps(L, th, v, doy, k, p0), Glowing);
    forall k: nat | 1 <= k <= n
      ensures CountOps(DotsOps(L, th, v, doy, k, p0), Glowing)
           == CountOps(DotsOps(L, th, v, doy, k - 1, p0), Glowing) + Indicator(k == doy)
    {
      GlowStep(L, th, v, doy, k, p0);
    }
    assert DotsOps(L, th, v, doy, 0, p0) == [];
    CountsByStyle(glows, n, doy, Today);
  }

  /** Day n adds one glowing primitive if it is today and none otherwise, given no shadow at
      the start. */
  lemma GlowStep(L: Layout, th: Theme, v: Variant, doy: int, n: nat, p0: Pen)
    requires 1 <= n && p0.shadow.blur == 0.0 && L.glowBlur > 0.0
    ensures CountOps(DotsOps(L, th, v, doy, n, p0), Glowing)
         == CountOps(DotsOps(L, th, v, doy, n - 1, p0), Glowing) + Indicator(n == doy)
  {
    DotsOpsCountStep(L, th, v, doy, n, p0, Glowing);
    ShadowSettles(L, th, v, doy, n - 1, p0);
    DotGlow(L, th, doy, n, PenAfter(L, th, v, doy, n - 1, p0));
  }

  lemma ConcatKeepsOnlyTodayGlows(a: seq<Op>, b: seq<Op>, L: Layout, th: Theme, doy: int)
    requires OnlyTodayGlows(a, L, th, doy) && OnlyTodayGlows(b, L, th, doy)
    ensures OnlyTodayGlows(a + b, L, th, doy)
  {
    forall k | 0 <= k < |a + b| && Matches((a + b)[k], Glowing)
      ensures 1 <= doy && (a + b)[k] == FillPath([Centre(L, doy)], th.dotGlow, Glow(L.glowBlur, th.dotGlow))
    {
      if k < |a| {
        assert (a + b)[k] == a[k];
      } else {
        assert (a + b)[k] == b[k - |a|];
      }
    }
  }

  // ---------------------------------------------------------------- redrawing

  /** The dots do not depend on what the settings were, as long as no shadow was set. */
  lemma {:induction false} DotsIgnoreStartingPen(L: Layout, th: Theme, v: Variant, doy: int, n: nat, p: Pen, q: Pen)
    requires p.shadow.blur == 0.0 && q.shadow.blur == 0.0
    requires L.lineWidth > 0.0 || p.lineWidth == q.lineWidth
    ensures DotsOps(L, th, v, doy, n, p) == DotsOps(L, th, v, doy, n, q)
  {
    if n > 0 {
      DotsIgnoreStartingPen(L, th, v, doy, n - 1, p, q);
      ShadowSettles(L, th, v, doy, n - 1, p);
      ShadowSettles(L, th, v, doy, n - 1, q);
      if L.lineWidth <= 0.0 {
        WidthIgnored(L, th, v, doy, n - 1, p);
        WidthIgnored(L, th, v, doy, n - 1, q);
      }
    }
  }

  /** When the layout's line width is not positive, every assignment of it is ignored and the
      starting width stays in force. */
  lemma {:induction false} WidthIgnored(L: Layout, th: Theme, v: Variant, doy: int, n: nat, p0: Pen)
    requires L.lineWidth <= 0.0
    ensures PenAfter(L, th, v, doy, n, p0).lineWidth == p0.lineWidth
  {
    if n > 0 {
      WidthIgnored(L, th, v, doy, n - 1, p0);
    }
  }

  /** Every outline among ops is stroked with a positive width. */
  predicate StrokesVisible(ops: seq<Op>) {
    forall k :: 0 <= k < |ops| && ops[k].StrokePath? ==> ops[k].width > 0.0
  }

  /** From a positive width, which a new context has, no outline is ever stroked at width 0,
      whatever the layout's own line width. */
  lemma {:induction false} StrokesHavePositiveWidth(L: Layout, th: Theme, v: Variant, doy: int, n: nat, p0: Pen)
    requires p0.lineWidth > 0.0
    ensures StrokesVisible(DotsOps(L, th, v, doy, n, p0))
    ensures PenAfter(L, th, v, doy, n, p0).lineWidth > 0.0
  {
    if n > 0 {
      var prev := DotsOps(L, th, v, doy, n - 1, p0);
      var last := DotOps(L, th, doy, n, PenAfter(L, th, v, doy, n - 1, p0));
      StrokesHavePositiveWidth(L, th, v, doy, n - 1, p0);
      assert StrokesVisible(last);
      assert DotsOps(L, th, v, doy, n, p0) == prev + last;
      forall k | 0 <= k < |prev + last| && (prev + last)[k].StrokePath?
        ensures (prev + last)[k].width > 0.0
      {
        if k < |prev| {
          assert (prev + last)[k] == prev[k];
        } else {
          assert (prev + last)[k] == last[k - |prev|];
        }
      }
    }
  }

  /** A render paints the same frame whatever was drawn or set before it, provided no shadow is
      left set and the layout's line width takes effect (or the widths before agree); its first
      primitive covers the whole surface in the background colour. */
  lemma FrameIgnoresHistory(L: Layout, th: Theme, v: Variant, year: int, doy: int, p: Pen, q: Pen)
    requires p.shadow.blur == 0.0 && q.shadow.blur == 0.0
    requires L.lineWidth > 0.0 || p.lineWidth == q.lineWidth
    ensures Frame(L, th, v, year, doy, p) == Frame(L, th, v, year, doy, q)
    ensures Frame(L, th, v, year, doy, p)[0] == Op.FillRect(0.0, 0.0, L.width, L.height, th.bg, NoShadow)
  {
    DotsIgnoreStartingPen(L, th, v, doy, TotalDays, HeaderPen(th, p), HeaderPen(th, q));
  }

  /** The draw order: background, year, day counter, then 365 days whose primitives are counted
      by style; with the days 1..366 of a real year, doy - 1 dots (at most 365) are past and a
      today dot exists only for doy <= 365. */
  lemma FrameCounts(L: Layout, th: Theme, v: Variant, year: int, doy: int, p0: Pen)
    requires 1 <= doy <= 366 && th.dotFilled != th.dotGlow
    ensures var f := Frame(L, th, v, year, doy, p0);
      var today := if doy <= TotalDays then 1 else 0;
      |f| == 3 + TotalDays + today
      && f[0].FillRect? && f[1].FillText? && f[2].FillText?
      && f[1].text == IntToString(year) && f[2].text == DayText(doy)
      && CountOps(f[3..], FilledIn(th.dotFilled)) == doy - 1
      && CountOps(f[3..], FilledIn(th.dotGlow)) == today
      && CountOps(f[3..], Stroked) == 366 - doy
  {
    var f := Frame(L, th, v, year, doy, p0);
    assert f[3..] == DotsOps(L, th, v, doy, TotalDays, HeaderPen(th, p0));
    DotsOpsLength(L, th, v, doy, TotalDays, HeaderPen(th, p0));
    DotsOpsFills(L, th, v, doy, TotalDays, HeaderPen(th, p0));
    DotsOpsStrokes(L, th, v, doy, TotalDays, HeaderPen(th, p0));
    StyleCounts(TotalDays, doy);
  }

  /** A later date of the same year shows more past dots, by exactly the number of days between
      the two dates. */
  lemma LaterDateMorePast(s: Calendar.Instant, t: Calendar.Instant)
    requires Calendar.ValidInstant(s) && Calendar.ValidInstant(t)
    requires s.date.year == t.date.year && Calendar.Before(s.date, t.date)
    ensures var ds, dt := Calendar.DayOfYear(s), Calendar.DayOfYear(t);
      CountStyle(TotalDays, dt, Past) - CountStyle(TotalDays, ds, Past) == dt - ds > 0
  {
    var ds, dt := Calendar.DayOfYear(s), Calendar.DayOfYear(t);
    Calendar.DayOfYearOrder(s, t);
    StyleCounts(TotalDays, ds);
    StyleCounts(TotalDays, dt);
  }
}
