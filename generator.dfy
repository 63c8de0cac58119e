/** The batch generator: for every entry of its resolution table it draws the wallpaper on a
    new canvas of that size, with every size scaled by width / 1080, and writes the image to a
    file named after the resolution. */
module Generator {
  import opened Wrappers
  import opened Canvas2D
  import opened Grid
  import opened Render
  import opened Decimal
  import Calendar

  /** An entry of the resolution table. */
  datatype Resolution = Resolution(name: string, w: nat, h: nat, id: string)

  const Resolutions: seq<Resolution> := [
    Resolution("Default (FHD)", 1080, 1920, "default"),
    Resolution("Samsung S24 Ultra", 1440, 3120, "s24u"),
    Resolution("Pixel 8 Pro", 1344, 2992, "nz8p"),
    Resolution("iPhone 15 Pro Max", 1290, 2796, "i15pm"),
    Resolution("iPhone 15/14", 1179, 2556, "i15"),
    Resolution("Samsung S23/24", 1080, 2340, "s24"),
    Resolution("FHD+ Extra Tall", 1080, 2400, "fhdplus"),
    Resolution("OnePlus 11/12", 1440, 3216, "op12"),
    Resolution("Sony Xperia 1 V", 1644, 3840, "x1v"),
    Resolution("Generic HD", 720, 1280, "hd"),
    Resolution("Tablet / Folding (Square-ish)", 2200, 2480, "fold")
  ]

  /** The generator's fixed palette. */
  const GeneratorTheme: Theme := Theme("#0a0a0a", "#2a2a2a", "#e0e0e0", "#00f0ff", "#e0e0e0", "#ffffff")

  /** The sizes used on a width x height canvas: the 1080-px constants times width / 1080, the
      header and the grid at fixed fractions of the height. */
  function ScaledLayout(width: nat, height: nat): Layout {
    var scale := width as real / 1080.0;
    Layout(width as real, height as real, 100.0 * scale, 15.0 * scale,
           120.0 * scale, 40.0 * scale, height as real * 0.15, height as real * 0.18,
           height as real * 0.25, 40.0 * scale, 2.0 * scale)
  }

  /** At the reference width every size is the 1080-px constant itself; at any width each size is
      that constant in proportion, the dot size is width * 610 / (1080 * 19), and the dots and
      outlines keep their proportions. */
  lemma ScaledSizes(width: nat, height: nat)
    ensures var L, s := ScaledLayout(width, height), width as real / 1080.0;
      L.margin == 100.0 * s && L.gap == 15.0 * s && L.yearFont == 120.0 * s && L.dayFont == 40.0 * s
      && L.glowBlur == 40.0 * s && L.lineWidth == 2.0 * s
      && DotSize(L) == width as real * 610.0 / (1080.0 * 19.0)
      && (width > 0 ==> Sound(L) && L.glowBlur > 0.0)
    ensures var L := ScaledLayout(1080, height);
      L.margin == 100.0 && L.gap == 15.0 && L.yearFont == 120.0 && L.dayFont == 40.0
      && L.glowBlur == 40.0 && L.lineWidth == 2.0 && DotSize(L) == 610.0 / 19.0
  {
  }

  /** The grid fits on a width x height canvas exactly when the canvas is tall enough:
      height >= width * 17329 / 15390. */
  lemma ScaledFits(width: nat, height: nat)
    requires width > 0
    ensures Fits(ScaledLayout(width, height)) <==> 15390 * height >= 17329 * width
  {
  }

  /** Every resolution gets a positive dot size, and its grid, outlines included, stays on the
      canvas below the header. */
  lemma ResolutionsFit()
    ensures forall k :: 0 <= k < |Resolutions| ==>
      Sound(ScaledLayout(Resolutions[k].w, Resolutions[k].h))
      && Fits(ScaledLayout(Resolutions[k].w, Resolutions[k].h))
  {
    forall k | 0 <= k < |Resolutions|
      ensures Sound(ScaledLayout(Resolutions[k].w, Resolutions[k].h))
      ensures Fits(ScaledLayout(Resolutions[k].w, Resolutions[k].h))
    {
      var r := Resolutions[k];
      assert r.w > 0 && 15390 * r.h >= 17329 * r.w;
      ScaledSizes(r.w, r.h);
      ScaledFits(r.w, r.h);
    }
  }

  /** The file an image is written to. */
  function Filename(resKey: string, width: nat, height: nat): string {
    if resKey != "default" then "wallpaper-" + NatToString(width) + "x" + NatToString(height) + ".png"
    else "wallpaper.png"
  }

  /** The position of the first c in s, or |s| when there is none. */
  function FirstIndexOf(s: string, c: char): (k: nat)
    ensures k <= |s|
    ensures k < |s| ==> s[k] == c
  {
    if s == [] then 0 else if s[0] == c then 0 else 1 + FirstIndexOf(s[1..], c)
  }

  /** In a + [c] + b with no c in a, the first c is the one right after a. */
  lemma {:induction false} FirstMarker(a: string, b: string, c: char)
    requires c !in a
    ensures FirstIndexOf(a + [c] + b, c) == |a|
  {
    if a != [] {
      assert (a + [c] + b)[1..] == a[1..] + [c] + b;
      FirstMarker(a[1..], b, c);
    }
  }

  /** A string without the marker c, followed by c, is recovered from the whole: split at the
      first c. */
  lemma SplitAtMarker(a: string, b: string, a': string, b': string, c: char)
    requires c !in a && c !in a' && a + [c] + b == a' + [c] + b'
    ensures a == a' && b == b'
  {
    var s := a + [c] + b;
    FirstMarker(a, b, c);
    FirstMarker(a', b', c);
    assert a == s[..|a|] && a' == s[..|a'|];
    assert b == s[|a| + 1..] && b' == s[|a'| + 1..];
  }

  lemma NoMarkerInDigits(s: string)
    requires AllDigits(s)
    ensures 'x' !in s
  {
    assert forall k :: 0 <= k < |s| ==> s[k] != 'x';
  }

  /** The character after "wallpaper" tells the two kinds of name apart. */
  lemma FilenameKind(k: string, w: nat, h: nat)
    ensures |Filename(k, w, h)| > 9
    ensures Filename(k, w, h)[9] == (if k != "default" then '-' else '.')
  {
  }

  /** The default name is chosen exactly for the "default" key. */
  lemma FilenameCases(k: string, w: nat, h: nat)
    ensures Filename(k, w, h) == "wallpaper.png" <==> k == "default"
    ensures k != "default" ==> Filename(k, w, h) == "wallpaper-" + NatToString(w) + "x" + NatToString(h) + ".png"
  {
    FilenameKind(k, w, h);
    assert "wallpaper.png"[9] == '.';
  }

  /** Two file names are equal only for the same choice: the default name, or the same
      width and height. */
  lemma FilenameInjective(k1: string, w1: nat, h1: nat, k2: string, w2: nat, h2: nat)
    requires Filename(k1, w1, h1) == Filename(k2, w2, h2)
    ensures (k1 == "default") == (k2 == "default")
    ensures k1 != "default" ==> w1 == w2 && h1 == h2
  {
    var f := Filename(k1, w1, h1);
    FilenameKind(k1, w1, h1);
    FilenameKind(k2, w2, h2);
    if k1 != "default" {
      var e1, e2 := NatToString(h1) + ".png", NatToString(h2) + ".png";
      assert f == "wallpaper-" + (NatToString(w1) + ['x'] + e1);
      assert f == "wallpaper-" + (NatToString(w2) + ['x'] + e2);
      assert NatToString(w1) + ['x'] + e1 == f[10..] == NatToString(w2) + ['x'] + e2;
      NoMarkerInDigits(NatToString(w1));
      NoMarkerInDigits(NatToString(w2));
      SplitAtMarker(NatToString(w1), e1, NatToString(w2), e2, 'x');
      assert NatToString(h1) == e1[..|e1| - 4] && NatToString(h2) == e2[..|e2| - 4];
      NatToStringInjective(w1, w2);
      NatToStringInjective(h1, h2);
    }
  }

  function OutputName(r: Resolution): string {
    Filename(r.id, r.w, r.h)
  }

  /** No two resolutions write the same file, so no run overwrites another's image. */
  lemma OutputNamesDistinct(j: int, k: int)
    requires 0 <= j < k < |Resolutions|
    ensures OutputName(Resolutions[j]) != OutputName(Resolutions[k])
  {
    if OutputName(Resolutions[j]) == OutputName(Resolutions[k]) {
      var rj, rk := Resolutions[j], Resolutions[k];
      FilenameInjective(rj.id, rj.w, rj.h, rk.id, rk.w, rk.h);
      assert false;
    }
  }

  /** The date to draw: the override from the command line when it parsed as a date. */
  function ResolveDate(now: Calendar.Instant, override: Option<Calendar.Instant>): Calendar.Instant {
    if override.Some? then override.value else now
  }

  /** A written image file. */
  datatype Output = Output(filename: string, width: nat, height: nat, image: seq<Op>)

  /** What generateWallpaper writes for one resolution. */
  function Expected(resKey: string, width: nat, height: nat, date: Calendar.Instant): Output
    requires Calendar.ValidInstant(date)
  {
    Output(Filename(resKey, width, height), width, height,
           Frame(ScaledLayout(width, height), GeneratorTheme, GeneratorCopy,
                 date.date.year, Calendar.DayOfYear(date), DefaultPen))
  }

  /** A generated image starts with the background over the whole canvas, then the year at 15%
      and the day counter at 18% of the height, both centred, in fonts scaled from 120 px and
      40 px, none of them shadowed. */
  lemma GeneratedHeader(resKey: string, width: nat, height: nat, date: Calendar.Instant)
    requires Calendar.ValidInstant(date)
    ensures var f, s := Expected(resKey, width, height, date).image, width as real / 1080.0;
      && |f| >= 3
      && f[0] == Op.FillRect(0.0, 0.0, width as real, height as real, GeneratorTheme.bg, NoShadow)
      && f[1] == Op.FillText(IntToString(date.date.year), width as real / 2.0, height as real * 0.15,
                             GeneratorTheme.highlight, Font(true, 120.0 * s), "center", NoShadow)
      && f[2] == Op.FillText(DayText(Calendar.DayOfYear(date)), width as real / 2.0, height as real * 0.18,
                             GeneratorTheme.text, Font(false, 40.0 * s), "center", NoShadow)
  {
    var L := ScaledLayout(width, height);
    var f := Expected(resKey, width, height, date).image;
    var h := HeaderOps(L, GeneratorTheme, date.date.year, Calendar.DayOfYear(date), DefaultPen.shadow);
    assert f == h + DotsOps(L, GeneratorTheme, GeneratorCopy, Calendar.DayOfYear(date), TotalDays, HeaderPen(GeneratorTheme, DefaultPen));
    assert f[..3] == h;
  }

  /** Every outline of a generated image has a positive width, whatever the size. A width of 0
      scales `lineWidth` to 0, which the context ignores, so it keeps its default of 1. */
  lemma GeneratedStrokesVisible(resKey: string, width: nat, height: nat, date: Calendar.Instant)
    requires Calendar.ValidInstant(date)
    ensures StrokesVisible(Expected(resKey, width, height, date).image)
  {
    var L, doy := ScaledLayout(width, height), Calendar.DayOfYear(date);
    var f := Expected(resKey, width, height, date).image;
    var h := HeaderOps(L, GeneratorTheme, date.date.year, doy, DefaultPen.shadow);
    var d := DotsOps(L, GeneratorTheme, GeneratorCopy, doy, TotalDays, HeaderPen(GeneratorTheme, DefaultPen));
    assert f == h + d;
    StrokesHavePositiveWidth(L, GeneratorTheme, GeneratorCopy, doy, TotalDays, HeaderPen(GeneratorTheme, DefaultPen));
    forall k | 0 <= k < |f| && f[k].StrokePath?
      ensures f[k].width > 0.0
    {
      if k >= |h| {
        assert f[k] == d[k - |h|];
      }
    }
  }

  /** One day of the grid: the circle at (cx, cy) and its fill or outline. */
  method DrawDot(canvas: Canvas, L: Layout, theme: Theme, dayOfYear: int, i: int, cx: real, cy: real, radius: real)
    requires 1 <= i && radius >= 0.0 && Circle(cx, cy, radius) == Centre(L, i)
    modifies canvas`fillStyle, canvas`strokeStyle, canvas`lineWidth, canvas`shadowBlur,
             canvas`shadowColor, canvas`path, canvas`trace
    ensures canvas.trace == old(canvas.trace) + DotOps(L, theme, dayOfYear, i, old(canvas.CurrentPen()))
    ensures canvas.CurrentPen() == PenNext(L, theme, GeneratorCopy, dayOfYear, i, old(canvas.CurrentPen()))
  {
    ghost var before, p := canvas.trace, canvas.CurrentPen();
    DotOpsByStyle(L, theme, dayOfYear, i, p);
    PenNextByStyle(L, theme, GeneratorCopy, dayOfYear, i, p);

    canvas.BeginPath();
    canvas.Arc(cx, cy, radius);
    assert canvas.path == [Centre(L, i)];
    assert p.shadow == ShadowState(canvas.shadowBlur, canvas.shadowColor);

    if i < dayOfYear {
      // past
      canvas.fillStyle := theme.dotFilled;
      canvas.Fill();
      assert canvas.trace == before + DotOps(L, theme, dayOfYear, i, p);
    } else if i == dayOfYear {
      // today: a glowing fill, then a ring without the glow
      canvas.fillStyle := theme.dotGlow;
      canvas.shadowColor := theme.dotGlow;
      canvas.shadowBlur := L.glowBlur;
      canvas.Fill();
      canvas.shadowBlur := 0.0;
      canvas.strokeStyle := RingColour;
      canvas.SetLineWidth(L.lineWidth);
      canvas.Stroke();
      assert canvas.trace == before + DotOps(L, theme, dayOfYear, i, p);
    } else {
      // future
      canvas.strokeStyle := theme.dotEmpty;
      canvas.SetLineWidth(L.lineWidth);
      canvas.Stroke();
      assert canvas.trace == before + DotOps(L, theme, dayOfYear, i, p);
    }
  }

  /** Step 4 of generateWallpaper: one circle per day, filled, glowing or outlined. */
  method DrawGrid(canvas: Canvas, L: Layout, theme: Theme, dayOfYear: int)
    modifies canvas`fillStyle, canvas`strokeStyle, canvas`lineWidth, canvas`shadowBlur,
             canvas`shadowColor, canvas`path, canvas`trace
    requires DotSize(L) >= 0.0
    ensures canvas.trace == old(canvas.trace) + DotsOps(L, theme, GeneratorCopy, dayOfYear, TotalDays, old(canvas.CurrentPen()))
    ensures canvas.CurrentPen() == PenAfter(L, theme, GeneratorCopy, dayOfYear, TotalDays, old(canvas.CurrentPen()))
  {
    ghost var header, p0 := canvas.trace, canvas.CurrentPen();
    var cols := Cols;
    var dotSize := DotSize(L);
    var radius := dotSize / 2.0;
    var xStart := L.margin + radius;
    var yStart := L.yStart;

    for i := 1 to TotalDays + 1
      invariant canvas.trace == header + DotsOps(L, theme, GeneratorCopy, dayOfYear, i - 1, p0)
      invariant canvas.CurrentPen() == PenAfter(L, theme, GeneratorCopy, dayOfYear, i - 1, p0)
    {
      var colIndex := (i - 1) % cols;
      var rowIndex := (i - 1) / cols;
      var cx := xStart + Steps(colIndex, dotSize + L.gap);
      var cy := yStart + Steps(rowIndex, dotSize + L.gap);
      assert colIndex == Column(i) && rowIndex == Row(i) && dotSize + L.gap == Pitch(L) && radius == Radius(L);
      assert Circle(cx, cy, radius) == Centre(L, i);
      DrawDot(canvas, L, theme, dayOfYear, i, cx, cy, radius);
    }
  }

  /** Draws one wallpaper on a new width x height canvas and returns the file it writes. */
  method GenerateWallpaper(resKey: string, width: nat, height: nat,
                           now: Calendar.Instant, override: Option<Calendar.Instant>)
    returns (out: Output)
    requires Calendar.ValidInstant(now)
    requires override.Some? ==> Calendar.ValidInstant(override.value)
    ensures out == Expected(resKey, width, height, ResolveDate(now, override))
  {
    var canvas := new Canvas(width, height);
    var theme := GeneratorTheme;
    // every size scaled by width / 1080, see ScaledLayout
    var L := ScaledLayout(width, height);
    ScaledSizes(width, height);

    // 2. date
    var date := now;
    if override.Some? {
      date := override.value;
    }
    var year := date.date.year;
    var dayOfYear := Calendar.DayOfYear(date);
    var totalDays := TotalDays;

    // 1. and 3. background and header
    DrawHeader(canvas, L, theme, year, dayOfYear);
    // 4. grid
    DrawGrid(canvas, L, theme, dayOfYear);

    out := Output(Filename(resKey, width, height), width, height, canvas.trace);
  }

  /** What generateWallpaper writes for resolution r on the given date. */
  function Produced(r: Resolution, date: Calendar.Instant): Output
    requires Calendar.ValidInstant(date)
  {
    Expected(r.id, r.w, r.h, date)
  }

  /** No two entries of the table write the same file. */
  predicate DistinctOutputs(table: seq<Resolution>) {
    forall j, k :: 0 <= j < k < |table| ==> OutputName(table[j]) != OutputName(table[k])
  }

  lemma ResolutionsDistinct()
    ensures DistinctOutputs(Resolutions)
  {
    forall j, k | 0 <= j < k < |Resolutions|
      ensures OutputName(Resolutions[j]) != OutputName(Resolutions[k])
    {
      OutputNamesDistinct(j, k);
    }
  }

  /** One image per entry of the table, each stored under its file name; distinct names mean no
      image overwrites another. Each call reads the clock afresh: entry k is drawn at nows[k]. */
  method GenerateEach(table: seq<Resolution>, nows: seq<Calendar.Instant>, override: Option<Calendar.Instant>)
    returns (files: map<string, Output>)
    requires DistinctOutputs(table)
    requires |nows| == |table| && forall k :: 0 <= k < |nows| ==> Calendar.ValidInstant(nows[k])
    requires override.Some? ==> Calendar.ValidInstant(override.value)
    ensures files.Keys == set k | 0 <= k < |table| :: OutputName(table[k])
    ensures forall k :: 0 <= k < |table| ==>
      files[OutputName(table[k])] == Produced(table[k], ResolveDate(nows[k], override))
  {
    ghost var names := seq(|table|, j requires 0 <= j < |table| => OutputName(table[j]));
    ghost var images := seq(|table|, j requires 0 <= j < |table| => Produced(table[j], ResolveDate(nows[j], override)));
    files := map[];
    for k := 0 to |table|
      invariant Stored(files, names, images, k)
    {
      var r := table[k];
      var out := GenerateWallpaper(r.id, r.w, r.h, nows[k], override);
      StoreNext(files, names, images, k);
      files := files[out.filename := out];
    }
    assert files.Keys == set k | 0 <= k < |table| :: names[k];
    forall k | 0 <= k < |table|
      ensures OutputName(table[k]) in files && files[OutputName(table[k])] == Produced(table[k], ResolveDate(nows[k], override))
    {
      assert names[k] == OutputName(table[k]) && images[k] == Produced(table[k], ResolveDate(nows[k], override));
      assert names[k] in files.Keys;
    }
  }

  /** The files hold exactly images[j] under names[j], for each of the first k entries. */
  ghost predicate Stored(files: map<string, Output>, names: seq<string>, images: seq<Output>, k: nat)
    requires k <= |names| == |images|
  {
    && files.Keys == (set j | 0 <= j < k :: names[j])
    && forall j :: 0 <= j < k ==> files[names[j]] == images[j]
  }

  lemma StoreNext(files: map<string, Output>, names: seq<string>, images: seq<Output>, k: nat)
    requires k < |names| == |images|
    requires forall j :: 0 <= j < k ==> names[j] != names[k]
    requires Stored(files, names, images, k)
    ensures Stored(files[names[k] := images[k]], names, images, k + 1)
  {
    var files' := files[names[k] := images[k]];
    forall j | 0 <= j < k + 1
      ensures files'[names[j]] == images[j]
    {
    }
    assert (set j | 0 <= j < k + 1 :: names[j]) == (set j | 0 <= j < k :: names[j]) + {names[k]};
  }

  /** The main loop: every resolution of the table, entry k drawn at the time nows[k] its call
      reads. */
  method GenerateAll(nows: seq<Calendar.Instant>, override: Option<Calendar.Instant>)
    returns (files: map<string, Output>)
    requires |nows| == |Resolutions| && forall k :: 0 <= k < |nows| ==> Calendar.ValidInstant(nows[k])
    requires override.Some? ==> Calendar.ValidInstant(override.value)
    ensures files.Keys == set k | 0 <= k < |Resolutions| :: OutputName(Resolutions[k])
    ensures forall k :: 0 <= k < |Resolutions| ==>
      files[OutputName(Resolutions[k])] == Produced(Resolutions[k], ResolveDate(nows[k], override))
  {
    ResolutionsDistinct();
    files := GenerateEach(Resolutions, nows, override);
  }
}
