/** The browser page: a 1080 x 1920 preview of the wallpaper in one of three themes, redrawn
    whenever the theme changes, and a download link for the image of the selected resolution. */
module Page {
  import opened Wrappers
  import opened Canvas2D
  import opened Grid
  import opened Render
  import Calendar

  /** The page's palettes, by name. */
  const Themes: map<string, Theme> := map[
    "dark" := Theme("#0a0a0a", "#2a2a2a", "#e0e0e0", "#00f0ff", "#e0e0e0", "#ffffff"),
    "light" := Theme("#f4f4f4", "#d1d1d1", "#333333", "#ff4757", "#333333", "#000000"),
    "cyberpunk" := Theme("#0d0221", "#261447", "#ff00ff", "#00f0ff", "#00f0ff", "#ffe100")
  ]

  /** The storage key under which the chosen theme is remembered. */
  const ThemeKey: string := "year-progress-theme"

  const BaseUrl: string := "https://raw.githubusercontent.com/pranmya/year-progress/main/"

  /** Resolution id to "<width>x<height>", for the ids that have a file of their own. */
  const ResMap: map<string, string> := map[
    "s24u" := "1440x3120",
    "nz8p" := "1344x2992",
    "i15pm" := "1290x2796",
    "i15" := "1179x2556",
    "s24" := "1080x2340",
    "op12" := "1440x3216",
    "x1v" := "1644x3840",
    "hd" := "720x1280",
    "fold" := "2200x2480"
  ]

  /** The page's fixed sizes: a 100-px margin, 15-px gaps, the year at y = 250, the day counter
      at y = 320 and the first row of dots at y = 450. */
  function PageLayout(): Layout {
    Layout(1080.0, 1920.0, 100.0, 15.0, 120.0, 40.0, 250.0, 320.0, 450.0, 40.0, 2.0)
  }

  /** The dots are 610/19 px wide and the whole grid, outlines included, fits on the page below
      the day counter. */
  lemma PageLayoutFits()
    ensures DotSize(PageLayout()) == 610.0 / 19.0
    ensures Sound(PageLayout()) && Fits(PageLayout())
  {
    var L := PageLayout();
    assert DotSize(L) == 610.0 / 19.0;
    assert Radius(L) == 305.0 / 19.0;
    assert Pitch(L) == 895.0 / 19.0;
  }

  /** What the page paints for one draw: the frame of the given theme and date. */
  function PageFrame(th: Theme, now: Calendar.Instant): seq<Op>
    requires Calendar.ValidInstant(now)
  {
    Frame(PageLayout(), th, PageCopy, now.date.year, Calendar.DayOfYear(now), DefaultPen)
  }

  /** The download link for resolution id `res`, looked up in the map `m` from ids to
      "<width>x<height>". */
  function LinkIn(m: map<string, string>, res: string): string {
    var filename :=
      if res != "default" && res in m && m[res] != "" then "wallpaper-" + m[res] + ".png"
      else "wallpaper.png";
    BaseUrl + filename
  }

  /** The download link for the selected resolution id. */
  function LinkFor(res: string): string {
    LinkIn(ResMap, res)
  }

  /** The link names "wallpaper.png" exactly when the id is "default" or has no entry in the map,
      and "wallpaper-<width>x<height>.png" otherwise. */
  lemma LinkForCases(res: string)
    ensures LinkFor(res) == BaseUrl + "wallpaper.png" <==> res == "default" || res !in ResMap
    ensures res != "default" && res in ResMap ==> LinkFor(res) == BaseUrl + "wallpaper-" + ResMap[res] + ".png"
  {
    if res != "default" && res in ResMap {
      var named := BaseUrl + "wallpaper-" + ResMap[res] + ".png";
      assert named[|BaseUrl| + 9] == '-';
      assert (BaseUrl + "wallpaper.png")[|BaseUrl| + 9] == '.';
    }
  }

  /** The theme to start with: the remembered one, or "dark" when nothing (or an empty string) is
      remembered. */
  function SavedTheme(stored: Option<string>): string {
    if stored.Some? && stored.value != "" then stored.value else "dark"
  }

  /** One day of the grid: the circle at (cx, cy) and its fill or outline. */
  method DrawDot(canvas: Canvas, L: Layout, theme: Theme, dayOfYear: int, i: int, cx: real, cy: real, radius: real)
    requires 1 <= i && radius >= 0.0 && Circle(cx, cy, radius) == Centre(L, i)
    modifies canvas`fillStyle, canvas`strokeStyle, canvas`lineWidth, canvas`shadowBlur,
             canvas`shadowColor, canvas`path, canvas`trace
    ensures canvas.trace == old(canvas.trace) + DotOps(L, theme, dayOfYear, i, old(canvas.CurrentPen()))
    ensures canvas.CurrentPen() == PenNext(L, theme, PageCopy, dayOfYear, i, old(canvas.CurrentPen()))
  {
    ghost var before, p := canvas.trace, canvas.CurrentPen();
    DotOpsByStyle(L, theme, dayOfYear, i, p);
    PenNextByStyle(L, theme, PageCopy, dayOfYear, i, p);

    canvas.BeginPath();
    canvas.Arc(cx, cy, radius);
    assert canvas.path == [Centre(L, i)];
    assert p.shadow == ShadowState(canvas.shadowBlur, canvas.shadowColor);

    if i < dayOfYear {
      // past
      canvas.fillStyle := theme.dotFilled;
      canvas.Fill();
      canvas.shadowBlur := 0.0;
      assert canvas.trace == before + DotOps(L, theme, dayOfYear, i, p);
    } else if i == dayOfYear {
      // today: a glowing fill, then a ring without the glow
      canvas.fillStyle := theme.dotGlow;
      canvas.shadowColor := theme.dotGlow;
      canvas.shadowBlur := L.glowBlur;
      canvas.Fill();
      canvas.shadowBlur := 0.0;
      canvas.strokeStyle := RingColour;
      canvas.SetLineWidth(L.lineWidth);
      canvas.Stroke();
      assert canvas.trace == before + DotOps(L, theme, dayOfYear, i, p);
    } else {
      // future
      canvas.strokeStyle := theme.dotEmpty;
      canvas.SetLineWidth(L.lineWidth);
      canvas.Stroke();
      assert canvas.trace == before + DotOps(L, theme, dayOfYear, i, p);
    }
  }

  /** Step 4 of drawWallpaper: one circle per day; after a past day's fill the shadow blur is
      reset to 0. */
  method DrawGrid(canvas: Canvas, L: Layout, theme: Theme, dayOfYear: int)
    requires DotSize(L) >= 0.0
    modifies canvas`fillStyle, canvas`strokeStyle, canvas`lineWidth, canvas`shadowBlur,
             canvas`shadowColor, canvas`path, canvas`trace
    ensures canvas.trace == old(canvas.trace) + DotsOps(L, theme, PageCopy, dayOfYear, TotalDays, old(canvas.CurrentPen()))
    ensures canvas.CurrentPen() == PenAfter(L, theme, PageCopy, dayOfYear, TotalDays, old(canvas.CurrentPen()))
  {
    ghost var header, p0 := canvas.trace, canvas.CurrentPen();
    var dotSize := DotSize(L);
    var radius := dotSize / 2.0;
    var xStart := L.margin + radius;
    var yStart := L.yStart;

    for i := 1 to TotalDays + 1
      invariant canvas.trace == header + DotsOps(L, theme, PageCopy, dayOfYear, i - 1, p0)
      invariant canvas.CurrentPen() == PenAfter(L, theme, PageCopy, dayOfYear, i - 1, p0)
    {
      var colIndex := (i - 1) % Cols;
      var rowIndex := (i - 1) / Cols;
      var cx := xStart + Steps(colIndex, dotSize + L.gap);
      var cy := yStart + Steps(rowIndex, dotSize + L.gap);
      assert colIndex == Column(i) && rowIndex == Row(i) && dotSize + L.gap == Pitch(L) && radius == Radius(L);
      assert Circle(cx, cy, radius) == Centre(L, i);
      DrawDot(canvas, L, theme, dayOfYear, i, cx, cy, radius);
    }
  }

  /** The body of drawWallpaper: header and grid in the given theme for the date `now`. Started
      with no blur set, it appends the same frame whatever was drawn before, and leaves no blur. */
  method DrawFrame(canvas: Canvas, theme: Theme, now: Calendar.Instant)
    requires canvas.shadowBlur == 0.0 && Calendar.ValidInstant(now)
    modifies canvas`fillStyle, canvas`strokeStyle, canvas`lineWidth, canvas`shadowBlur,
             canvas`shadowColor, canvas`font, canvas`textAlign, canvas`path, canvas`trace
    ensures canvas.trace == old(canvas.trace) + PageFrame(theme, now)
    ensures canvas.CurrentPen() == FinalPen(PageLayout(), theme, PageCopy, Calendar.DayOfYear(now), old(canvas.CurrentPen()))
    ensures canvas.shadowBlur == 0.0
    ensures canvas.font == Font(false, PageLayout().dayFont) && canvas.textAlign == "center"
  {
    var L := PageLayout();
    ghost var t0, p := canvas.trace, canvas.CurrentPen();

    var year := now.date.year;
    var dayOfYear := Calendar.DayOfYear(now);

    DrawHeader(canvas, L, theme, year, dayOfYear);
    assert DotSize(L) >= 0.0 by {
      PageLayoutFits();
    }
    DrawGrid(canvas, L, theme, dayOfYear);

    ghost var f := Frame(L, theme, PageCopy, year, dayOfYear, p);
    assert f == HeaderOps(L, theme, year, dayOfYear, p.shadow) + DotsOps(L, theme, PageCopy, dayOfYear, TotalDays, HeaderPen(theme, p));
    assert canvas.trace == t0 + f;
    PageShadowSettles(L, theme, dayOfYear, TotalDays, HeaderPen(theme, p));
    FrameIgnoresHistory(L, theme, PageCopy, year, dayOfYear, p, DefaultPen);
  }

  /** The page's state: its canvas, the current theme, the remembered theme, the selected
      resolution and the link shown for it. */
  class WallpaperPage {
    const canvas: Canvas
    var currentTheme: string
    var stored: Option<string>
    var selection: string
    var link: string

    /** The canvas has the page's size, the current theme is one of the three, and no shadow is
        left set between draws. */
    ghost predicate Valid()
      reads this, canvas
    {
      canvas.width == 1080.0 && canvas.height == 1920.0
      && currentTheme in Themes
      && canvas.shadowBlur == 0.0
    }

    /** The page once loaded: the remembered theme applied (and drawn), and the link set for the
        selected resolution. */
    constructor (remembered: Option<string>, selected: string, now: Calendar.Instant)
      requires SavedTheme(remembered) in Themes && Calendar.ValidInstant(now)
      ensures Valid() && fresh(canvas)
      ensures currentTheme == SavedTheme(remembered) && stored == Some(currentTheme)
      ensures canvas.trace == PageFrame(Themes[currentTheme], now)
      ensures selection == selected && link == LinkFor(selected)
    {
      canvas := new Canvas(1080, 1920);
      currentTheme := "dark";
      stored := remembered;
      selection := selected;
      link := "";
      new;
      InitTheme(now);
      UpdateLink();
    }

    /** Paints the whole wallpaper for the current theme and date. Whatever was drawn before, the
        frame appended is the same one. */
    method DrawWallpaper(now: Calendar.Instant)
      requires Valid() && Calendar.ValidInstant(now)
      modifies canvas`fillStyle, canvas`strokeStyle, canvas`lineWidth, canvas`shadowBlur,
               canvas`shadowColor, canvas`font, canvas`textAlign, canvas`path, canvas`trace
      ensures Valid()
      ensures canvas.trace == old(canvas.trace) + PageFrame(Themes[currentTheme], now)
      ensures canvas.CurrentPen() == FinalPen(PageLayout(), Themes[currentTheme], PageCopy, Calendar.DayOfYear(now), old(canvas.CurrentPen()))
    {
      var theme := Themes[currentTheme];
      DrawFrame(canvas, theme, now);
    }

    /** Switches to a theme, remembers it and redraws. */
    method SetTheme(themeName: string, now: Calendar.Instant)
      requires Valid() && themeName in Themes && Calendar.ValidInstant(now)
      modifies this`currentTheme, this`stored
      modifies canvas`fillStyle, canvas`strokeStyle, canvas`lineWidth, canvas`shadowBlur,
               canvas`shadowColor, canvas`font, canvas`textAlign, canvas`path, canvas`trace
      ensures Valid()
      ensures currentTheme == themeName && stored == Some(themeName)
      ensures canvas.trace == old(canvas.trace) + PageFrame(Themes[themeName], now)
      ensures canvas.CurrentPen() == FinalPen(PageLayout(), Themes[themeName], PageCopy, Calendar.DayOfYear(now), old(canvas.CurrentPen()))
    {
      currentTheme := themeName;
      stored := Some(themeName);
      DrawWallpaper(now);
    }

    /** Applies the remembered theme, "dark" when there is none. */
    method InitTheme(now: Calendar.Instant)
      requires Valid() && SavedTheme(stored) in Themes && Calendar.ValidInstant(now)
      modifies this`currentTheme, this`stored
      modifies canvas`fillStyle, canvas`strokeStyle, canvas`lineWidth, canvas`shadowBlur,
               canvas`shadowColor, canvas`font, canvas`textAlign, canvas`path, canvas`trace
      ensures Valid()
      ensures currentTheme == SavedTheme(old(stored)) && stored == Some(currentTheme)
      ensures canvas.trace == old(canvas.trace) + PageFrame(Themes[currentTheme], now)
    {
      var savedTheme := SavedTheme(stored);
      SetTheme(savedTheme, now);
    }

    /** Shows the link for the selected resolution. */
    method UpdateLink()
      modifies this`link
      ensures link == LinkFor(selection)
    {
      var res := selection;
      var filename := "wallpaper.png";
      if res != "default" {
        if res in ResMap && ResMap[res] != "" {
          filename := "wallpaper-" + ResMap[res] + ".png";
        }
      }
      link := BaseUrl + filename;
    }

    /** A new choice in the resolution selector. */
    method SelectResolution(res: string)
      modifies this`selection, this`link
      ensures selection == res && link == LinkFor(res)
    {
      selection := res;
      UpdateLink();
    }
  }
}
