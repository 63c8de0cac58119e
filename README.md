# Year progress: a verified model of the wallpaper renderer

The repository draws a "year progress" phone wallpaper: a header with the year and the text
"Day N of 365", then 365 dots on a 19-column grid. Days before today are filled, today's dot
glows and gets a white ring, and the days still to come are outlined. The same renderer exists
twice:

- in the browser page (`script.js`), where `drawWallpaper` paints a 1080 x 1920 preview in one of
  three themes. `setTheme`/`initTheme` pick and remember the theme, and `updateLink` shows the
  download link of the image for the selected resolution;
- in the batch generator (`generate-wallpaper.js`), where `generateWallpaper` paints the dark
  theme on a canvas of any size, with every size scaled by `width / 1080`. It writes the image to
  `wallpaper.png` or `wallpaper-<w>x<h>.png`, once per entry of its `RESOLUTIONS` table.

The model has these modules:

- `Calendar` (calendar.dfy): `getDayOfYear` as Gregorian arithmetic. A JavaScript time value is
  rebuilt from a calendar date and the milliseconds since midnight. As in the source, the day is
  the floor of the distance from the anchor `new Date(year, 0, 0)`, divided by one day.
- `Decimal` (decimal.dfy): how a number becomes text in template strings and `fillText`.
- `Canvas2D` (canvas.dfy): the canvas context as a class. Its fields are the paint settings the
  renderer assigns (`fillStyle`, `strokeStyle`, `lineWidth`, `shadowBlur`, `shadowColor`, `font`,
  `textAlign`, the current path). Each drawing call appends the primitive it paints to a `trace`,
  together with the settings in force. A primitive records the shadow it is painted with: none
  while `shadowBlur` is 0, otherwise a glow of that blur and `shadowColor` (`Canvas2D.Effect`).
  Assigning `lineWidth` goes through `SetLineWidth`, which, like a real context, ignores zero
  and negative values and keeps the width in force (`Canvas2D.LineWidthAfter`).
- `Grid` (grid.dfy): the 19-column cell of each day, the past/today/future style, and the layout
  geometry in exact `real` arithmetic.
- `Render` (render.dfy): the functions that define one render. `Frame` is the sequence of primitives
  a render paints from given starting settings. `DrawHeader` paints the background and the two
  header lines. Lemmas count and characterise what `Frame` holds.
- `Generator` (generator.dfy): `generateWallpaper` and its main loop. `GenerateWallpaper`
  returns the file name and the trace that would be written.
- `Page` (page.dfy): the page, as a class `WallpaperPage` holding the canvas, the current theme,
  the remembered theme, the selected resolution and the link.
- `Consistency` (consistency.dfy): how the two copies agree, and the one place where they do
  not.

Both drawing loops are `for` loops over the canvas. Each is proved to append exactly the
primitives `Render.DotsOps` lists and to leave exactly the `Render.PenAfter` settings behind. The
properties are then proved about those functions.

365 = 19 * 19 + 4, so the last row of the grid holds days 362..365 (`Grid.CellsUsed`,
`Grid.LastRow`).

## Model

| member | source | states |
|---|---|---|
| Calendar.DayOfYear | script.js:45-50 | Whole days from `new Date(year, 0, 0)` to the instant, rounded down. This is the date's ordinal in its year: days of the earlier months plus the day of the month, always in 1..365, or 1..366 in a leap year. The generator's copy at generate-wallpaper.js:30-35 is identical. |
| Calendar.DayOfYearOrder | script.js:45-50 | Within one year, an earlier date has a smaller day of year, and only an earlier date does (both directions). |
| Calendar.DateOfOrdinalInverse | script.js:45-50 | Every n in 1..days-in-year is the day of year of exactly the valid date `DateOfOrdinal(y, n)`. |
| Calendar.DayOfYearInverse | script.js:45-50 | The date is recovered from its year and its day of year, so the day of year loses nothing within a year. |
| Calendar.AnchorIsNewYearsEve | script.js:46 | The anchor `new Date(year, 0, 0)` is the day number of 31 December of the year before. |
| Calendar.NewYearIsDayOne | script.js:45-50 | 1 January, at any time of day, is day 1, because the anchor is day 0. |
| Calendar.FirstOfMarch | script.js:45-50 | 1 March is day 61 in a leap year and day 60 otherwise. |
| Calendar.LeapYearEnd | script.js:45-50 | 31 December of a leap year is day 366. |
| Calendar.OverrideExampleDay | generate-wallpaper.js:55 | The override example date 2026-06-01 is day 152. |
| Decimal.NatToString | generate-wallpaper.js:132 | The decimal text of a number is non-empty, made of digits only, and has no leading zero. |
| Decimal.NatToStringRoundTrip | generate-wallpaper.js:132 | Reading the decimal text back gives the number. |
| Decimal.NatToStringInjective | generate-wallpaper.js:132 | Different numbers have different decimal texts. |
| Canvas2D.Canvas.constructor | generate-wallpaper.js:38-39 | A new canvas has the requested size, the context's default settings, an empty path and nothing painted. |
| Canvas2D.Canvas.FillRect | script.js:56-57 | Appends the rectangle in the current fill colour and shadow, and changes nothing else. |
| Canvas2D.Canvas.FillText | script.js:69-76 | Appends the text in the current fill colour, font, alignment and shadow. |
| Canvas2D.Canvas.BeginPath | script.js:98 | Empties the current path. |
| Canvas2D.Canvas.Arc | script.js:99 | Adds a full circle of non-negative radius to the path. |
| Canvas2D.Canvas.Fill | script.js:104 | Appends the current path, filled with the fill colour and the current shadow. |
| Canvas2D.Canvas.SetLineWidth | generate-wallpaper.js:118 | `lineWidth = w` takes effect only for a positive w; otherwise the width in force stays, so a positive width never becomes 0. |
| Canvas2D.Canvas.Stroke | script.js:118 | Appends the current path, outlined in the stroke colour and line width with the current shadow. |
| Grid.CellOfDay | script.js:90-96 | Each day 1..365 gets column 0..18 and row 0..19, and row * 19 + column + 1 gives the day back. |
| Grid.CellsDistinct | script.js:90-96 | No two days share a cell. |
| Grid.CellsUsed | script.js:90-96 | Every cell of rows 0..18, and the first 4 cells of row 19, holds exactly the day row * 19 + column + 1. |
| Grid.LastRow | script.js:90-96 | A day lies in the last row (row 19) exactly when it is day 362 or later, so that row holds 4 dots. |
| Grid.StyleCounts | script.js:101-125 | Of days 1..n: min(max(doy - 1, 0), n) are past; one is today only when 1 <= doy <= n, so none at day 366; the rest are future. |
| Grid.GridSpansMargins | script.js:79-88 | The first column's dot starts at the left margin, and the last column's dot ends at the right margin. |
| Grid.CentresOrdered | script.js:84-96 | For a sound layout (positive dot size, an outline thinner than a positive gap), x strictly increases with the column and y strictly increases with the row. |
| Grid.DotsApart | script.js:84-96 | The centres of two different days are at least one pitch apart, horizontally or vertically. A pitch exceeds the dot's diameter plus the outline width, so no two dots or outlines touch. |
| Grid.DotInside | generate-wallpaper.js:84-99 | When the layout fits, every dot and its outline lie inside the canvas, below the day counter. |
| Render.DrawHeader | script.js:55-76 | Appends the background over the whole canvas in the theme's background colour. Then the year and "Day N of 365", centred at half the width, in the header fonts and colours. Leaves the fill colour at the text colour. |
| Render.DotsOpsLength | script.js:90-126 | The loop paints one primitive per day, plus one more (the ring) for today. |
| Render.DotsOpsFills | script.js:101-113 | When the two colours differ: as many fills in the "filled" colour as there are past days, and as many in the glow colour as there are today dots (one, or none at day 366). |
| Render.DotsOpsStrokes | script.js:106-125 | As many outlines as there are today and future dots. |
| Render.ShadowSettles | generate-wallpaper.js:104-125 | Starting without a blur, no blur remains after any dot. Once today's dot is drawn the blur is 0 whatever it started at. |
| Render.PageShadowSettles | script.js:101-113 | In the page's copy the blur is 0 after the loop from any starting blur, because past dots also reset it. |
| Render.DotGlow | script.js:106-113 | With no blur set before its turn, a dot paints a glowing primitive only when it is today. That primitive is the fill of today's circle with the glow blur and colour, and there is exactly one of it. |
| Render.GlowOnlyOnToday | script.js:101-125 | Starting without a blur, the loop's only glowing primitive is today's fill with the glow blur and colour. |
| Render.GlowCount | script.js:101-125 | Starting without a blur, the loop paints one glowing primitive when today is among the days drawn, and none otherwise (none at day 366). |
| Render.DotsIgnoreStartingPen | script.js:90-126 | With no blur at the start, what the loop paints does not depend on the earlier colours, nor on the earlier line width when the layout's width is positive. A non-positive width is ignored, so then the starting widths must agree. |
| Render.WidthIgnored | generate-wallpaper.js:118-123 | When the layout's line width is not positive, the loop leaves the starting width in force. |
| Render.StrokesHavePositiveWidth | generate-wallpaper.js:116-124 | From a positive starting width, every outline the loop strokes has a positive width, and the width it leaves is positive, whatever the layout's width. |
| Render.FrameIgnoresHistory | script.js:55-57 | A render paints the same frame whatever was set before, provided no blur is left and the layout's line width is positive (or the earlier widths agree). Its first primitive covers the whole canvas in the background colour. |
| Render.FrameCounts | script.js:52-127 | The frame has the background, the year and "Day N of 365", then the dots. For day N it holds N - 1 past fills, a glow fill only when N <= 365, and 366 - N outlines. |
| Render.LaterDateMorePast | script.js:59-62 | A later date of the same year shows more past dots, by exactly the number of days between the dates. |
| Generator.ScaledSizes | generate-wallpaper.js:42-46 | Margin, gap, both fonts, the glow blur (line 112) and the line widths (lines 118, 123) are the 1080-px constants times width / 1080. The dot size is width * 610 / (1080 * 19). At width 1080 they are the page's constants. |
| Generator.ScaledFits | generate-wallpaper.js:84-99 | The grid fits exactly when 15390 * height >= 17329 * width. |
| Generator.ResolutionsFit | generate-wallpaper.js:6-18 | Every table entry gets a positive dot size and a grid that fits on its canvas. |
| Generator.FilenameCases | generate-wallpaper.js:130-133 | The name is `wallpaper.png` exactly for the key "default". Otherwise it is `wallpaper-<w>x<h>.png`. |
| Generator.FilenameInjective | generate-wallpaper.js:130-133 | Equal names come only from the same choice: both default, or the same width and height. |
| Generator.OutputNamesDistinct | generate-wallpaper.js:6-18 | The 11 table entries write 11 different files. |
| Generator.ResolutionsDistinct | generate-wallpaper.js:141-143 | No run of the main loop overwrites another entry's image. |
| Generator.GeneratedHeader | generate-wallpaper.js:69-81 | An image starts with the background over the whole canvas. Then the year at 15% and "Day N of 365" at 18% of the height, centred, in fonts of 120 and 40 times the scale. |
| Generator.DrawDot | generate-wallpaper.js:101-125 | Appends one day's primitives, `Render.DotOps` for its style, and leaves the settings `Render.PenNext` gives. |
| Generator.DrawGrid | generate-wallpaper.js:83-126 | The loop appends exactly `Render.DotsOps` for days 1..365 and leaves the settings `Render.PenAfter` gives. |
| Generator.GeneratedStrokesVisible | generate-wallpaper.js:116-124 | Every outline of a generated image has a positive width, for every size, including width 0, where the scaled `lineWidth` of 0 is ignored. |
| Generator.GenerateWallpaper | generate-wallpaper.js:37-138 | Returns the file name for the key and size, and the frame for the overriding date if one is given (else the current date), on a new canvas of that size. |
| Generator.GenerateEach | generate-wallpaper.js:140-143 | For a table whose names are distinct, the files written are exactly its names. Entry k's file holds its image for the date its own call reads (`nows[k]`, or the override). |
| Generator.GenerateAll | generate-wallpaper.js:140-143 | The main loop writes exactly the table's 11 names. Each holds its entry's image for the time that entry's call reads from the clock, or for the override. |
| Page.PageLayoutFits | script.js:79-88 | The page's dot size is 610/19 > 0, and the grid fits on the 1080 x 1920 page. |
| Page.LinkForCases | script.js:164-191 | The link ends in `wallpaper.png` exactly when the id is "default" or has no entry. Otherwise it ends in `wallpaper-<entry>.png`. |
| Page.DrawDot | script.js:98-125 | Appends one day's primitives, `Render.DotOps` for its style, including the page's blur reset after a past fill, and leaves the settings `Render.PenNext` gives. |
| Page.DrawGrid | script.js:78-126 | The loop appends exactly `Render.DotsOps` for days 1..365 and leaves the settings `Render.PenAfter` gives. |
| Page.DrawFrame | script.js:52-127 | Started with no blur set, appends exactly the page frame of the theme and date (background, year, counter, 365 dots). It leaves the settings `FinalPen` gives (no blur among them), the day-counter font and centred text. |
| Page.WallpaperPage.constructor | script.js:214-216 | On load the remembered theme (or "dark") is applied, stored and drawn on a newly created canvas, and the link is set for the selected resolution. |
| Page.WallpaperPage.DrawWallpaper | script.js:52-127 | Appends exactly the frame of the current theme and date, whatever was drawn before. It leaves the settings `FinalPen` gives, with no blur. |
| Page.WallpaperPage.SetTheme | script.js:135-151 | Switches to the theme, remembers it, appends its frame and leaves the settings `FinalPen` gives. |
| Page.WallpaperPage.InitTheme | script.js:130-133 | Applies the remembered theme, or "dark" when none or an empty name is stored. |
| Page.WallpaperPage.UpdateLink | script.js:164-191 | Sets the link to `LinkFor` of the selection. |
| Page.WallpaperPage.SelectResolution | script.js:193 | A new selection updates the link to match it. |
| Consistency.ThemesAgree | generate-wallpaper.js:20-28 | The generator's palette is the page's "dark" theme. In every theme the past and glow colours differ. |
| Consistency.LayoutsAgree | generate-wallpaper.js:41-92 | At 1080 x 1920 the generator has the page's sizes, but places the year, the counter and the grid lower: every dot is 30 px lower. |
| Consistency.ResMapEntry | script.js:173-183 | Each entry of the link map is the "<w>x<h>" of the table entry with that id. |
| Consistency.ResMapMatchesTable | script.js:172-183 | Every table id that has an entry in the link map maps to that entry's dimensions. |
| Consistency.ResMapIdsInTable | script.js:172-183 | Every id of the link map is an id of the generator's table. |
| Consistency.OutputNameOf | generate-wallpaper.js:130-133 | A non-default entry's file is `wallpaper-` + its dimensions + `.png`. |
| Consistency.LinkNamesGeneratedFile | script.js:164-191 | For every table entry except "fhdplus", the page's link names the file the generator writes for it. |
| Consistency.FhdplusLinkMismatch | script.js:173-187 | As written, the link for "fhdplus" is `wallpaper.png`, the 1080 x 1920 image, and not the generated `wallpaper-1080x2400.png`. |
| Consistency.FixedLinkFhdplus | script.js:173-187 | With the completed map, the "fhdplus" link names `wallpaper-1080x2400.png`. |
| Consistency.FixedLinkAgrees | script.js:173-187 | The completed map changes no link except that of "fhdplus". |
| Consistency.FixedLinkNamesGeneratedFile | script.js:173-187 | With the completed map, every table entry's link names its generated file. |
| Consistency.OverrideExampleFrame | generate-wallpaper.js:55 | On 2026-06-01 the counter reads "Day 152 of 365", with 151 filled dots, one glowing dot and 214 outlines. |

## Left out

- The real canvas API: anti-aliasing, `Math.PI * 2` (an arc is a full circle), font families,
  text measurement and PNG encoding (`toBuffer`). Drawing is a trace of primitives, and colours
  are opaque strings.
- IEEE-754 doubles: the layout uses exact `real` arithmetic, so no claim is pixel-exact against
  JavaScript.
- Time zones and daylight saving. A date is a local calendar date plus milliseconds since local
  midnight, so an hour lost or gained to DST cannot move the floor in the model. The parsing of
  date-only strings as UTC is also left out.
- `new Date(y, 0, 0)` maps years 0..99 to 1900..1999. The model takes the year literally.
- The command-line override: `process.argv`, `new Date(string)` and `isNaN` become an
  `Option<Instant>` parameter, `None` when absent or unparsable. The clock is a parameter too:
  each `generateWallpaper` call reads it afresh, so the main loop takes one instant per entry.
- File and console output (`fs.writeFileSync`, `path.join`, `console.log`). A written file is an
  entry of the returned map, from name to image.
- The browser's DOM plumbing: event listeners, the clipboard copy, `setTimeout`, the guide modal,
  the `data-theme` attribute and the theme-button classes. The stored theme is the field
  `stored`, not `localStorage`.
- `shadowBlur = b` is also ignored by a real context when b is negative. Every value assigned
  here is 0 or `40 * width / 1080` with a natural width, so it is assigned directly.
- Page.WallpaperPage.SetTheme: requires a known theme name. The source reads `themes[name]`,
  which is undefined for an unknown name, and the draw then fails. The model states this as a
  precondition instead of modelling the failure.
- Page.WallpaperPage.InitTheme: requires the remembered theme to be known, for the same reason.
- Page.LinkFor: `resMap[res]` in JavaScript also finds inherited properties of a plain object.
  The map here holds only the nine listed entries.

## Findings

| source | as written | input that shows it | evidently intended | confidence | as-written member | corrected member |
|---|---|---|---|---|---|---|
| script.js:173-187 | The link map has no "fhdplus" entry, so selecting it links `wallpaper.png` (1080 x 1920). | resolution id "fhdplus" | the link names `wallpaper-1080x2400.png`, which the generator writes for that entry (generate-wallpaper.js:13, 130-133) | not executed | Consistency.FhdplusLinkMismatch | Consistency.FixedLinkNamesGeneratedFile |
