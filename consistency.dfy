/** How the page and the generator agree: the same palette for "dark", the same sizes at
    1080 x 1920 but a different vertical placement, and a link map meant to name the files the
    generator writes. One entry of that map is missing; FixedResMap adds it. */
module Consistency {
  import opened Canvas2D
  import opened Grid
  import opened Render
  import opened Decimal
  import opened Generator
  import opened Page
  import Calendar

  /** The generator's palette is the page's "dark" theme, and in every theme past and today's
      dots are told apart by colour. */
  lemma ThemesAgree()
    ensures Themes["dark"] == GeneratorTheme
    ensures forall name :: name in Themes ==> Themes[name].dotFilled != Themes[name].dotGlow
  {
  }

  /** At 1080 x 1920 the generator uses the page's sizes, but places the year at 288 instead of
      250, the day counter at 345.6 instead of 320 and the grid at 480 instead of 450: its default
      image is the page's preview with every dot 30 px lower. */
  lemma LayoutsAgree(i: int)
    requires 1 <= i <= TotalDays
    ensures var P, G := PageLayout(), ScaledLayout(1080, 1920);
      && G == P.(yearY := 288.0, dayY := 345.6, yStart := 480.0)
      && DotSize(G) == DotSize(P)
      && Centre(G, i) == Centre(P, i).(cy := Centre(P, i).cy + 30.0)
  {
    var P, G := PageLayout(), ScaledLayout(1080, 1920);
    assert G == P.(yearY := 288.0, dayY := 345.6, yStart := 480.0);
    assert Pitch(G) == Pitch(P);
  }

  /** "<width>x<height>" of a resolution. */
  function Dimensions(r: Resolution): string {
    NatToString(r.w) + "x" + NatToString(r.h)
  }

  /** One lemma per entry of the link map: its value is the dimensions of the table entry with
      that id. (Evaluating the decimal text of literal numbers is costly, so each entry is a proof
      of its own.) */
  lemma ResMapS24u()
    ensures ResMap[Resolutions[1].id] == Dimensions(Resolutions[1])
  {
    var a, b := NatToString(1440), NatToString(3120);
    assert Resolutions[1] == Resolution("Samsung S24 Ultra", 1440, 3120, "s24u");
    assert a == "1440" && b == "3120";
    assert Dimensions(Resolutions[1]) == a + "x" + b == "1440" + "x" + "3120";
  }

  lemma ResMapNz8p()
    ensures ResMap[Resolutions[2].id] == Dimensions(Resolutions[2])
  {
    var a, b := NatToString(1344), NatToString(2992);
    assert Resolutions[2] == Resolution("Pixel 8 Pro", 1344, 2992, "nz8p");
    assert a == "1344" && b == "2992";
    assert Dimensions(Resolutions[2]) == a + "x" + b == "1344" + "x" + "2992";
  }

  lemma ResMapI15pm()
    ensures ResMap[Resolutions[3].id] == Dimensions(Resolutions[3])
  {
    var a, b := NatToString(1290), NatToString(2796);
    assert Resolutions[3] == Resolution("iPhone 15 Pro Max", 1290, 2796, "i15pm");
    assert a == "1290" && b == "2796";
    assert Dimensions(Resolutions[3]) == a + "x" + b == "1290" + "x" + "2796";
  }

  lemma ResMapI15()
    ensures ResMap[Resolutions[4].id] == Dimensions(Resolutions[4])
  {
    var a, b := NatToString(1179), NatToString(2556);
    assert Resolutions[4] == Resolution("iPhone 15/14", 1179, 2556, "i15");
    assert a == "1179" && b == "2556";
    assert Dimensions(Resolutions[4]) == a + "x" + b == "1179" + "x" + "2556";
  }

  lemma ResMapS24()
    ensures ResMap[Resolutions[5].id] == Dimensions(Resolutions[5])
  {
    var a, b := NatToString(1080), NatToString(2340);
    assert Resolutions[5] == Resolution("Samsung S23/24", 1080, 2340, "s24");
    assert a == "1080" && b == "2340";
    assert Dimensions(Resolutions[5]) == a + "x" + b == "1080" + "x" + "2340";
  }

  lemma ResMapOp12()
    ensures ResMap[Resolutions[7].id] == Dimensions(Resolutions[7])
  {
    var a, b := NatToString(1440), NatToString(3216);
    assert Resolutions[7] == Resolution("OnePlus 11/12", 1440, 3216, "op12");
    assert a == "1440" && b == "3216";
    assert Dimensions(Resolutions[7]) == a + "x" + b == "1440" + "x" + "3216";
  }

  lemma ResMapX1v()
    ensures ResMap[Resolutions[8].id] == Dimensions(Resolutions[8])
  {
    var a, b := NatToString(1644), NatToString(3840);
    assert Resolutions[8] == Resolution("Sony Xperia 1 V", 1644, 3840, "x1v");
    assert a == "1644" && b == "3840";
    assert Dimensions(Resolutions[8]) == a + "x" + b == "1644" + "x" + "3840";
  }

  lemma ResMapHd()
    ensures ResMap[Resolutions[9].id] == Dimensions(Resolutions[9])
  {
    var a, b := NatToString(720), NatToString(1280);
    assert Resolutions[9] == Resolution("Generic HD", 720, 1280, "hd");
    assert a == "720" && b == "1280";
    assert Dimensions(Resolutions[9]) == a + "x" + b == "720" + "x" + "1280";
  }

  lemma ResMapFold()
    ensures ResMap[Resolutions[10].id] == Dimensions(Resolutions[10])
  {
    var a, b := NatToString(2200), NatToString(2480);
    assert Resolutions[10] == Resolution("Tablet / Folding (Square-ish)", 2200, 2480, "fold");
    assert a == "2200" && b == "2480";
    assert Dimensions(Resolutions[10]) == a + "x" + b == "2200" + "x" + "2480";
  }

  /** An entry of the link map holds that resolution's dimensions. */
  lemma ResMapEntry(k: int)
    requires 0 <= k < |Resolutions| && Resolutions[k].id in ResMap
    ensures ResMap[Resolutions[k].id] == Dimensions(Resolutions[k])
  {
    if k == 1 {
      ResMapS24u();
    } else if k == 2 {
      ResMapNz8p();
    } else if k == 3 {
      ResMapI15pm();
    } else if k == 4 {
      ResMapI15();
    } else if k == 5 {
      ResMapS24();
    } else if k == 7 {
      ResMapOp12();
    } else if k == 8 {
      ResMapX1v();
    } else if k == 9 {
      ResMapHd();
    } else if k == 10 {
      ResMapFold();
    } else {
      assert false;
    }
  }

  /** Every id of the link map that is an id of the table maps to that entry's dimensions. */
  lemma ResMapMatchesTable()
    ensures forall k :: 0 <= k < |Resolutions| && Resolutions[k].id in ResMap ==>
      ResMap[Resolutions[k].id] == Dimensions(Resolutions[k])
  {
    forall k | 0 <= k < |Resolutions| && Resolutions[k].id in ResMap
      ensures ResMap[Resolutions[k].id] == Dimensions(Resolutions[k])
    {
      ResMapEntry(k);
    }
  }

  /** Every id of the link map is an id of the table. */
  lemma ResMapIdsInTable()
    ensures forall id :: id in ResMap ==> exists k :: 0 <= k < |Resolutions| && Resolutions[k].id == id
  {
    forall id | id in ResMap
      ensures exists k :: 0 <= k < |Resolutions| && Resolutions[k].id == id
    {
      var k := if id == "s24u" then 1 else if id == "nz8p" then 2 else if id == "i15pm" then 3
        else if id == "i15" then 4 else if id == "s24" then 5 else if id == "op12" then 7
        else if id == "x1v" then 8 else if id == "hd" then 9 else 10;
      assert Resolutions[k].id == id;
    }
  }

  /** A non-default entry's image is wallpaper-<dimensions>.png. */
  lemma OutputNameOf(r: Resolution)
    requires r.id != "default"
    ensures OutputName(r) == "wallpaper-" + Dimensions(r) + ".png"
  {
  }

  /** For every resolution except "fhdplus", the page's link names the file the generator writes
      for it. */
  lemma LinkNamesGeneratedFile(k: int)
    requires 0 <= k < |Resolutions| && Resolutions[k].id != "fhdplus"
    ensures LinkFor(Resolutions[k].id) == BaseUrl + OutputName(Resolutions[k])
  {
    var r := Resolutions[k];
    if r.id != "default" {
      OutputNameOf(r);
      assert r.id in ResMap;
      ResMapEntry(k);
    }
  }

  /** As written, the link for "fhdplus" falls back to wallpaper.png, the 1080 x 1920 image,
      while the generator writes the 1080 x 2400 image to wallpaper-1080x2400.png. */
  lemma FhdplusLinkMismatch()
    ensures Resolutions[6].id == "fhdplus" && OutputName(Resolutions[6]) == "wallpaper-1080x2400.png"
    ensures LinkFor("fhdplus") == BaseUrl + "wallpaper.png" == BaseUrl + OutputName(Resolutions[0])
    ensures LinkFor("fhdplus") != BaseUrl + OutputName(Resolutions[6])
  {
    assert NatToString(1080) == "1080" && NatToString(2400) == "2400";
    LinkForCases("fhdplus");
    var bad, good := LinkFor("fhdplus"), BaseUrl + OutputName(Resolutions[6]);
    assert bad[|BaseUrl| + 9] != good[|BaseUrl| + 9];
  }

  /** The link map with the missing "fhdplus" entry. */
  const FixedResMap: map<string, string> := ResMap["fhdplus" := "1080x2400"]

  /** The link as intended: the same choice, over the completed map. */
  function FixedLinkFor(res: string): string {
    LinkIn(FixedResMap, res)
  }

  lemma FixedLinkFhdplus()
    ensures FixedLinkFor("fhdplus") == BaseUrl + OutputName(Resolutions[6])
  {
    var a, b := NatToString(1080), NatToString(2400);
    assert a == "1080" && b == "2400";
    assert OutputName(Resolutions[6]) == "wallpaper-" + (a + "x" + b) + ".png";
    assert FixedResMap["fhdplus"] == "1080x2400" == a + "x" + b;
  }

  /** The completed map changes the link of "fhdplus" only. */
  lemma FixedLinkAgrees(res: string)
    requires res != "fhdplus"
    ensures FixedLinkFor(res) == LinkFor(res)
  {
    assert (res in FixedResMap) == (res in ResMap);
    if res in ResMap {
      assert FixedResMap[res] == ResMap[res];
    }
  }

  /** With the completed map the link names the generated file for every resolution, and it
      differs from the written link only for "fhdplus". */
  lemma FixedLinkNamesGeneratedFile(k: int)
    requires 0 <= k < |Resolutions|
    ensures FixedLinkFor(Resolutions[k].id) == BaseUrl + OutputName(Resolutions[k])
    ensures Resolutions[k].id != "fhdplus" ==> FixedLinkFor(Resolutions[k].id) == LinkFor(Resolutions[k].id)
  {
    var r := Resolutions[k];
    if r.id == "fhdplus" {
      assert k == 6;
      FixedLinkFhdplus();
    } else {
      LinkNamesGeneratedFile(k);
      FixedLinkAgrees(r.id);
    }
  }

  /** The date in the generator's override comment, 2026-06-01: the counter reads "Day 152 of
      365", 151 dots are filled, one glows, and 214 outlines are stroked (213 future dots and
      today's ring). */
  lemma OverrideExampleFrame(width: nat, height: nat)
    ensures var t := Calendar.Instant(Calendar.Date(2026, 6, 1), 0);
      var f := Frame(ScaledLayout(width, height), GeneratorTheme, GeneratorCopy, 2026, Calendar.DayOfYear(t), DefaultPen);
      && Calendar.DayOfYear(t) == 152
      && f[2].FillText? && f[2].text == "Day 152 of 365"
      && |f| == 369
      && CountOps(f[3..], FilledIn(GeneratorTheme.dotFilled)) == 151
      && CountOps(f[3..], FilledIn(GeneratorTheme.dotGlow)) == 1
      && CountOps(f[3..], Stroked) == 214
  {
    Calendar.OverrideExampleDay();
    assert NatToString(152) == "152" && NatToString(365) == "365";
    assert DayText(152) == "Day 152 of 365";
    FrameCounts(ScaledLayout(width, height), GeneratorTheme, GeneratorCopy, 2026, 152, DefaultPen);
  }
}
