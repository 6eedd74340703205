/** The logo overlay of src/components/QRWithLogo.tsx: the canvas is sized to
    the QR code, the external encoder draws the symbol, and, once it has
    succeeded and the logo image has decoded, a haloed, circularly clipped
    logo is drawn over the centre. */
module QrWithLogo {
  import opened QrTypes
  import opened Canvas2D

  /** The halo is this much wider than the logo's radius. */
  const HaloMargin := 8.0
  /** Width of the halo's border stroke. */
  const BorderWidth := 2.0

  /** `if (logo)`: a logo is drawn only when one is set and non-empty. */
  predicate LogoGiven(logo: Option<string>) {
    logo.Some? && logo.value != ""
  }

  /** `Math.min(qrSize * logoSize / 100, qrSize * 0.2)`: the logo diameter,
      the configured percentage capped at a fifth of the code. */
  function LogoDiameter(qrSize: int, logoSize: int): (d: real)
    requires qrSize >= 0
    ensures d <= qrSize as real / 5.0
    ensures logoSize <= 20 ==> d == (qrSize * logoSize) as real / 100.0
    ensures logoSize >= 20 ==> d == qrSize as real / 5.0
    ensures logoSize >= 0 ==> d >= 0.0
  {
    var wanted := (qrSize * logoSize) as real / 100.0;
    var cap := qrSize as real * 0.2;
    assert logoSize <= 20 ==> qrSize * logoSize <= qrSize * 20;
    assert logoSize >= 20 ==> qrSize * logoSize >= qrSize * 20;
    assert logoSize >= 0 ==> qrSize * logoSize >= 0;
    if wanted <= cap then wanted else cap
  }

  /** Both coordinates of the logo square's top-left corner. The square is
      centred on the canvas and, for a non-negative size, lies inside it. */
  function LogoOrigin(qrSize: int, logoSize: int): (o: real)
    requires qrSize >= 0
    ensures o + LogoDiameter(qrSize, logoSize) / 2.0 == qrSize as real / 2.0
    ensures logoSize >= 0 ==> 0.0 <= o && o + LogoDiameter(qrSize, logoSize) <= qrSize as real
  {
    (qrSize as real - LogoDiameter(qrSize, logoSize)) / 2.0
  }

  /** Radius of the clip circle that the logo is cut to. */
  function ClipRadius(qrSize: int, logoSize: int): (r: real)
    requires qrSize >= 0
    ensures r <= qrSize as real / 10.0
    ensures r * 2.0 == LogoDiameter(qrSize, logoSize)
  {
    LogoDiameter(qrSize, logoSize) / 2.0
  }

  /** Radius of the background halo: strictly wider than the clip circle,
      and inside the canvas whenever the code is at least 20 pixels. */
  function HaloRadius(qrSize: int, logoSize: int): (r: real)
    requires qrSize >= 0
    ensures r > ClipRadius(qrSize, logoSize)
    ensures r - ClipRadius(qrSize, logoSize) == HaloMargin
    ensures qrSize >= 20 && logoSize >= 0 ==> 0.0 < r <= qrSize as real / 2.0
  {
    LogoDiameter(qrSize, logoSize) / 2.0 + HaloMargin
  }

  /** The commands of the image's `onload` handler. */
  function LogoCommands(qrSize: int, logoSize: int, fg: string, bg: string, src: string): seq<Cmd>
    requires qrSize >= 0
  {
    var c := qrSize as real / 2.0;
    var d := LogoDiameter(qrSize, logoSize);
    var o := LogoOrigin(qrSize, logoSize);
    [ SetFillStyle(bg), BeginPath, Circle(c, c, HaloRadius(qrSize, logoSize)), Fill,
      SetStrokeStyle(fg), SetLineWidth(BorderWidth), Stroke,
      Save, BeginPath, Circle(c, c, ClipRadius(qrSize, logoSize)), Clip,
      DrawImage(LogoImage(src), o, o, d, d), Restore ]
  }

  /** Everything the effect draws after the resize: the encoder's symbol, and
      the logo only when the encoder succeeded, a logo is set and it decoded. */
  function RenderCommands(qrValue: string, qrSize: int, fg: string, bg: string, level: ErrorLevel,
                          margin: int, logo: Option<string>, logoSize: int,
                          encoded: bool, decoded: bool): (cmds: seq<Cmd>)
    requires qrSize >= 0
    ensures !encoded ==> cmds == []
    ensures encoded ==> |cmds| >= 1 && cmds[0] == DrawQrMatrix(qrValue, qrSize, fg, bg, level, margin)
    ensures !(LogoGiven(logo) && decoded) ==> |cmds| <= 1
    ensures encoded && LogoGiven(logo) && decoded ==> cmds[1..] == LogoCommands(qrSize, logoSize, fg, bg, logo.value)
    ensures forall i :: 0 < i < |cmds| ==> !cmds[i].DrawQrMatrix?
  {
    if !encoded then []
    else
      [DrawQrMatrix(qrValue, qrSize, fg, bg, level, margin)]
      + (if LogoGiven(logo) && decoded then LogoCommands(qrSize, logoSize, fg, bg, logo.value) else [])
  }

  /** The halo is filled in the background colour and outlined in the
      foreground colour at the border width. */
  lemma LogoHaloStyles(qrSize: int, logoSize: int, fg: string, bg: string, src: string)
    requires qrSize >= 0
    ensures var cmds := LogoCommands(qrSize, logoSize, fg, bg, src);
      && Fill in cmds && Stroke in cmds
      && (forall i :: 0 <= i < |cmds| && cmds[i] == Fill ==> FillStyleAt(cmds, i) == Some(bg))
      && (forall i :: 0 <= i < |cmds| && cmds[i] == Stroke ==>
            StrokeStyleAt(cmds, i) == Some(fg) && LineWidthAt(cmds, i) == Some(BorderWidth))
  {
    var cmds := LogoCommands(qrSize, logoSize, fg, bg, src);
    assert cmds[3] == Fill && cmds[6] == Stroke;
    assert FillStyleAt(cmds, 3) == Some(bg) by {
      assert FillStyleAt(cmds, 3) == FillStyleAt(cmds, 2) == FillStyleAt(cmds, 1);
    }
    assert StrokeStyleAt(cmds, 6) == Some(fg) by {
      assert StrokeStyleAt(cmds, 6) == StrokeStyleAt(cmds, 5);
    }
    assert LineWidthAt(cmds, 6) == Some(BorderWidth);
    forall i | 0 <= i < |cmds| && cmds[i] == Fill ensures i == 3 { }
    forall i | 0 <= i < |cmds| && cmds[i] == Stroke ensures i == 6 { }
  }

  /** The logo is drawn once, after the halo's fill and stroke, as the centred
      square, under a clip to the clip circle that no restore has lifted. */
  lemma LogoDrawnClipped(qrSize: int, logoSize: int, fg: string, bg: string, src: string)
    requires qrSize >= 0
    ensures var cmds := LogoCommands(qrSize, logoSize, fg, bg, src);
      && (exists i :: 0 <= i < |cmds| && cmds[i].DrawImage?)
      && (forall i, j :: 0 <= i < |cmds| && 0 <= j < |cmds| && (cmds[i] == Fill || cmds[i] == Stroke) && cmds[j].DrawImage? ==> i < j)
      && (forall i :: 0 <= i < |cmds| && cmds[i].DrawImage? ==>
            cmds[i] == DrawImage(LogoImage(src), LogoOrigin(qrSize, logoSize), LogoOrigin(qrSize, logoSize),
                                 LogoDiameter(qrSize, logoSize), LogoDiameter(qrSize, logoSize))
            && ClippedBetween(cmds, i - 1, i)
            && cmds[i - 2] == Circle(qrSize as real / 2.0, qrSize as real / 2.0, ClipRadius(qrSize, logoSize)))
  {
    var cmds := LogoCommands(qrSize, logoSize, fg, bg, src);
    assert cmds[11].DrawImage?;
    forall i | 0 <= i < |cmds| && cmds[i].DrawImage? ensures i == 11 { }
    forall i | 0 <= i < |cmds| && (cmds[i] == Fill || cmds[i] == Stroke) ensures i < 11 { }
  }

  /** Every circle of the overlay is centred on the canvas. */
  lemma LogoCirclesCentred(qrSize: int, logoSize: int, fg: string, bg: string, src: string)
    requires qrSize >= 0
    ensures var cmds := LogoCommands(qrSize, logoSize, fg, bg, src);
      forall i :: 0 <= i < |cmds| && cmds[i].Circle? ==> cmds[i].cx == cmds[i].cy == qrSize as real / 2.0
  {
  }

  /** The clip is bracketed by save and restore: the overlay leaves the save depth as it found it. */
  lemma LogoKeepsSaveDepth(qrSize: int, logoSize: int, fg: string, bg: string, src: string, depth: nat)
    requires qrSize >= 0
    ensures Replay(depth, LogoCommands(qrSize, logoSize, fg, bg, src)) == depth
  {
    var cmds := LogoCommands(qrSize, logoSize, fg, bg, src);
    assert cmds == cmds[..7] + ([Save] + (cmds[8..12] + [Restore]));
    ReplayAppend(depth, cmds[..7], [Save] + (cmds[8..12] + [Restore]));
    ReplayAppend(depth, [Save], cmds[8..12] + [Restore]);
    ReplayAppend(depth + 1, cmds[8..12], [Restore]);
    ReplayWithoutSaves(depth, cmds[..7]);
    ReplayWithoutSaves(depth + 1, cmds[8..12]);
  }

  /** Whatever the encoder and image outcomes, the effect leaves the save depth unchanged. */
  lemma RenderKeepsSaveDepth(qrValue: string, qrSize: int, fg: string, bg: string, level: ErrorLevel,
                             margin: int, logo: Option<string>, logoSize: int,
                             encoded: bool, decoded: bool, depth: nat)
    requires qrSize >= 0
    ensures Replay(depth, RenderCommands(qrValue, qrSize, fg, bg, level, margin, logo, logoSize, encoded, decoded)) == depth
  {
    var cmds := RenderCommands(qrValue, qrSize, fg, bg, level, margin, logo, logoSize, encoded, decoded);
    if encoded && LogoGiven(logo) && decoded {
      var q := [DrawQrMatrix(qrValue, qrSize, fg, bg, level, margin)];
      var rest := LogoCommands(qrSize, logoSize, fg, bg, logo.value);
      ReplayAppend(depth, q, rest);
      LogoKeepsSaveDepth(qrSize, logoSize, fg, bg, logo.value, depth);
    }
  }

  /** The `onload` handler: halo, border, then the clipped logo. */
  method DrawLogo(canvas: Canvas, qrSize: int, logoSize: int, fg: string, bg: string, src: string)
    requires qrSize >= 0
    modifies canvas
    ensures canvas.log == old(canvas.log) + LogoCommands(qrSize, logoSize, fg, bg, src)
    ensures canvas.depth == old(canvas.depth)
    ensures canvas.width == old(canvas.width) && canvas.height == old(canvas.height)
  {
    var d := LogoDiameter(qrSize, logoSize);
    var o := LogoOrigin(qrSize, logoSize);
    var c := qrSize as real / 2.0;
    canvas.Exec(SetFillStyle(bg));
    canvas.Exec(BeginPath);
    canvas.Exec(Circle(c, c, d / 2.0 + HaloMargin));
    canvas.Exec(Fill);
    canvas.Exec(SetStrokeStyle(fg));
    canvas.Exec(SetLineWidth(BorderWidth));
    canvas.Exec(Stroke);
    assert canvas.log == old(canvas.log) + LogoCommands(qrSize, logoSize, fg, bg, src)[..7];
    canvas.Exec(Save);
    canvas.Exec(BeginPath);
    canvas.Exec(Circle(c, c, d / 2.0));
    canvas.Exec(Clip);
    canvas.Exec(DrawImage(LogoImage(src), o, o, d, d));
    canvas.Exec(Restore);
  }

  /** The effect body: size the canvas, let the encoder draw, then overlay the
      logo. `encoded` is the encoder's outcome and `decoded` the logo image's. */
  method Render(canvas: Canvas, qrValue: string, qrSize: int, fg: string, bg: string,
                level: ErrorLevel, margin: int, logo: Option<string>, logoSize: int,
                encoded: bool, decoded: bool)
    requires ValidQrSize(qrSize) && ValidMargin(margin)
    modifies canvas
    ensures canvas.width == qrSize && canvas.height == qrSize
    ensures canvas.log == RenderCommands(qrValue, qrSize, fg, bg, level, margin, logo, logoSize, encoded, decoded)
    ensures canvas.depth == 0
  {
    canvas.Resize(qrSize, qrSize);
    if !encoded {
      return;
    }
    canvas.Exec(DrawQrMatrix(qrValue, qrSize, fg, bg, level, margin));
    if LogoGiven(logo) && decoded {
      DrawLogo(canvas, qrSize, logoSize, fg, bg, logo.value);
    }
  }
}
