/** Layout of the export canvas that `downloadQR`, `copyToClipboard` and
    `printQR` in src/pages/Home.tsx compose: background, optional caption,
    then the on-screen QR layer, inside a 20-unit padding. */
module ExportLayout {
  import opened QrTypes
  import opened Canvas2D

  const Padding := 20
  /** Height of the caption band when a caption is shown. */
  const CaptionHeight := 60
  /** The caption's baseline sits this far below the top edge. */
  const CaptionBaseline := Padding + 30
  const CaptionFont := "bold 16px Arial"

  /** `showCustomText && customText`: the caption is drawn only when enabled and non-empty. */
  predicate CaptionShown(show: bool, text: string) {
    show && text != ""
  }

  function TextHeight(show: bool, text: string): int {
    if CaptionShown(show, text) then CaptionHeight else 0
  }

  /** Export canvas width: the QR size plus padding on both sides. */
  function ExportWidth(qrSize: int): int {
    qrSize + Padding * 2
  }

  /** Export canvas height: the QR size, the caption band and padding above and below. */
  function ExportHeight(qrSize: int, show: bool, text: string): int {
    qrSize + TextHeight(show, text) + Padding * 2
  }

  /** Where the QR layer is drawn: left padding, below the caption band. */
  function QrLayerY(show: bool, text: string): int {
    Padding + TextHeight(show, text)
  }

  /** The commands issued on the fresh export canvas; `qrLayer` says whether
      the on-screen QR canvas was found. */
  function ExportCommands(qrSize: int, fg: string, bg: string, show: bool, text: string,
                          qrLayer: bool): seq<Cmd>
  {
    var w := ExportWidth(qrSize) as real;
    var h := ExportHeight(qrSize, show, text) as real;
    [SetFillStyle(bg), FillRect(0.0, 0.0, w, h)]
    + (if CaptionShown(show, text)
       then [SetFillStyle(fg), SetFont(CaptionFont), SetTextAlign("center"),
             FillText(text, w / 2.0, CaptionBaseline as real)]
       else [])
    + (if qrLayer then [Blit(QrLayer, Padding as real, QrLayerY(show, text) as real)] else [])
  }

  /** The canvas is square plus the caption band, which is 60 high exactly
      when the caption is shown. */
  lemma ExportSize(qrSize: int, show: bool, text: string)
    ensures ExportWidth(qrSize) == qrSize + 40
    ensures ExportHeight(qrSize, show, text) - ExportWidth(qrSize) == (if show && text != "" then 60 else 0)
  {
  }

  /** A qrSize-square layer placed at the blit position lies inside the canvas
      with 20 units clear on every side and the whole caption band above it. */
  lemma QrLayerInside(qrSize: int, show: bool, text: string)
    requires qrSize >= 0
    ensures var x, y := Padding, QrLayerY(show, text);
      && x == 20
      && ExportWidth(qrSize) - (x + qrSize) == 20
      && ExportHeight(qrSize, show, text) - (y + qrSize) == 20
      && y - TextHeight(show, text) == 20
      && (CaptionShown(show, text) ==> Padding < CaptionBaseline < y)
  {
  }

  /** The first drawing fills the whole canvas with the background colour;
      the caption, when shown, is drawn in the foreground colour centred
      across the canvas inside its band; the QR layer is blitted last, once,
      at (20, 20 + textHeight), and only when it was found. */
  lemma ExportDrawing(qrSize: int, fg: string, bg: string, show: bool, text: string, qrLayer: bool)
    requires qrSize >= 0
    ensures var cmds := ExportCommands(qrSize, fg, bg, show, text, qrLayer);
      var w, h := ExportWidth(qrSize) as real, ExportHeight(qrSize, show, text) as real;
      && cmds[1] == FillRect(0.0, 0.0, w, h) && FillStyleAt(cmds, 1) == Some(bg)
      && (forall i :: 0 <= i < |cmds| && cmds[i].FillText? ==>
            CaptionShown(show, text) && cmds[i].text == text && FillStyleAt(cmds, i) == Some(fg)
            && cmds[i].x * 2.0 == w && 0.0 < cmds[i].y < QrLayerY(show, text) as real)
      && (CaptionShown(show, text) <==> exists i :: 0 <= i < |cmds| && cmds[i].FillText?)
      && (qrLayer <==> cmds[|cmds| - 1] == Blit(QrLayer, 20.0, QrLayerY(show, text) as real))
      && (forall i :: 0 <= i < |cmds| - 1 ==> !cmds[i].Blit?)
  {
    var cmds := ExportCommands(qrSize, fg, bg, show, text, qrLayer);
    var base := [SetFillStyle(bg), FillRect(0.0, 0.0, ExportWidth(qrSize) as real, ExportHeight(qrSize, show, text) as real)];
    if CaptionShown(show, text) {
      assert cmds[5].FillText?;
      assert FillStyleAt(cmds, 5) == Some(fg) by {
        assert FillStyleAt(cmds, 5) == FillStyleAt(cmds, 4) == FillStyleAt(cmds, 3);
      }
      forall i | 0 <= i < |cmds| && cmds[i].FillText? ensures i == 5 { }
    } else {
      forall i | 0 <= i < |cmds| ensures !cmds[i].FillText? { }
    }
  }
}
