/** A 2D drawing context reduced to what the generator uses: the canvas size
    and the ordered record of the commands issued on it. Pixels are not modelled. */
module Canvas2D {
  import opened QrTypes

  /** Sources that `drawImage` can copy from. */
  datatype Image = QrLayer | LogoImage(src: string)

  /** One call or property assignment on the context, in issue order. */
  datatype Cmd =
    | SetFillStyle(color: string)
    | SetStrokeStyle(color: string)
    | SetLineWidth(width: real)
    | SetFont(font: string)
    | SetTextAlign(align: string)
    | FillRect(x: real, y: real, w: real, h: real)
    | FillText(text: string, x: real, y: real)
    | DrawImage(img: Image, x: real, y: real, w: real, h: real)
    | Blit(img: Image, x: real, y: real)     // `drawImage(img, x, y)`, at the image's own size
    | BeginPath
    | Circle(cx: real, cy: real, r: real)    // `arc(cx, cy, r, 0, 2π)`
    | Fill
    | Stroke
    | Clip
    | Save
    | Restore
      /** What the external encoder draws: the module matrix of `value`. */
    | DrawQrMatrix(value: string, size: int, dark: string, light: string, level: ErrorLevel, margin: int)

  /** Depth of the save stack after one command; `restore` on an empty stack does nothing. */
  function DepthStep(depth: nat, c: Cmd): nat {
    match c
    case Save => depth + 1
    case Restore => if depth > 0 then depth - 1 else 0
    case _ => depth
  }

  /** Depth of the save stack after a run of commands. */
  function Replay(depth: nat, cmds: seq<Cmd>): nat
    decreases |cmds|
  {
    if cmds == [] then depth else Replay(DepthStep(depth, cmds[0]), cmds[1..])
  }

  /** Replaying a concatenation is replaying its parts in turn. */
  lemma {:induction false} ReplayAppend(depth: nat, a: seq<Cmd>, b: seq<Cmd>)
    ensures Replay(depth, a + b) == Replay(Replay(depth, a), b)
    decreases |a|
  {
    if a == [] {
      assert a + b == b;
    } else {
      assert (a + b)[0] == a[0];
      assert (a + b)[1..] == a[1..] + b;
      ReplayAppend(DepthStep(depth, a[0]), a[1..], b);
    }
  }

  /** Commands other than save and restore leave the depth alone. */
  lemma {:induction false} ReplayWithoutSaves(depth: nat, cmds: seq<Cmd>)
    requires Save !in cmds && Restore !in cmds
    ensures Replay(depth, cmds) == depth
    decreases |cmds|
  {
    if cmds != [] {
      assert cmds[0] in cmds;
      assert forall c :: c in cmds[1..] ==> c in cmds;
      ReplayWithoutSaves(depth, cmds[1..]);
    }
  }

  /** The fill colour in effect just before command `i` (None: the context default). */
  function FillStyleAt(cmds: seq<Cmd>, i: nat): Option<string>
    requires i <= |cmds|
  {
    if i == 0 then None
    else if cmds[i - 1].SetFillStyle? then Some(cmds[i - 1].color)
    else FillStyleAt(cmds, i - 1)
  }

  /** The stroke colour in effect just before command `i`. */
  function StrokeStyleAt(cmds: seq<Cmd>, i: nat): Option<string>
    requires i <= |cmds|
  {
    if i == 0 then None
    else if cmds[i - 1].SetStrokeStyle? then Some(cmds[i - 1].color)
    else StrokeStyleAt(cmds, i - 1)
  }

  /** The line width in effect just before command `i`. */
  function LineWidthAt(cmds: seq<Cmd>, i: nat): Option<real>
    requires i <= |cmds|
  {
    if i == 0 then None
    else if cmds[i - 1].SetLineWidth? then Some(cmds[i - 1].width)
    else LineWidthAt(cmds, i - 1)
  }

  /** A clip issued at `j` is still in effect at `i`: no restore in between. */
  predicate ClippedBetween(cmds: seq<Cmd>, j: nat, i: nat)
    requires j < i <= |cmds|
  {
    cmds[j] == Clip && forall k :: j < k < i ==> cmds[k] != Restore
  }

  /** A drawing surface: its size in pixels, its save-stack depth, and the
      commands issued on it so far. */
  class Canvas {
    var width: int
    var height: int
    var depth: nat
    var log: seq<Cmd>

    /** A new canvas element has the HTML default size of 300 by 150. */
    constructor ()
      ensures width == 300 && height == 150 && depth == 0 && log == []
    {
      width, height, depth, log := 300, 150, 0, [];
    }

    /** Assigning `width` and `height`: this clears the bitmap and resets the
        context, save stack included, so the record starts afresh. */
    method Resize(w: int, h: int)
      modifies this
      ensures width == w && height == h
      ensures depth == 0 && log == []
    {
      width, height, depth, log := w, h, 0, [];
    }

    /** Issues one command on the context. */
    method Exec(c: Cmd)
      modifies this
      ensures log == old(log) + [c]
      ensures depth == DepthStep(old(depth), c)
      ensures width == old(width) && height == old(height)
    {
      log := log + [c];
      depth := DepthStep(depth, c);
    }
  }
}
