/** The editor page of src/pages/Home.tsx: its state (current content, the
    nine render settings, the history and its `qrHistory` store entry) and the
    handlers that change it, plus the three export actions. */
module Home {
  import opened QrTypes
  import opened Normalizer
  import opened History
  import opened Canvas2D
  import opened ExportLayout

  /** The characters `String.prototype.trim` removes: ECMAScript white space
      and line terminators. */
  predicate IsJsSpace(c: char) {
    || c == ' ' || c == '\t' || c == '\n' || c == '\r'
    || c == '\U{B}' || c == '\U{C}' || c == '\U{A0}' || c == '\U{1680}'
    || ('\U{2000}' <= c <= '\U{200A}')
    || c == '\U{2028}' || c == '\U{2029}' || c == '\U{202F}' || c == '\U{205F}'
    || c == '\U{3000}' || c == '\U{FEFF}'
  }

  /** Content made only of white space (the empty string included). */
  predicate IsBlank(s: string) {
    forall i :: 0 <= i < |s| ==> IsJsSpace(s[i])
  }

  function TrimStart(s: string): (r: string)
    ensures r == [] || !IsJsSpace(r[0])
  {
    if s != [] && IsJsSpace(s[0]) then TrimStart(s[1..]) else s
  }

  function TrimEnd(s: string): string {
    if s != [] && IsJsSpace(s[|s| - 1]) then TrimEnd(s[..|s| - 1]) else s
  }

  /** `s.trim()`. */
  function Trim(s: string): string {
    TrimEnd(TrimStart(s))
  }

  lemma {:induction false} TrimStartEmpty(s: string)
    ensures TrimStart(s) == [] <==> IsBlank(s)
  {
    if s != [] && IsJsSpace(s[0]) {
      TrimStartEmpty(s[1..]);
      assert IsBlank(s) <==> IsBlank(s[1..]) by {
        assert forall i :: 0 < i < |s| ==> s[i] == s[1..][i - 1];
      }
    }
  }

  lemma {:induction false} TrimEndEmpty(s: string)
    ensures TrimEnd(s) == [] <==> IsBlank(s)
  {
    if s != [] && IsJsSpace(s[|s| - 1]) {
      TrimEndEmpty(s[..|s| - 1]);
      assert IsBlank(s) <==> IsBlank(s[..|s| - 1]) by {
        assert forall i :: 0 <= i < |s| - 1 ==> s[i] == s[..|s| - 1][i];
      }
    }
  }

  /** `!s.trim()` holds exactly for blank content. */
  lemma TrimEmptyIffBlank(s: string)
    ensures Trim(s) == [] <==> IsBlank(s)
  {
    var t := TrimStart(s);
    TrimStartEmpty(s);
    TrimEndEmpty(t);
    if t != [] {
      assert !IsBlank(t);
    }
  }

  /** The page state. `stored` mirrors the `qrHistory` entry of local storage
      (None: no such key). */
  class Editor {
    var inputType: ContentType
    var inputValue: string
    var logo: Option<string>
    var logoSize: int
    var customText: string
    var showCustomText: bool
    var qrSize: int
    var marginSize: int
    var fgColor: string
    var bgColor: string
    var errorLevel: ErrorLevel
    var history: seq<HistoryItem>
    var stored: Option<seq<HistoryItem>>

    ghost predicate Valid()
      reads this
    {
      |history| <= MaxEntries
    }

    /** The nine settings as one record. */
    function Snapshot(): Settings
      reads this
    {
      Settings(qrSize, marginSize, fgColor, bgColor, errorLevel, logo, logoSize, customText, showCustomText)
    }

    /** The entry `saveToHistory` records for the current content. */
    function NewItem(now: int, stamp: string): HistoryItem
      reads this
    {
      HistoryItem(now, inputType, inputValue, GenerateQRValue(inputType, inputValue), stamp, Snapshot())
    }

    /** The initial state: plain text, no content, default settings, empty history.
        `saved` is whatever local storage already holds. */
    constructor (saved: Option<seq<HistoryItem>>)
      ensures Valid()
      ensures inputType == Text && inputValue == ""
      ensures Snapshot() == DefaultSettings
      ensures history == [] && stored == saved
    {
      inputType, inputValue := Text, "";
      logo, logoSize, customText, showCustomText := None, 20, "", false;
      qrSize, marginSize, fgColor, bgColor, errorLevel := 256, 4, "#000000", "#ffffff", H;
      history, stored := [], saved;
    }

    /** Typing into the content input or choosing a content type. */
    method Edit(kind: ContentType, value: string)
      modifies this`inputType, this`inputValue
      ensures inputType == kind && inputValue == value
    {
      inputType, inputValue := kind, value;
    }

    /** The settings panel's setters, taken together. */
    method ApplySettings(s: Settings)
      modifies this`qrSize, this`marginSize, this`fgColor, this`bgColor, this`errorLevel,
               this`logo, this`logoSize, this`customText, this`showCustomText
      ensures Snapshot() == s
    {
      qrSize, marginSize, fgColor, bgColor, errorLevel := s.qrSize, s.marginSize, s.fgColor, s.bgColor, s.errorLevel;
      logo, logoSize, customText, showCustomText := s.logo, s.logoSize, s.customText, s.showCustomText;
    }

    /** Records the current content: nothing happens for blank content;
        otherwise the new entry goes first, at most ten are kept, and the
        store is overwritten with the new list. */
    method SaveToHistory(now: int, stamp: string)
      requires Valid()
      modifies this`history, this`stored
      ensures Valid()
      ensures IsBlank(inputValue) ==> history == old(history) && stored == old(stored)
      ensures !IsBlank(inputValue) ==> history == Pushed(NewItem(now, stamp), old(history)) && stored == Some(history)
    {
      TrimEmptyIffBlank(inputValue);
      if Trim(inputValue) == [] {
        return;
      }
      var item := HistoryItem(now, inputType, inputValue, GenerateQRValue(inputType, inputValue), stamp,
        Settings(qrSize, marginSize, fgColor, bgColor, errorLevel, logo, logoSize, customText, showCustomText));
      history := [item] + history[..if |history| < 9 then |history| else 9];
      stored := Some(history);
    }

    /** Removes every entry with this id and stores the result. */
    method DeleteHistoryItem(id: int)
      requires Valid()
      modifies this`history, this`stored
      ensures Valid()
      ensures history == WithoutId(old(history), id) && stored == Some(history)
    {
      history := WithoutId(history, id);
      stored := Some(history);
    }

    /** Empties the history and removes the store key. */
    method ClearHistory()
      modifies this`history, this`stored
      ensures Valid()
      ensures history == [] && stored == None
    {
      history := [];
      stored := None;
    }

    /** Puts an entry back into the editor: its content type and content and
        four of its settings. Margin, logo, logo size and caption are left as
        they are. */
    method LoadFromHistory(item: HistoryItem)
      modifies this`inputType, this`inputValue, this`qrSize, this`fgColor, this`bgColor, this`errorLevel
      ensures inputType == item.kind && inputValue == item.value
      ensures qrSize == item.settings.qrSize && fgColor == item.settings.fgColor
      ensures bgColor == item.settings.bgColor && errorLevel == item.settings.errorLevel
    {
      inputType, inputValue := item.kind, item.value;
      qrSize := item.settings.qrSize;
      fgColor := item.settings.fgColor;
      bgColor := item.settings.bgColor;
      errorLevel := item.settings.errorLevel;
    }

    /** Restores the default settings; content and history are kept. */
    method HandleReset()
      modifies this`qrSize, this`marginSize, this`fgColor, this`bgColor, this`errorLevel,
               this`logo, this`logoSize, this`customText, this`showCustomText
      ensures Snapshot() == DefaultSettings
    {
      customText := "";
      showCustomText := false;
      fgColor := "#000000";
      bgColor := "#ffffff";
      qrSize := 256;
      marginSize := 4;
      errorLevel := H;
      logo := None;
      logoSize := 20;
    }

    /** Builds the export canvas for the current settings; `qrLayer` says
        whether the on-screen QR canvas was found. */
    method ComposeExport(qrLayer: bool) returns (c: Canvas)
      ensures fresh(c)
      ensures c.width == ExportWidth(qrSize) && c.height == ExportHeight(qrSize, showCustomText, customText)
      ensures c.log == ExportCommands(qrSize, fgColor, bgColor, showCustomText, customText, qrLayer)
    {
      c := new Canvas();
      var textHeight := if showCustomText && customText != "" then CaptionHeight else 0;
      c.Resize(qrSize + Padding * 2, qrSize + textHeight + Padding * 2);
      c.Exec(SetFillStyle(bgColor));
      c.Exec(FillRect(0.0, 0.0, c.width as real, c.height as real));
      if showCustomText && customText != "" {
        c.Exec(SetFillStyle(fgColor));
        c.Exec(SetFont(CaptionFont));
        c.Exec(SetTextAlign("center"));
        c.Exec(FillText(customText, c.width as real / 2.0, (Padding + 30) as real));
      }
      if qrLayer {
        c.Exec(Blit(QrLayer, Padding as real, (Padding + textHeight) as real));
      }
    }

    /** `downloadQR`: blank content aborts before any work; otherwise the
        content is saved to history and the export canvas composed, and the
        file is offered when the QR layer was found. */
    method DownloadQR(now: int, stamp: string, qrLayer: bool) returns (c: Canvas?, downloaded: bool)
      requires Valid()
      modifies this`history, this`stored
      ensures Valid()
      ensures IsBlank(inputValue) ==>
        c == null && !downloaded && history == old(history) && stored == old(stored)
      ensures !IsBlank(inputValue) ==>
        && history == Pushed(NewItem(now, stamp), old(history)) && stored == Some(history)
        && c != null && fresh(c) && downloaded == qrLayer
        && c.width == ExportWidth(qrSize) && c.height == ExportHeight(qrSize, showCustomText, customText)
        && c.log == ExportCommands(qrSize, fgColor, bgColor, showCustomText, customText, qrLayer)
    {
      TrimEmptyIffBlank(inputValue);
      if Trim(inputValue) == [] {
        return null, false;
      }
      SaveToHistory(now, stamp);
      c := ComposeExport(qrLayer);
      downloaded := qrLayer;
    }

    /** `copyToClipboard`: like the download but leaves the history alone;
        without a QR layer the copy fails. */
    method CopyToClipboard(qrLayer: bool) returns (c: Canvas?, copied: bool)
      ensures IsBlank(inputValue) ==> c == null && !copied
      ensures !IsBlank(inputValue) ==>
        && c != null && fresh(c) && copied == qrLayer
        && c.width == ExportWidth(qrSize) && c.height == ExportHeight(qrSize, showCustomText, customText)
        && c.log == ExportCommands(qrSize, fgColor, bgColor, showCustomText, customText, qrLayer)
    {
      TrimEmptyIffBlank(inputValue);
      if Trim(inputValue) == [] {
        return null, false;
      }
      c := ComposeExport(qrLayer);
      copied := qrLayer;
    }

    /** `printQR`: like the download but leaves the history alone; the print
        document opens only when the QR layer was found. */
    method PrintQR(qrLayer: bool) returns (c: Canvas?, printed: bool)
      ensures IsBlank(inputValue) ==> c == null && !printed
      ensures !IsBlank(inputValue) ==>
        && c != null && fresh(c) && printed == qrLayer
        && c.width == ExportWidth(qrSize) && c.height == ExportHeight(qrSize, showCustomText, customText)
        && c.log == ExportCommands(qrSize, fgColor, bgColor, showCustomText, customText, qrLayer)
    {
      TrimEmptyIffBlank(inputValue);
      if Trim(inputValue) == [] {
        return null, false;
      }
      c := ComposeExport(qrLayer);
      printed := qrLayer;
    }
  }

  /** Saving and then loading the newest entry leaves the editor as it was. */
  method SaveThenLoad(e: Editor, now: int, stamp: string)
    requires e.Valid() && !IsBlank(e.inputValue)
    modifies e
    ensures e.Valid()
    ensures e.inputType == old(e.inputType) && e.inputValue == old(e.inputValue)
    ensures e.Snapshot() == old(e.Snapshot())
    ensures |e.history| >= 1 && e.history[0] == old(e.NewItem(now, stamp))
  {
    e.SaveToHistory(now, stamp);
    e.LoadFromHistory(e.history[0]);
  }

  /** Default settings, text content "Hello": a 296 by 296 export with no
      caption band and the 256-square QR layer at (20, 20). */
  method HelloExport(now: int, stamp: string) returns (c: Canvas?)
    ensures c != null && c.width == 296 && c.height == 296
    ensures c.log == [SetFillStyle("#ffffff"), FillRect(0.0, 0.0, 296.0, 296.0), Blit(QrLayer, 20.0, 20.0)]
  {
    var e := new Editor(None);
    e.Edit(Text, "Hello");
    assert !IsJsSpace("Hello"[0]);
    var done;
    c, done := e.DownloadQR(now, stamp, true);
  }
}
