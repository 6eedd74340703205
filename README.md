# qr-forge core in Dafny

The model covers the non-UI core of the qr-forge browser QR code generator. It has four parts:

- **Content normaliser** (`Normalizer`, normalizer.dfy). This is `generateQRValue`. It maps a content type and the raw input to the payload string.
  - text passes through unchanged.
  - url gets `https://` unless the input already starts with `http`.
  - email gets `mailto:` (RFC 6068 section 2).
  - phone gets `tel:` (RFC 3966 section 3).
  - wifi builds the ZXing `WIFI:T:…;S:…;P:…;;` string from `|`-separated fields.
  - vcard builds a vCard 3.0 record (BEGIN/VERSION/FN/TEL/EMAIL/END, RFC 2426) from `|`-separated fields.

  JavaScript `split('|')` is modelled exactly: `Split` returns one more field than there are bars, and `Join` is its inverse. Two quirks of the source are kept on purpose:
  - An absent destructured field prints as the text `undefined`.
  - The vCard separator is the two characters backslash and `n`, as the template literal on line 119 writes it. So the "record" is one physical line.
- **Editor and history** (`Home.Editor`, home.dfy; `History`, history.dfy). The page state is a class with these fields:
  - the content type and the content
  - the nine render settings
  - the history list
  - `stored`, a mirror of the `qrHistory` local-storage key

  Its methods are the page's handlers: `saveToHistory`, `deleteHistoryItem`, `clearHistory`, `loadFromHistory` and `handleReset`. The list operations (push with eviction to ten, filter by id) are pure functions in `History`, with lemmas about them.
- **Export canvas** (`ExportLayout`, export.dfy, with `Home.Editor.ComposeExport`). This is the composition shared by `downloadQR`, `copyToClipboard` and `printQR`:
  - a padding of 20
  - a caption band of 60, only when a caption is enabled and non-empty
  - the on-screen QR layer blitted at (20, 20 + band)
  - the blank-input guard that aborts all three actions

  Only the download saves to history. The copy and print methods have no `modifies` clause at all.
- **Logo overlay** (`QrWithLogo`, qr_with_logo.dfy). This is the effect of `QRWithLogo`. It sizes the canvas to the code, then lets the external encoder draw. Only when the encoder succeeded and the logo image decoded does it draw three things:
  - a background-coloured halo, with radius the logo radius plus 8
  - a 2-wide foreground border around the halo
  - the logo, clipped to a circle of the logo's radius and bracketed by save/restore

  The logo diameter is min(size·pct/100, size·0.2). It is computed in exact `real` arithmetic.

Drawing is modelled by `Canvas2D.Canvas`. This class records the commands issued on a 2D context in order, together with the canvas size and the save-stack depth. Pixels are not modelled. Resizing a canvas clears the record and the save stack, as assigning `width`/`height` does in the browser.

Nondeterministic inputs become parameters:
- `Date.now()` and the locale timestamp
- whether the encoder succeeded
- whether the logo image decoded
- whether the on-screen QR canvas was found

The logo percentage is not bounded to a range. `logoSize` starts at 20 (src/pages/Home.tsx:55), and its setter is passed to the settings panel (src/pages/Home.tsx:455), but the panel's props (src/components/SettingsPanel.tsx:24-36) have no logo or logo-size entry and it renders no control for them. Only the cap at a fifth of the code limits the logo diameter.

One observation about the source: `QRCodeDisplay` renders `QRCodeCanvas` from `qrcode.react` and never mounts `QRWithLogo`. As the page is written, the logo settings therefore do not reach the preview or the exports. The overlay is modelled as the component describes it.

## Model

| member | source | states |
|---|---|---|
| `Normalizer.Split` | src/pages/Home.tsx:115 | `split('|')` yields exactly one more field than the input has bars, and no field contains a bar |
| `Normalizer.SplitThenJoin` | src/pages/Home.tsx:115 | gluing the split fields back with `|` gives the input back |
| `Normalizer.JoinThenSplit` | src/pages/Home.tsx:115 | splitting bar-free fields joined by `|` gives the fields back |
| `Normalizer.SplitNoBar` | src/pages/Home.tsx:115 | input without a bar is one field (so `""` splits to `[""]`) |
| `Normalizer.SplitAfterField` | src/pages/Home.tsx:115 | the text before the first bar is the first field, and the rest splits on its own |
| `Normalizer.SplitHead` | src/pages/Home.tsx:115 | a field followed by nothing or by a bar comes first |
| `Normalizer.ThreeFields` | src/pages/Home.tsx:115-118 | `a|b|c…` destructures to a, b, c whatever follows the third field |
| `Normalizer.SplitPartsFrom` | src/pages/Home.tsx:115 | every character of a field comes from the input |
| `Normalizer.GenerateQRValue` | src/pages/Home.tsx:104-123 | text is unchanged. A url payload always starts with `http`, ends with the raw text, and equals the raw text iff that starts with `http`; otherwise it is `https://` followed by the raw text. Email is `mailto:` followed by the raw text; phone is `tel:` followed by the raw text |
| `Normalizer.UrlExamples` | src/pages/Home.tsx:106-109 | `example.com` becomes `https://example.com`; `http://example.com` is kept as is |
| `Normalizer.WifiFromThreeFields` | src/pages/Home.tsx:114-116 | `ssid|pw|sec…` gives `WIFI:T:sec;S:ssid;P:pw;;`, with WPA when sec is empty; fields after the third are ignored |
| `Normalizer.WifiFromTwoFields` | src/pages/Home.tsx:114-116 | `ssid|pw` gives `WIFI:T:WPA;S:ssid;P:pw;;` |
| `Normalizer.WifiFromOneField` | src/pages/Home.tsx:114-116 | a bare name gives security WPA and password `undefined` |
| `Normalizer.VcardIsSixLines` | src/pages/Home.tsx:119 | the vCard text is BEGIN, VERSION 3.0, FN, TEL, EMAIL, END in that order, joined by the backslash-n separator |
| `Normalizer.VcardFromThreeFields` | src/pages/Home.tsx:117-119 | `name|phone|email…` gives the six-line record of those fields; later fields are ignored |
| `Normalizer.VcardFromTwoFields` | src/pages/Home.tsx:117-119 | `name|phone` gives the six-line record with EMAIL of `undefined` |
| `Normalizer.VcardFromOneField` | src/pages/Home.tsx:117-119 | a bare name gives TEL and EMAIL of `undefined` |
| `Normalizer.VcardHasNoLineBreak` | src/pages/Home.tsx:119 | the vcard payload contains a real line break only if the input does |
| `History.Newest` | src/pages/Home.tsx:159 | the cut-off keeps at most ten entries |
| `History.Pushed` | src/pages/Home.tsx:159 | the new entry is first, the older entries follow in their order as a prefix of the old list, and the length is old+1 capped at ten |
| `History.PushedIsNewest` | src/pages/Home.tsx:159 | pushing is prepending and then keeping the newest ten |
| `History.NewestOfNewest` | src/pages/Home.tsx:159 | cutting to ten before prepending changes nothing once the result is cut again |
| `History.SaveAllKeepsNewest` | src/pages/Home.tsx:137-161 | after any run of saves, the history is the ten most recent saves, newest first, then what fits of the earlier history. So an 11th save drops the oldest |
| `History.WithoutId` | src/pages/Home.tsx:131 | an entry survives the filter iff it was present and its id differs; the list does not grow |
| `History.WithoutIdAppend` | src/pages/Home.tsx:131 | filtering distributes over concatenation, so survivors keep their relative order |
| `History.WithoutIdRemovesCount` | src/pages/Home.tsx:131 | the list shrinks by exactly the number of entries carrying the id |
| `History.WithoutAbsentId` | src/pages/Home.tsx:131 | deleting an id nobody carries changes nothing |
| `History.WithoutIdIdempotent` | src/pages/Home.tsx:131 | deleting an id twice equals deleting it once |
| `Home.TrimStart` | src/pages/Home.tsx:138 | leading-trim leaves nothing or a non-space first character |
| `Home.TrimStartEmpty` | src/pages/Home.tsx:138 | leading-trim empties the text iff it is all white space |
| `Home.TrimEndEmpty` | src/pages/Home.tsx:138 | trailing-trim empties the text iff it is all white space |
| `Home.TrimEmptyIffBlank` | src/pages/Home.tsx:138 | `!s.trim()` holds exactly for white-space-only (or empty) content |
| `Home.Editor.constructor` | src/pages/Home.tsx:50-63 | initial state: text type, empty content, default settings (256, 4, black on white, H, no logo, 20%, no caption), empty history |
| `Home.Editor.Edit` | src/pages/Home.tsx:50-51 | sets content type and content only |
| `Home.Editor.ApplySettings` | src/pages/Home.tsx:54-62 | the settings setters: the snapshot becomes the given settings; content and history are untouched |
| `Home.Editor.SaveToHistory` | src/pages/Home.tsx:137-162 | blank content changes nothing. Otherwise the history becomes the new entry (id now, type, value, payload, timestamp, settings snapshot) pushed onto the old list, capped at ten, and the store holds the new list. Nothing else changes |
| `Home.Editor.DeleteHistoryItem` | src/pages/Home.tsx:130-135 | the history becomes the old list without the entries carrying the id, and the store holds it |
| `Home.Editor.ClearHistory` | src/pages/Home.tsx:369-373 | the history is empty and the store key is removed |
| `Home.Editor.LoadFromHistory` | src/pages/Home.tsx:375-383 | type, content, size, colours and error level come from the entry. Margin, logo, logo size, caption and history keep their values (the frame) |
| `Home.Editor.HandleReset` | src/pages/Home.tsx:78-89 | all nine settings return to the defaults; content and history are kept |
| `Home.Editor.ComposeExport` | src/pages/Home.tsx:172-195 | a fresh canvas of the export size carrying exactly the export drawing commands |
| `Home.Editor.DownloadQR` | src/pages/Home.tsx:164-203 | blank content: no canvas, no download, history untouched. Otherwise: saved to history, export canvas composed, and a download iff the QR layer was found |
| `Home.Editor.CopyToClipboard` | src/pages/Home.tsx:205-257 | blank content: no canvas. Otherwise: the export canvas, copied iff the QR layer was found; the editor state cannot change (no modifies) |
| `Home.Editor.PrintQR` | src/pages/Home.tsx:259-295 | blank content: no canvas. Otherwise: the export canvas, printed iff the QR layer was found; the editor state cannot change |
| `Home.SaveThenLoad` | src/pages/Home.tsx:375-381 | loading the entry just saved gives back the same content type, content and settings |
| `Home.HelloExport` | src/pages/Home.tsx:164-195 | with default settings and text `Hello`, the export is 296 by 296, filled white, with the QR layer at (20, 20) |
| `ExportLayout.ExportSize` | src/pages/Home.tsx:177-181 | width is size+40; height exceeds width by 60 exactly when a non-empty caption is shown, else by 0 |
| `ExportLayout.QrLayerInside` | src/pages/Home.tsx:177-195 | a size-square QR layer at the blit point has 20 clear on the left, right and bottom, and sits 20 below the caption band. The caption baseline lies between the padding and the layer |
| `ExportLayout.ExportDrawing` | src/pages/Home.tsx:183-195 | first a fill of the whole canvas in the background colour. A caption exists iff it is shown, is drawn in the foreground colour, centred and inside the band. The QR layer is blitted last, once, at (20, 20+band), iff it was found |
| `Canvas2D.ReplayAppend` | src/components/QRWithLogo.tsx:78-89 | the save depth after two runs of commands is the depth after the first, then the second |
| `Canvas2D.ReplayWithoutSaves` | src/components/QRWithLogo.tsx:66-77 | commands other than save/restore leave the save depth unchanged |
| `Canvas2D.Canvas.Resize` | src/components/QRWithLogo.tsx:34-35 | the canvas takes the given size, and its drawing and save stack start afresh |
| `Canvas2D.Canvas.Exec` | src/components/QRWithLogo.tsx:67-89 | a command is appended to the record and the save depth follows it |
| `QrWithLogo.LogoDiameter` | src/components/QRWithLogo.tsx:58-61 | the diameter never exceeds size/5; it is size·pct/100 when pct ≤ 20 and size/5 when pct ≥ 20; it is non-negative for pct ≥ 0 |
| `QrWithLogo.LogoOrigin` | src/components/QRWithLogo.tsx:62-63 | the logo square is centred on the canvas, and lies inside it for pct ≥ 0 |
| `QrWithLogo.ClipRadius` | src/components/QRWithLogo.tsx:80 | the clip radius is half the logo diameter, at most size/10 |
| `QrWithLogo.HaloRadius` | src/components/QRWithLogo.tsx:66 | the halo is exactly 8 wider than the clip circle, and fits within the canvas for size ≥ 20 |
| `QrWithLogo.RenderCommands` | src/components/QRWithLogo.tsx:38-94 | nothing is drawn after a failed encode. Otherwise the encoder's matrix comes first and only once, and the logo overlay follows it exactly when a non-empty logo was given and decoded |
| `QrWithLogo.LogoHaloStyles` | src/components/QRWithLogo.tsx:66-75 | the halo fill uses the background colour, and the border stroke uses the foreground colour at width 2 |
| `QrWithLogo.LogoDrawnClipped` | src/components/QRWithLogo.tsx:77-89 | the logo is drawn once, after the halo fill and stroke, as the centred square, under a clip to the clip circle that no restore has lifted |
| `QrWithLogo.LogoCirclesCentred` | src/components/QRWithLogo.tsx:66-80 | both circles are centred on the canvas centre |
| `QrWithLogo.LogoKeepsSaveDepth` | src/components/QRWithLogo.tsx:78-89 | the save/restore bracket leaves the save depth as it was |
| `QrWithLogo.RenderKeepsSaveDepth` | src/components/QRWithLogo.tsx:26-95 | whatever the encoder and image outcomes, the effect leaves the save depth as it was |
| `QrWithLogo.DrawLogo` | src/components/QRWithLogo.tsx:56-90 | the onload handler appends exactly the overlay commands and keeps the save depth |
| `QrWithLogo.Render` | src/components/QRWithLogo.tsx:26-95 | the canvas is sized to the code before the encoder draws, and then carries exactly the effect's commands |

## Left out

- QR symbol encoding (bit matrix, masking, Reed-Solomon) is done by the external `qrcode` and `qrcode.react` libraries. It is one abstract `DrawQrMatrix` command, and its success is a parameter. What the encoder draws when it fails is not modelled: no command is recorded.
- Pixel rendering, font metrics, `toDataURL`/`toBlob`, MIME choice and the download file name are browser canvas and document internals.
- The on-screen QR layer is assumed to be `qrSize` pixels square. `QrLayerInside` states its placement for that size. Its real backing size belongs to `qrcode.react`.
- Clipboard writes, `window.open` and the print document, synthetic download links and toasts are browser I/O. Each action reports only whether the output would be delivered.
- A missing 2D context (`getContext` returning null) and a null print window or blob are browser failures. They are not modelled.
- Reading history from local storage at start-up, JSON (de)serialisation and its `try/catch` are left out. The store is the abstract `stored` mirror, and the constructor takes its initial value.
- The asynchronous logo decode runs as a separate callback in the source. `Render` issues its commands right after the encoder's, so interleaving with other work is not modelled. A logo that fails to load draws nothing (`decoded` false).
- `Date.now()` and `toLocaleString()` are parameters.
- `getPlaceholder`, `handleSelectHistoryItem`, the modal and panel components, theme handling, the PWA installer and bootstrapping are pure UI or browser events.
- Content types, error levels and sizes are Dafny datatypes and integers. The string-typed `errorLevel` state is restricted to L/M/Q/H as the settings panel offers.
