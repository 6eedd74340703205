/** Shared data model of the QR generator: content kinds, error-correction
    levels, the render settings and the history entry. */
module QrTypes {

  datatype Option<+T> = None | Some(value: T)

  /** The six content kinds the editor offers. */
  datatype ContentType = Text | Url | Email | Phone | Wifi | Vcard

  /** QR error-correction tiers, in increasing redundancy. */
  datatype ErrorLevel = L | M | Q | H

  /** Snapshot of the render settings stored with every history entry. */
  datatype Settings = Settings(
    qrSize: int,
    marginSize: int,
    fgColor: string,
    bgColor: string,
    errorLevel: ErrorLevel,
    logo: Option<string>,
    logoSize: int,
    customText: string,
    showCustomText: bool)

  /** One remembered generation: `id` is the creation time in epoch milliseconds. */
  datatype HistoryItem = HistoryItem(
    id: int,
    kind: ContentType,
    value: string,
    qrValue: string,
    timestamp: string,
    settings: Settings)

  /** Range of the size slider, in pixels. */
  const MinQrSize := 128
  const MaxQrSize := 512
  /** Range of the margin slider, in modules. */
  const MaxMargin := 8

  predicate ValidQrSize(n: int) { MinQrSize <= n <= MaxQrSize }
  predicate ValidMargin(n: int) { 0 <= n <= MaxMargin }

  /** The settings the editor starts with and returns to on reset. */
  const DefaultSettings := Settings(256, 4, "#000000", "#ffffff", H, None, 20, "", false)
}
