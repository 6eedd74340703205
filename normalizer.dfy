/** The content normaliser: maps (content type, raw text) to the payload
    string handed to the QR encoder (`generateQRValue` in src/pages/Home.tsx). */
module Normalizer {
  import opened QrTypes

  /** Field separator of the wifi and vcard inputs. */
  const Bar := '|'

  /** What a template literal prints for a destructured element that is absent. */
  const Undefined := "undefined"

  /** Security used when the third wifi field is absent or empty. */
  const DefaultSecurity := "WPA"

  /** The separator between vCard properties as the template literal writes it:
      `\\n` in a template is a backslash followed by `n`, not a line break. */
  const VcardSeparator := "\\n"

  predicate StartsWith(s: string, prefix: string) {
    |prefix| <= |s| && s[..|prefix|] == prefix
  }

  /** Number of occurrences of `c` in `s`. */
  function Count(s: string, c: char): nat {
    if s == [] then 0 else (if s[0] == c then 1 else 0) + Count(s[1..], c)
  }

  /** Inverse of `Split`: the parts glued back with `|` between them. */
  function Join(parts: seq<string>): string
    requires |parts| >= 1
  {
    if |parts| == 1 then parts[0] else parts[0] + [Bar] + Join(parts[1..])
  }

  /** JavaScript `s.split('|')`: one more segment than there are bars, and
      `"".split('|')` is `[""]`. */
  function Split(s: string): (parts: seq<string>)
    ensures |parts| == Count(s, Bar) + 1
    ensures forall i :: 0 <= i < |parts| ==> Bar !in parts[i]
  {
    if s == [] then [""]
    else
      var rest := Split(s[1..]);
      if s[0] == Bar then [""] + rest
      else [[s[0]] + rest[0]] + rest[1..]
  }

  /** Array destructuring followed by template interpolation: element `i`,
      or the text `undefined` when the array is shorter. */
  function FieldText(parts: seq<string>, i: nat): string {
    if i < |parts| then parts[i] else Undefined
  }

  /** `security || 'WPA'`: an absent or empty third field falls back to WPA. */
  function Security(parts: seq<string>): string {
    if |parts| > 2 && parts[2] != "" then parts[2] else DefaultSecurity
  }

  /** The WIFI configuration string for already separated fields. */
  function WifiRecord(security: string, ssid: string, password: string): string {
    "WIFI:T:" + security + ";S:" + ssid + ";P:" + password + ";;"
  }

  function WifiPayload(raw: string): string {
    var parts := Split(raw);
    WifiRecord(Security(parts), FieldText(parts, 0), FieldText(parts, 1))
  }

  /** The vCard text for already separated fields, as the template writes it. */
  function VcardRecord(name: string, phone: string, email: string): string {
    "BEGIN:VCARD" + VcardSeparator + "VERSION:3.0" + VcardSeparator
    + "FN:" + name + VcardSeparator
    + "TEL:" + phone + VcardSeparator
    + "EMAIL:" + email + VcardSeparator + "END:VCARD"
  }

  function VcardPayload(raw: string): string {
    var parts := Split(raw);
    VcardRecord(FieldText(parts, 0), FieldText(parts, 1), FieldText(parts, 2))
  }

  /** The payload encoded for content of kind `kind` typed as `raw`.
      Text passes through; a url always ends up with an `http` prefix and
      keeps the raw text as its tail; email and phone get their URI scheme. */
  function GenerateQRValue(kind: ContentType, raw: string): (payload: string)
    ensures kind == Text ==> payload == raw
    ensures kind == Url ==> StartsWith(payload, "http") && |raw| <= |payload| && payload[|payload| - |raw|..] == raw
    ensures kind == Url ==> (payload == raw <==> StartsWith(raw, "http"))
    ensures kind == Url && !StartsWith(raw, "http") ==> payload == "https://" + raw
    ensures kind == Email ==> StartsWith(payload, "mailto:") && payload[7..] == raw
    ensures kind == Phone ==> StartsWith(payload, "tel:") && payload[4..] == raw
  {
    match kind
    case Url => if StartsWith(raw, "http") then raw else "https://" + raw
    case Email => "mailto:" + raw
    case Phone => "tel:" + raw
    case Wifi => WifiPayload(raw)
    case Vcard => VcardPayload(raw)
    case Text => raw
  }

  // ---------------------------------------------------------------------
  // Split and Join are inverse to each other.

  lemma {:induction false} SplitThenJoin(s: string)
    ensures Join(Split(s)) == s
  {
    if s != [] {
      SplitThenJoin(s[1..]);
      var rest := Split(s[1..]);
      if s[0] != Bar {
        if |rest| == 1 {
          assert Join(Split(s)) == [s[0]] + rest[0];
        } else {
          assert Join(rest) == rest[0] + [Bar] + Join(rest[1..]);
          assert Split(s)[1..] == rest[1..];
          assert Join(Split(s)) == [s[0]] + rest[0] + [Bar] + Join(rest[1..]);
        }
      }
      assert s == [s[0]] + s[1..];
    }
  }

  lemma {:induction false} JoinThenSplit(parts: seq<string>)
    requires |parts| >= 1
    requires forall i :: 0 <= i < |parts| ==> Bar !in parts[i]
    ensures Split(Join(parts)) == parts
  {
    if |parts| == 1 {
      SplitNoBar(parts[0]);
    } else {
      JoinThenSplit(parts[1..]);
      SplitAfterField(parts[0], Join(parts[1..]));
      assert parts == [parts[0]] + parts[1..];
    }
  }

  /** A text without a bar is a single field. */
  lemma {:induction false} SplitNoBar(a: string)
    requires Bar !in a
    ensures Split(a) == [a]
  {
    if a != [] {
      SplitNoBar(a[1..]);
      assert a == [a[0]] + a[1..];
    }
  }

  /** Splitting peels off the text before the first bar. */
  lemma {:induction false} SplitAfterField(a: string, t: string)
    requires Bar !in a
    ensures Split(a + [Bar] + t) == [a] + Split(t)
  {
    if a == [] {
      assert a + [Bar] + t == [Bar] + t;
      assert ([Bar] + t)[1..] == t;
    } else {
      SplitAfterField(a[1..], t);
      assert (a + [Bar] + t)[1..] == a[1..] + [Bar] + t;
      assert a == [a[0]] + a[1..];
    }
  }

  /** The first field of `c + tail` is `c` when `tail` is empty or starts a new field. */
  lemma SplitHead(c: string, tail: string)
    requires Bar !in c
    requires tail == [] || tail[0] == Bar
    ensures Split(c + tail)[0] == c
  {
    if tail == [] {
      assert c + tail == c;
      SplitNoBar(c);
    } else {
      assert tail == [Bar] + tail[1..];
      assert c + tail == c + [Bar] + tail[1..];
      SplitAfterField(c, tail[1..]);
    }
  }

  /** Three bar-free fields followed by anything that starts a fourth field. */
  lemma ThreeFields(a: string, b: string, c: string, tail: string)
    requires Bar !in a && Bar !in b && Bar !in c
    requires tail == [] || tail[0] == Bar
    ensures var parts := Split(a + [Bar] + b + [Bar] + c + tail);
      |parts| >= 3 && parts[0] == a && parts[1] == b && parts[2] == c
  {
    assert a + [Bar] + b + [Bar] + c + tail == a + [Bar] + (b + [Bar] + (c + tail));
    SplitAfterField(a, b + [Bar] + (c + tail));
    SplitAfterField(b, c + tail);
    SplitHead(c, tail);
  }

  // ---------------------------------------------------------------------
  // Wifi payloads, stated against the raw input.

  /** `name|password|security…`: the WIFI string takes the first three fields,
      security falls back to WPA when empty, and later fields are ignored. */
  lemma WifiFromThreeFields(ssid: string, password: string, security: string, tail: string)
    requires Bar !in ssid && Bar !in password && Bar !in security
    requires tail == [] || tail[0] == Bar
    ensures GenerateQRValue(Wifi, ssid + [Bar] + password + [Bar] + security + tail)
         == "WIFI:T:" + (if security == "" then DefaultSecurity else security)
            + ";S:" + ssid + ";P:" + password + ";;"
  {
    ThreeFields(ssid, password, security, tail);
  }

  /** `name|password`: security is WPA. */
  lemma WifiFromTwoFields(ssid: string, password: string)
    requires Bar !in ssid && Bar !in password
    ensures GenerateQRValue(Wifi, ssid + [Bar] + password)
         == "WIFI:T:WPA;S:" + ssid + ";P:" + password + ";;"
  {
    SplitAfterField(ssid, password);
    SplitNoBar(password);
  }

  /** A bare network name: security is WPA and the absent password prints as `undefined`. */
  lemma WifiFromOneField(ssid: string)
    requires Bar !in ssid
    ensures GenerateQRValue(Wifi, ssid) == "WIFI:T:WPA;S:" + ssid + ";P:undefined;;"
  {
    SplitNoBar(ssid);
  }

  // ---------------------------------------------------------------------
  // vCard payloads.

  /** The vCard properties, one per line, in the order the record lists them. */
  function VcardLines(name: string, phone: string, email: string): seq<string> {
    ["BEGIN:VCARD", "VERSION:3.0", "FN:" + name, "TEL:" + phone, "EMAIL:" + email, "END:VCARD"]
  }

  function JoinLines(lines: seq<string>, sep: string): string
    requires |lines| >= 1
  {
    if |lines| == 1 then lines[0] else lines[0] + sep + JoinLines(lines[1..], sep)
  }

  /** The vCard record is its six property lines joined by the separator. */
  lemma VcardIsSixLines(name: string, phone: string, email: string)
    ensures VcardRecord(name, phone, email) == JoinLines(VcardLines(name, phone, email), VcardSeparator)
  {
    var lines := VcardLines(name, phone, email);
    var sep := VcardSeparator;
    assert JoinLines(lines[5..], sep) == "END:VCARD";
    assert JoinLines(lines[4..], sep) == lines[4] + sep + "END:VCARD" by { assert lines[4..][1..] == lines[5..]; }
    assert JoinLines(lines[3..], sep) == lines[3] + sep + JoinLines(lines[4..], sep) by { assert lines[3..][1..] == lines[4..]; }
    assert JoinLines(lines[2..], sep) == lines[2] + sep + JoinLines(lines[3..], sep) by { assert lines[2..][1..] == lines[3..]; }
    assert JoinLines(lines[1..], sep) == lines[1] + sep + JoinLines(lines[2..], sep) by { assert lines[1..][1..] == lines[2..]; }
    assert JoinLines(lines, sep) == lines[0] + sep + JoinLines(lines[1..], sep);
  }

  /** `name|phone|email…`: the record carries the first three fields; later ones are ignored. */
  lemma VcardFromThreeFields(name: string, phone: string, email: string, tail: string)
    requires Bar !in name && Bar !in phone && Bar !in email
    requires tail == [] || tail[0] == Bar
    ensures GenerateQRValue(Vcard, name + [Bar] + phone + [Bar] + email + tail)
         == JoinLines(VcardLines(name, phone, email), VcardSeparator)
  {
    ThreeFields(name, phone, email, tail);
    VcardIsSixLines(name, phone, email);
  }

  /** `name|phone`: the missing email prints as `undefined`. */
  lemma VcardFromTwoFields(name: string, phone: string)
    requires Bar !in name && Bar !in phone
    ensures GenerateQRValue(Vcard, name + [Bar] + phone)
         == JoinLines(VcardLines(name, phone, Undefined), VcardSeparator)
  {
    SplitAfterField(name, phone);
    SplitNoBar(phone);
    VcardIsSixLines(name, phone, Undefined);
  }

  /** A bare name: the missing phone and email print as `undefined`. */
  lemma VcardFromOneField(name: string)
    requires Bar !in name
    ensures GenerateQRValue(Vcard, name)
         == JoinLines(VcardLines(name, Undefined, Undefined), VcardSeparator)
  {
    SplitNoBar(name);
    VcardIsSixLines(name, Undefined, Undefined);
  }

  /** Because the separator is a backslash and `n`, a vcard payload holds a
      line break only when the raw input does: the record is one physical line. */
  lemma VcardHasNoLineBreak(raw: string)
    requires '\n' !in raw
    ensures '\n' !in GenerateQRValue(Vcard, raw)
  {
    var parts := Split(raw);
    forall i | 0 <= i < |parts| ensures '\n' !in parts[i] {
      SplitPartsFrom(raw, i);
    }
  }

  /** Every character of a split field comes from the input. */
  lemma {:induction false} SplitPartsFrom(s: string, i: nat)
    requires i < |Split(s)|
    ensures forall ch :: ch in Split(s)[i] ==> ch in s
  {
    if s != [] {
      var rest := Split(s[1..]);
      if s[0] == Bar {
        if i > 0 { SplitPartsFrom(s[1..], i - 1); }
      } else if i == 0 {
        SplitPartsFrom(s[1..], 0);
      } else {
        SplitPartsFrom(s[1..], i);
      }
      assert s == [s[0]] + s[1..];
    }
  }

  /** Worked examples of the url rule. */
  lemma UrlExamples()
    ensures GenerateQRValue(Url, "example.com") == "https://example.com"
    ensures GenerateQRValue(Url, "http://example.com") == "http://example.com"
  {
    assert !StartsWith("example.com", "http") by { assert "example.com"[0] != 'h'; }
    assert StartsWith("http://example.com", "http") by { assert "http://example.com"[..4] == "http"; }
  }
}
