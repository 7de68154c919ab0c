/**
 * The download-as-PDF button: the check that there is something to export,
 * the timestamp in the file name, and the options record built from the
 * defaults and the user's choices in the options dialog.
 */
module PdfExport {
  import opened Js

  // ----- trimming the output region's markup -----

  /** The characters `String.prototype.trim` removes: JavaScript's white space
      and line terminators. */
  predicate IsJsWhitespace(c: char)
  {
    var n := c as int;
    n == 0x9 || n == 0xA || n == 0xB || n == 0xC || n == 0xD || n == 0x20
    || n == 0xA0 || n == 0x1680 || (0x2000 <= n <= 0x200A)
    || n == 0x2028 || n == 0x2029 || n == 0x202F || n == 0x205F
    || n == 0x3000 || n == 0xFEFF
  }

  predicate AllWhitespace(s: string)
  {
    forall i :: 0 <= i < |s| ==> IsJsWhitespace(s[i])
  }

  /** `s` without its leading white space: the longest suffix that does not
      start with white space. */
  function TrimStart(s: string): (r: string)
    ensures |r| <= |s| && r == s[|s| - |r|..]
    ensures r != [] ==> !IsJsWhitespace(r[0])
    ensures forall i :: 0 <= i < |s| - |r| ==> IsJsWhitespace(s[i])
    decreases |s|
  {
    if s != [] && IsJsWhitespace(s[0]) then TrimStart(s[1..]) else s
  }

  /** `s` without its trailing white space: the longest prefix that does not
      end with white space. */
  function TrimEnd(s: string): (r: string)
    ensures |r| <= |s| && r == s[..|r|]
    ensures r != [] ==> !IsJsWhitespace(r[|r| - 1])
    ensures forall i :: |r| <= i < |s| ==> IsJsWhitespace(s[i])
    decreases |s|
  {
    if s != [] && IsJsWhitespace(s[|s| - 1]) then TrimEnd(s[..|s| - 1]) else s
  }

  /** `s.trim()`: empty exactly when `s` is all white space, and otherwise a
      piece of `s` that starts and ends with something visible. */
  function Trim(s: string): (r: string)
    ensures r == "" <==> AllWhitespace(s)
    ensures r != "" ==> !IsJsWhitespace(r[0]) && !IsJsWhitespace(r[|r| - 1])
    ensures |r| <= |s|
  {
    TrimBlank(s);
    TrimEnd(TrimStart(s))
  }

  lemma TrimBlank(s: string)
    ensures TrimEnd(TrimStart(s)) == "" <==> AllWhitespace(s)
  {
    var t := TrimStart(s);
    var r := TrimEnd(t);
    if r != "" {
      assert !IsJsWhitespace(t[0]);
      assert s[|s| - |t|] == t[0];
    }
  }

  // ----- the timestamp -----

  function DigitChar(d: nat): (c: char)
    requires d < 10
    ensures '0' <= c <= '9'
  {
    ('0' as int + d) as char
  }

  /** The value of a decimal digit; any other character counts as 0. */
  function DigitValue(c: char): nat
  {
    if '0' <= c <= '9' then c as int - '0' as int else 0
  }

  predicate AllDigits(s: string)
  {
    forall i :: 0 <= i < |s| ==> '0' <= s[i] <= '9'
  }

  /** The number a string of decimal digits spells. */
  function DigitsValue(s: string): nat
    decreases |s|
  {
    if s == [] then 0 else DigitsValue(s[..|s| - 1]) * 10 + DigitValue(s[|s| - 1])
  }

  /** `n.toString()` for a non-negative integer: its decimal digits, with no
      leading zero, as many as the number has. */
  function DecimalString(n: nat): (r: string)
    ensures |r| >= 1 && AllDigits(r)
    ensures r[0] == '0' <==> n == 0
    ensures n < 10 <==> |r| == 1
    ensures 10 <= n < 100 <==> |r| == 2
    ensures 100 <= n < 1000 <==> |r| == 3
    ensures 1000 <= n < 10000 <==> |r| == 4
    decreases n
  {
    if n < 10 then [DigitChar(n)] else DecimalString(n / 10) + [DigitChar(n % 10)]
  }

  /** Reading back the decimal digits gives the number. */
  lemma {:induction false} DecimalRoundTrip(n: nat)
    ensures DigitsValue(DecimalString(n)) == n
    decreases n
  {
    var r := DecimalString(n);
    if n >= 10 {
      DecimalRoundTrip(n / 10);
      assert r[..|r| - 1] == DecimalString(n / 10);
    }
  }

  /** A leading zero does not change the value. */
  lemma {:induction false} LeadingZero(s: string)
    ensures DigitsValue("0" + s) == DigitsValue(s)
    decreases |s|
  {
    if s != [] {
      var t := "0" + s;
      assert t[..|t| - 1] == "0" + s[..|s| - 1];
      LeadingZero(s[..|s| - 1]);
    }
  }

  /** `s.padStart(targetLength, fill)` with a one-character fill. */
  function PadStart(s: string, targetLength: nat, fill: char): (r: string)
    ensures |r| == if |s| >= targetLength then |s| else targetLength
    ensures r[|r| - |s|..] == s
    ensures forall i :: 0 <= i < |r| - |s| ==> r[i] == fill
  {
    if |s| >= targetLength then s else seq(targetLength - |s|, _ => fill) + s
  }

  /** The page's `pad`: a number's digits, at least two of them. */
  function Pad(n: nat): (r: string)
    ensures AllDigits(r)
    ensures n < 100 ==> |r| == 2
    ensures n >= 100 ==> r == DecimalString(n)
  {
    PadStart(DecimalString(n), 2, '0')
  }

  /** Reading back a padded number gives the number. */
  lemma PadRoundTrip(n: nat)
    ensures DigitsValue(Pad(n)) == n
  {
    DecimalRoundTrip(n);
    if n < 10 {
      assert Pad(n) == "0" + DecimalString(n);
      LeadingZero(DecimalString(n));
    }
  }

  /** The local time the page reads, as `Date` reports it: `month` counts
      from 0 as `getMonth()` does. */
  datatype LocalTime = LocalTime(year: nat, month: nat, day: nat, hours: nat, minutes: nat, seconds: nat)
  {
    predicate Valid()
    {
      month < 12 && 1 <= day <= 31 && hours < 24 && minutes < 60 && seconds < 60
    }
  }

  /** `YYYYMMDD-HHMMSS`, the month counted from 1; each field but the year
      padded to two digits. */
  function FormattedDate(t: LocalTime): (r: string)
    ensures t.Valid() ==> |r| == |DecimalString(t.year)| + 11
  {
    DecimalString(t.year) + Pad(t.month + 1) + Pad(t.day)
    + "-" + Pad(t.hours) + Pad(t.minutes) + Pad(t.seconds)
  }

  /** The six numbers a timestamp shows, the month counted from 1. */
  datatype Stamp = Stamp(year: nat, month: nat, day: nat, hours: nat, minutes: nat, seconds: nat)

  /** Reads the numbers back out of a fifteen-character timestamp. */
  function ParseTimestamp(s: string): Stamp
    requires |s| == 15
  {
    Stamp(DigitsValue(s[..4]), DigitsValue(s[4..6]), DigitsValue(s[6..8]),
          DigitsValue(s[9..11]), DigitsValue(s[11..13]), DigitsValue(s[13..15]))
  }

  /** For four-digit years the timestamp keeps every field in its place,
      written in digits and zero-filled to its width; reading it back gives
      the time it was made from, the month shifted to count from 1. */
  lemma TimestampRoundTrip(t: LocalTime)
    requires t.Valid() && 1000 <= t.year < 10000
    ensures |FormattedDate(t)| == 15 && FormattedDate(t)[8] == '-'
    ensures var r := FormattedDate(t);
            && AllDigits(r[..4]) && AllDigits(r[4..6]) && AllDigits(r[6..8])
            && AllDigits(r[9..11]) && AllDigits(r[11..13]) && AllDigits(r[13..15])
    ensures ParseTimestamp(FormattedDate(t)) == Stamp(t.year, t.month + 1, t.day, t.hours, t.minutes, t.seconds)
  {
    var y, mo, d := DecimalString(t.year), Pad(t.month + 1), Pad(t.day);
    var h, mi, se := Pad(t.hours), Pad(t.minutes), Pad(t.seconds);
    DecimalRoundTrip(t.year);
    PadRoundTrip(t.month + 1);
    PadRoundTrip(t.day);
    PadRoundTrip(t.hours);
    PadRoundTrip(t.minutes);
    PadRoundTrip(t.seconds);
    TimestampFields(y, mo, d, h, mi, se);
    var r := FormattedDate(t);
    assert r == y + mo + d + "-" + h + mi + se;
    ParseFields(r, y, mo, d, h, mi, se);
  }

  /** Parsing a timestamp reads back the fields found at their places. */
  lemma ParseFields(r: string, y: string, mo: string, d: string, h: string, mi: string, se: string)
    requires |r| == 15
    requires r[..4] == y && r[4..6] == mo && r[6..8] == d
    requires r[9..11] == h && r[11..13] == mi && r[13..15] == se
    ensures DigitsValue(r[..4]) == DigitsValue(y)
    ensures DigitsValue(r[4..6]) == DigitsValue(mo)
    ensures DigitsValue(r[6..8]) == DigitsValue(d)
    ensures DigitsValue(r[9..11]) == DigitsValue(h)
    ensures DigitsValue(r[11..13]) == DigitsValue(mi)
    ensures DigitsValue(r[13..15]) == DigitsValue(se)
  {
  }

  /** Where each field sits in the concatenated timestamp. */
  lemma TimestampFields(y: string, mo: string, d: string, h: string, mi: string, se: string)
    requires |y| == 4 && |mo| == 2 && |d| == 2 && |h| == 2 && |mi| == 2 && |se| == 2
    ensures var r := y + mo + d + "-" + h + mi + se;
            && |r| == 15 && r[8] == '-'
            && r[..4] == y && r[4..6] == mo && r[6..8] == d
            && r[9..11] == h && r[11..13] == mi && r[13..15] == se
  {
    var r := y + mo + d + "-" + h + mi + se;
    assert r[..4] == y;
    assert r[4..6] == mo;
    assert r[6..8] == d;
    assert r[9..11] == h;
    assert r[11..13] == mi;
    assert r[13..15] == se;
  }

  // ----- the options record -----

  const DefaultPrefix: string := "markdown-preview"

  /** The options handed to the PDF generator. The page nests the image,
      canvas and page options in sub-records; here they are flat. */
  datatype Settings = Settings(
    margin: Number,
    filename: string,
    imageType: string,
    imageQuality: real,
    scale: int,
    unit: string,
    format: string,
    orientation: string,
    pagebreakModes: seq<string>)

  function FileName(prefix: string, date: string): string
  {
    prefix + "-" + date + ".pdf"
  }

  /** A margin the dialog's value may replace the default with: a number,
      not below 0. */
  predicate AcceptedMargin(m: Number)
  {
    !m.NaN? && AtLeast(m, 0.0)
  }

  predicate AcceptedOrientation(o: string)
  {
    o == "portrait" || o == "landscape"
  }

  /** What the generator can rely on: the margin is a number not below 0 and
      the orientation is one of the two it knows. */
  predicate ValidSettings(s: Settings)
  {
    AcceptedMargin(s.margin) && AcceptedOrientation(s.orientation)
  }

  /** The record the button starts from. Its file name is the one the
      dialog's pre-filled prefix gives. */
  function DefaultSettings(date: string): (r: Settings)
    ensures ValidSettings(r)
    ensures r.filename == FileName(DefaultPrefix, date)
  {
    Settings(Finite(0.5), "markdown-preview-" + date + ".pdf", "jpeg", 0.98, 2,
             "in", "a4", "portrait", ["avoid-all", "css", "legacy"])
  }

  /** The user's choices merged into `s`: the file name always takes the
      prefix; orientation and margin are taken only when acceptable, and
      otherwise the earlier value stays. Nothing else changes. */
  function Merge(s: Settings, margin: Number, orientation: string, prefix: string, date: string): (r: Settings)
    ensures r.filename == FileName(prefix, date)
    ensures AcceptedOrientation(orientation) ==> r.orientation == orientation
    ensures !AcceptedOrientation(orientation) ==> r.orientation == s.orientation
    ensures AcceptedMargin(margin) ==> r.margin == margin
    ensures !AcceptedMargin(margin) ==> r.margin == s.margin
    ensures ValidSettings(s) ==> ValidSettings(r)
    ensures r == s.(filename := r.filename, orientation := r.orientation, margin := r.margin)
  {
    var withName := s.(filename := prefix + "-" + date + ".pdf");
    var withOrientation :=
      if orientation == "portrait" || orientation == "landscape"
      then withName.(orientation := orientation) else withName;
    if !margin.NaN? && AtLeast(margin, 0.0) then withOrientation.(margin := margin) else withOrientation
  }

  /** Confirming the dialog with its pre-filled values leaves the defaults. */
  lemma PrefilledDialogKeepsDefaults(date: string)
    ensures Merge(DefaultSettings(date), Finite(0.5), "portrait", DefaultPrefix, date) == DefaultSettings(date)
  {
  }

  /** A NaN or negative margin, or an unknown orientation, never reaches the
      generator: the defaults stand in for them. */
  lemma RejectedChoicesKeepDefaults(date: string, margin: Number, orientation: string, prefix: string)
    requires !AcceptedMargin(margin) && !AcceptedOrientation(orientation)
    ensures Merge(DefaultSettings(date), margin, orientation, prefix, date)
            == DefaultSettings(date).(filename := FileName(prefix, date))
  {
  }

  /** The options record as the page builds it, field by field in place. */
  class PdfOptions {
    var margin: Number
    var filename: string
    var imageType: string
    var imageQuality: real
    var scale: int
    var unit: string
    var format: string
    var orientation: string
    var pagebreakModes: seq<string>

    function Value(): Settings
      reads this
    {
      Settings(margin, filename, imageType, imageQuality, scale, unit, format, orientation, pagebreakModes)
    }

    constructor Defaults(date: string)
      ensures Value() == DefaultSettings(date)
    {
      margin := Finite(0.5);
      filename := "markdown-preview-" + date + ".pdf";
      imageType, imageQuality := "jpeg", 0.98;
      scale := 2;
      unit, format, orientation := "in", "a4", "portrait";
      pagebreakModes := ["avoid-all", "css", "legacy"];
    }

    /** Overwrites the file name, then the orientation and the margin when
        they are acceptable. */
    method ApplyChoices(margin: Number, orientation: string, prefix: string, date: string)
      modifies this
      ensures Value() == Merge(old(Value()), margin, orientation, prefix, date)
    {
      this.filename := prefix + "-" + date + ".pdf";
      if orientation == "portrait" || orientation == "landscape" {
        this.orientation := orientation;
      }
      if !margin.NaN? && AtLeast(margin, 0.0) {
        this.margin := margin;
      }
    }
  }

  /** How the options dialog was closed: confirmed with the number the margin
      field parses to, the chosen orientation and the prefix; or cancelled. */
  datatype DialogAnswer = Confirm(margin: Number, orientation: string, prefix: string) | Cancel

  datatype Outcome = NothingToDownload | Cancelled | Generate(settings: Settings)

  /** A click on the download button, with the output region's markup, the
      clock's reading and the dialog's answer. Blank output is refused before
      the dialog opens; a cancelled dialog does nothing; otherwise the
      generator gets the defaults merged with the choices. */
  method DownloadPdf(outputHtml: string, now: LocalTime, answer: DialogAnswer) returns (o: Outcome)
    ensures o.NothingToDownload? <==> AllWhitespace(outputHtml)
    ensures o.Cancelled? <==> !AllWhitespace(outputHtml) && answer.Cancel?
    ensures o.Generate? ==> answer.Confirm?
    ensures o.Generate? ==>
              var date := FormattedDate(now);
              o.settings == Merge(DefaultSettings(date), answer.margin, answer.orientation, answer.prefix, date)
    ensures o.Generate? ==> ValidSettings(o.settings)
  {
    if Trim(outputHtml) == "" {
      return NothingToDownload;
    }
    var formattedDate := FormattedDate(now);
    var opt := new PdfOptions.Defaults(formattedDate);
    match answer
    case Cancel =>
      o := Cancelled;
    case Confirm(margin, orientation, prefix) =>
      opt.ApplyChoices(margin, orientation, prefix, formattedDate);
      o := Generate(opt.Value());
  }
}
