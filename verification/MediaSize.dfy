/**
 Paper sizes in CUPS notation: printing a size as a media token and reading tokens back.

 Lengths are exact: a length is a whole number of hundredths of a millimetre, and the numbers
 inside tokens are decimal fractions. A requested length may be negative, since nothing on the
 way to the spooler looks at its sign; a length that was read from a token never is.
 */
module MediaSize {
  import opened Common
  import opened Protocol
  import opened Text

  /** A paper as the print backend knows it; sizes in hundredths of a millimetre. */
  datatype PaperInfo = PaperInfo(id: string, name: string, width: int, height: int)

  // ----- Printing -----

  function TwoDigits(n: nat): string
    requires n < 100
  {
    [DigitChar(n / 10), DigitChar(n % 10)]
  }

  /** Millimetres with up to two decimals and no needless zeros. */
  function FormatMagnitude(value: nat): string {
    if value % 100 == 0 then Digits(value / 100)
    else TrimEndChar(TrimEndChar(Digits(value / 100) + "." + TwoDigits(value % 100), '0'), '.')
  }

  function Magnitude(value: int): nat {
    if value < 0 then -value else value
  }

  function Sign(value: int): string {
    if value < 0 then "-" else ""
  }

  function FormatMm(value: int): string {
    Sign(value) + FormatMagnitude(Magnitude(value))
  }

  function CustomMediaOption(width: int, height: int): string {
    "Custom." + FormatMm(width) + "x" + FormatMm(height) + "mm"
  }

  predicate IsCupsMediaToken(value: string) {
    StartsWith(value, "Custom.")
  }

  /** The media token handed to `lp`: the driver's own Custom token, or one built from the size. */
  function CupsMediaOption(paper: PaperInfo): string {
    if IsCupsMediaToken(paper.id) then paper.id else CustomMediaOption(paper.width, paper.height)
  }

  /** `f64::round`: halves go away from zero. */
  function RoundToMm(value: int): int {
    if value < 0 then -((50 - value) / 100) else (value + 50) / 100
  }

  function StandardPaperName(width: int, height: int): Option<string> {
    match (RoundToMm(width), RoundToMm(height))
    case (105, 148) => Some("A6")
    case (148, 210) => Some("A5")
    case (210, 297) => Some("A4")
    case (297, 420) => Some("A3")
    case (216, 279) => Some("Letter")
    case (216, 356) => Some("Legal")
    case _ => None
  }

  function PaperName(width: int, height: int): string {
    match StandardPaperName(width, height)
    case Some(name) => name
    case None => FormatMm(width) + " x " + FormatMm(height) + " mm"
  }

  // ----- Reading -----

  function NormalizedChar(c: char): char {
    if IsDigit(c) || 'a' <= c <= 'z' || 'A' <= c <= 'Z' then LowerChar(c) else '_'
  }

  function NormalizedMediaToken(choice: string): (r: string)
    ensures |r| == |choice|
    ensures forall i :: 0 <= i < |choice| ==> r[i] == NormalizedChar(choice[i])
  {
    seq(|choice|, i requires 0 <= i < |choice| => NormalizedChar(choice[i]))
  }

  predicate HasPart(token: string, part: string) {
    part in Split(token, '_')
  }

  /** Named paper sizes, in the order in which they are tried. */
  const NAMED_SIZES: seq<(string, string, nat, nat)> := [
    ("a3", "A3", 29700, 42000), ("a3jis", "A3", 29700, 42000),
    ("a4", "A4", 21000, 29700), ("a4jis", "A4", 21000, 29700),
    ("a5", "A5", 14800, 21000), ("a5jis", "A5", 14800, 21000),
    ("a6", "A6", 10500, 14800), ("a6jis", "A6", 10500, 14800),
    ("b4jis", "B4", 25700, 36400),
    ("b5jis", "B5", 18200, 25700),
    ("b6jis", "B6", 12800, 18200),
    ("letter", "Letter", 21590, 27940),
    ("legal", "Legal", 21590, 35560),
    ("tabloid", "Tabloid", 27940, 43180),
    ("ledger", "Ledger", 43180, 27940),
    ("executive", "Executive", 18415, 26670)]

  function FirstNamed(token: string, sizes: seq<(string, string, nat, nat)>): Option<(string, nat, nat)> {
    if sizes == [] then None
    else if HasPart(token, sizes[0].0) then Some((sizes[0].1, sizes[0].2, sizes[0].3))
    else FirstNamed(token, sizes[1..])
  }

  function KnownPaperSize(choice: string): Option<(string, nat, nat)> {
    FirstNamed(NormalizedMediaToken(choice), NAMED_SIZES)
  }

  /** `size.replace("mmx", "x")` */
  function WithoutMmx(s: string): string {
    if |s| < 3 then s
    else if s[..3] == "mmx" then "x" + WithoutMmx(s[3..])
    else [s[0]] + WithoutMmx(s[1..])
  }

  datatype LengthUnit = Millimetres | Inches | Unspecified

  function StripUnitSuffix(size: string): (string, LengthUnit) {
    if EndsWith(Lower(size), "mm") then (size[..|size| - 2], Millimetres)
    else if EndsWith(Lower(size), "in") then (size[..|size| - 2], Inches)
    else (size, Unspecified)
  }

  /** The longest tail of digits and dots. */
  function NumberTail(s: string): (r: string)
    ensures forall i :: 0 <= i < |r| ==> IsNumberChar(r[i])
  {
    if s != "" && IsNumberChar(s[|s| - 1]) then NumberTail(s[..|s| - 1]) + [s[|s| - 1]] else ""
  }

  /** The longest head of digits and dots. */
  function NumberHead(s: string): (r: string)
    ensures forall i :: 0 <= i < |r| ==> IsNumberChar(r[i])
  {
    if s != "" && IsNumberChar(s[0]) then [s[0]] + NumberHead(s[1..]) else ""
  }

  /** `a / b` rounded half up. */
  function RoundedQuotient(a: nat, b: nat): (r: nat)
    requires b > 0
    ensures 2 * b * r <= 2 * a + b < 2 * b * r + 2 * b
  {
    var r := (2 * a + b) / (2 * b);
    assert r >= 0 by {
      assert 2 * b * r + 2 * b > 0;
    }
    r
  }

  /** A length of `d` units of `unit` hundredths of a millimetre, rounded half up to a hundredth. */
  function ToHundredths(d: Decimal, unit: nat): nat {
    RoundedQuotient(unit * d.mantissa, Pow10(d.scale))
  }

  predicate AtMostTwenty(d: Decimal) {
    d.mantissa <= 20 * Pow10(d.scale)
  }

  function ParseDimensionPair(size: string): Option<(nat, nat)> {
    var (plain, unit) := StripUnitSuffix(WithoutMmx(size));
    var x := LastIndexOf(plain, 'x');
    if x.None? then None
    else
      var width := ParseNumber(NumberTail(plain[..x.value]));
      var height := ParseNumber(NumberHead(plain[x.value + 1..]));
      if width.None? || height.None? then None
      else
        var inches := unit.Inches? || (unit.Unspecified? && AtMostTwenty(width.value) && AtMostTwenty(height.value));
        var hundredths := if inches then 2540 else 100;
        Some((ToHundredths(width.value, hundredths), ToHundredths(height.value, hundredths)))
  }

  /** The part of a token that holds the two numbers. */
  function SizePart(choice: string): string {
    if StartsWith(choice, "Custom.") then choice[7..]
    else if StartsWith(choice, "custom_") then choice[7..]
    else choice
  }

  function ParsePaperChoice(choice: string): Option<PaperInfo> {
    match KnownPaperSize(choice)
    case Some((name, width, height)) => Some(PaperInfo(choice, name, width, height))
    case None =>
      match ParseDimensionPair(SizePart(choice))
      case None => None
      case Some((width, height)) => Some(PaperInfo(choice, PaperName(width, height), width, height))
  }

  function ParseChoices(choices: seq<string>): seq<PaperInfo> {
    if choices == [] then []
    else
      var rest := ParseChoices(choices[1..]);
      match ParsePaperChoice(TrimStartChar(choices[0], '*'))
      case None => rest
      case Some(paper) => [paper] + rest
  }

  function ParsePaperLine(line: string): seq<PaperInfo> {
    match SplitOnce(line, ':')
    case None => []
    case Some((_, choices)) => ParseChoices(Words(choices))
  }

  predicate IsPaperOption(line: string) {
    StartsWith(Lower(line), "pagesize/") || StartsWith(Lower(line), "media/")
  }

  function ParsePaperLines(lines: seq<string>): seq<PaperInfo> {
    if lines == [] then []
    else (if IsPaperOption(lines[0]) then ParsePaperLine(lines[0]) else []) + ParsePaperLines(lines[1..])
  }

  /** The papers listed by `lpoptions -l`. */
  function ParseLpoptionsPapers(output: string): seq<PaperInfo> {
    ParsePaperLines(Lines(output))
  }

  // ----- Choosing the paper for a job -----

  const COMMON_SIZES: seq<(string, nat, nat)> := [
    ("label_40x30", 4000, 3000), ("label_50x30", 5000, 3000), ("label_60x40", 6000, 4000),
    ("label_80x50", 8000, 5000), ("label_100x150", 10000, 15000),
    ("iso_a6", 10500, 14800), ("iso_a5", 14800, 21000), ("iso_a4", 21000, 29700), ("iso_a3", 29700, 42000),
    ("na_letter", 21590, 27940), ("na_legal", 21590, 35560)]

  function CommonLabelPapers(): seq<PaperInfo> {
    seq(|COMMON_SIZES|, i requires 0 <= i < |COMMON_SIZES| =>
      var (id, width, height) := COMMON_SIZES[i];
      PaperInfo(id, PaperName(width, height), width, height))
  }

  function ListPapers(output: string): seq<PaperInfo> {
    var papers := ParseLpoptionsPapers(output);
    if papers == [] then CommonLabelPapers() else papers
  }

  /** Both sides differ by less than a hundredth of a millimetre. */
  predicate SameSize(a: PaperInfo, b: PaperInfo) {
    -1 < a.width - b.width < 1 && -1 < a.height - b.height < 1
  }

  function FindMatchingPaper(papers: seq<PaperInfo>, paper: PaperInfo): Option<PaperInfo> {
    if papers == [] then None
    else if SameSize(papers[0], paper) then Some(papers[0])
    else FindMatchingPaper(papers[1..], paper)
  }

  function ResolvePaperForPrint(papers: seq<PaperInfo>, paper: PaperInfo): PaperInfo {
    match FindMatchingPaper(papers, paper)
    case Some(found) => found
    case None => paper
  }

  /** The paper the worker asks the backend for. */
  function PaperInfoFromEffective(paper: Paper): PaperInfo {
    PaperInfo("custom_" + FormatMm(paper.width) + "x" + FormatMm(paper.height) + "mm",
              PaperName(paper.width, paper.height), paper.width, paper.height)
  }

  // ----- Reading back what was printed -----

  predicate IsSizeChar(c: char) {
    IsNumberChar(c) || c == '-'
  }

  /** Digits, dots and signs; every dot and every sign is followed by a digit. */
  ghost predicate IsFormatted(s: string) {
    && s != "" && (IsDigit(s[0]) || s[0] == '-')
    && (forall i :: 0 <= i < |s| ==> IsSizeChar(s[i]))
    && (forall i :: 0 <= i < |s| && (s[i] == '.' || s[i] == '-') ==> i + 1 < |s| && IsDigit(s[i + 1]))
  }

  lemma TrimZeros(s: string, a: nat, b: nat)
    requires a < 10 && b < 10 && a + b > 0
    ensures TrimEndChar(s + "." + [DigitChar(a), DigitChar(b)], '0')
            == if b == 0 then s + "." + [DigitChar(a)] else s + "." + [DigitChar(a), DigitChar(b)]
  {
    var text := s + "." + [DigitChar(a), DigitChar(b)];
    if b == 0 {
      var shorter := s + "." + [DigitChar(a)];
      assert text[..|text| - 1] == shorter;
      assert TrimEndChar(text, '0') == TrimEndChar(shorter, '0');
      assert shorter[|shorter| - 1] == DigitChar(a) != '0';
    }
  }

  function Tenths(value: nat): (d: nat)
    ensures d < 10
  {
    value % 100 / 10
  }

  lemma PlacesOf(value: nat)
    ensures value % 100 == 10 * Tenths(value) + value % 10
    ensures value == 100 * (value / 100) + 10 * Tenths(value) + value % 10
    ensures value % 100 % 10 == value % 10
  {
    var whole, rest := value / 100, value % 100;
    var tenths, hundredths := rest / 10, rest % 10;
    assert value == 10 * (10 * whole + tenths) + hundredths;
  }

  /** The zero-trimming only ever removes decimals: the integer digits survive. */
  lemma FormatShape(value: nat)
    ensures var whole := Digits(value / 100);
            FormatMagnitude(value) == (if value % 100 == 0 then whole
                                       else if value % 10 == 0 then whole + "." + [DigitChar(Tenths(value))]
                                       else whole + "." + [DigitChar(Tenths(value)), DigitChar(value % 10)])
  {
    hide Digits;
    PlacesOf(value);
    if value % 100 != 0 {
      TrimZeros(Digits(value / 100), Tenths(value), value % 10);
      assert TwoDigits(value % 100) == [DigitChar(Tenths(value)), DigitChar(value % 10)];
    }
  }

  lemma FormatIsFormatted(value: int)
    ensures IsFormatted(FormatMm(value))
  {
    hide FormatMagnitude, Digits;
    FormatShape(Magnitude(value));
  }

  lemma RoundExact(value: nat, m: nat, p: nat)
    requires p > 0 && 100 * m == value * p
    ensures RoundedQuotient(100 * m, p) == value
  {
    hide RoundedQuotient;
    var r := RoundedQuotient(100 * m, p);
    assert 2 * p * r <= 2 * (value * p) + p < 2 * p * r + 2 * p;
    assert p * (value - r) == value * p - p * r;
    assert p * (r - value) == p * r - value * p;
    if r < value {
      Multiple(p, value - r);
    } else if r > value {
      Multiple(p, r - value);
    }
  }

  lemma Multiple(p: nat, d: nat)
    requires d > 0
    ensures p * d >= p
  {
  }

  /** The decimals after the dot, read as digits behind the integer part. */
  lemma ParseWithFraction(whole: string, fraction: string)
    requires whole != "" && fraction != ""
    requires forall i :: 0 <= i < |whole| ==> IsDigit(whole[i])
    requires forall i :: 0 <= i < |fraction| ==> IsDigit(fraction[i])
    ensures var s := whole + "." + fraction;
            && (forall i :: 0 <= i < |s| ==> IsNumberChar(s[i]))
            && ParseNumber(s) == Some(Decimal(DigitsValue(whole + fraction), |fraction|))
  {
    hide DigitsValue;
    var s := whole + "." + fraction;
    assert s[|whole|] == '.';
    assert forall i :: 0 <= i < |whole| ==> s[i] == whole[i];
    assert IndexOf(s, '.') == |whole|;
    assert s[..|whole|] == whole && s[|whole| + 1..] == fraction;
  }

  lemma ParseWhole(whole: string)
    requires whole != "" && forall i :: 0 <= i < |whole| ==> IsDigit(whole[i])
    ensures ParseNumber(whole) == Some(Decimal(DigitsValue(whole), 0))
  {
    hide DigitsValue;
    assert IndexOf(whole, '.') == |whole|;
    assert whole[..|whole|] + "" == whole;
  }

  lemma ParsesBack(value: nat)
    ensures var s := FormatMagnitude(value);
            && s != "" && (forall i :: 0 <= i < |s| ==> IsNumberChar(s[i]))
            && ParseNumber(s).Some? && ToHundredths(ParseNumber(s).value, 100) == value
  {
    hide FormatMagnitude, Digits, ParseNumber, RoundedQuotient, DigitsValue, IndexOf;
    FormatShape(value);
    PlacesOf(value);
    var whole := Digits(value / 100);
    var tenths, hundredths := DigitChar(Tenths(value)), DigitChar(value % 10);
    ValueOfDigits(value / 100);
    if value % 100 == 0 {
      ParseWhole(whole);
      RoundExact(value, value / 100, Pow10(0));
    } else {
      ValueAppend(whole, tenths);
      if value % 10 == 0 {
        ParseWithFraction(whole, [tenths]);
        assert Pow10(1) == 10 * Pow10(0);
        RoundExact(value, 10 * (value / 100) + Tenths(value), Pow10(1));
      } else {
        ParseWithFraction(whole, [tenths, hundredths]);
        assert whole + [tenths, hundredths] == whole + [tenths] + [hundredths];
        ValueAppend(whole + [tenths], hundredths);
        assert Pow10(2) == 10 * Pow10(1) && Pow10(1) == 10 * Pow10(0);
        RoundExact(value, value, Pow10(2));
      }
    }
  }

  lemma {:induction false} NoMmxToReplace(s: string)
    requires forall i :: 0 <= i < |s| - 2 ==> s[i] != 'm'
    ensures WithoutMmx(s) == s
  {
    if |s| >= 3 {
      assert s[..3][0] == s[0];
      NoMmxToReplace(s[1..]);
    }
  }

  lemma {:induction false} NumbersStayWhole(s: string)
    requires forall i :: 0 <= i < |s| ==> IsNumberChar(s[i])
    ensures NumberTail(s) == s && NumberHead(s) == s
    decreases |s|
  {
    if s != "" {
      NumbersStayWhole(s[..|s| - 1]);
      NumbersStayWhole(s[1..]);
      assert s == s[..|s| - 1] + [s[|s| - 1]] == [s[0]] + s[1..];
    }
  }

  /** A character with which a part may go on after an underscore. */
  predicate IsPartStart(c: char) {
    IsDigit(c) || c == '_'
  }

  /** A token in which every underscore is followed by a digit or another underscore names no size. */
  lemma {:induction false} PartsBeginWithDigits(s: string)
    requires s != "" && IsPartStart(s[0])
    requires forall i :: 0 <= i < |s| && s[i] == '_' ==> i + 1 < |s| && IsPartStart(s[i + 1])
    ensures forall part :: part in Split(s, '_') ==> part == "" || IsDigit(part[0])
    decreases |s|
  {
    var i := IndexOf(s, '_');
    if i < |s| {
      PartsBeginWithDigits(s[i + 1..]);
    }
  }

  lemma {:induction false} NoneNamed(token: string, sizes: seq<(string, string, nat, nat)>)
    requires forall i :: 0 <= i < |sizes| ==> !HasPart(token, sizes[i].0)
    ensures FirstNamed(token, sizes) == None
  {
    if sizes != [] {
      NoneNamed(token, sizes[1..]);
    }
  }

  lemma NormalizedConcat(a: string, b: string)
    ensures NormalizedMediaToken(a + b) == NormalizedMediaToken(a) + NormalizedMediaToken(b)
  {
  }

  lemma NormalizedSizeParts(w: string, h: string)
    requires IsFormatted(w) && IsFormatted(h)
    ensures var rest := NormalizedMediaToken(w + "x" + h + "mm");
            && IsPartStart(rest[0])
            && forall i :: 0 <= i < |rest| && rest[i] == '_' ==> i + 1 < |rest| && IsPartStart(rest[i + 1])
  {
    var size := w + "x" + h + "mm";
    var rest := NormalizedMediaToken(size);
    assert size[0] == w[0];
    forall i | 0 <= i < |rest| && rest[i] == '_' ensures i + 1 < |rest| && IsPartStart(rest[i + 1]) {
      if i < |w| {
        assert size[i] == w[i];
        assert size[i + 1] == w[i + 1];
      } else if |w| < i < |w| + 1 + |h| {
        assert size[i] == h[i - |w| - 1];
        assert size[i + 1] == h[i - |w|];
      }
    }
  }

  lemma SplitAfterCustom(rest: string)
    ensures Split("custom_" + rest, '_') == ["custom"] + Split(rest, '_')
  {
    var token := "custom_" + rest;
    assert token[6] == '_' && token[..6] == "custom" && token[7..] == rest;
    assert IndexOf(token, '_') == 6;
  }

  /** No token built from two formatted lengths is mistaken for a named paper. */
  lemma CustomTokenHasNoName(w: string, h: string)
    requires IsFormatted(w) && IsFormatted(h)
    ensures KnownPaperSize("Custom." + (w + "x" + h + "mm")) == None
  {
    hide IsFormatted, Split, NormalizedMediaToken, FirstNamed;
    var size := w + "x" + h + "mm";
    var rest := NormalizedMediaToken(size);
    NormalizedConcat("Custom.", size);
    CustomPrefix();
    NormalizedSizeParts(w, h);
    PartsBeginWithDigits(rest);
    SplitAfterCustom(rest);
    var token := NormalizedMediaToken("Custom." + size);
    forall i | 0 <= i < |NAMED_SIZES| ensures !HasPart(token, NAMED_SIZES[i].0) {
      NamesAreNotNumbers(i);
    }
    NoneNamed(token, NAMED_SIZES);
  }

  lemma CustomPrefix()
    ensures NormalizedMediaToken("Custom.") == "custom_"
  {
  }

  lemma NamesAreNotNumbers(i: nat)
    requires i < |NAMED_SIZES|
    ensures NAMED_SIZES[i].0 != "custom" && NAMED_SIZES[i].0 != "" && !IsDigit(NAMED_SIZES[i].0[0])
  {
  }

  /** What the reader makes of two texts of digits, dots and signs. */
  lemma DimensionsOf(w: string, h: string)
    requires forall i :: 0 <= i < |w| ==> IsSizeChar(w[i])
    requires forall i :: 0 <= i < |h| ==> IsSizeChar(h[i])
    ensures var width, height := ParseNumber(NumberTail(w)), ParseNumber(NumberHead(h));
            ParseDimensionPair(w + "x" + h + "mm")
            == if width.None? || height.None? then None
               else Some((ToHundredths(width.value, 100), ToHundredths(height.value, 100)))
  {
    hide ParseNumber, ToHundredths, WithoutMmx, StripUnitSuffix, NumberTail, NumberHead;
    var plain := w + "x" + h;
    UnitOfSize(w, h);
    LastX(w, h);
    assert plain[..|w|] == w && plain[|w| + 1..] == h;
  }

  lemma {:induction false} LastX(w: string, h: string)
    requires forall i :: 0 <= i < |h| ==> IsSizeChar(h[i])
    ensures LastIndexOf(w + "x" + h, 'x') == Some(|w|)
    decreases |h|
  {
    var plain := w + "x" + h;
    if h == "" {
      assert plain == w + "x" && (w + "x")[|w|] == 'x';
    } else {
      var shorter := h[..|h| - 1];
      assert plain == (w + "x" + shorter) + [h[|h| - 1]];
      LastX(w, shorter);
      LastIndexSkips(w + "x" + shorter, h[|h| - 1]);
    }
  }

  lemma LastIndexSkips(s: string, c: char)
    requires IsSizeChar(c)
    ensures LastIndexOf(s + [c], 'x') == LastIndexOf(s, 'x')
  {
    assert (s + [c])[..|s|] == s;
  }

  lemma UnitOfSize(w: string, h: string)
    requires forall i :: 0 <= i < |w| ==> IsSizeChar(w[i])
    requires forall i :: 0 <= i < |h| ==> IsSizeChar(h[i])
    ensures StripUnitSuffix(WithoutMmx(w + "x" + h + "mm")) == (w + "x" + h, Millimetres)
  {
    hide WithoutMmx, IsSizeChar, StripUnitSuffix;
    var plain := w + "x" + h;
    forall i | 0 <= i < |plain| ensures (plain + "mm")[i] != 'm' {
      PlainHasNoM(w, h, i);
    }
    NoMmxToReplace(plain + "mm");
    EndsInMillimetres(plain);
  }

  lemma EndsInMillimetres(plain: string)
    ensures StripUnitSuffix(plain + "mm") == (plain, Millimetres)
  {
    var size := plain + "mm";
    assert Lower(size)[|size| - 2..] == "mm";
    assert size[..|size| - 2] == plain;
  }

  lemma PlainHasNoM(w: string, h: string, i: nat)
    requires forall k :: 0 <= k < |w| ==> IsSizeChar(w[k])
    requires forall k :: 0 <= k < |h| ==> IsSizeChar(h[k])
    requires i < |w + "x" + h|
    ensures (w + "x" + h)[i] != 'm'
  {
    if i < |w| {
      assert (w + "x" + h)[i] == w[i];
    } else if i > |w| {
      assert (w + "x" + h)[i] == h[i - |w| - 1];
    }
  }

  /** Before the `x` the reader drops a sign. */
  lemma {:induction false} TailIgnoresSign(s: string)
    requires forall i :: 0 <= i < |s| ==> IsNumberChar(s[i])
    ensures NumberTail("-" + s) == s
    decreases |s|
  {
    if s == "" {
      assert "-"[|"-"| - 1] == '-';
    } else {
      var signed := "-" + s;
      assert signed[..|signed| - 1] == "-" + s[..|s| - 1];
      TailIgnoresSign(s[..|s| - 1]);
      assert s == s[..|s| - 1] + [s[|s| - 1]];
    }
  }

  /** Behind the `x` a sign ends the number before it has begun. */
  lemma HeadStopsAtSign(s: string)
    ensures NumberHead("-" + s) == "" && ParseNumber("") == None
  {
  }

  lemma WidthIsReadUnsigned(width: int)
    ensures var number := ParseNumber(NumberTail(FormatMm(width)));
            number.Some? && ToHundredths(number.value, 100) == Magnitude(width)
  {
    hide FormatMagnitude, ParseNumber, ToHundredths, NumberTail;
    var digits := FormatMagnitude(Magnitude(width));
    ParsesBack(Magnitude(width));
    NumbersStayWhole(digits);
    TailIgnoresSign(digits);
    assert "" + digits == digits;
  }

  lemma HeightIsReadOrRefused(height: int)
    ensures var number := ParseNumber(NumberHead(FormatMm(height)));
            if height < 0 then number.None? else number.Some? && ToHundredths(number.value, 100) == height
  {
    hide FormatMagnitude, ParseNumber, ToHundredths, NumberHead;
    var digits := FormatMagnitude(Magnitude(height));
    ParsesBack(Magnitude(height));
    NumbersStayWhole(digits);
    HeadStopsAtSign(digits);
    assert "" + digits == digits;
  }

  /**
   What reading the printed token gives, for every size: the sign of the width is lost, and a
   negative height makes the token unreadable.
   */
  lemma PrintedTokenReads(width: int, height: int)
    ensures var token := CustomMediaOption(width, height);
            ParsePaperChoice(token)
            == if height < 0 then None
               else Some(PaperInfo(token, PaperName(Magnitude(width), height), Magnitude(width), height))
  {
    hide FormatMm, IsFormatted, KnownPaperSize, ParseDimensionPair, ToHundredths, ParseNumber, PaperName,
      NumberTail, NumberHead;
    var w, h := FormatMm(width), FormatMm(height);
    FormatIsFormatted(width);
    FormatIsFormatted(height);
    FormattedChars(w);
    FormattedChars(h);
    CustomTokenHasNoName(w, h);
    WidthIsReadUnsigned(width);
    HeightIsReadOrRefused(height);
    DimensionsOf(w, h);
    var choice := CustomMediaOption(width, height);
    assert choice == "Custom." + (w + "x" + h + "mm");
    assert SizePart(choice) == w + "x" + h + "mm";
  }

  lemma FormattedChars(s: string)
    requires IsFormatted(s)
    ensures forall i :: 0 <= i < |s| ==> IsSizeChar(s[i])
  {
  }

  /** The token is read as exactly the given size. */
  ghost predicate Denotes(token: string, width: int, height: int) {
    var parsed := ParsePaperChoice(token);
    parsed.Some? && parsed.value.width == width && parsed.value.height == height
  }

  /** Reading the printed media token gives back the size exactly when neither length is negative. */
  lemma MediaRoundTrip(width: int, height: int)
    ensures Denotes(CustomMediaOption(width, height), width, height) <==> width >= 0 && height >= 0
  {
    hide ParsePaperChoice, CustomMediaOption;
    PrintedTokenReads(width, height);
  }

  // ----- Papers of a printer -----

  /** The paper was read from a token that it still carries as its id. */
  ghost predicate IsParsed(paper: PaperInfo) {
    ParsePaperChoice(paper.id) == Some(paper)
  }

  lemma {:induction false} ChoicesAreParsed(choices: seq<string>)
    ensures forall paper :: paper in ParseChoices(choices) ==> IsParsed(paper)
  {
    hide ParsePaperChoice;
    if choices != [] {
      ChoicesAreParsed(choices[1..]);
      ParsedCarriesId(TrimStartChar(choices[0], '*'));
    }
  }

  /** A paper that was read carries its token, and its lengths are not negative. */
  lemma ParsedCarriesId(choice: string)
    ensures var paper := ParsePaperChoice(choice);
            paper.Some? ==> paper.value.id == choice && paper.value.width >= 0 && paper.value.height >= 0
  {
    hide KnownPaperSize, ParseDimensionPair, SizePart;
  }

  lemma {:induction false} LinesAreParsed(lines: seq<string>)
    ensures forall paper :: paper in ParsePaperLines(lines) ==> IsParsed(paper)
  {
    hide IsParsed;
    if lines != [] {
      LinesAreParsed(lines[1..]);
      var once := SplitOnce(lines[0], ':');
      if once.Some? {
        ChoicesAreParsed(Words(once.value.1));
      }
    }
  }

  /** The media token of a paper denotes the paper's own size. */
  ghost predicate TokenDenotesSize(paper: PaperInfo) {
    Denotes(CupsMediaOption(paper), paper.width, paper.height)
  }

  lemma ParsedTokenDenotesSize(paper: PaperInfo)
    requires IsParsed(paper) || !IsCupsMediaToken(paper.id)
    ensures TokenDenotesSize(paper) <==> paper.width >= 0 && paper.height >= 0
  {
    hide ParsePaperChoice;
    MediaRoundTrip(paper.width, paper.height);
    ParsedCarriesId(paper.id);
  }

  /** For every paper that a printer lists, its media token reads back as that paper's size. */
  lemma ListedPaperRoundTrip(output: string, paper: PaperInfo)
    requires paper in ParseLpoptionsPapers(output)
    ensures paper.width >= 0 && paper.height >= 0 && TokenDenotesSize(paper)
  {
    hide ParsePaperChoice, TokenDenotesSize;
    LinesAreParsed(Lines(output));
    ParsedCarriesId(paper.id);
    ParsedTokenDenotesSize(paper);
  }

  lemma {:induction false} FoundHasSize(papers: seq<PaperInfo>, paper: PaperInfo)
    ensures var found := FindMatchingPaper(papers, paper);
            found.Some? ==>
              found.value in papers && found.value.width == paper.width && found.value.height == paper.height
  {
    if papers != [] {
      FoundHasSize(papers[1..], paper);
    }
  }

  /** Every paper in a printer's list has a token that denotes its size, which is not negative. */
  lemma ListedPapersAreSound(output: string, paper: PaperInfo)
    requires paper in ListPapers(output)
    ensures paper.width >= 0 && paper.height >= 0 && TokenDenotesSize(paper)
  {
    hide ParsePaperChoice, TokenDenotesSize, ParseLpoptionsPapers, PaperName;
    if paper in ParseLpoptionsPapers(output) {
      ListedPaperRoundTrip(output, paper);
    } else {
      var i :| 0 <= i < |COMMON_SIZES| && paper == CommonLabelPapers()[i];
      assert paper.id[0] != 'C';
      ParsedTokenDenotesSize(paper);
    }
  }

  /** The media token that `lp` gets for a job with the given paper. */
  function SpooledToken(output: string, requested: Paper): string {
    CupsMediaOption(ResolvePaperForPrint(ListPapers(output), PaperInfoFromEffective(requested)))
  }

  /**
   From the job to the spooler: whatever papers the printer lists, the media token handed to
   `lp` denotes the size that the job asked for exactly when neither length is negative.
   */
  lemma SpoolerGetsRequestedSize(output: string, requested: Paper)
    ensures Denotes(SpooledToken(output, requested), requested.width, requested.height)
            <==> requested.width >= 0 && requested.height >= 0
  {
    hide FormatMm, PaperName, ListPapers, Denotes;
    var wanted := PaperInfoFromEffective(requested);
    var papers := ListPapers(output);
    FoundHasSize(papers, wanted);
    var found := FindMatchingPaper(papers, wanted);
    if found.Some? {
      ListedPapersAreSound(output, found.value);
    } else {
      assert wanted.id[0] == 'c';
      ParsedTokenDenotesSize(wanted);
    }
  }

  /**
   A PDF job with a width of minus 60 millimetres is accepted, and its token is read as plus 60,
   whatever papers the printer lists.
   */
  lemma NegativeWidthIsPrintedPositive(codecs: Codecs, maxFileSizeMb: nat, output: string)
    ensures var job := PrintJob("a", Pdf, None, Some("u"), None, None, None, None, Some(Paper(-6000, 4000)));
            && ValidateForAcceptance(codecs, job, maxFileSizeMb).Ok?
            && SpooledToken(output, job.paper.value) == "Custom.-60x40mm"
            && Denotes("Custom.-60x40mm", 6000, 4000)
  {
    hide ListPapers, ParsePaperChoice, PaperName, TokenDenotesSize;
    var wanted := PaperInfoFromEffective(Paper(-6000, 4000));
    var papers := ListPapers(output);
    FoundHasSize(papers, wanted);
    if FindMatchingPaper(papers, wanted).Some? {
      ListedPapersAreSound(output, FindMatchingPaper(papers, wanted).value);
    }
    SixtyByForty();
    assert wanted.id[0] == 'c';
    PrintedTokenReads(-6000, 4000);
  }

  lemma SixtyByForty()
    ensures FormatMm(-6000) == "-60" && FormatMm(4000) == "40"
    ensures CustomMediaOption(-6000, 4000) == "Custom.-60x40mm"
  {
    assert Digits(60) == Digits(6) + [DigitChar(0)] == "60";
    assert Digits(40) == Digits(4) + [DigitChar(0)] == "40";
  }

  lemma {:induction false} FirstNamedWins(token: string, sizes: seq<(string, string, nat, nat)>, i: nat)
    requires i < |sizes| && HasPart(token, sizes[i].0)
    requires forall k :: 0 <= k < i ==> !HasPart(token, sizes[k].0)
    ensures FirstNamed(token, sizes) == Some((sizes[i].1, sizes[i].2, sizes[i].3))
  {
    hide HasPart;
    if i > 0 {
      FirstNamedWins(token, sizes[1..], i - 1);
    }
  }

  /** A token with a paper's name among its parts is that paper, whatever numbers it also holds. */
  lemma NamedPaperReads(choice: string, i: nat)
    requires i < |NAMED_SIZES| && HasPart(NormalizedMediaToken(choice), NAMED_SIZES[i].0)
    requires forall k :: 0 <= k < i ==> !HasPart(NormalizedMediaToken(choice), NAMED_SIZES[k].0)
    ensures ParsePaperChoice(choice)
            == Some(PaperInfo(choice, NAMED_SIZES[i].1, NAMED_SIZES[i].2, NAMED_SIZES[i].3))
  {
    hide HasPart, FirstNamed;
    FirstNamedWins(NormalizedMediaToken(choice), NAMED_SIZES, i);
  }

  // ----- Reading a printer's list -----

  /** One line of `lpoptions -l`: an option and its choices, the default one marked with a star. */
  function OptionLine(option: string, tokens: seq<string>, default: nat): string {
    option + ":" + Spaced(seq(|tokens|, i requires 0 <= i < |tokens| => Choice(tokens[i], i == default)))
  }

  predicate IsToken(token: string) {
    IsWord(token) && token[0] != '*' && '\n' !in token
  }

  /** A choice is its token, with a star in front when it is the default. */
  function Choice(token: string, isDefault: bool): string {
    (if isDefault then "*" else "") + token
  }

  lemma TokenOfChoice(token: string, isDefault: bool)
    requires IsToken(token)
    ensures var choice := Choice(token, isDefault);
            IsWord(choice) && '\n' !in choice && TrimStartChar(choice, '*') == token
  {
    if isDefault {
      assert ("*" + token)[1..] == token;
    } else {
      assert "" + token == token;
    }
  }

  /** The papers that some tokens are read as, the unreadable ones left out. */
  function PapersOf(tokens: seq<string>): seq<PaperInfo> {
    if tokens == [] then []
    else
      (match ParsePaperChoice(tokens[0]) case None => [] case Some(paper) => [paper]) + PapersOf(tokens[1..])
  }

  lemma {:induction false} ChoicesOfTokens(choices: seq<string>, tokens: seq<string>)
    requires |choices| == |tokens|
    requires forall i :: 0 <= i < |tokens| ==> TrimStartChar(choices[i], '*') == tokens[i]
    ensures ParseChoices(choices) == PapersOf(tokens)
  {
    hide ParsePaperChoice, TrimStartChar;
    if tokens != [] {
      ChoicesOfTokens(choices[1..], tokens[1..]);
    }
  }

  lemma OneLine(line: string)
    requires line != "" && '\n' !in line
    ensures Lines(line) == [line]
  {
    if IndexOf(line, '\n') < |line| {
      assert line[IndexOf(line, '\n')] in line;
    }
  }

  lemma {:induction false} NoBreakInSpaced(words: seq<string>)
    requires forall i :: 0 <= i < |words| ==> '\n' !in words[i]
    ensures '\n' !in Spaced(words)
  {
    if words != [] {
      NoBreakInSpaced(words[1..]);
    }
  }

  lemma FirstColon(option: string, rest: string)
    requires ':' !in option
    ensures SplitOnce(option + ":" + rest, ':') == Some((option, rest))
  {
    var line := option + ":" + rest;
    var i := IndexOf(line, ':');
    assert line[|option|] == ':';
    assert forall k :: 0 <= k < |option| ==> line[k] == option[k] && option[k] in option;
    assert i == |option|;
    assert line[..i] == option && line[i + 1..] == rest;
  }

  lemma LowerPrefix(option: string, rest: string)
    ensures Lower(option) <= Lower(option + rest)
  {
  }

  lemma StillPaperOption(option: string, rest: string)
    requires IsPaperOption(option)
    ensures IsPaperOption(option + rest)
  {
    LowerPrefix(option, rest);
    var low := Lower(option + rest);
    assert low[..|option|] == Lower(option);
    if StartsWith(Lower(option), "pagesize/") {
      assert low[..9] == Lower(option)[..9] == "pagesize/";
    } else {
      assert low[..6] == Lower(option)[..6] == "media/";
    }
  }

  lemma ChoicesOfLine(option: string, rest: string)
    requires IsPaperOption(option) && ':' !in option && '\n' !in option && '\n' !in rest
    ensures ParseLpoptionsPapers(option + ":" + rest) == ParseChoices(Words(rest))
  {
    hide IsPaperOption, Words, Lines, SplitOnce, ParseChoices, ParsePaperLines;
    var line := option + ":" + rest;
    OneLine(line);
    assert line == option + (":" + rest);
    StillPaperOption(option, ":" + rest);
    FirstColon(option, rest);
    OnlyLine(line);
  }

  /** A printer's page sizes are listed in order, one paper for each token that can be read. */
  lemma PrinterListIsRead(option: string, tokens: seq<string>, default: nat)
    requires IsPaperOption(option) && ':' !in option && '\n' !in option
    requires forall i :: 0 <= i < |tokens| ==> IsToken(tokens[i])
    ensures ParseLpoptionsPapers(OptionLine(option, tokens, default)) == PapersOf(tokens)
  {
    hide ParseLpoptionsPapers, IsPaperOption, TrimStartChar, Words, Spaced, PapersOf, ParseChoices;
    hide IsWord, IsToken, Choice;
    var choices := seq(|tokens|, i requires 0 <= i < |tokens| => Choice(tokens[i], i == default));
    forall i | 0 <= i < |tokens|
      ensures IsWord(choices[i]) && '\n' !in choices[i] && TrimStartChar(choices[i], '*') == tokens[i]
    {
      TokenOfChoice(tokens[i], i == default);
    }
    NoBreakInSpaced(choices);
    ChoicesOfLine(option, Spaced(choices));
    WordsOfSpaced(choices);
    ChoicesOfTokens(choices, tokens);
  }

  lemma OnlyLine(line: string)
    ensures ParsePaperLines([line]) == if IsPaperOption(line) then ParsePaperLine(line) else []
  {
    hide IsPaperOption, ParsePaperLine;
    assert ParsePaperLines([line][1..]) == [];
  }

  function CustomTokens(sizes: seq<(nat, nat)>): seq<string> {
    seq(|sizes|, i requires 0 <= i < |sizes| => CustomMediaOption(sizes[i].0, sizes[i].1))
  }

  lemma CustomIsToken(width: nat, height: nat)
    ensures IsToken(CustomMediaOption(width, height))
  {
    hide FormatMm;
    FormatIsFormatted(width);
    FormatIsFormatted(height);
  }

  lemma {:induction false} PapersOfCustom(sizes: seq<(nat, nat)>)
    ensures var papers := PapersOf(CustomTokens(sizes));
            && |papers| == |sizes|
            && forall i :: 0 <= i < |sizes| ==>
                 papers[i].id == CustomTokens(sizes)[i]
                 && (papers[i].width, papers[i].height) == (sizes[i].0, sizes[i].1)
  {
    hide ParsePaperChoice, CustomMediaOption;
    if sizes != [] {
      var tokens := CustomTokens(sizes);
      assert tokens[1..] == CustomTokens(sizes[1..]);
      PapersOfCustom(sizes[1..]);
      MediaRoundTrip(sizes[0].0, sizes[0].1);
      ParsedCarriesId(tokens[0]);
    }
  }

  /** A list of sizes, printed as a printer's choices with any of them the default, reads back as that list. */
  lemma ListOfSizesReadsBack(option: string, sizes: seq<(nat, nat)>, default: nat)
    requires IsPaperOption(option) && ':' !in option && '\n' !in option
    ensures var papers := ParseLpoptionsPapers(OptionLine(option, CustomTokens(sizes), default));
            && |papers| == |sizes|
            && forall i :: 0 <= i < |sizes| ==>
                 papers[i].id == CustomMediaOption(sizes[i].0, sizes[i].1)
                 && (papers[i].width, papers[i].height) == (sizes[i].0, sizes[i].1)
  {
    hide ParseLpoptionsPapers, IsPaperOption, CustomMediaOption, PapersOf, IsToken;
    forall i | 0 <= i < |sizes| ensures IsToken(CustomTokens(sizes)[i]) {
      CustomIsToken(sizes[i].0, sizes[i].1);
    }
    PrinterListIsRead(option, CustomTokens(sizes), default);
    PapersOfCustom(sizes);
  }
}
