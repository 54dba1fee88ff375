/** Laying out plain text and pictures on a page. */
module TextLayout {
  import opened Common
  import opened Text

  // ----- Wrapping text -----

  predicate IsPdfSafe(c: char) {
    '!' <= c <= '~' || c == ' '
  }

  /** Everything a built-in PDF font cannot show becomes a question mark. */
  function PdfSafe(text: string): (r: string)
    ensures |r| == |text|
    ensures forall i :: 0 <= i < |text| ==> IsPdfSafe(r[i]) && r[i] == (if IsPdfSafe(text[i]) then text[i] else '?')
  {
    seq(|text|, i requires 0 <= i < |text| => if IsPdfSafe(text[i]) then text[i] else '?')
  }

  ghost predicate AllSafe(s: string) {
    forall i :: 0 <= i < |s| ==> IsPdfSafe(s[i])
  }

  /** The text with its spaces removed. */
  function Letters(s: string): string {
    if s == "" then ""
    else Letters(s[..|s| - 1]) + (if s[|s| - 1] == ' ' then "" else [s[|s| - 1]])
  }

  function Joined(lines: seq<string>): string {
    if lines == [] then "" else Joined(lines[..|lines| - 1]) + lines[|lines| - 1]
  }

  lemma {:induction false} LettersConcat(a: string, b: string)
    ensures Letters(a + b) == Letters(a) + Letters(b)
    decreases |b|
  {
    if b == "" {
      assert a + b == a;
    } else {
      assert (a + b)[..|a + b| - 1] == a + b[..|b| - 1];
      LettersConcat(a, b[..|b| - 1]);
    }
  }

  lemma {:induction false} SpacesHaveNoLetters(s: string)
    requires forall i :: 0 <= i < |s| ==> s[i] == ' '
    ensures Letters(s) == ""
  {
    if s != "" {
      SpacesHaveNoLetters(s[..|s| - 1]);
    }
  }

  lemma SpacesAround(s: string, a: nat, b: nat)
    requires a <= b <= |s|
    requires forall i :: 0 <= i < a ==> s[i] == ' '
    requires forall i :: b <= i < |s| ==> s[i] == ' '
    ensures Letters(s[a..b]) == Letters(s)
  {
    hide Letters;
    SpacesHaveNoLetters(s[..a]);
    SpacesHaveNoLetters(s[b..]);
    LettersConcat(s[..a], s[a..b]);
    LettersConcat(s[..a] + s[a..b], s[b..]);
    assert s == s[..a] + s[a..b] + s[b..];
  }

  lemma SafeWhitespaceIsSpace(c: char)
    requires IsPdfSafe(c) && IsWhitespace(c)
    ensures c == ' '
  {
  }

  /** Trimming a safe text removes only spaces. */
  lemma TrimEndKeepsLetters(s: string)
    requires AllSafe(s)
    ensures Letters(TrimEnd(s)) == Letters(s)
  {
    hide Letters, TrimEnd, IsWhitespace, IsPdfSafe;
    var n := |TrimEnd(s)|;
    forall i | n <= i < |s| ensures s[i] == ' ' {
      SafeWhitespaceIsSpace(s[i]);
    }
    SpacesAround(s, 0, n);
    assert s[0..n] == TrimEnd(s);
  }

  lemma TrimStartKeepsLetters(s: string)
    requires AllSafe(s)
    ensures Letters(TrimStart(s)) == Letters(s)
  {
    hide Letters, TrimStart, IsWhitespace, IsPdfSafe;
    var n := |s| - |TrimStart(s)|;
    forall i | 0 <= i < n ensures s[i] == ' ' {
      SafeWhitespaceIsSpace(s[i]);
    }
    SpacesAround(s, n, |s|);
    assert s[n..|s|] == TrimStart(s);
  }

  /** Every line but the last consumes at least this many characters. */
  function LeastCut(maxChars: nat): (m: nat)
    ensures m >= 1
  {
    if maxChars / 2 > 1 then maxChars / 2 else 1
  }

  /** The least number of characters behind the given number of full lines. */
  function LeastConsumed(lines: nat, maxChars: nat): nat {
    lines * LeastCut(maxChars)
  }

  lemma OneMoreLine(lines: nat, maxChars: nat)
    ensures LeastConsumed(lines + 1, maxChars) == LeastConsumed(lines, maxChars) + LeastCut(maxChars)
    ensures LeastConsumed(0, maxChars) == 0
  {
  }

  /** The window of the next line; without a limit it is all of the rest. */
  function WindowEnd(rest: string, maxChars: nat): nat {
    if maxChars == 0 then |rest| else maxChars
  }

  /** The last space of the window's second half, not counting its first place, or else its end. */
  ghost predicate IsCut(rest: string, maxChars: nat, cut: nat)
    requires |rest| > maxChars
  {
    var end := WindowEnd(rest, maxChars);
    && LeastCut(maxChars) <= cut <= end
    && (cut < end ==> rest[cut] == ' ')
    && (forall i :: LeastCut(maxChars) <= i < end && rest[i] == ' ' ==> i <= cut < end)
  }

  /** Where to end the next line: at a space in the second half of the window, or at its end. */
  method FindCut(rest: string, maxChars: nat) returns (cut: nat)
    requires |rest| > maxChars
    ensures IsCut(rest, maxChars, cut)
  {
    var splitAt := if maxChars == 0 then |rest| else maxChars;
    var candidate := rest[..splitAt];
    var space := LastIndexOf(candidate, ' ');
    cut := if space.Some? && space.value >= maxChars / 2 then space.value else splitAt;
    cut := if cut == 0 then splitAt else cut;
    assert forall i :: 0 <= i < splitAt ==> candidate[i] == rest[i];
    forall i | LeastCut(maxChars) <= i < splitAt && rest[i] == ' ' ensures i <= cut < splitAt {
      assert candidate[i] == ' ';
      assert space.Some? && space.value >= i;
    }
  }

  /** What one line, taken off the rest, promises. */
  ghost predicate IsNextLine(rest: string, maxChars: nat, line: string, after: string) {
    && |after| + LeastCut(maxChars) <= |rest|
    && (maxChars > 0 ==> |line| <= maxChars)
    && Letters(line) + Letters(after) == Letters(rest)
    && (line == "" || line[|line| - 1] != ' ')
    && (rest != "" && rest[0] != ' ' ==> line != "" && line[0] != ' ')
    && AllSafe(after) && (after == "" || after[0] != ' ')
  }

  /** The line and what is left come from a cut where a line should end, with the spaces there dropped. */
  ghost predicate IsBroken(rest: string, maxChars: nat, line: string, after: string) {
    |rest| > maxChars
    && exists cut: nat {:trigger IsCut(rest, maxChars, cut)} ::
         cut <= |rest| && IsCut(rest, maxChars, cut) && line == TrimEnd(rest[..cut]) && after == TrimStart(rest[cut..])
  }

  /** Takes one line off a text that is too long for one line. */
  method NextLine(rest: string, maxChars: nat) returns (line: string, after: string)
    requires |rest| > maxChars && AllSafe(rest)
    ensures IsNextLine(rest, maxChars, line, after)
    ensures IsBroken(rest, maxChars, line, after)
  {
    hide Letters, TrimEnd, TrimStart, IsWhitespace, IsPdfSafe, LeastCut;
    var cut := FindCut(rest, maxChars);
    line := TrimEnd(rest[..cut]);
    after := TrimStart(rest[cut..]);
    assert rest == rest[..cut] + rest[cut..];
    LettersConcat(rest[..cut], rest[cut..]);
    TrimEndKeepsLetters(rest[..cut]);
    TrimStartKeepsLetters(rest[cut..]);
    SpaceIsWhitespace();
    if rest[0] != ' ' {
      NotBlank(rest[..cut]);
    }
  }

  /** Lines that fit, end in a letter, and after the first also begin with one. */
  ghost predicate TidyLines(lines: seq<string>, maxChars: nat) {
    && (maxChars > 0 ==> forall i :: 0 <= i < |lines| ==> |lines[i]| <= maxChars)
    && (forall i :: 0 <= i < |lines| ==> lines[i] == "" || lines[i][|lines[i]| - 1] != ' ')
    && (forall i :: 0 < i < |lines| ==> lines[i] != "" && lines[i][0] != ' ')
  }

  lemma OneMoreTidyLine(lines: seq<string>, line: string, maxChars: nat)
    requires TidyLines(lines, maxChars)
    requires maxChars > 0 ==> |line| <= maxChars
    requires line == "" || line[|line| - 1] != ' '
    requires lines != [] ==> line != "" && line[0] != ' '
    ensures TidyLines(lines + [line], maxChars)
  {
  }

  /** Where the loop stands: the lines are tidy, and nothing but spaces got lost on the way. */
  ghost predicate Wrapping(safe: string, maxChars: nat, lines: seq<string>, rest: string) {
    && AllSafe(rest)
    && TidyLines(lines, maxChars)
    && Letters(Joined(lines)) + Letters(rest) == Letters(safe)
    && LeastConsumed(|lines|, maxChars) + |rest| <= |safe|
    && (rest == "" ==> lines != [])
    && (lines != [] && rest != "" ==> rest[0] != ' ')
  }

  lemma WrappingStarts(safe: string, maxChars: nat)
    requires safe != "" && AllSafe(safe)
    ensures Wrapping(safe, maxChars, [], safe)
  {
    NothingYet(safe, maxChars);
  }

  lemma WrappingGoesOn(
    safe: string, maxChars: nat, lines: seq<string>, rest: string, line: string, after: string)
    requires Wrapping(safe, maxChars, lines, rest) && rest != ""
    requires IsNextLine(rest, maxChars, line, after)
    ensures Wrapping(safe, maxChars, lines + [line], after)
  {
    hide Letters, Joined, LeastCut, LeastConsumed, AllSafe, TidyLines;
    JoinedAppend(lines, line);
    OneMoreLine(|lines|, maxChars);
    OneMoreTidyLine(lines, line, maxChars);
    Regrouped(Letters(Joined(lines)), Letters(line), Letters(after));
  }

  lemma Regrouped(a: string, b: string, c: string)
    ensures a + b + c == a + (b + c)
  {
  }

  /** What was left before each line, and in the end: every line was broken off where it should be. */
  ghost predicate BrokenUp(safe: string, maxChars: nat, lines: seq<string>, rests: seq<string>) {
    && |rests| == |lines| + 1 && rests[0] == safe
    && forall i :: 0 <= i < |lines| ==> IsBroken(rests[i], maxChars, lines[i], rests[i + 1])
  }

  lemma OneMoreBreak(
    safe: string, maxChars: nat, lines: seq<string>, rests: seq<string>, line: string, after: string)
    requires BrokenUp(safe, maxChars, lines, rests) && IsBroken(rests[|lines|], maxChars, line, after)
    ensures BrokenUp(safe, maxChars, lines + [line], rests + [after])
  {
    hide IsBroken;
  }

  /** All lines were broken off in turn, and a last one takes what is left, if anything is. */
  ghost predicate IsBrokenInto(safe: string, maxChars: nat, lines: seq<string>) {
    exists full: seq<string>, rests ::
      && BrokenUp(safe, maxChars, full, rests)
      && |rests[|full|]| <= maxChars
      && lines == if rests[|full|] == "" then full else full + [rests[|full|]]
  }

  /** What the finished lines promise. */
  ghost predicate IsWrapped(safe: string, maxChars: nat, lines: seq<string>) {
    && |lines| >= 1
    && (maxChars > 0 ==> forall i :: 0 <= i < |lines| ==> |lines[i]| <= maxChars)
    && Letters(Joined(lines)) == Letters(safe)
    && LeastConsumed(|lines| - 1, maxChars) <= |safe|
    && TidyLines(lines[..|lines| - 1], maxChars)
    && (forall i :: 0 < i < |lines| ==> lines[i] != "" && lines[i][0] != ' ')
  }

  lemma WrappingEnds(safe: string, maxChars: nat, lines: seq<string>, rest: string)
    requires Wrapping(safe, maxChars, lines, rest) && |rest| <= maxChars
    ensures IsWrapped(safe, maxChars, if rest == "" then lines else lines + [rest])
  {
    hide Letters, Joined, LeastCut, LeastConsumed, AllSafe, TidyLines;
    LastLine(lines, rest, maxChars);
    if rest == "" {
      OneMoreLine(|lines| - 1, maxChars);
      NothingYet("", maxChars);
      assert Letters(Joined(lines)) + "" == Letters(Joined(lines));
    } else {
      JoinedAppend(lines, rest);
    }
  }

  /** The wrapping loop. */
  method WrapSafeText(safe: string, maxChars: nat) returns (lines: seq<string>)
    requires safe != "" && AllSafe(safe)
    ensures IsWrapped(safe, maxChars, lines)
    ensures IsBrokenInto(safe, maxChars, lines)
  {
    hide IsBroken, AllSafe, Letters, IsWrapped, Joined, TidyLines, LeastConsumed;
    hide TrimEnd, TrimStart, IsWhitespace, IsPdfSafe;
    WrappingStarts(safe, maxChars);
    lines := [];
    var rest := safe;
    ghost var rests := [safe];
    while |rest| > maxChars
      invariant Wrapping(safe, maxChars, lines, rest)
      invariant BrokenUp(safe, maxChars, lines, rests) && rests[|lines|] == rest
      decreases |rest|
    {
      var line, after := NextLine(rest, maxChars);
      WrappingGoesOn(safe, maxChars, lines, rest, line, after);
      OneMoreBreak(safe, maxChars, lines, rests, line, after);
      rests := rests + [after];
      lines, rest := lines + [line], after;
    }
    WrappingEnds(safe, maxChars, lines, rest);
    assert BrokenUp(safe, maxChars, lines, rests) && rests[|lines|] == rest;
    if rest != "" {
      lines := lines + [rest];
    }
  }

  /** What is left goes on a last line, if anything is. */
  lemma LastLine(lines: seq<string>, rest: string, maxChars: nat)
    requires TidyLines(lines, maxChars) && |rest| <= maxChars
    requires rest == "" ==> lines != []
    requires lines != [] && rest != "" ==> rest[0] != ' '
    ensures var all := if rest == "" then lines else lines + [rest];
            && (maxChars > 0 ==> forall i :: 0 <= i < |all| ==> |all[i]| <= maxChars)
            && TidyLines(all[..|all| - 1], maxChars)
            && (forall i :: 0 < i < |all| ==> all[i] != "" && all[i][0] != ' ')
  {
    assert (lines + [rest])[..|lines|] == lines;
  }

  lemma NothingYet(safe: string, maxChars: nat)
    ensures Letters("") == "" && Letters(Joined([])) + Letters(safe) == Letters(safe)
    ensures LeastConsumed(0, maxChars) == 0
    ensures TidyLines([], maxChars)
  {
  }

  /**
   Breaks text into lines: at least one, none longer than `maxChars`, the same letters in the
   same order, and not more lines than the least cut allows. Only the last line may end in a
   space and only the first may be blank or begin with one.
   */
  method WrapPdfText(text: string, maxChars: nat) returns (lines: seq<string>)
    ensures |lines| >= 1
    ensures if text == "" then lines == [""] else IsBrokenInto(PdfSafe(text), maxChars, lines)
    ensures maxChars > 0 ==> forall i :: 0 <= i < |lines| ==> |lines[i]| <= maxChars
    ensures Letters(Joined(lines)) == Letters(PdfSafe(text))
    ensures LeastConsumed(|lines| - 1, maxChars) <= |text|
    ensures forall i :: 0 <= i < |lines| - 1 ==> lines[i] == "" || lines[i][|lines[i]| - 1] != ' '
    ensures forall i :: 0 < i < |lines| ==> lines[i] != "" && lines[i][0] != ' '
  {
    hide Letters, Joined, LeastConsumed, IsBrokenInto, IsWrapped, IsPdfSafe;
    var safe := PdfSafe(text);
    if safe == "" {
      BlankPage(maxChars);
      return [""];
    }
    lines := WrapSafeText(safe, maxChars);
    WrappedPromises(safe, maxChars, lines);
  }

  lemma BlankPage(maxChars: nat)
    ensures Letters(Joined([""])) == Letters("") && LeastConsumed(0, maxChars) == 0
  {
    assert Joined([""]) == Joined([]) + "" == "";
  }

  lemma WrappedPromises(safe: string, maxChars: nat, lines: seq<string>)
    requires IsWrapped(safe, maxChars, lines)
    ensures |lines| >= 1 && Letters(Joined(lines)) == Letters(safe)
    ensures maxChars > 0 ==> forall i :: 0 <= i < |lines| ==> |lines[i]| <= maxChars
    ensures LeastConsumed(|lines| - 1, maxChars) <= |safe|
    ensures forall i :: 0 <= i < |lines| - 1 ==> lines[i] == "" || lines[i][|lines[i]| - 1] != ' '
    ensures forall i :: 0 < i < |lines| ==> lines[i] != "" && lines[i][0] != ' '
  {
    hide Letters, Joined, LeastConsumed;
    assert forall i :: 0 <= i < |lines| - 1 ==> lines[i] == lines[..|lines| - 1][i];
  }

  lemma SpaceIsWhitespace()
    ensures IsWhitespace(' ')
  {
  }

  /** A text that begins with a letter keeps it when its end is trimmed. */
  lemma NotBlank(s: string)
    requires s != "" && s[0] != ' ' && IsPdfSafe(s[0])
    ensures TrimEnd(s) != "" && TrimEnd(s)[0] == s[0]
  {
    if IsWhitespace(s[0]) {
      SafeWhitespaceIsSpace(s[0]);
    }
  }

  lemma JoinedAppend(lines: seq<string>, line: string)
    ensures Letters(Joined(lines + [line])) == Letters(Joined(lines)) + Letters(line)
  {
    assert (lines + [line])[..|lines|] == lines;
    LettersConcat(Joined(lines), line);
  }

  // ----- Fitting a picture -----

  datatype FitRect = FitRect(x: real, y: real, width: real, height: real)

  datatype LayoutError = InvalidImageDimensions

  /** The centred rectangle in which a picture fills the page without being cropped. */
  function FitContain(
    imageWidth: real, imageHeight: real, pageWidth: real, pageHeight: real): Result<FitRect, LayoutError>
  {
    if imageWidth <= 0.0 || imageHeight <= 0.0 || pageWidth <= 0.0 || pageHeight <= 0.0 then Err(InvalidImageDimensions)
    else
      var across, down := pageWidth / imageWidth, pageHeight / imageHeight;
      var scale := if across <= down then across else down;
      var width, height := imageWidth * scale, imageHeight * scale;
      Ok(FitRect((pageWidth - width) / 2.0, (pageHeight - height) / 2.0, width, height))
  }

  lemma MulMonotone(a: real, b: real, c: real)
    requires a <= b && c > 0.0
    ensures c * a <= c * b
  {
  }

  lemma Cancels(a: real, b: real)
    requires a > 0.0
    ensures a * (b / a) == b
  {
  }

  function Scale(iw: real, ih: real, pw: real, ph: real): real
    requires iw > 0.0 && ih > 0.0
  {
    if pw / iw <= ph / ih then pw / iw else ph / ih
  }

  lemma ScaleFits(iw: real, ih: real, pw: real, ph: real)
    requires iw > 0.0 && ih > 0.0 && pw > 0.0 && ph > 0.0
    ensures var scale := Scale(iw, ih, pw, ph);
            && scale > 0.0
            && 0.0 < iw * scale <= pw && 0.0 < ih * scale <= ph
            && (iw * scale == pw || ih * scale == ph)
  {
    var scale := Scale(iw, ih, pw, ph);
    Cancels(iw, pw);
    Cancels(ih, ph);
    MulMonotone(scale, pw / iw, iw);
    MulMonotone(scale, ph / ih, ih);
    QuotientPositive(pw, iw);
    QuotientPositive(ph, ih);
    ProductPositive(iw, scale);
    ProductPositive(ih, scale);
  }

  lemma QuotientPositive(a: real, b: real)
    requires a > 0.0 && b > 0.0
    ensures a / b > 0.0
  {
  }

  lemma ProductPositive(a: real, b: real)
    requires a > 0.0 && b > 0.0
    ensures a * b > 0.0
  {
  }

  lemma SameRatio(iw: real, ih: real, scale: real)
    ensures (iw * scale) * ih == (ih * scale) * iw
  {
  }

  /** The rectangle lies on the page, centred, with the picture's ratio, and touches the page in one dimension. */
  lemma FitIsPlaced(iw: real, ih: real, pw: real, ph: real)
    requires FitContain(iw, ih, pw, ph).Ok?
    ensures var r := FitContain(iw, ih, pw, ph).value;
            && r.width > 0.0 && r.height > 0.0
            && r.x >= 0.0 && r.y >= 0.0 && r.x + r.width <= pw && r.y + r.height <= ph
            && r.x == pw - (r.x + r.width) && r.y == ph - (r.y + r.height)
            && r.width * ih == r.height * iw
            && (r.width == pw || r.height == ph)
  {
    hide Scale;
    FitIsScaled(iw, ih, pw, ph);
    ScaleFits(iw, ih, pw, ph);
    SameRatio(iw, ih, Scale(iw, ih, pw, ph));
  }

  lemma FitIsScaled(iw: real, ih: real, pw: real, ph: real)
    requires FitContain(iw, ih, pw, ph).Ok?
    ensures iw > 0.0 && ih > 0.0 && pw > 0.0 && ph > 0.0
    ensures var r, scale := FitContain(iw, ih, pw, ph).value, Scale(iw, ih, pw, ph);
            && r.width == iw * scale && r.height == ih * scale
            && r.x == (pw - r.width) / 2.0 && r.y == (ph - r.height) / 2.0
  {
  }

  /** A rectangle of the picture's ratio is the picture times one factor. */
  lemma RatioIsFactor(iw: real, ih: real, w: real, h: real)
    requires iw > 0.0 && w * ih == h * iw
    ensures w == iw * (w / iw) && h == ih * (w / iw)
  {
    var k := w / iw;
    Cancels(iw, w);
    assert h * iw == (iw * k) * ih == (ih * k) * iw;
    SameFactor(iw, h, ih * k);
  }

  lemma SameFactor(a: real, x: real, y: real)
    requires a > 0.0 && x * a == y * a
    ensures x == y
  {
  }

  /** No larger rectangle of the picture's ratio fits on the page. */
  lemma FitIsMaximal(iw: real, ih: real, pw: real, ph: real, w: real, h: real)
    requires FitContain(iw, ih, pw, ph).Ok?
    requires w <= pw && h <= ph && w * ih == h * iw
    ensures var r := FitContain(iw, ih, pw, ph).value; w <= r.width && h <= r.height
  {
    hide Scale;
    FitIsScaled(iw, ih, pw, ph);
    ScaleFits(iw, ih, pw, ph);
    RatioIsFactor(iw, ih, w, h);
    var k, scale := w / iw, Scale(iw, ih, pw, ph);
    if k > scale {
      TooLarge(k, scale, iw);
      TooLarge(k, scale, ih);
    } else {
      MulMonotone(k, scale, iw);
      MulMonotone(k, scale, ih);
    }
  }

  /**
   Whenever all sides have a length, the rectangle lies on the page, centred, with the picture's
   aspect ratio, touches the page in one dimension, and no larger rectangle of that ratio would fit.
   */
  lemma FitIsLargest(iw: real, ih: real, pw: real, ph: real, w: real, h: real)
    ensures FitContain(iw, ih, pw, ph).Ok? <==> iw > 0.0 && ih > 0.0 && pw > 0.0 && ph > 0.0
    ensures FitContain(iw, ih, pw, ph).Ok? ==>
              var r := FitContain(iw, ih, pw, ph).value;
              && r.width > 0.0 && r.height > 0.0
              && r.x >= 0.0 && r.y >= 0.0 && r.x + r.width <= pw && r.y + r.height <= ph
              && r.x == pw - (r.x + r.width) && r.y == ph - (r.y + r.height)
              && r.width * ih == r.height * iw
              && (r.width == pw || r.height == ph)
              && (w <= pw && h <= ph && w * ih == h * iw ==> w <= r.width && h <= r.height)
  {
    FitNeedsExtent(iw, ih, pw, ph);
    hide FitContain;
    if FitContain(iw, ih, pw, ph).Ok? {
      FitIsPlaced(iw, ih, pw, ph);
      if w <= pw && h <= ph && w * ih == h * iw {
        FitIsMaximal(iw, ih, pw, ph, w, h);
      }
    }
  }

  lemma FitNeedsExtent(iw: real, ih: real, pw: real, ph: real)
    ensures FitContain(iw, ih, pw, ph).Ok? <==> iw > 0.0 && ih > 0.0 && pw > 0.0 && ph > 0.0
  {
  }

  lemma TooLarge(k: real, scale: real, side: real)
    requires k > scale && side > 0.0
    ensures k * side > side * scale
  {
  }
}
