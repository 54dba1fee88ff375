/** String operations of the standard library that the parsers rely on. */
module Text {
  import opened Common

  predicate IsDigit(c: char) {
    '0' <= c <= '9'
  }

  function LowerChar(c: char): char {
    if 'A' <= c <= 'Z' then c - 'A' + 'a' else c
  }

  /** `str::to_ascii_lowercase` */
  function Lower(s: string): (r: string)
    ensures |r| == |s|
    ensures forall i :: 0 <= i < |s| ==> r[i] == LowerChar(s[i])
  {
    seq(|s|, i requires 0 <= i < |s| => LowerChar(s[i]))
  }

  predicate StartsWith(s: string, prefix: string) {
    prefix <= s
  }

  predicate EndsWith(s: string, suffix: string) {
    |suffix| <= |s| && s[|s| - |suffix|..] == suffix
  }

  /** Index of the first `c`, or the length of the text when there is none. */
  function IndexOf(s: string, c: char): (i: nat)
    ensures i <= |s|
    ensures i < |s| ==> s[i] == c
    ensures forall j :: 0 <= j < i ==> s[j] != c
  {
    if s == "" || s[0] == c then 0
    else
      var i := 1 + IndexOf(s[1..], c);
      assert forall j :: 0 < j < i ==> s[j] == s[1..][j - 1];
      i
  }

  /** Index of the last `c`, if there is one. */
  function LastIndexOf(s: string, c: char): (r: Option<nat>)
    ensures r.Some? ==> r.value < |s| && s[r.value] == c && forall j :: r.value < j < |s| ==> s[j] != c
    ensures r.None? ==> c !in s
  {
    if s == "" then None
    else if s[|s| - 1] == c then Some(|s| - 1)
    else
      var r := LastIndexOf(s[..|s| - 1], c);
      assert forall j :: 0 <= j < |s| - 1 ==> s[j] == s[..|s| - 1][j];
      r
  }

  /** `str::split` on a character */
  function Split(s: string, separator: char): seq<string>
    decreases |s|
  {
    var i := IndexOf(s, separator);
    if i == |s| then [s] else [s[..i]] + Split(s[i + 1..], separator)
  }

  /** `str::split_once` on a character */
  function SplitOnce(s: string, separator: char): Option<(string, string)> {
    var i := IndexOf(s, separator);
    if i == |s| then None else Some((s[..i], s[i + 1..]))
  }

  function TrimEndChar(s: string, c: char): string {
    if s != "" && s[|s| - 1] == c then TrimEndChar(s[..|s| - 1], c) else s
  }

  function TrimStartChar(s: string, c: char): string {
    if s != "" && s[0] == c then TrimStartChar(s[1..], c) else s
  }

  /** The first part of the text without whitespace. */
  function WordLength(s: string): (n: nat)
    ensures n <= |s|
  {
    if s == "" || IsWhitespace(s[0]) then 0 else 1 + WordLength(s[1..])
  }

  lemma {:induction false} FirstWord(word: string, tail: string)
    requires word != "" && forall i :: 0 <= i < |word| ==> !IsWhitespace(word[i])
    requires tail == "" || IsWhitespace(tail[0])
    ensures WordLength(word + tail) == |word|
    decreases |word|
  {
    var s := word + tail;
    assert s[0] == word[0];
    assert s[1..] == word[1..] + tail;
    if |word| == 1 {
      assert s[1..] == tail;
    } else {
      FirstWord(word[1..], tail);
    }
  }

  /** `str::split_whitespace` */
  function Words(s: string): seq<string>
    decreases |s|
  {
    if s == "" then []
    else if IsWhitespace(s[0]) then Words(s[1..])
    else [s[..WordLength(s)]] + Words(s[WordLength(s)..])
  }

  /** Words behind each other, each after a space. */
  function Spaced(words: seq<string>): string {
    if words == [] then "" else " " + words[0] + Spaced(words[1..])
  }

  predicate IsWord(s: string) {
    s != "" && forall i :: 0 <= i < |s| ==> !IsWhitespace(s[i])
  }

  lemma OneMoreWord(word: string, tail: string)
    requires IsWord(word) && (tail == "" || tail[0] == ' ')
    ensures Words(" " + word + tail) == [word] + Words(tail)
  {
    hide IsWhitespace;
    var text := word + tail;
    assert IsWhitespace(' ') by { SpaceSeparates(); }
    FirstWord(word, tail);
    assert (" " + word + tail)[1..] == text;
    assert text[0] == word[0] && !IsWhitespace(word[0]);
    assert text[..|word|] == word && text[|word|..] == tail;
    assert Words(text) == [word] + Words(tail);
  }

  lemma SpaceSeparates()
    ensures IsWhitespace(' ')
  {
  }

  lemma {:induction false} WordsOfSpaced(words: seq<string>)
    requires forall i :: 0 <= i < |words| ==> IsWord(words[i])
    ensures Words(Spaced(words)) == words
  {
    hide IsWord;
    if words != [] {
      WordsOfSpaced(words[1..]);
      OneMoreWord(words[0], Spaced(words[1..]));
    }
  }

  function WithoutCarriageReturn(line: string): string {
    if line != "" && line[|line| - 1] == '\r' then line[..|line| - 1] else line
  }

  /** `str::lines` */
  function Lines(s: string): seq<string>
    decreases |s|
  {
    if s == "" then []
    else
      var i := IndexOf(s, '\n');
      if i == |s| then [s] else [WithoutCarriageReturn(s[..i])] + Lines(s[i + 1..])
  }

  // ----- Decimal numbers -----

  function DigitChar(d: nat): (c: char)
    requires d < 10
    ensures IsDigit(c)
  {
    '0' + d as char
  }

  /** The decimal notation of a number, without leading zeros. */
  function Digits(n: nat): (s: string)
    ensures s != "" && forall i :: 0 <= i < |s| ==> IsDigit(s[i])
  {
    if n < 10 then [DigitChar(n)] else Digits(n / 10) + [DigitChar(n % 10)]
  }

  function DigitValue(c: char): nat
    requires IsDigit(c)
  {
    (c as int - '0' as int) as nat
  }

  function DigitsValue(s: string): nat
    requires forall i :: 0 <= i < |s| ==> IsDigit(s[i])
  {
    if s == "" then 0 else 10 * DigitsValue(s[..|s| - 1]) + DigitValue(s[|s| - 1])
  }

  lemma {:induction false} ValueOfDigits(n: nat)
    ensures DigitsValue(Digits(n)) == n
  {
    if n >= 10 {
      ValueOfDigits(n / 10);
      assert Digits(n)[..|Digits(n)| - 1] == Digits(n / 10);
    }
  }

  lemma ValueAppend(s: string, c: char)
    requires forall i :: 0 <= i < |s| ==> IsDigit(s[i])
    requires IsDigit(c)
    ensures DigitsValue(s + [c]) == 10 * DigitsValue(s) + DigitValue(c)
  {
    assert (s + [c])[..|s|] == s;
  }

  function Pow10(n: nat): (p: nat)
    ensures p >= 1
  {
    if n == 0 then 1 else 10 * Pow10(n - 1)
  }

  /** The number `mantissa / 10^scale`. */
  datatype Decimal = Decimal(mantissa: nat, scale: nat)

  predicate IsNumberChar(c: char) {
    IsDigit(c) || c == '.'
  }

  /**
   Number parsing on texts of digits and dots: at most one dot, at least one digit. The value
   is exact.
   */
  function ParseNumber(s: string): Option<Decimal>
    requires forall i :: 0 <= i < |s| ==> IsNumberChar(s[i])
  {
    var dot := IndexOf(s, '.');
    var fraction := if dot < |s| then s[dot + 1..] else "";
    if |s[..dot]| + |fraction| == 0 || '.' in fraction then None
    else
      assert forall i :: 0 <= i < |fraction| ==> IsNumberChar(fraction[i]) && fraction[i] != '.';
      assert forall i :: 0 <= i < dot ==> IsNumberChar(s[i]) && s[i] != '.';
      Some(Decimal(DigitsValue(s[..dot] + fraction), |fraction|))
  }
}
