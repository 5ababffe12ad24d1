/**
 * The title shown by the application's common top bar. The bar allows a
 * number of characters that depends on the screen width. A title longer than
 * that is broken into two lines near its middle, and the bar then picks one of
 * two text styles.
 *
 * Kotlin strings are sequences of UTF-16 code units, and `length`,
 * `indexOf` and `substring` count code units. The title is therefore a
 * sequence of code units here, not of Dafny characters.
 */
module TopBar {
  /** One UTF-16 code unit. */
  newtype CodeUnit = c: int | 0 <= c < 0x1_0000

  type Text = seq<CodeUnit>

  const Space: CodeUnit := 0x20
  const LineFeed: CodeUnit := 0x0A

  /** The two typography styles the bar chooses between. */
  datatype TextStyle = TitleLarge | HeadlineMedium

  /** What the bar displays: the adjusted title and its style. */
  datatype TopBarTitle = TopBarTitle(text: Text, style: TextStyle)

  /**
   * Kotlin's `Char.isWhitespace` on the JVM, as `trim()` uses it: Java's
   * `Character.isWhitespace` or `Character.isSpaceChar`. That is the controls
   * U+0009..U+000D and U+001C..U+001F, and every space, line or paragraph
   * separator.
   */
  predicate IsWhitespace(c: CodeUnit) {
    (0x09 <= c <= 0x0D) || (0x1C <= c <= 0x20) || c == 0xA0 || c == 0x1680
    || (0x2000 <= c <= 0x200A) || c == 0x2028 || c == 0x2029 || c == 0x202F
    || c == 0x205F || c == 0x3000
  }

  /** The character budget `(screenWidth / 10) * 2`. The division truncates, so
      the budget is an even number and a whole step of ten width units adds
      two characters. */
  function MaxCharacters(screenWidth: nat): (m: nat)
    ensures m % 2 == 0
    ensures 5 * m <= screenWidth < 5 * m + 10
  {
    (screenWidth / 10) * 2
  }

  /** `s.indexOf(c, from)` for a one-unit needle: the first index at or after
      `from` that holds `c`, or -1 when there is none. */
  function IndexOf(s: Text, c: CodeUnit, from: nat): (r: int)
    ensures r == -1 || (from <= r < |s| && s[r] == c)
    ensures r != -1 ==> forall k :: from <= k < r ==> s[k] != c
    ensures r == -1 <==> forall k :: from <= k < |s| ==> s[k] != c
    decreases |s| - from
  {
    if from >= |s| then -1
    else if s[from] == c then from
    else IndexOf(s, c, from + 1)
  }

  /**
   * Where a long title is cut: the first space at or after the midpoint
   * `|title| / 2`, if that index is positive (`takeIf { it > 0 }`), and
   * otherwise the midpoint itself.
   */
  function SplitIndex(title: Text): (i: nat)
    ensures |title| / 2 <= i <= |title|
    ensures |title| > 0 ==> i < |title|
    ensures forall k :: |title| / 2 <= k < i ==> title[k] != Space
    ensures (0 < i < |title| && title[i] == Space)
            || (i == |title| / 2 && forall k :: |title| / 2 <= k < |title| && 0 < k ==> title[k] != Space)
  {
    var midpoint := |title| / 2;
    var found := IndexOf(title, Space, midpoint);
    if found > 0 then found else midpoint
  }

  /** The number of whitespace units at the start of `s`. */
  function LeadingWhitespace(s: Text): (n: nat)
    ensures n <= |s|
    ensures forall k :: 0 <= k < n ==> IsWhitespace(s[k])
    ensures n == |s| || !IsWhitespace(s[n])
  {
    if s != [] && IsWhitespace(s[0]) then 1 + LeadingWhitespace(s[1..]) else 0
  }

  /** The number of whitespace units at the end of `s`. */
  function TrailingWhitespace(s: Text): (n: nat)
    ensures n <= |s|
    ensures forall k :: |s| - n <= k < |s| ==> IsWhitespace(s[k])
    ensures n == |s| || !IsWhitespace(s[|s| - 1 - n])
  {
    if s != [] && IsWhitespace(s[|s| - 1]) then 1 + TrailingWhitespace(s[..|s| - 1]) else 0
  }

  /**
   * Kotlin's `String.trim()`: the longest slice of `s` that neither starts nor
   * ends with whitespace, once all leading and trailing whitespace is dropped.
   */
  function Trim(s: Text): (r: Text)
    ensures LeadingWhitespace(s) + |r| <= |s|
    ensures r == s[LeadingWhitespace(s)..LeadingWhitespace(s) + |r|]
    ensures forall k :: LeadingWhitespace(s) + |r| <= k < |s| ==> IsWhitespace(s[k])
    ensures r == [] || (!IsWhitespace(r[0]) && !IsWhitespace(r[|r| - 1]))
    ensures r == [] <==> forall k :: 0 <= k < |s| ==> IsWhitespace(s[k])
  {
    var rest := s[LeadingWhitespace(s)..];
    rest[..|rest| - TrailingWhitespace(rest)]
  }

  /**
   * `adjustedTitle`: the title itself when it fits the budget, otherwise the
   * part before the split index, a line feed, and the trimmed rest.
   */
  function AdjustTitle(title: Text, screenWidth: nat): (r: Text)
    ensures |title| <= MaxCharacters(screenWidth) ==> r == title
    ensures |title| > MaxCharacters(screenWidth) ==> LineFeed in r
  {
    if |title| > MaxCharacters(screenWidth) then
      var splitIndex := SplitIndex(title);
      title[..splitIndex] + [LineFeed] + Trim(title[splitIndex..])
    else
      title
  }

  /** `textStyle`: the smaller style exactly when the adjusted title still
      exceeds the budget. */
  function StyleFor(adjustedTitle: Text, maxCharacters: nat): (s: TextStyle)
    ensures s == TitleLarge <==> |adjustedTitle| > maxCharacters
    ensures s == HeadlineMedium <==> |adjustedTitle| <= maxCharacters
  {
    if |adjustedTitle| > maxCharacters then TitleLarge else HeadlineMedium
  }

  /** The text and the style `CommonTopBar` gives its `Text`. */
  function CommonTopBarTitle(title: Text, screenWidth: nat): (t: TopBarTitle)
    ensures t.text == AdjustTitle(title, screenWidth)
    ensures |title| <= MaxCharacters(screenWidth) ==> t == TopBarTitle(title, HeadlineMedium)
    ensures t.style == TitleLarge <==> |t.text| > MaxCharacters(screenWidth)
  {
    var adjusted := AdjustTitle(title, screenWidth);
    TopBarTitle(adjusted, StyleFor(adjusted, MaxCharacters(screenWidth)))
  }

  /**
   * A title that does not fit is cut into two lines. The first line is exactly
   * the title's prefix up to the split index, which lies in the second half of
   * the title; a single line feed follows; the second line is the rest of the
   * title from the split index on, trimmed (see `Trim` for what that keeps).
   */
  lemma AdjustTitleSplits(title: Text, screenWidth: nat)
    requires |title| > MaxCharacters(screenWidth)
    ensures var i := SplitIndex(title);
            var r := AdjustTitle(title, screenWidth);
            |title| / 2 <= i < |title| &&
            |r| == i + 1 + |Trim(title[i..])| &&
            r[..i] == title[..i] && r[i] == LineFeed &&
            r[i + 1..] == Trim(title[i..])
  {
  }

  /** When the cut falls on a space, that space does not open the second
      line: the trim removes it. */
  lemma SecondLineDropsSplitSpace(title: Text, screenWidth: nat)
    requires |title| > MaxCharacters(screenWidth)
    requires title[SplitIndex(title)] == Space
    ensures var i := SplitIndex(title);
            var r := AdjustTitle(title, screenWidth);
            i + 1 <= |r| <= |title| && (|r| == i + 1 || r[i + 1] != Space)
  {
  }

  /** Splitting adds exactly one line feed and drops only whitespace, so the
      result is at most one unit longer than the title, and the second line is
      at most one unit longer than the first. */
  lemma AdjustTitleLength(title: Text, screenWidth: nat)
    requires |title| > MaxCharacters(screenWidth)
    ensures var i := SplitIndex(title);
            var r := AdjustTitle(title, screenWidth);
            |r| <= |title| + 1 && |r| - (i + 1) <= i + 1
  {
  }

  /** For a title at least twice the budget plus one, the first line and its
      line feed together already exceed the budget, so the bar always falls
      back to the smaller style. */
  lemma LongTitleGetsTitleLarge(title: Text, screenWidth: nat)
    requires |title| >= 2 * MaxCharacters(screenWidth) + 1
    ensures CommonTopBarTitle(title, screenWidth).style == TitleLarge
  {
  }
}
