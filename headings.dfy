/**
 * The text of a chapter heading, a function of the chapter number, its title
 * and the show-numbering flag, and a parser that recovers number and title
 * from a numbered heading.
 */
module Headings {
  import opened Wrappers
  import opened Decimal

  /** "{number}. {title}" when numbering is shown, the bare title otherwise. */
  function HeadingText(number: nat, title: string, showNumbering: bool): string
  {
    if showNumbering then NatToString(number) + ". " + title else title
  }

  /**
   * The title always ends the heading; without numbering it is the whole
   * heading, with numbering it follows the number's decimal text and ". ".
   */
  lemma HeadingTextShape(number: nat, title: string, showNumbering: bool)
    ensures var r := HeadingText(number, title, showNumbering);
      && |r| >= |title| && r[|r| - |title|..] == title
      && (!showNumbering ==> r == title)
      && (showNumbering ==> var k := |r| - |title| - 2;
            && k >= 1
            && r[..k] == NatToString(number)
            && AllDigits(r[..k])
            && r[k..k + 2] == ". ")
  {
  }

  /** The length of the longest prefix of s made of decimal digits. */
  function DigitRun(s: string): (k: nat)
    ensures k <= |s|
    ensures AllDigits(s[..k])
    ensures k < |s| ==> !IsDigit(s[k])
    decreases |s|
  {
    if s == [] || !IsDigit(s[0]) then 0
    else
      var k := 1 + DigitRun(s[1..]);
      assert s[..k] == [s[0]] + s[1..][..k - 1];
      k
  }

  /** Splits "{number}. {title}" back into number and title. */
  function ParseHeading(s: string): Option<(nat, string)> {
    var k := DigitRun(s);
    if 0 < k && k + 2 <= |s| && s[k] == '.' && s[k + 1] == ' '
    then Some((ParseDecimal(s[..k]), s[k + 2..]))
    else None
  }

  /** A numbered heading determines its number and title. */
  lemma HeadingRoundTrip(number: nat, title: string)
    ensures ParseHeading(HeadingText(number, title, true)) == Some((number, title))
  {
    var d := NatToString(number);
    var s := HeadingText(number, title, true);
    assert s == d + ". " + title;
    var k := DigitRun(s);
    assert s[|d|] == '.';
    assert forall i :: 0 <= i < |d| ==> s[i] == d[i];
    assert forall j :: |d| < j <= |s| ==> s[..j][|d|] == '.';
    assert k == |d|;
    assert s[..k] == d;
    assert s[k + 2..] == title;
    ParseNatToString(number);
  }

  /** Two chapters whose numbered headings coincide have the same number and title. */
  lemma NumberedHeadingInjective(n1: nat, t1: string, n2: nat, t2: string)
    requires HeadingText(n1, t1, true) == HeadingText(n2, t2, true)
    ensures n1 == n2 && t1 == t2
  {
    HeadingRoundTrip(n1, t1);
    HeadingRoundTrip(n2, t2);
  }
}
