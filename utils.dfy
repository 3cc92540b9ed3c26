/**
 * The pure derivation helpers: the certificate colour mapping and the
 * footer date with its ordinal day suffix.
 */
module Utils {
  import opened Wrappers
  import opened Builtins

  const DefaultColor := "default"
  const CyanColor := "cyan"
  const GreenColor := "green"
  /** The shared colour of an incomplete certificate. */
  const VolcanoColor := "volcano"

  /** The certificate fields `customTagBgColor` receives; each is optional. */
  datatype CertificateFlags = CertificateFlags(
    english: Option<string>,
    scrum: Option<string>,
    cyberSecurity: Option<string>)

  /** The three tag colours `customTagBgColor` returns. */
  datatype TagColors = TagColors(
    englishColor: string,
    scrumColor: string,
    cyberSecurityColor: string)

  /**
   * Each certificate gets its own "complete" colour when its field is
   * truthy and the shared "volcano" colour otherwise.
   */
  function CustomTagBgColor(c: CertificateFlags): (r: TagColors)
    ensures r.englishColor == DefaultColor <==> Truthy(c.english)
    ensures r.englishColor == VolcanoColor <==> !Truthy(c.english)
    ensures r.scrumColor == CyanColor <==> Truthy(c.scrum)
    ensures r.scrumColor == VolcanoColor <==> !Truthy(c.scrum)
    ensures r.cyberSecurityColor == GreenColor <==> Truthy(c.cyberSecurity)
    ensures r.cyberSecurityColor == VolcanoColor <==> !Truthy(c.cyberSecurity)
  {
    var englishColor := if Truthy(c.english) then DefaultColor else VolcanoColor;
    var scrumColor := if Truthy(c.scrum) then CyanColor else VolcanoColor;
    var cyberSecurityColor := if Truthy(c.cyberSecurity) then GreenColor else VolcanoColor;
    TagColors(englishColor, scrumColor, cyberSecurityColor)
  }

  /** Each colour is decided by its own field alone. */
  lemma CustomTagBgColorFieldwise(c: CertificateFlags, d: CertificateFlags)
    ensures c.english == d.english ==>
      CustomTagBgColor(c).englishColor == CustomTagBgColor(d).englishColor
    ensures c.scrum == d.scrum ==>
      CustomTagBgColor(c).scrumColor == CustomTagBgColor(d).scrumColor
    ensures c.cyberSecurity == d.cyberSecurity ==>
      CustomTagBgColor(c).cyberSecurityColor == CustomTagBgColor(d).cyberSecurityColor
  {
  }

  /** The suffix table the ordinal expression indexes. */
  const Suffixes: seq<string> := ["th", "st", "nd", "rd"]

  /**
   * The index expression `(n % 100 >> 3 ^ 1 && n % 10) || 0`: the guard
   * `n % 100 >> 3 ^ 1` is falsy (zero) exactly for `n % 100` in 8..15, in
   * which case the index is 0; otherwise the index is the last digit.
   */
  function SuffixIndex(n: nat): (i: nat)
    ensures i < 10
  {
    var guard := BitXor(ShiftRight(n % 100, 3), 1);
    var conjunction := if guard == 0 then 0 else n % 10;
    if conjunction == 0 then 0 else conjunction
  }

  /**
   * `ordinal(n)`: the table entry at the index, with `|| "th"` standing in
   * for the `undefined` an index of 4 or more produces.
   */
  function Ordinal(n: nat): (r: string)
    ensures r in Suffixes
  {
    OrElse(ElementAt(Suffixes, SuffixIndex(n)), "th")
  }

  /** The conventional English ordinal suffix. */
  function ConventionalSuffix(n: nat): string
  {
    if 11 <= n % 100 <= 13 then "th"
    else if n % 10 == 1 then "st"
    else if n % 10 == 2 then "nd"
    else if n % 10 == 3 then "rd"
    else "th"
  }

  /** The index is 0 when `n % 100` is in 8..15 and the last digit otherwise. */
  lemma SuffixIndexCases(n: nat)
    ensures 8 <= n % 100 <= 15 ==> SuffixIndex(n) == 0
    ensures !(8 <= n % 100 <= 15) ==> SuffixIndex(n) == n % 10
  {
    var m := n % 100;
    ShiftRightThree(m);
    assert BitXor(m / 8, 1) == 0 <==> m / 8 == 1;
    assert 8 <= m <= 15 <==> m / 8 == 1;
  }

  /** The last digit of `n % 100` is the last digit of `n`. */
  lemma LastDigitOfLastTwo(n: nat)
    ensures (n % 100) % 10 == n % 10
  {
  }

  /** The bit trick agrees with the conventional rule for every day number. */
  lemma {:induction false} OrdinalIsConventional(n: nat)
    ensures Ordinal(n) == ConventionalSuffix(n)
  {
    SuffixIndexCases(n);
    LastDigitOfLastTwo(n);
    var m, i := n % 100, SuffixIndex(n);
    if 8 <= m <= 15 {
      assert i == 0 && Ordinal(n) == "th";
    } else if i < |Suffixes| {
      assert i == m % 10 && Ordinal(n) == Suffixes[i];
    } else {
      assert 4 <= m % 10 && Ordinal(n) == "th";
    }
  }

  /** Every `n % 100` in 8..15 (11, 12 and 13 among them) gets "th". */
  lemma OrdinalTeenFallback(n: nat)
    requires 8 <= n % 100 <= 15
    ensures Ordinal(n) == "th"
  {
    SuffixIndexCases(n);
  }

  /** The suffixes of the days 1, 2, 3, 4, 11, 12, 13, 21, 22, 23 and 31. */
  lemma OrdinalDays()
    ensures Ordinal(1) == "st" && Ordinal(2) == "nd" && Ordinal(3) == "rd"
    ensures Ordinal(4) == "th"
    ensures Ordinal(11) == "th" && Ordinal(12) == "th" && Ordinal(13) == "th"
    ensures Ordinal(21) == "st" && Ordinal(22) == "nd" && Ordinal(23) == "rd"
    ensures Ordinal(31) == "st"
  {
    // Going through the general rule keeps the proof cheap on every solver
    // seed; evaluating the bit trick on each literal does not.
    forall n: nat | n in {1, 2, 3, 4, 11, 12, 13, 21, 22, 23, 31}
      ensures Ordinal(n) == ConventionalSuffix(n)
    {
      OrdinalIsConventional(n);
    }
  }

  /**
   * `currentDate`: "<month> <day><suffix>, <year>". The month name, day of
   * the month and full year come from the `Date` the caller passes.
   */
  function CurrentDate(monthName: string, day: nat, year: int): (r: string)
    ensures |r| == |monthName| + 1 + |NatToString(day)| + |Ordinal(day)| + 2 + |IntToString(year)|
    ensures r[..|monthName|] == monthName && r[|monthName|] == ' '
    ensures r[|monthName| + 1..|r| - 2 - |IntToString(year)|] == NatToString(day) + ConventionalSuffix(day)
    ensures r[|r| - 2 - |IntToString(year)|..] == ", " + IntToString(year)
  {
    OrdinalIsConventional(day);
    var dayText := NatToString(day) + Ordinal(day);
    var yearText := ", " + IntToString(year);
    var r := monthName + " " + dayText + yearText;
    assert r[..|monthName|] == monthName;
    assert r[|monthName| + 1..|r| - |yearText|] == dayText;
    assert r[|r| - |yearText|..] == yearText;
    r
  }

  /** March 3, 2024 is rendered as "March 3rd, 2024". */
  lemma CurrentDateExample()
    ensures CurrentDate("March", 3, 2024) == "March 3rd, 2024"
  {
    // Digit-by-digit steps keep the proof cheap on every solver seed.
    var year := IntToString(2024);
    assert year == "2024" by {
      assert NatToString(2) == "2";
      assert NatToString(20) == "20";
      assert NatToString(202) == "202";
    }
    var day := NatToString(3) + Ordinal(3);
    assert day == "3rd" by {
      OrdinalIsConventional(3);
    }
  }
}
