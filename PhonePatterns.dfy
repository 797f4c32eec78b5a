/** The numbering-plan patterns of ParseHolyLandPhone, one predicate per
    anchored regular expression, and the two rewrites between local form
    (leading `0`) and international form (leading `972`).

    Every pattern is anchored at both ends (`^...$` without the `m` flag), so
    each predicate fixes the exact length of the string. `\d` without the `u`
    flag is an ASCII digit. Bracketed classes such as `[23489]` are written as
    membership in the string literal "23489", with the digits in the order the
    source lists them.
 */
module PhonePatterns {

  /** `\d`: an ASCII digit. */
  predicate IsDigit(c: char) {
    '0' <= c <= '9'
  }

  /** `\d{n}` matching all of `s`, where n == |s|. */
  predicate AllDigits(s: string) {
    forall i | 0 <= i < |s| :: IsDigit(s[i])
  }

  /** `s` begins with the literal `lit`. */
  predicate StartsWith(s: string, lit: string) {
    |lit| <= |s| && s[..|lit|] == lit
  }

  /** The service-code alternation `1(2(00|12)|599|70[05]|80[019]|90[012]|919)`
      shared by the valid, Israeli and business patterns, on the first four
      characters of `s`. */
  predicate ServiceCode(s: string)
    requires |s| >= 4
  {
    s[0] == '1' &&
    (  (s[1] == '2' && ((s[2] == '0' && s[3] == '0') || (s[2] == '1' && s[3] == '2')))
    || (s[1] == '5' && s[2] == '9' && s[3] == '9')
    || (s[1] == '7' && s[2] == '0' && s[3] in "05")
    || (s[1] == '8' && s[2] == '0' && s[3] in "019")
    || (s[1] == '9' && s[2] == '0' && s[3] in "012")
    || (s[1] == '9' && s[2] == '1' && s[3] == '9'))
  }

  /** The four-character kosher mobile prefixes after the leading `0`. */
  const KOSHER_MOBILE_PREFIXES: set<string> :=
    {"5041", "5271", "5276", "5484", "5485", "5331", "5341", "5832", "5567"}

  // ---------------------------------------------------------------------------
  // The eleven classification patterns
  // ---------------------------------------------------------------------------

  /** `^\*\d{4}$`: a special short code. */
  predicate Special(s: string)
    ensures Special(s) ==> |s| == 5 && s[0] == '*'
  {
    |s| == 5 && s[0] == '*' && AllDigits(s[1..])
  }

  /** `^((0[23489][2356789]|0[57][102345689]\d|1(...service codes...))\d{6}|\*\d{4})$`. */
  predicate Valid(s: string)
    ensures Valid(s) ==> |s| == 5 || |s| == 9 || |s| == 10
  {
    (|s| == 9 && s[0] == '0' && s[1] in "23489" && s[2] in "2356789" && AllDigits(s[3..]))
    || (|s| == 10 && s[0] == '0' && s[1] in "57" && s[2] in "102345689" && AllDigits(s[3..]))
    || (|s| == 10 && ServiceCode(s) && AllDigits(s[4..]))
    || Special(s)
  }

  /** `^((0[23489][356789]|0[57][1023458]\d|1(...service codes...))\d{6}|\*\d{4})$`:
      the valid pattern with narrower area-code and mobile-prefix classes. */
  predicate Israeli(s: string)
    ensures Israeli(s) ==> Valid(s)
  {
    (|s| == 9 && s[0] == '0' && s[1] in "23489" && s[2] in "356789" && AllDigits(s[3..]))
    || (|s| == 10 && s[0] == '0' && s[1] in "57" && s[2] in "1023458" && AllDigits(s[3..]))
    || (|s| == 10 && ServiceCode(s) && AllDigits(s[4..]))
    || Special(s)
  }

  /** `^(0[23489]2|05[69]\d|)\d{6}$`, including its empty alternative: six bare
      digits match. */
  predicate Palestinian(s: string)
    ensures Palestinian(s) ==> (|s| == 6 || |s| == 9 || |s| == 10) && AllDigits(s)
  {
    (|s| == 9 && s[0] == '0' && s[1] in "23489" && s[2] == '2' && AllDigits(s[3..]))
    || (|s| == 10 && StartsWith(s, "05") && s[2] in "69" && AllDigits(s[3..]))
    || (|s| == 6 && AllDigits(s))
  }

  /** `^0([23489][2356789]|7\d{2})\d{6}$`. */
  predicate LandLine(s: string)
    ensures LandLine(s) ==> (|s| == 9 || |s| == 10) && s[0] == '0'
  {
    |s| > 0 && s[0] == '0' &&
    (  (|s| == 9 && s[1] in "23489" && s[2] in "2356789" && AllDigits(s[3..]))
    || (|s| == 10 && s[1] == '7' && AllDigits(s[2..])))
  }

  /** `^0[5][102345689]\d{7}$`. */
  predicate Mobile(s: string)
    ensures Mobile(s) ==> |s| == 10 && StartsWith(s, "05") && s[2] != '7'
  {
    |s| == 10 && StartsWith(s, "05") && s[2] in "102345689" && AllDigits(s[3..])
  }

  /** `^1(2(00|12)|599|70[05]|80[019]|90[012]|919)\d{6}$`. */
  predicate Business(s: string)
    ensures Business(s) ==> |s| == 10 && s[0] == '1'
  {
    |s| == 10 && ServiceCode(s) && AllDigits(s[4..])
  }

  /** `^180[019]\d{6}$`. */
  predicate TollFree(s: string)
    ensures TollFree(s) ==> Business(s)
  {
    |s| == 10 && StartsWith(s, "180") && s[3] in "019" && AllDigits(s[4..])
  }

  /** `^19(0[012]|19)\d{6}$`. */
  predicate Premium(s: string)
    ensures Premium(s) ==> Business(s)
  {
    |s| == 10 && StartsWith(s, "19") &&
    ((s[2] == '0' && s[3] in "012") || (s[2] == '1' && s[3] == '9')) &&
    AllDigits(s[4..])
  }

  /** `^0([23489]80|5041|5271|5276|5484|5485|5331|5341|5832|5567)\d{5}$`. */
  predicate Kosher(s: string)
    ensures Kosher(s) ==> (|s| == 9 || |s| == 10) && s[0] == '0'
  {
    |s| > 0 && s[0] == '0' &&
    (  (|s| == 9 && s[1] in "23489" && s[2] == '8' && s[3] == '0' && AllDigits(s[4..]))
    || (|s| == 10 && s[1..5] in KOSHER_MOBILE_PREFIXES && AllDigits(s[5..])))
  }

  /** `^1919\d{6}$`. */
  predicate Erotic(s: string)
    ensures Erotic(s) ==> Premium(s)
  {
    |s| == 10 && StartsWith(s, "1919") && AllDigits(s[4..])
  }

  // ---------------------------------------------------------------------------
  // Local and international form
  // ---------------------------------------------------------------------------

  /** `^(972)(\d{8,9})$`: the input shape that construction rewrites. */
  predicate InternationalForm(s: string) {
    (|s| == 11 || |s| == 12) && StartsWith(s, "972") && AllDigits(s[3..])
  }

  /** `^(0)(\d{8,9})$`: the stored shape that getInternational rewrites. */
  predicate LocalForm(s: string) {
    (|s| == 9 || |s| == 10) && s[0] == '0' && AllDigits(s[1..])
  }

  /** `s.replace(/^(972)(\d{8,9})$/, '0$2')`: the one-time normalization. */
  function ToLocal(s: string): (r: string)
    ensures InternationalForm(s) ==> LocalForm(r) && r[1..] == s[3..]
    ensures !InternationalForm(s) ==> r == s
    ensures !InternationalForm(r)
  {
    if InternationalForm(s) then "0" + s[3..] else s
  }

  /** `s.replace(/^(0)(\d{8,9})$/, '972$2')`: the international form of a
      stored number. */
  function ToInternational(s: string): (r: string)
    ensures LocalForm(s) ==> InternationalForm(r) && r[3..] == s[1..]
    ensures !LocalForm(s) ==> r == s
  {
    if LocalForm(s) then "972" + s[1..] else s
  }
}
