/** The parts of java.lang.String, Integer, Double and java.time.LocalDate that
    the reservation screens rely on: String.trim, String.equalsIgnoreCase and
    the toString conversions used when a reservation is shown as text. */
module JavaText {
  import opened JavaTime

  // ---------------------------------------------------------------------------
  // String.trim
  // ---------------------------------------------------------------------------

  /** String.trim strips every character at or below U+0020 (space and all
      control characters) from both ends. */
  predicate IsTrimmable(c: char) {
    c <= ' '
  }

  predicate AllTrimmable(s: string) {
    forall k :: 0 <= k < |s| ==> IsTrimmable(s[k])
  }

  /** Index of the first character trim keeps; |s| when there is none. */
  function TrimStart(s: string): (n: nat)
    ensures n <= |s|
    ensures AllTrimmable(s[..n])
    ensures n < |s| ==> !IsTrimmable(s[n])
  {
    if s == [] || !IsTrimmable(s[0]) then 0
    else
      var n := 1 + TrimStart(s[1..]);
      assert s[..n] == [s[0]] + s[1..][..n - 1];
      n
  }

  /** One past the index of the last character trim keeps; 0 when there is none. */
  function TrimEnd(s: string): (n: nat)
    ensures n <= |s|
    ensures AllTrimmable(s[n..])
    ensures n > 0 ==> !IsTrimmable(s[n - 1])
  {
    if s == [] || !IsTrimmable(s[|s| - 1]) then |s|
    else
      var n := TrimEnd(s[..|s| - 1]);
      assert s[n..] == s[..|s| - 1][n..] + [s[|s| - 1]];
      n
  }

  /** String.trim: the scan from the front stops at the first kept character,
      the scan from the back never passes it. */
  function Trim(s: string): (t: string)
    ensures |t| <= |s|
    ensures t == [] <==> AllTrimmable(s)
    ensures t != [] ==> !IsTrimmable(t[0]) && !IsTrimmable(t[|t| - 1])
    ensures exists i :: 0 <= i <= |s| - |t| && t == s[i..i + |t|]
                        && AllTrimmable(s[..i]) && AllTrimmable(s[i + |t|..])
  {
    var st := TrimStart(s);
    var len := TrimEnd(s);
    if len <= st then
      assert s[st..] == s[len..][st - len..];
      assert s == s[..st] + s[st..];
      assert s[st..st + 0] == [];
      []
    else
      assert s[st..len] == s[st..st + (len - st)];
      s[st..len]
  }

  lemma {:induction false} TrimIdempotent(s: string)
    ensures Trim(Trim(s)) == Trim(s)
  {
    var t := Trim(s);
    if t != [] {
      assert TrimStart(t) == 0;
      assert TrimEnd(t) == |t|;
      assert t[0..|t|] == t;
    }
  }

  // ---------------------------------------------------------------------------
  // String.equalsIgnoreCase (ASCII letters only)
  // ---------------------------------------------------------------------------

  function ToUpperAscii(c: char): char {
    if 'a' <= c <= 'z' then (c as int - 32) as char else c
  }

  function ToLowerAscii(c: char): char {
    if 'A' <= c <= 'Z' then (c as int + 32) as char else c
  }

  /** The per-character test of String.regionMatches with ignoreCase: equal,
      equal in upper case, or equal once upper-cased and then lower-cased. */
  predicate CharEqualsIgnoreCase(a: char, b: char) {
    a == b
    || ToUpperAscii(a) == ToUpperAscii(b)
    || ToLowerAscii(ToUpperAscii(a)) == ToLowerAscii(ToUpperAscii(b))
  }

  /** String.equalsIgnoreCase on a non-null argument: both strings run out
      together and every pair of characters matches ignoring case, compared
      front to back. */
  predicate EqualsIgnoreCase(a: string, b: string) {
    if a == [] || b == [] then a == [] && b == []
    else CharEqualsIgnoreCase(a[0], b[0]) && EqualsIgnoreCase(a[1..], b[1..])
  }

  /** Upper-casing every character: an independent description of what
      equalsIgnoreCase identifies. */
  function UpperCase(s: string): (u: string)
    ensures |u| == |s|
    ensures forall i :: 0 <= i < |s| ==> u[i] == ToUpperAscii(s[i])
  {
    if s == [] then [] else [ToUpperAscii(s[0])] + UpperCase(s[1..])
  }

  lemma CharEqualsIgnoreCaseIff(a: char, b: char)
    ensures CharEqualsIgnoreCase(a, b) <==> ToUpperAscii(a) == ToUpperAscii(b)
  {
  }

  /** equalsIgnoreCase holds exactly when the lengths agree and the
      characters match ignoring case position by position. */
  lemma {:induction false} EqualsIgnoreCasePositionwise(a: string, b: string)
    ensures EqualsIgnoreCase(a, b) <==>
              |a| == |b| && forall i :: 0 <= i < |a| ==> CharEqualsIgnoreCase(a[i], b[i])
  {
    if a != [] && b != [] {
      EqualsIgnoreCasePositionwise(a[1..], b[1..]);
      if |a| == |b| && forall i :: 0 <= i < |a| ==> CharEqualsIgnoreCase(a[i], b[i]) {
        forall i | 0 <= i < |a| - 1 ensures CharEqualsIgnoreCase(a[1..][i], b[1..][i]) {
          assert a[1..][i] == a[i + 1];
        }
      }
      if EqualsIgnoreCase(a, b) {
        forall i | 0 <= i < |a| ensures CharEqualsIgnoreCase(a[i], b[i]) {
          if i > 0 {
            assert a[i] == a[1..][i - 1] && b[i] == b[1..][i - 1];
          }
        }
      }
    }
  }

  /** equalsIgnoreCase identifies exactly the strings with the same upper-case form. */
  lemma {:induction false} EqualsIgnoreCaseIff(a: string, b: string)
    ensures EqualsIgnoreCase(a, b) <==> UpperCase(a) == UpperCase(b)
  {
    if a != [] && b != [] {
      EqualsIgnoreCaseIff(a[1..], b[1..]);
      CharEqualsIgnoreCaseIff(a[0], b[0]);
      assert UpperCase(a) == [ToUpperAscii(a[0])] + UpperCase(a[1..]);
      assert UpperCase(b) == [ToUpperAscii(b[0])] + UpperCase(b[1..]);
      if UpperCase(a) == UpperCase(b) {
        assert UpperCase(a)[0] == UpperCase(b)[0];
        assert UpperCase(a)[1..] == UpperCase(b)[1..];
      }
    }
  }

  /** equalsIgnoreCase is an equivalence relation. */
  lemma EqualsIgnoreCaseEquivalence(a: string, b: string, c: string)
    ensures EqualsIgnoreCase(a, a)
    ensures EqualsIgnoreCase(a, b) ==> EqualsIgnoreCase(b, a)
    ensures EqualsIgnoreCase(a, b) && EqualsIgnoreCase(b, c) ==> EqualsIgnoreCase(a, c)
  {
    EqualsIgnoreCaseIff(a, a);
    EqualsIgnoreCaseIff(a, b);
    EqualsIgnoreCaseIff(b, a);
    EqualsIgnoreCaseIff(b, c);
    EqualsIgnoreCaseIff(a, c);
  }

  // ---------------------------------------------------------------------------
  // Integer.toString, Double.toString, LocalDate.toString
  // ---------------------------------------------------------------------------

  function DigitChar(d: nat): char
    requires d < 10
  {
    ('0' as int + d) as char
  }

  predicate IsDigit(c: char) {
    '0' <= c <= '9'
  }

  /** Decimal digits of n, most significant first, without leading zeros. */
  function Digits(n: nat): (s: string)
    ensures |s| >= 1
    ensures forall i :: 0 <= i < |s| ==> IsDigit(s[i])
    ensures |s| > 1 ==> s[0] != '0'
  {
    if n < 10 then [DigitChar(n)] else Digits(n / 10) + [DigitChar(n % 10)]
  }

  /** Reading a string of decimal digits back as a number. */
  function ParseDigits(s: string): int
    requires forall i :: 0 <= i < |s| ==> IsDigit(s[i])
  {
    if s == [] then 0
    else 10 * ParseDigits(s[..|s| - 1]) + (s[|s| - 1] as int - '0' as int)
  }

  lemma {:induction false} DigitsRoundTrip(n: nat)
    ensures ParseDigits(Digits(n)) == n
  {
    var s := Digits(n);
    if n >= 10 {
      DigitsRoundTrip(n / 10);
      assert s[..|s| - 1] == Digits(n / 10);
    }
  }

  /** Integer.toString: a minus sign exactly for negative numbers, then the
      decimal digits of the magnitude. */
  function IntText(n: int): (s: string)
    ensures |s| >= 1
    ensures s[0] == '-' <==> n < 0
    ensures n < 0 ==> (forall i :: 1 <= i < |s| ==> IsDigit(s[i])) && ParseDigits(s[1..]) == -n
    ensures n >= 0 ==> (forall i :: 0 <= i < |s| ==> IsDigit(s[i])) && ParseDigits(s) == n
    ensures n >= 0 && |s| > 1 ==> s[0] != '0'
    ensures n < 0 ==> |s| >= 2 && s[1] != '0'
  {
    DigitsRoundTrip(if n < 0 then -n else n);
    if n < 0 then
      var d := Digits(-n);
      assert |d| == 1 ==> d[..0] == [];
      "-" + d
    else Digits(n)
  }

  /** Double.toString of a whole number of euros below ten million, the only
      prices this application produces: the digits followed by ".0". */
  function PriceText(euros: int): string {
    IntText(euros) + ".0"
  }

  /** The year part of LocalDate.toString: four digits for years below 1000 in
      magnitude, a leading '+' for years after 9999. */
  function YearText(y: int): string {
    if -1000 < y < 1000 then
      if y < 0 then
        var t := IntText(y - 10000);
        t[..1] + t[2..]
      else
        Digits(y + 10000)[1..]
    else
      (if y > 9999 then "+" else "") + IntText(y)
  }

  /** LocalDate.toString: ISO-8601 year-month-day with two-digit month and day. */
  function DateText(d: LocalDate): string {
    YearText(d.year)
    + (if d.month < 10 then "-0" else "-") + IntText(d.month)
    + (if d.day < 10 then "-0" else "-") + IntText(d.day)
  }
}
