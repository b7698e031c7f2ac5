/**
 * The C string routines the sources lean on: `strlen`, `atoi`/`atol`, the `%u`
 * conversion and the tab splitter of restore.c, over strings as `seq<char>`.
 */
module Text {
  predicate NoChar(s: string, c: char) {
    forall i :: 0 <= i < |s| ==> s[i] != c
  }

  /** The characters `strlen` counts: everything before the first NUL. */
  function CStr(s: string): (r: string)
    ensures r <= s
    ensures NoChar(r, '\0')
    ensures |r| < |s| ==> s[|r|] == '\0'
  {
    if s == [] || s[0] == '\0' then [] else [s[0]] + CStr(s[1..])
  }

  predicate IsDigit(c: char) { '0' <= c <= '9' }

  /** `isspace` in the C locale: space, and tab through carriage return. */
  predicate IsSpace(c: char) { c == ' ' || ('\t' <= c <= '\r') }

  function DigitOf(c: char): nat
    requires IsDigit(c)
  {
    (c as int) - ('0' as int)
  }

  function DigitChar(d: nat): (c: char)
    requires d < 10
    ensures IsDigit(c) && DigitOf(c) == d
  {
    (('0' as int) + d) as char
  }

  predicate AllDigits(s: string) {
    forall i :: 0 <= i < |s| ==> IsDigit(s[i])
  }

  /** The longest prefix of `s` made of decimal digits. */
  function LeadingDigits(s: string): (r: string)
    ensures r <= s && AllDigits(r)
    ensures |r| < |s| ==> !IsDigit(s[|r|])
  {
    if s == [] || !IsDigit(s[0]) then [] else [s[0]] + LeadingDigits(s[1..])
  }

  /** The number a string of digits spells in base 10. */
  function DigitsValue(s: string): nat
    requires AllDigits(s)
  {
    if s == [] then 0 else DigitsValue(s[..|s| - 1]) * 10 + DigitOf(s[|s| - 1])
  }

  function SkipSpaces(s: string): (r: string)
    ensures |r| <= |s| && r == s[|s| - |r|..]
    ensures |r| > 0 ==> !IsSpace(r[0])
  {
    if s != [] && IsSpace(s[0]) then SkipSpaces(s[1..]) else s
  }

  /**
   * `atoi`/`atol`: leading white space, an optional sign, then the longest run
   * of digits; no digits gives 0. Unbounded: C leaves an overflowing result undefined.
   */
  function Atoi(s: string): int {
    var t := SkipSpaces(s);
    if |t| > 0 && t[0] == '-' then 0 - DigitsValue(LeadingDigits(t[1..]))
    else if |t| > 0 && t[0] == '+' then DigitsValue(LeadingDigits(t[1..]))
    else DigitsValue(LeadingDigits(t))
  }

  /** `printf("%u", n)`: the decimal digits of `n`, no sign, no leading zero. */
  function Decimal(n: nat): (s: string)
    ensures |s| > 0 && AllDigits(s)
    ensures NoChar(s, '\t') && NoChar(s, '\n') && NoChar(s, '\0')
    ensures s[0] != '#' && s[0] != '-' && s[0] != '+' && !IsSpace(s[0])
  {
    if n < 10 then [DigitChar(n)] else Decimal(n / 10) + [DigitChar(n % 10)]
  }

  lemma {:induction false} DecimalValue(n: nat)
    ensures DigitsValue(Decimal(n)) == n
  {
    if n >= 10 {
      var s := Decimal(n);
      assert s[..|s| - 1] == Decimal(n / 10);
      DecimalValue(n / 10);
    }
  }

  lemma {:induction false} LeadingDigitsOfDigits(s: string)
    requires AllDigits(s)
    ensures LeadingDigits(s) == s
  {
    if s != [] {
      LeadingDigitsOfDigits(s[1..]);
    }
  }

  /** Reading back what `%u` printed gives the number printed. */
  lemma AtoiDecimal(n: nat)
    ensures Atoi(Decimal(n)) == n
  {
    var s := Decimal(n);
    assert SkipSpaces(s) == s;
    LeadingDigitsOfDigits(s);
    DecimalValue(n);
  }

  /** Index of the first tab of `s`, or `|s|` when there is none (what `strstr(s, "\t")` finds). */
  function TabIndex(s: string): (i: nat)
    ensures i <= |s|
    ensures i < |s| ==> s[i] == '\t'
    ensures NoChar(s[..i], '\t')
  {
    if s == [] || s[0] == '\t' then 0 else 1 + TabIndex(s[1..])
  }

  /**
   * The fields restore.c's `process_line` visits: starting at position 0, a field
   * runs up to the next tab or the end, and the next one starts just after that
   * tab; nothing is visited once the position reaches the end of the line, so a
   * trailing empty field is not visited.
   */
  function TabFields(s: string): seq<string>
    decreases |s|
  {
    if s == [] then []
    else
      var i := TabIndex(s);
      if i == |s| then [s] else [s[..i]] + TabFields(s[i + 1..])
  }

  /** Tokens written one after another with a tab between neighbours, as save.c prints a line. */
  function JoinTabs(ts: seq<string>): string
    decreases |ts|
  {
    if |ts| == 0 then "" else if |ts| == 1 then ts[0] else ts[0] + "\t" + JoinTabs(ts[1..])
  }

  lemma {:induction false} TabIndexOfJoin(t: string, rest: string)
    requires NoChar(t, '\t')
    ensures TabIndex(t + "\t" + rest) == |t|
    ensures TabIndex(t) == |t|
  {
    if t != [] {
      assert (t + "\t" + rest)[1..] == t[1..] + "\t" + rest;
      TabIndexOfJoin(t[1..], rest);
    }
  }

  /** Splitting on tabs undoes `JoinTabs` when no token holds a tab and the last is not empty. */
  lemma {:induction false} SplitJoin(ts: seq<string>)
    requires |ts| > 0 && ts[|ts| - 1] != []
    requires forall k :: 0 <= k < |ts| ==> NoChar(ts[k], '\t')
    ensures TabFields(JoinTabs(ts)) == ts
    decreases |ts|
  {
    if |ts| == 1 {
      TabIndexOfJoin(ts[0], "");
    } else {
      var s := JoinTabs(ts);
      var rest := JoinTabs(ts[1..]);
      assert s == ts[0] + "\t" + rest;
      TabIndexOfJoin(ts[0], rest);
      assert s[..|ts[0]|] == ts[0];
      assert s[|ts[0]| + 1..] == rest;
      SplitJoin(ts[1..]);
      assert rest != [] by {
        JoinNonEmpty(ts[1..]);
      }
    }
  }

  lemma {:induction false} JoinNonEmpty(ts: seq<string>)
    requires |ts| > 0 && ts[|ts| - 1] != []
    ensures JoinTabs(ts) != []
    decreases |ts|
  {
    if |ts| > 1 {
      JoinNonEmpty(ts[1..]);
    }
  }

  lemma {:induction false} JoinNoChar(ts: seq<string>, c: char)
    requires c != '\t'
    requires forall k :: 0 <= k < |ts| ==> NoChar(ts[k], c)
    ensures NoChar(JoinTabs(ts), c)
    decreases |ts|
  {
    if |ts| > 1 {
      JoinNoChar(ts[1..], c);
    }
  }

  /** A further token printed behind a line. */
  lemma {:induction false} JoinSnoc(ts: seq<string>, t: string)
    requires |ts| > 0
    ensures JoinTabs(ts + [t]) == JoinTabs(ts) + "\t" + t
    decreases |ts|
  {
    if |ts| == 1 {
      assert (ts + [t])[1..] == [t];
    } else {
      assert (ts + [t])[1..] == ts[1..] + [t];
      JoinSnoc(ts[1..], t);
    }
  }

  /** `strlen` of a string without NUL is its length. */
  lemma {:induction false} CStrWhole(s: string)
    requires NoChar(s, '\0')
    ensures CStr(s) == s
  {
    if s != [] {
      CStrWhole(s[1..]);
    }
  }

  /** A joined line begins with its first token. */
  lemma {:induction false} JoinHead(ts: seq<string>)
    requires |ts| > 0 && ts[0] != []
    ensures JoinTabs(ts) != [] && JoinTabs(ts)[0] == ts[0][0]
  {
  }

  lemma NoCharConcat(a: string, b: string, c: char)
    requires NoChar(a, c) && NoChar(b, c)
    ensures NoChar(a + b, c)
  {
    forall i | 0 <= i < |a + b|
      ensures (a + b)[i] != c
    {
      if i >= |a| {
        assert (a + b)[i] == b[i - |a|];
      }
    }
  }
}
