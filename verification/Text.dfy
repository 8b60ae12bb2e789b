/** The string operations the agent relies on: trimming, ASCII case folding, searching and decimal numbers. */
module Text {

  /** unicode.IsSpace */
  predicate IsSpace(c: char) {
    || '\t' <= c <= '\r' || c == ' ' || c == '\U{85}' || c == '\U{A0}' || c == '\U{1680}'
    || '\U{2000}' <= c <= '\U{200A}' || c == '\U{2028}' || c == '\U{2029}' || c == '\U{202F}' || c == '\U{205F}' || c == '\U{3000}'
  }

  function TrimLeft(s: string): string {
    if s != "" && IsSpace(s[0]) then TrimLeft(s[1..]) else s
  }

  function TrimRight(s: string): string {
    if s != "" && IsSpace(s[|s| - 1]) then TrimRight(s[..|s| - 1]) else s
  }

  /** strings.TrimSpace */
  function Trim(s: string): string {
    TrimRight(TrimLeft(s))
  }

  predicate IsTrimmed(s: string) {
    s == "" || (!IsSpace(s[0]) && !IsSpace(s[|s| - 1]))
  }

  lemma {:induction false} TrimRightFacts(s: string)
    ensures TrimRight(s) <= s
    ensures TrimRight(s) == "" || !IsSpace(TrimRight(s)[|TrimRight(s)| - 1])
  {
    if s != "" && IsSpace(s[|s| - 1]) {
      TrimRightFacts(s[..|s| - 1]);
      assert s[..|s| - 1] <= s;
    }
  }

  lemma {:induction false} TrimLeftFacts(s: string)
    ensures TrimLeft(s) == "" || !IsSpace(TrimLeft(s)[0])
  {
    if s != "" && IsSpace(s[0]) { TrimLeftFacts(s[1..]); }
  }

  /** Trimming leaves a trimmed string, and a trimmed string is left alone. */
  lemma TrimFacts(s: string)
    ensures IsTrimmed(Trim(s))
    ensures IsTrimmed(s) ==> Trim(s) == s
  {
    TrimLeftFacts(s);
    TrimRightFacts(TrimLeft(s));
  }

  /** Appending does not make a text blank. */
  lemma KeepsText(s: string, more: string)
    requires Trim(s) != ""
    ensures Trim(s + more) != ""
  {
    NotBlank(s);
    NotBlank(s + more);
    var i :| 0 <= i < |s| && !IsSpace(s[i]);
    assert (s + more)[i] == s[i];
  }

  lemma NotBlank(s: string)
    ensures Trim(s) != "" <==> exists i | 0 <= i < |s| :: !IsSpace(s[i])
  {
    NotBlankLeft(s);
    NotBlankRight(TrimLeft(s));
    TrimLeftFacts(s);
  }

  lemma {:induction false} NotBlankLeft(s: string)
    ensures TrimLeft(s) != "" <==> exists i | 0 <= i < |s| :: !IsSpace(s[i])
  {
    if s != "" && IsSpace(s[0]) {
      NotBlankLeft(s[1..]);
      if i :| 0 <= i < |s| && !IsSpace(s[i]) { assert s[1..][i - 1] == s[i]; }
    } else if s != "" {
      assert !IsSpace(s[0]);
    }
  }

  lemma {:induction false} NotBlankRight(s: string)
    ensures TrimRight(s) != "" <==> exists i | 0 <= i < |s| :: !IsSpace(s[i])
  {
    if s != "" && IsSpace(s[|s| - 1]) {
      NotBlankRight(s[..|s| - 1]);
      if i :| 0 <= i < |s| && !IsSpace(s[i]) { assert s[..|s| - 1][i] == s[i]; }
    } else if s != "" {
      assert !IsSpace(s[|s| - 1]);
    }
  }

  /** A character that is no white space, anywhere, is enough. */
  lemma Worded(s: string, i: nat)
    requires i < |s| && !IsSpace(s[i])
    ensures Trim(s) != ""
  {
    NotBlank(s);
  }

  // ---- Case folding and searching ------------------------------------------------------------

  function Lower(c: char): char {
    if 'A' <= c <= 'Z' then c - 'A' + 'a' else c
  }

  function ToLower(s: string): (t: string)
    ensures |t| == |s| && forall i | 0 <= i < |s| :: t[i] == Lower(s[i])
  {
    seq(|s|, i requires 0 <= i < |s| => Lower(s[i]))
  }

  predicate EqualFold(s: string, t: string) {
    ToLower(s) == ToLower(t)
  }

  /** strings.Contains */
  predicate Contains(s: string, part: string) {
    exists i | 0 <= i <= |s| :: part <= s[i..]
  }

  /** strings.Join */
  function Join(parts: seq<string>, separator: string): string {
    if parts == [] then "" else if |parts| == 1 then parts[0] else parts[0] + separator + Join(parts[1..], separator)
  }

  // ---- Decimal numbers -----------------------------------------------------------------------

  const DIGITS := "0123456789"

  function Digits(n: nat): (s: string)
    ensures s != "" && forall i | 0 <= i < |s| :: '0' <= s[i] <= '9'
    ensures n > 0 ==> s[0] != '0'
  {
    if n < 10 then [DIGITS[n]] else Digits(n / 10) + [DIGITS[n % 10]]
  }

  /** %d */
  function Decimal(n: int): (s: string)
    ensures s != "" && forall i | 0 <= i < |s| :: '0' <= s[i] <= '9' || s[i] == '-'
  {
    if n < 0 then "-" + Digits(-n) else Digits(n)
  }

  function Value(s: string): nat
    requires forall i | 0 <= i < |s| :: '0' <= s[i] <= '9'
  {
    if s == "" then 0 else 10 * Value(s[..|s| - 1]) + (s[|s| - 1] - '0') as nat
  }

  lemma DigitValue(d: nat)
    requires d < 10
    ensures (DIGITS[d] - '0') as nat == d
  {
  }

  lemma {:induction false} ValueOfDigits(n: nat)
    ensures Value(Digits(n)) == n
  {
    var all, last := Digits(n), n % 10;
    DigitValue(last);
    if n < 10 {
      assert all[..0] == "";
    } else {
      var front := Digits(n / 10);
      ValueOfDigits(n / 10);
      hide Digits;
      assert all[..|all| - 1] == front && all[|all| - 1] == DIGITS[last];
      assert Value(all) == 10 * Value(front) + last;
    }
  }

  lemma DecimalSign(n: int)
    ensures (Decimal(n)[0] == '-') == (n < 0)
    ensures n < 0 ==> Decimal(n)[1..] == Digits(-n)
  {
    if n < 0 { assert ("-" + Digits(-n))[1..] == Digits(-n); }
  }

  /** Different numbers print differently. */
  lemma DecimalInjective(m: int, n: int)
    requires Decimal(m) == Decimal(n)
    ensures m == n
  {
    DecimalSign(m);
    DecimalSign(n);
    hide Digits, Value;
    ValueOfDigits(if m < 0 then -m else m);
    ValueOfDigits(if n < 0 then -n else n);
  }
}
