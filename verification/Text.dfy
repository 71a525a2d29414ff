/** The vocabulary of the id grammars: runs of digits, prefixes, and what the dot of a regular expression matches. */
module Text {
  /** Decimal digits of a position or a count, as a template prints it. */
  function Decimal(n: nat): string {
    if n < 10 then ["0123456789"[n]] else Decimal(n / 10) + ["0123456789"[n % 10]]
  }

  predicate Digit(c: char) { '0' <= c <= '9' }

  predicate Digits(s: string) { s != "" && forall i | 0 <= i < |s| :: Digit(s[i]) }

  /** What the dot of a regular expression does not match. */
  predicate LineEnd(c: char) { c == '\n' || c == '\r' || c as int == 0x2028 || c as int == 0x2029 }

  predicate Clean(s: string) { forall i | 0 <= i < |s| :: !LineEnd(s[i]) }

  /** `Number` of a run of digits. */
  function NumberOf(s: string): nat
    requires forall i | 0 <= i < |s| :: Digit(s[i])
  {
    if s == "" then 0 else assert Digit(s[|s| - 1]); 10 * NumberOf(s[..|s| - 1]) + (s[|s| - 1] as int - '0' as int)
  }

  lemma {:induction false} DecimalRound(n: nat)
    ensures Digits(Decimal(n)) && NumberOf(Decimal(n)) == n
  {
    var d := "0123456789"[n % 10];
    assert Digit(d) && d as int - '0' as int == n % 10;
    if n < 10 {
      assert Decimal(n)[..0] == "";
    } else {
      DecimalRound(n / 10);
      assert Decimal(n) == Decimal(n / 10) + [d];
      assert Decimal(n)[..|Decimal(n)| - 1] == Decimal(n / 10);
    }
  }

  lemma DecimalInjective(m: nat, n: nat)
    requires Decimal(m) == Decimal(n)
    ensures m == n
  {
    DecimalRound(m);
    DecimalRound(n);
  }

  /** The length of the leading run of digits. */
  function Span(s: string): (n: nat)
    ensures n <= |s| && (forall i | 0 <= i < n :: Digit(s[i])) && (n < |s| ==> !Digit(s[n]))
  {
    if s == "" || !Digit(s[0]) then 0 else Span(s[1..]) + 1
  }

  lemma SpanIs(s: string, n: nat)
    requires n <= |s| && (forall i | 0 <= i < n :: Digit(s[i])) && (n < |s| ==> !Digit(s[n]))
    ensures Span(s) == n
  {
  }

  predicate Starts(s: string, prefix: string) { |prefix| <= |s| && s[..|prefix|] == prefix }

  predicate Ends(s: string, suffix: string) { |suffix| <= |s| && s[|s| - |suffix|..] == suffix }
}
