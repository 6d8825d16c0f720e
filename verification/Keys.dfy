/** The composite string keys `${number}/${text}` and `sorted pair joined by "/"`. */
module Keys {
  import opened Base

  function Decimal(n: nat): (s: string)
    ensures |s| > 0 && forall i :: 0 <= i < |s| ==> '0' <= s[i] <= '9'
  {
    (if n < 10 then [] else Decimal(n / 10)) + [('0' as int + n % 10) as char]
  }

  function DecimalValue(s: string): int {
    if s == [] then 0 else DecimalValue(s[..|s| - 1]) * 10 + (s[|s| - 1] as int - '0' as int)
  }

  lemma {:induction false} DecimalRoundTrip(n: nat)
    ensures DecimalValue(Decimal(n)) == n
  {
    var s := Decimal(n);
    if n < 10 {
      assert s[..|s| - 1] == [];
    } else {
      DecimalRoundTrip(n / 10);
      assert s[..|s| - 1] == Decimal(n / 10);
    }
  }

  /** `${number}/${text}` */
  function NumberKey(n: nat, text: string): string {
    Decimal(n) + "/" + text
  }

  lemma FirstSeparator(a: string, sep: char, b: string)
    requires sep !in a
    ensures (a + [sep] + b)[|a|] == sep
    ensures forall i :: 0 <= i < |a| ==> (a + [sep] + b)[i] != sep
  {}

  /** Text in front of a separator that it does not contain can be read back, and so can the text behind. */
  lemma SeparatorSplits(a: string, b: string, c: string, d: string, sep: char)
    requires sep !in a && sep !in c
    requires a + [sep] + b == c + [sep] + d
    ensures a == c && b == d
  {
    var s := a + [sep] + b;
    FirstSeparator(a, sep, b);
    FirstSeparator(c, sep, d);
    assert |a| == |c|;
    assert a == s[..|a|] == c;
    assert b == s[|a| + 1..] == d;
  }

  lemma SlashSplits(a: string, b: string, c: string, d: string)
    requires '/' !in a && '/' !in c
    requires a + "/" + b == c + "/" + d
    ensures a == c && b == d
  {
    SeparatorSplits(a, b, c, d, '/');
  }

  /** A key starting with a printed number can be read back: digits never contain the separator. */
  lemma NumberKeyInjective(n: nat, a: string, n': nat, a': string)
    ensures NumberKey(n, a) == NumberKey(n', a') <==> n == n' && a == a'
  {
    if NumberKey(n, a) == NumberKey(n', a') {
      SlashSplits(Decimal(n), a, Decimal(n'), a');
      DecimalRoundTrip(n);
      DecimalRoundTrip(n');
    }
  }

  /** `[a, b].sort().join("/")` */
  function PairKey(a: string, b: string): string {
    if StrLe(a, b) then a + "/" + b else b + "/" + a
  }

  /** Without a separator inside the names, a pair key names one unordered pair. */
  lemma PairKeyInjective(a: string, b: string, c: string, d: string)
    requires '/' !in a && '/' !in b && '/' !in c && '/' !in d
    ensures PairKey(a, b) == PairKey(c, d) <==> (a == c && b == d) || (a == d && b == c)
  {
    var lo, hi := if StrLe(a, b) then a else b, if StrLe(a, b) then b else a;
    var lo', hi' := if StrLe(c, d) then c else d, if StrLe(c, d) then d else c;
    if PairKey(a, b) == PairKey(c, d) {
      SlashSplits(lo, hi, lo', hi');
    }
    StrLeTotal(a, b);
    if StrLe(a, b) && StrLe(b, a) {
      StrLeAntisymmetric(a, b);
    }
  }
}
