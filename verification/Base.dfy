/** Vocabulary shared by every component: options, JavaScript text tests and the string order. */
module Base {

  datatype Option<+T> = None | Some(value: T)

  const MAX_SAFE_INTEGER: int := 9007199254740991
  const MAX_ARRAY_LENGTH: int := 4294967295

  predicate IsSafeInteger(x: int) {
    -MAX_SAFE_INTEGER <= x <= MAX_SAFE_INTEGER
  }

  /** The characters that `trim` removes (white space and line terminators). */
  predicate IsSpace(c: char) {
    c == ' ' || '\t' <= c <= '\r' || c == '\U{A0}' || c == '\U{1680}' || '\U{2000}' <= c <= '\U{200A}' ||
    c == '\U{2028}' || c == '\U{2029}' || c == '\U{202F}' || c == '\U{205F}' || c == '\U{3000}' || c == '\U{FEFF}'
  }

  /** `value.trim().length > 0` */
  predicate Nonblank(s: string) {
    exists i :: 0 <= i < |s| && !IsSpace(s[i])
  }

  predicate AllNonblank(texts: seq<string>) {
    forall i :: 0 <= i < |texts| ==> Nonblank(texts[i])
  }

  function Min(a: int, b: int): int {
    if b < a then b else a
  }

  function Max(a: int, b: int): int {
    if a < b then b else a
  }

  function Ceiling(x: real): int {
    -((-x).Floor)
  }

  predicate Distinct<T(==)>(s: seq<T>) {
    forall i, j :: 0 <= i < j < |s| ==> s[i] != s[j]
  }

  /** Lexicographic order on strings, the order of a default `sort` and of `<=`. */
  predicate StrLe(a: string, b: string) {
    if a == [] then true
    else if b == [] then false
    else if a[0] != b[0] then a[0] < b[0]
    else StrLe(a[1..], b[1..])
  }

  /** At the first difference the smaller character comes first. */
  lemma {:induction false} StrLeAtDifference(a: string, b: string, k: nat)
    requires k < |a| && k < |b| && a[..k] == b[..k] && a[k] != b[k]
    ensures StrLe(a, b) <==> a[k] < b[k]
  {
    if k > 0 {
      assert a[0] == a[..k][0] == b[..k][0] == b[0];
      assert a[1..][..k - 1] == a[..k][1..] == b[..k][1..] == b[1..][..k - 1];
      StrLeAtDifference(a[1..], b[1..], k - 1);
    }
  }

  /** A text comes before every text that continues it. */
  lemma {:induction false} StrLePrefix(a: string, b: string)
    requires a <= b
    ensures StrLe(a, b)
  {
    if a != [] {
      assert a[0] == b[0] && a[1..] <= b[1..];
      StrLePrefix(a[1..], b[1..]);
    }
  }

  lemma StrLeTotal(a: string, b: string)
    ensures StrLe(a, b) || StrLe(b, a)
  {}

  lemma {:induction false} StrLeAntisymmetric(a: string, b: string)
    requires StrLe(a, b) && StrLe(b, a)
    ensures a == b
  {
    if a != [] && b != [] {
      StrLeAntisymmetric(a[1..], b[1..]);
      assert a == [a[0]] + a[1..] && b == [b[0]] + b[1..];
    }
  }

  lemma {:induction false} StrLeTransitive(a: string, b: string, c: string)
    requires StrLe(a, b) && StrLe(b, c)
    ensures StrLe(a, c)
  {
    if a != [] && b != [] && c != [] && a[0] == b[0] == c[0] {
      StrLeTransitive(a[1..], b[1..], c[1..]);
    }
  }
}
