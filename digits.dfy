/** Digit extraction (`somenteNumeros`) and the small string helpers that
    mirror JavaScript's `slice` on strings. */
module Digits {

  /** JavaScript's `\d` class: the ASCII decimal digits only. */
  predicate IsDigit(c: char) {
    '0' <= c <= '9'
  }

  predicate AllDigits(s: string) {
    forall i :: 0 <= i < |s| ==> IsDigit(s[i])
  }

  /** `valor.replace(/\D+/g, "")`: every maximal run of non-digits is
      replaced by nothing, which is the same as keeping the digits in order. */
  function SomenteNumeros(valor: string): (r: string)
    ensures AllDigits(r)
    ensures |r| <= |valor|
  {
    if valor == [] then []
    else if IsDigit(valor[0]) then [valor[0]] + SomenteNumeros(valor[1..])
    else SomenteNumeros(valor[1..])
  }

  /** `s.slice(0, n)`: the first `n` characters, or all of `s` when it is shorter. */
  function Take(s: string, n: nat): (r: string)
    ensures |r| == if |s| <= n then |s| else n
    ensures r == s[..|r|]
  {
    if |s| <= n then s else s[..n]
  }

  /** `s.slice(a, b)` for `0 <= a <= b`: both ends are clamped to the length. */
  function Slice(s: string, a: nat, b: nat): (r: string)
    requires a <= b
    ensures |s| <= a ==> r == []
    ensures a <= |s| ==> r == Take(s[a..], b - a)
  {
    var lo := if a <= |s| then a else |s|;
    var hi := if b <= |s| then b else |s|;
    s[lo..hi]
  }

  /** Extraction distributes over concatenation: the digits of `a + b` are
      the digits of `a` followed by the digits of `b` (order is preserved). */
  lemma {:induction false} SomenteNumerosConcat(a: string, b: string)
    ensures SomenteNumeros(a + b) == SomenteNumeros(a) + SomenteNumeros(b)
  {
    if a == [] {
      assert a + b == b;
    } else {
      assert (a + b)[1..] == a[1..] + b;
      SomenteNumerosConcat(a[1..], b);
    }
  }

  /** A string made only of digits is returned unchanged. */
  lemma {:induction false} SomenteNumerosOfDigits(s: string)
    requires AllDigits(s)
    ensures SomenteNumeros(s) == s
  {
    if s != [] {
      SomenteNumerosOfDigits(s[1..]);
    }
  }

  /** A string with no digit at all extracts to the empty string. */
  lemma {:induction false} SomenteNumerosOfNonDigits(s: string)
    requires forall i :: 0 <= i < |s| ==> !IsDigit(s[i])
    ensures SomenteNumeros(s) == []
  {
    if s != [] {
      SomenteNumerosOfNonDigits(s[1..]);
    }
  }

  /** Punctuation around a string does not change its digits. */
  lemma SomenteNumerosAround(pre: string, mid: string, post: string)
    requires forall i :: 0 <= i < |pre| ==> !IsDigit(pre[i])
    requires forall i :: 0 <= i < |post| ==> !IsDigit(post[i])
    ensures SomenteNumeros(pre + mid + post) == SomenteNumeros(mid)
  {
    SomenteNumerosConcat(pre + mid, post);
    SomenteNumerosConcat(pre, mid);
    SomenteNumerosOfNonDigits(pre);
    SomenteNumerosOfNonDigits(post);
  }

  /** Extracting twice is extracting once. */
  lemma SomenteNumerosIdempotent(s: string)
    ensures SomenteNumeros(SomenteNumeros(s)) == SomenteNumeros(s)
  {
    SomenteNumerosOfDigits(SomenteNumeros(s));
  }

  /** A character survives extraction exactly when it occurs in the input
      and is a digit. */
  lemma {:induction false} SomenteNumerosKeepsExactlyDigits(s: string, c: char)
    ensures c in SomenteNumeros(s) <==> c in s && IsDigit(c)
  {
    if s != [] {
      SomenteNumerosKeepsExactlyDigits(s[1..], c);
      assert s == [s[0]] + s[1..];
    }
  }

  /** Truncating to `n` twice is truncating once. */
  lemma TakeTake(s: string, n: nat)
    ensures Take(Take(s, n), n) == Take(s, n)
  {
  }
}
