/** The Receita Federal modulo-11 check-digit rules for CPF (11 digits) and
    CNPJ (14 digits), stated as functions. The imperative validators in
    module Validators are proved to compute exactly these predicates. */
module Checksums {
  import opened Digits

  /** `parseInt(c, 10)` on a single digit character. */
  function DigitValue(c: char): nat
    requires IsDigit(c)
  {
    c as int - '0' as int
  }

  /** `s.split("").map((n) => parseInt(n, 10))` on a string of digits. */
  function Values(s: string): (v: seq<nat>)
    requires AllDigits(s)
    ensures |v| == |s|
    ensures forall i :: 0 <= i < |s| ==> v[i] == DigitValue(s[i]) <= 9
  {
    seq(|s|, i requires 0 <= i < |s| => DigitValue(s[i]))
  }

  /** The test `/^(\d)\1{n}$/` on a string of `n + 1` digits: every
      character repeats the first one. */
  predicate AllSame(s: string) {
    forall i :: 0 <= i < |s| ==> s[i] == s[0]
  }

  /** The sum of `xs[i] * ws[i]` over the first `n` positions. */
  function WeightedSum(xs: seq<nat>, ws: seq<nat>, n: nat): nat
    requires n <= |xs| && n <= |ws|
  {
    if n == 0 then 0 else WeightedSum(xs, ws, n - 1) + xs[n - 1] * ws[n - 1]
  }

  /** `n` weights counting down from `top`: `top, top - 1, ..., top - n + 1`. */
  function DescendingWeights(top: nat, n: nat): (ws: seq<nat>)
    requires n <= top + 1
    ensures |ws| == n
  {
    seq(n, i requires 0 <= i < n => top - i)
  }

  /** The CNPJ weights of the Receita Federal: 5,4,3,2,9,8,7,6,5,4,3,2 for
      the first check digit and 6,5,4,3,2,9,8,7,6,5,4,3,2 for the second. */
  const CnpjWeights1: seq<nat> := [5, 4, 3, 2, 9, 8, 7, 6, 5, 4, 3, 2]
  const CnpjWeights2: seq<nat> := [6, 5, 4, 3, 2, 9, 8, 7, 6, 5, 4, 3, 2]

  /* ----- check digits ----- */

  /** The CPF rule `11 - sum % 11`, with 10 and 11 mapped to 0. The result
      is the digit that makes `sum + d` a multiple of 11, or 0 when no digit
      does. */
  function CpfCheckDigit(sum: nat): (d: nat)
    ensures d <= 9
    ensures (sum + d) % 11 == 0 || (sum % 11 == 1 && d == 0)
  {
    var d := 11 - sum % 11;
    if d >= 10 then 0 else d
  }

  /** The CNPJ rule `d < 2 ? 0 : 11 - d` with `d = sum % 11`. It is the same
      function as the CPF rule, written differently. */
  function CnpjCheckDigit(sum: nat): (d: nat)
    ensures d == CpfCheckDigit(sum)
  {
    var d := sum % 11;
    if d < 2 then 0 else 11 - d
  }

  /** The check digit is characterised by the multiple-of-11 condition:
      both directions. */
  lemma CheckDigitCharacterised(sum: nat, c: nat)
    ensures c == CpfCheckDigit(sum) <==> c <= 9 && ((sum + c) % 11 == 0 || (sum % 11 == 1 && c == 0))
  {
    var r := sum % 11;
    assert sum == 11 * (sum / 11) + r;
    if c <= 9 && (sum + c) % 11 == 0 {
      assert (r + c) % 11 == 0;
      assert c == 0 || c == 11 - r;
    }
  }

  /** The textbook form of the CPF rule, `(10 * sum) % 11` with 10 mapped to 0,
      gives the same digit. */
  lemma CheckDigitTimesTen(sum: nat)
    ensures CpfCheckDigit(sum) == ((10 * sum) % 11) % 10
  {
    var q, r := sum / 11, sum % 11;
    assert sum == 11 * q + r;
    if r == 0 {
      ModElevenOf(10 * q, 0);
      assert 10 * sum == 11 * (10 * q);
    } else {
      ModElevenOf(10 * q + r - 1, 11 - r);
      assert 10 * sum == 11 * (10 * q + r - 1) + (11 - r);
    }
  }

  /** Helper for CheckDigitTimesTen: the remainder of `11 * m + c`. */
  lemma ModElevenOf(m: int, c: int)
    requires 0 <= c < 11
    ensures (11 * m + c) % 11 == c
  {
  }

  /* ----- the CNPJ weight counter ----- */

  /** One step of the loop counter `pos--; if (pos < 2) pos = 9`. */
  function NextWeight(pos: int): int {
    if pos - 1 < 2 then 9 else pos - 1
  }

  /** The counter after `i` steps from `start`. */
  function WeightAfter(start: int, i: nat): int {
    if i == 0 then start else NextWeight(WeightAfter(start, i - 1))
  }

  /** Started anywhere in 2..9, the counter cycles through 9..2 and never
      leaves that range: after `i` steps it is `2 + (start - 2 - i) mod 8`. */
  lemma {:induction false} WeightAfterClosedForm(start: int, i: nat)
    requires 2 <= start <= 9
    ensures WeightAfter(start, i) == 2 + (start - 2 - i) % 8
    ensures 2 <= WeightAfter(start, i) <= 9
  {
    if i > 0 {
      WeightAfterClosedForm(start, i - 1);
      var k := (start - 2 - (i - 1)) % 8;
      assert WeightAfter(start, i - 1) == 2 + k;
      if k == 0 {
        assert (start - 2 - i) % 8 == 7;
      } else {
        assert (start - 2 - i) % 8 == k - 1;
      }
    }
  }

  /** The counters started at 5 and at 6 produce exactly the two CNPJ weight
      tables. */
  lemma CnpjWeightsFromCounter(i: nat)
    ensures i < 12 ==> CnpjWeights1[i] == WeightAfter(5, i)
    ensures i < 13 ==> CnpjWeights2[i] == WeightAfter(6, i)
  {
    WeightAfterClosedForm(5, i);
    WeightAfterClosedForm(6, i);
  }

  /* ----- validity ----- */

  /** Both CPF check digits (positions 9 and 10) match, with weights 10..2
      over the first 9 digits and 11..2 over the first 10. */
  predicate CpfCheckDigitsMatch(s: string)
    requires |s| == 11 && AllDigits(s)
  {
    var v := Values(s);
    && CpfCheckDigit(WeightedSum(v, DescendingWeights(10, 9), 9)) == v[9]
    && CpfCheckDigit(WeightedSum(v, DescendingWeights(11, 10), 10)) == v[10]
  }

  /** Both CNPJ check digits (positions 12 and 13) match. */
  predicate CnpjCheckDigitsMatch(s: string)
    requires |s| == 14 && AllDigits(s)
  {
    var v := Values(s);
    && CnpjCheckDigit(WeightedSum(v, CnpjWeights1, 12)) == v[12]
    && CnpjCheckDigit(WeightedSum(v, CnpjWeights2, 13)) == v[13]
  }

  /** A valid CPF: exactly 11 digits once punctuation is removed, not all the
      same digit, and both check digits right. */
  predicate IsValidCpf(cpf: string) {
    var s := SomenteNumeros(cpf);
    |s| == 11 && !AllSame(s) && CpfCheckDigitsMatch(s)
  }

  /** A valid CNPJ: exactly 14 digits once punctuation is removed, not all
      the same digit, and both check digits right. */
  predicate IsValidCnpj(cnpj: string) {
    var s := SomenteNumeros(cnpj);
    |s| == 14 && !AllSame(s) && CnpjCheckDigitsMatch(s)
  }

  /** A valid document is a valid CPF or a valid CNPJ. */
  predicate IsValidDocument(doc: string) {
    IsValidCpf(doc) || IsValidCnpj(doc)
  }

  /** Punctuation never matters: validating the extracted digits gives the
      same answer as validating the input. */
  lemma ValidityIgnoresPunctuation(doc: string)
    ensures IsValidCpf(SomenteNumeros(doc)) == IsValidCpf(doc)
    ensures IsValidCnpj(SomenteNumeros(doc)) == IsValidCnpj(doc)
    ensures IsValidDocument(SomenteNumeros(doc)) == IsValidDocument(doc)
  {
    SomenteNumerosIdempotent(doc);
  }

  /** Only 11- and 14-digit inputs can be valid documents, and the digit
      count alone decides which rule applies. */
  lemma DocumentDigitCount(doc: string)
    ensures |SomenteNumeros(doc)| != 11 && |SomenteNumeros(doc)| != 14 ==> !IsValidDocument(doc)
    ensures |SomenteNumeros(doc)| == 11 ==> (IsValidDocument(doc) <==> IsValidCpf(doc))
    ensures |SomenteNumeros(doc)| == 14 ==> (IsValidDocument(doc) <==> IsValidCnpj(doc))
  {
  }

  /* ----- repeated digits ----- */

  /** A weighted sum over a constant sequence is that constant times the sum
      of the weights. */
  lemma {:induction false} WeightedSumOfConstant(xs: seq<nat>, ws: seq<nat>, n: nat, k: nat)
    requires n <= |xs| && n <= |ws|
    requires forall i :: 0 <= i < n ==> xs[i] == k
    ensures WeightedSum(xs, ws, n) == k * SumOf(ws, n)
  {
    if n > 0 {
      WeightedSumOfConstant(xs, ws, n - 1, k);
    }
  }

  /** The sum of the first `n` weights. */
  function SumOf(ws: seq<nat>, n: nat): nat
    requires n <= |ws|
  {
    if n == 0 then 0 else SumOf(ws, n - 1) + ws[n - 1]
  }

  /** A weighted sum reads only the first `n` positions. */
  lemma {:induction false} WeightedSumPrefix(xs: seq<nat>, ys: seq<nat>, ws: seq<nat>, n: nat)
    requires n <= |xs| && n <= |ys| && n <= |ws|
    requires forall i :: 0 <= i < n ==> xs[i] == ys[i]
    ensures WeightedSum(xs, ws, n) == WeightedSum(ys, ws, n)
  {
    if n > 0 {
      WeightedSumPrefix(xs, ys, ws, n - 1);
    }
  }

  /** The descending weights sum to `n * top - n * (n - 1) / 2`. */
  lemma {:induction false} SumOfDescendingWeights(top: nat, n: nat)
    requires n <= top + 1
    ensures 2 * SumOf(DescendingWeights(top, n), n) == 2 * n * top - n * (n - 1)
  {
    if n > 0 {
      var m := n - 1;
      SumOfDescendingWeights(top, m);
      WeightsPrefix(top, n);
      assert DescendingWeights(top, n)[m] == top - m;
      DescendingStep(top, m, SumOf(DescendingWeights(top, m), m));
    }
  }

  /** Helper for SumOfDescendingWeights: the closed form survives adding the
      next weight `top - m`. */
  lemma DescendingStep(top: int, m: int, s: int)
    requires 2 * s == 2 * m * top - m * (m - 1)
    ensures 2 * (s + (top - m)) == 2 * (m + 1) * top - (m + 1) * m
  {
    assert 2 * (m + 1) * top == 2 * m * top + 2 * top;
    assert (m + 1) * m == m * (m - 1) + 2 * m;
  }

  /** Helper for SumOfDescendingWeights: a shorter run of descending weights
      is a prefix of a longer one, and sums read only that prefix. */
  lemma WeightsPrefix(top: nat, n: nat)
    requires 0 < n <= top + 1
    ensures SumOf(DescendingWeights(top, n), n - 1) == SumOf(DescendingWeights(top, n - 1), n - 1)
  {
    SumOfPrefix(DescendingWeights(top, n), DescendingWeights(top, n - 1), n - 1);
  }

  /** A sum reads only the first `n` positions. */
  lemma {:induction false} SumOfPrefix(ws: seq<nat>, vs: seq<nat>, n: nat)
    requires n <= |ws| && n <= |vs|
    requires forall i :: 0 <= i < n ==> ws[i] == vs[i]
    ensures SumOf(ws, n) == SumOf(vs, n)
  {
    if n > 0 {
      SumOfPrefix(ws, vs, n - 1);
    }
  }

  /** The totals of the four weight tables. */
  lemma WeightTotals()
    ensures SumOf(DescendingWeights(10, 9), 9) == 54
    ensures SumOf(DescendingWeights(11, 10), 10) == 65
    ensures SumOf(CnpjWeights1, 12) == 58
    ensures SumOf(CnpjWeights2, 13) == 64
  {
    SumOfDescendingWeights(10, 9);
    SumOfDescendingWeights(11, 10);
    assert SumOf(CnpjWeights1, 4) == 14;
    assert SumOf(CnpjWeights1, 8) == 44;
    assert SumOf(CnpjWeights2, 5) == 20;
    assert SumOf(CnpjWeights2, 9) == 50;
  }

  /** Eleven copies of one digit always pass both CPF check digits, so the
      repeated-digit test is what rejects `11111111111` and its kind. */
  lemma RepeatedDigitsPassCpfCheckDigits(s: string)
    requires |s| == 11 && AllDigits(s) && AllSame(s)
    ensures CpfCheckDigitsMatch(s)
  {
    var v := Values(s);
    var k := v[0];
    assert forall i :: 0 <= i < 11 ==> v[i] == k;
    var sum1 := WeightedSum(v, DescendingWeights(10, 9), 9);
    var sum2 := WeightedSum(v, DescendingWeights(11, 10), 10);
    WeightTotals();
    assert sum1 == 54 * k by {
      WeightedSumOfConstant(v, DescendingWeights(10, 9), 9, k);
    }
    assert sum2 == 65 * k by {
      WeightedSumOfConstant(v, DescendingWeights(11, 10), 10, k);
    }
    RepeatedCpfCheckDigit(sum1, k, 5 * (k as int) - 1);
    RepeatedCpfCheckDigit(sum2, k, 6 * (k as int) - 1);
    assert v[9] == k && v[10] == k;
  }

  /** Helper for RepeatedDigitsPassCpfCheckDigits: a sum congruent to `-k`
      modulo 11 has check digit `k`. */
  lemma RepeatedCpfCheckDigit(sum: nat, k: nat, q: int)
    requires k <= 9 && sum == 11 * q + (11 - k)
    ensures CpfCheckDigit(sum) == k
  {
    if k == 0 {
      assert sum == 11 * (q + 1);
      assert sum % 11 == 0;
    } else {
      assert sum % 11 == 11 - k;
    }
  }

  /** Among fourteen copies of one digit, only `00000000000000` passes the
      CNPJ check digits; the repeated-digit test is what rejects it. */
  lemma RepeatedDigitsCnpjCheckDigits(s: string)
    requires |s| == 14 && AllDigits(s) && AllSame(s)
    ensures CnpjCheckDigitsMatch(s) <==> s[0] == '0'
  {
    var v := Values(s);
    var k := v[0];
    assert forall i :: 0 <= i < 14 ==> v[i] == k;
    var sum1 := WeightedSum(v, CnpjWeights1, 12);
    var sum2 := WeightedSum(v, CnpjWeights2, 13);
    WeightTotals();
    assert sum1 == 58 * k by {
      WeightedSumOfConstant(v, CnpjWeights1, 12, k);
    }
    assert sum2 == 64 * k by {
      WeightedSumOfConstant(v, CnpjWeights2, 13, k);
    }
    assert CnpjCheckDigit(sum1) == k <==> k == 0 by {
      assert sum1 == 11 * (5 * k) + 3 * k;
    }
    assert k == 0 ==> sum2 == 0;
    assert v[12] == k && v[13] == k;
    assert s[0] == '0' <==> k == 0;
  }
  /* ----- worked examples ----- */

  /** `52998224725` is a valid CPF: the weighted sums are 295 and 347, giving
      check digits 2 and 5. */
  lemma CpfValidExample(s: string)
    requires s == "52998224725"
    ensures IsValidCpf(s)
  {
    CpfExampleValues(s, '5');
    CpfExampleSums(Values(s));
    assert s[1] != s[0];
  }

  /** `52998224726`, the same CPF with its last digit changed, is invalid. */
  lemma CpfWrongDigitExample(s: string)
    requires s == "52998224726"
    ensures !IsValidCpf(s)
  {
    CpfExampleValues(s, '6');
    CpfExampleSums(Values(s));
  }

  /** Helper for the CPF examples: the digits of `5299822472` followed by
      one more digit. */
  lemma CpfExampleValues(s: string, last: char)
    requires IsDigit(last) && s == "5299822472" + [last]
    ensures AllDigits(s) && SomenteNumeros(s) == s
    ensures Values(s) == [5, 2, 9, 9, 8, 2, 2, 4, 7, 2, DigitValue(last)]
  {
    SomenteNumerosOfDigits(s);
  }

  /** Helper for the CPF examples: the two weighted sums, step by step. */
  lemma CpfExampleSums(v: seq<nat>)
    requires |v| == 11 && v[..10] == [5, 2, 9, 9, 8, 2, 2, 4, 7, 2]
    ensures WeightedSum(v, DescendingWeights(10, 9), 9) == 295
    ensures WeightedSum(v, DescendingWeights(11, 10), 10) == 347
  {
    var w1, w2 := DescendingWeights(10, 9), DescendingWeights(11, 10);
    assert w1 == [10, 9, 8, 7, 6, 5, 4, 3, 2];
    assert w2 == [11, 10, 9, 8, 7, 6, 5, 4, 3, 2];
    assert forall i :: 0 <= i < 10 ==> v[i] == v[..10][i];
    assert WeightedSum(v, w1, 1) == 50;
    assert WeightedSum(v, w1, 2) == 68;
    assert WeightedSum(v, w1, 3) == 140;
    assert WeightedSum(v, w1, 4) == 203;
    assert WeightedSum(v, w1, 5) == 251;
    assert WeightedSum(v, w1, 6) == 261;
    assert WeightedSum(v, w1, 7) == 269;
    assert WeightedSum(v, w1, 8) == 281;
    assert WeightedSum(v, w2, 1) == 55;
    assert WeightedSum(v, w2, 2) == 75;
    assert WeightedSum(v, w2, 3) == 156;
    assert WeightedSum(v, w2, 4) == 228;
    assert WeightedSum(v, w2, 5) == 284;
    assert WeightedSum(v, w2, 6) == 296;
    assert WeightedSum(v, w2, 7) == 306;
    assert WeightedSum(v, w2, 8) == 322;
    assert WeightedSum(v, w2, 9) == 343;
  }
  /** Eleven ones: the check digits pass, the repeated-digit test rejects it. */
  lemma CpfRepeatedExample(s: string)
    requires s == "11111111111"
    ensures !IsValidCpf(s)
  {
    SomenteNumerosOfDigits(s);
    assert AllSame(s);
  }

  /** `11222333000181` is a valid CNPJ: the weighted sums are 102 and 120,
      giving check digits 8 and 1. */
  lemma CnpjValidExample(s: string)
    requires s == "11222333000181"
    ensures IsValidCnpj(s)
  {
    CnpjExampleValues(s);
    CnpjExampleSums(Values(s));
    assert s[2] != s[0];
  }

  /** Fourteen zeros pass the CNPJ check digits but are rejected as a
      repeated digit. */
  lemma CnpjZerosExample(s: string)
    requires s == "00000000000000"
    ensures !IsValidCnpj(s)
  {
    SomenteNumerosOfDigits(s);
    assert AllSame(s);
  }

  /** Helper for CnpjValidExample: the digits of `11222333000181`. */
  lemma CnpjExampleValues(s: string)
    requires s == "11222333000181"
    ensures AllDigits(s) && SomenteNumeros(s) == s
    ensures Values(s) == [1, 1, 2, 2, 2, 3, 3, 3, 0, 0, 0, 1, 8, 1]
  {
    SomenteNumerosOfDigits(s);
  }

  /** Helper for CnpjValidExample: the two weighted sums, step by step. */
  lemma CnpjExampleSums(v: seq<nat>)
    requires v == [1, 1, 2, 2, 2, 3, 3, 3, 0, 0, 0, 1, 8, 1]
    ensures WeightedSum(v, CnpjWeights1, 12) == 102
    ensures WeightedSum(v, CnpjWeights2, 13) == 120
  {
    assert WeightedSum(v, CnpjWeights1, 1) == 5;
    assert WeightedSum(v, CnpjWeights1, 2) == 9;
    assert WeightedSum(v, CnpjWeights1, 3) == 15;
    assert WeightedSum(v, CnpjWeights1, 4) == 19;
    assert WeightedSum(v, CnpjWeights1, 5) == 37;
    assert WeightedSum(v, CnpjWeights1, 6) == 61;
    assert WeightedSum(v, CnpjWeights1, 7) == 82;
    assert WeightedSum(v, CnpjWeights1, 8) == 100;
    assert WeightedSum(v, CnpjWeights1, 9) == 100;
    assert WeightedSum(v, CnpjWeights1, 10) == 100;
    assert WeightedSum(v, CnpjWeights1, 11) == 100;
    assert WeightedSum(v, CnpjWeights2, 1) == 6;
    assert WeightedSum(v, CnpjWeights2, 2) == 11;
    assert WeightedSum(v, CnpjWeights2, 3) == 19;
    assert WeightedSum(v, CnpjWeights2, 4) == 25;
    assert WeightedSum(v, CnpjWeights2, 5) == 29;
    assert WeightedSum(v, CnpjWeights2, 6) == 56;
    assert WeightedSum(v, CnpjWeights2, 7) == 80;
    assert WeightedSum(v, CnpjWeights2, 8) == 101;
    assert WeightedSum(v, CnpjWeights2, 9) == 101;
    assert WeightedSum(v, CnpjWeights2, 10) == 101;
    assert WeightedSum(v, CnpjWeights2, 11) == 101;
    assert WeightedSum(v, CnpjWeights2, 12) == 104;
  }
}
