/** The validators `validarCPF`, `validarCNPJ` and `validarDocumento`, written
    as the loops they are and proved to decide exactly the predicates of
    module Checksums. */
module Validators {
  import opened Digits
  import opened Checksums
  import opened Masks

  /** The loop `for (let i = 0; i < n; i++) sum += nums[i] * (top - i)` of
      `validarCPF`, run with `n = 9, top = 10` and with `n = 10, top = 11`. */
  method DescendingSum(nums: seq<nat>, top: nat, n: nat) returns (sum: nat)
    requires n <= |nums| && n <= top + 1
    ensures sum == WeightedSum(nums, DescendingWeights(top, n), n)
  {
    ghost var ws := DescendingWeights(top, n);
    sum := 0;
    for i := 0 to n
      invariant sum == WeightedSum(nums, ws, i)
    {
      assert ws[i] == top - i;
      sum := sum + nums[i] * (top - i);
    }
  }

  /** `validarCPF`: 11 digits after extraction, not one digit repeated, and
      both check digits computed by the two weighted loops. */
  method ValidarCpf(cpf: string) returns (ok: bool)
    ensures ok == IsValidCpf(cpf)
  {
    var s := SomenteNumeros(cpf);
    if |s| != 11 {
      return false;
    }
    if AllSame(s) {
      return false;
    }
    var nums := Values(s);
    var sum := DescendingSum(nums, 10, 9);
    var d1 := 11 - sum % 11;
    if d1 >= 10 {
      d1 := 0;
    }
    if d1 != nums[9] {
      return false;
    }
    sum := DescendingSum(nums, 11, 10);
    var d2 := 11 - sum % 11;
    if d2 >= 10 {
      d2 := 0;
    }
    return d2 == nums[10];
  }

  /** The closure `calc` of `validarCNPJ`: the first CNPJ check digit of the
      first 12 values, with the weight counter starting at 5. */
  method CnpjCalc(base: seq<nat>) returns (d: nat)
    requires |base| >= 12
    ensures d == CnpjCheckDigit(WeightedSum(base, CnpjWeights1, 12))
  {
    var sum: nat := 0;
    var pos := 5;
    for i := 0 to 12
      invariant pos == WeightAfter(5, i) && 2 <= pos <= 9
      invariant sum == WeightedSum(base, CnpjWeights1, i)
    {
      CnpjWeightsFromCounter(i);
      sum := sum + base[i] * pos;
      pos := pos - 1;
      if pos < 2 {
        pos := 9;
      }
      WeightAfterClosedForm(5, i + 1);
    }
    var r := sum % 11;
    d := if r < 2 then 0 else 11 - r;
  }

  /** `validarCNPJ`: 14 digits after extraction, not one digit repeated, the
      first check digit from `calc` and the second from the inline loop over
      13 values with the counter starting at 6. */
  method ValidarCnpj(cnpj: string) returns (ok: bool)
    ensures ok == IsValidCnpj(cnpj)
  {
    var s := SomenteNumeros(cnpj);
    if |s| != 14 {
      return false;
    }
    if AllSame(s) {
      return false;
    }
    var nums := Values(s);
    var base12 := nums[..12];
    var d1 := CnpjCalc(base12);
    WeightedSumPrefix(base12, nums, CnpjWeights1, 12);
    if d1 != nums[12] {
      return false;
    }
    var base13 := nums[..13];
    var sum: nat := 0;
    var pos := 6;
    for i := 0 to 13
      invariant pos == WeightAfter(6, i) && 2 <= pos <= 9
      invariant sum == WeightedSum(base13, CnpjWeights2, i)
    {
      CnpjWeightsFromCounter(i);
      sum := sum + base13[i] * pos;
      pos := pos - 1;
      if pos < 2 {
        pos := 9;
      }
      WeightAfterClosedForm(6, i + 1);
    }
    WeightedSumPrefix(base13, nums, CnpjWeights2, 13);
    var d2 := sum % 11;
    d2 := if d2 < 2 then 0 else 11 - d2;
    return d2 == nums[13];
  }

  /** `validarDocumento`: the digit count picks the rule; any other count is
      rejected. */
  method ValidarDocumento(doc: string) returns (ok: bool)
    ensures ok == IsValidDocument(doc)
    ensures ok ==> |SomenteNumeros(doc)| == 11 || |SomenteNumeros(doc)| == 14
  {
    var s := SomenteNumeros(doc);
    ValidityIgnoresPunctuation(doc);
    DocumentDigitCount(doc);
    if |s| == 11 {
      ok := ValidarCpf(s);
      return;
    }
    if |s| == 14 {
      ok := ValidarCnpj(s);
      return;
    }
    return false;
  }

  /** Masking a document as it is typed never changes its verdict while it
      has at most 14 digits, and a valid document stays valid once masked. */
  lemma MaskedDocumentValidity(valor: string)
    ensures |SomenteNumeros(valor)| <= 14 ==>
      (IsValidDocument(DocumentLayout(valor)) <==> IsValidDocument(valor))
    ensures IsValidDocument(valor) ==> IsValidDocument(DocumentLayout(valor))
  {
    DocumentLayoutDigits(valor);
    ValidityIgnoresPunctuation(valor);
    ValidityIgnoresPunctuation(DocumentLayout(valor));
    DocumentDigitCount(valor);
  }

  /** The masked form `11.222.333/0001-81` is a valid CNPJ. */
  lemma MaskedCnpjExample(p: string)
    requires p == "11.222.333/0001-81"
    ensures IsValidCnpj(p)
  {
    var s := "11222333000181";
    DocumentLayoutCnpjExample(s);
    CnpjValidExample(s);
    MaskedDocumentValidity(s);
    CnpjExampleValues(s);
    DocumentLayoutDigits(s);
    DocumentDigitCount(p);
  }

  /** The masked CPF `529.982.247-25` is a valid document. */
  lemma MaskedCpfValidExample(p: string)
    requires p == "529.982.247-25"
    ensures IsValidDocument(p)
  {
    var s := "52998224725";
    CpfDisplayDigits(s);
    CpfExampleGroups(s, p, "25");
    CpfValidExample(s);
    ValidityIgnoresPunctuation(p);
  }

  /** `529.982.247-26`, the same CPF with its last digit changed, is not a
      valid document. */
  lemma MaskedCpfWrongDigitExample(q: string)
    requires q == "529.982.247-26"
    ensures !IsValidDocument(q)
  {
    var s := "52998224726";
    CpfDisplayDigits(s);
    CpfExampleGroups(s, q, "26");
    CpfWrongDigitExample(s);
    ValidityIgnoresPunctuation(q);
    DocumentDigitCount(s);
  }

  /** Helper for the masked CPF examples: `529.982.247-` followed by the
      check digits is the CPF display of `529982247` followed by them. */
  lemma CpfExampleGroups(s: string, p: string, checks: string)
    requires |checks| == 2
    requires s == "529982247" + checks && p == "529.982.247-" + checks
    ensures s[..3] + "." + s[3..6] + "." + s[6..9] + "-" + s[9..] == p
  {
    assert s[..3] + "." + s[3..6] + "." + s[6..9] + "-" == "529.982.247-" by {
      assert s[..3] == "529" && s[3..6] == "982" && s[6..9] == "247";
    }
    assert s[9..] == checks;
  }

  /** Helper for the masked CPF examples: the digits of a CPF display are
      the CPF. */
  lemma CpfDisplayDigits(s: string)
    requires |s| == 11 && AllDigits(s)
    ensures SomenteNumeros(s[..3] + "." + s[3..6] + "." + s[6..9] + "-" + s[9..]) == s
  {
    SomenteNumerosOfDigits(s);
    DocumentLayoutCompleteCpf(s);
    DocumentLayoutDigits(s);
  }
}
