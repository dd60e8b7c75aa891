/** The three keystroke masks: CPF/CNPJ, Brazilian phone number and CEP.
    Each extracts the digits, truncates them, and writes each separator
    only once the group after it has begun. */
module Masks {
  import opened Digits
  import opened Layout

  // CPF 000.000.000-00
  const CpfGroups: seq<nat> := [3, 3, 3, 2]
  const CpfSeparators: string := "..-"
  // CNPJ 00.000.000/0000-00
  const CnpjGroups: seq<nat> := [2, 3, 3, 4, 2]
  const CnpjSeparators: string := "../-"
  // CEP 00000-000
  const CepGroups: seq<nat> := [5, 3]

  /* ----- document mask ----- */

  /** The display the document mask must produce: at most 14 digits, in the
      CPF layout when there are at most 11 of them and in the CNPJ layout
      otherwise. */
  function DocumentLayout(valor: string): string {
    var d := Take(SomenteNumeros(valor), 14);
    if |d| <= 11 then Render(d, CpfGroups, CpfSeparators)
    else Render(d, CnpjGroups, CnpjSeparators)
  }

  /** `maskCpfCnpj`: slices the digits into parts and appends each non-empty
      part behind its separator. */
  method MaskCpfCnpj(valor: string) returns (out: string)
    ensures out == DocumentLayout(valor)
  {
    var digits := Take(SomenteNumeros(valor), 14);
    if |digits| <= 11 {
      var part1 := Slice(digits, 0, 3);
      var part2 := Slice(digits, 3, 6);
      var part3 := Slice(digits, 6, 9);
      var part4 := Slice(digits, 9, 11);
      out := part1;
      if part2 != "" { out := out + "." + part2; }
      if part3 != "" { out := out + "." + part3; }
      if part4 != "" { out := out + "-" + part4; }
      if |digits| <= 3 {
      } else if |digits| <= 6 {
        CpfRenderTwoGroups(digits);
      } else if |digits| <= 9 {
        CpfRenderThreeGroups(digits);
      } else {
        CpfRenderFourGroups(digits);
      }
    } else {
      var part1 := Slice(digits, 0, 2);
      var part2 := Slice(digits, 2, 5);
      var part3 := Slice(digits, 5, 8);
      var part4 := Slice(digits, 8, 12);
      var part5 := Slice(digits, 12, 14);
      out := part1;
      if part2 != "" { out := out + "." + part2; }
      if part3 != "" { out := out + "." + part3; }
      if part4 != "" { out := out + "/" + part4; }
      if part5 != "" { out := out + "-" + part5; }
      if |digits| == 12 {
        CnpjRenderFourGroups(digits);
      } else {
        CnpjRenderFiveGroups(digits);
      }
    }
  }

  /* The renderings for each number of digits, written out group by group. */

  lemma CpfRenderTwoGroups(d: string)
    requires 3 < |d| <= 6
    ensures Render(d, CpfGroups, CpfSeparators) == d[..3] + "." + d[3..]
  {
    assert Render(d[3..], [3, 3, 2], ".-") == d[3..];
    assert CpfGroups[1..] == [3, 3, 2] && CpfSeparators[1..] == ".-";
  }

  lemma CpfRenderThreeGroups(d: string)
    requires 6 < |d| <= 9
    ensures Render(d, CpfGroups, CpfSeparators) == d[..3] + "." + d[3..6] + "." + d[6..]
  {
    var r2 := Render(d[3..], [3, 3, 2], ".-");
    assert r2 == d[3..6] + "." + d[6..] by {
      assert Render(d[6..], [3, 2], "-") == d[6..];
      assert [3, 3, 2][1..] == [3, 2] && ".-"[1..] == "-";
      assert d[3..][..3] == d[3..6] && d[3..][3..] == d[6..];
    }
    assert Render(d, CpfGroups, CpfSeparators) == d[..3] + "." + r2 by {
      assert CpfGroups[1..] == [3, 3, 2] && CpfSeparators[1..] == ".-";
    }
    Reassociate(d[..3] + ".", d[3..6], ".", d[6..]);
  }

  lemma CpfRenderFourGroups(d: string)
    requires 9 < |d| <= 11
    ensures Render(d, CpfGroups, CpfSeparators) == d[..3] + "." + d[3..6] + "." + d[6..9] + "-" + d[9..]
  {
    var r3 := Render(d[6..], [3, 2], "-");
    assert r3 == d[6..9] + "-" + d[9..] by {
      assert Render(d[9..], [2], "") == d[9..];
      assert [3, 2][1..] == [2] && "-"[1..] == "";
      assert d[6..][..3] == d[6..9] && d[6..][3..] == d[9..];
    }
    var r2 := Render(d[3..], [3, 3, 2], ".-");
    assert r2 == d[3..6] + "." + r3 by {
      assert [3, 3, 2][1..] == [3, 2] && ".-"[1..] == "-";
      assert d[3..][..3] == d[3..6] && d[3..][3..] == d[6..];
    }
    assert Render(d, CpfGroups, CpfSeparators) == d[..3] + "." + r2 by {
      assert CpfGroups[1..] == [3, 3, 2] && CpfSeparators[1..] == ".-";
    }
    Reassociate(d[..3] + ".", d[3..6], ".", d[6..9] + "-" + d[9..]);
    Reassociate(d[..3] + "." + d[3..6] + ".", d[6..9], "-", d[9..]);
  }

  lemma CnpjRenderFourGroups(d: string)
    requires |d| == 12
    ensures Render(d, CnpjGroups, CnpjSeparators) == d[..2] + "." + d[2..5] + "." + d[5..8] + "/" + d[8..]
  {
    var r3 := Render(d[5..], [3, 4, 2], "/-");
    assert r3 == d[5..8] + "/" + d[8..] by {
      assert Render(d[8..], [4, 2], "-") == d[8..];
      assert [3, 4, 2][1..] == [4, 2] && "/-"[1..] == "-";
      assert d[5..][..3] == d[5..8] && d[5..][3..] == d[8..];
    }
    var r2 := Render(d[2..], [3, 3, 4, 2], "./-");
    assert r2 == d[2..5] + "." + r3 by {
      assert [3, 3, 4, 2][1..] == [3, 4, 2] && "./-"[1..] == "/-";
      assert d[2..][..3] == d[2..5] && d[2..][3..] == d[5..];
    }
    assert Render(d, CnpjGroups, CnpjSeparators) == d[..2] + "." + r2 by {
      assert CnpjGroups[1..] == [3, 3, 4, 2] && CnpjSeparators[1..] == "./-";
    }
    Reassociate(d[..2] + ".", d[2..5], ".", d[5..8] + "/" + d[8..]);
    Reassociate(d[..2] + "." + d[2..5] + ".", d[5..8], "/", d[8..]);
  }

  lemma CnpjRenderFiveGroups(d: string)
    requires 12 < |d| <= 14
    ensures Render(d, CnpjGroups, CnpjSeparators) ==
      d[..2] + "." + d[2..5] + "." + d[5..8] + "/" + d[8..12] + "-" + d[12..]
  {
    var r2 := Render(d[2..], [3, 3, 4, 2], "./-");
    assert Render(d, CnpjGroups, CnpjSeparators) == d[..2] + "." + r2 by {
      assert CnpjGroups[1..] == [3, 3, 4, 2] && CnpjSeparators[1..] == "./-";
    }
    CnpjTailRender(d);
    Reassociate(d[..2] + ".", d[2..5], ".", d[5..8] + "/" + (d[8..12] + "-" + d[12..]));
    Reassociate(d[..2] + "." + d[2..5] + ".", d[5..8], "/", d[8..12] + "-" + d[12..]);
    Reassociate(d[..2] + "." + d[2..5] + "." + d[5..8] + "/", d[8..12], "-", d[12..]);
  }

  /** The CNPJ groups after the first one, for a complete second check digit part. */
  lemma CnpjTailRender(d: string)
    requires 12 < |d| <= 14
    ensures Render(d[2..], [3, 3, 4, 2], "./-") ==
      d[2..5] + "." + (d[5..8] + "/" + (d[8..12] + "-" + d[12..]))
  {
    var r4 := Render(d[8..], [4, 2], "-");
    assert r4 == d[8..12] + "-" + d[12..] by {
      assert [4, 2][1..] == [2] && "-"[1..] == "";
      assert d[8..][..4] == d[8..12] && d[8..][4..] == d[12..];
    }
    var r3 := Render(d[5..], [3, 4, 2], "/-");
    assert r3 == d[5..8] + "/" + r4 by {
      assert [3, 4, 2][1..] == [4, 2] && "/-"[1..] == "-";
      assert d[5..][..3] == d[5..8] && d[5..][3..] == d[8..];
    }
    assert Render(d[2..], [3, 3, 4, 2], "./-") == d[2..5] + "." + r3 by {
      assert [3, 3, 4, 2][1..] == [3, 4, 2] && "./-"[1..] == "/-";
      assert d[2..][..3] == d[2..5] && d[2..][3..] == d[5..];
    }
  }

  /** Proof helper for the renderings above: regroups an append chain. */
  lemma Reassociate(acc: string, part: string, sep: string, rest: string)
    ensures acc + (part + sep + rest) == acc + part + sep + rest
  {
  }

  /** The digits of the display are the first 14 digits of the input. */
  lemma DocumentLayoutDigits(valor: string)
    ensures SomenteNumeros(DocumentLayout(valor)) == Take(SomenteNumeros(valor), 14)
  {
    var d := Take(SomenteNumeros(valor), 14);
    if |d| <= 11 {
      assert Total(CpfGroups) == 11;
      RenderDigits(d, CpfGroups, CpfSeparators);
    } else {
      assert Total(CnpjGroups) == 14;
      RenderDigits(d, CnpjGroups, CnpjSeparators);
    }
  }

  /** Masking an already masked document changes nothing. */
  lemma DocumentLayoutIdempotent(valor: string)
    ensures DocumentLayout(DocumentLayout(valor)) == DocumentLayout(valor)
  {
    DocumentLayoutDigits(valor);
  }

  /** Every non-digit of the display is one of the separators of the layout
      in use, and it stands between two digits: no leading, trailing or
      doubled separator, so a separator appears only before a group that
      has begun. */
  lemma DocumentLayoutSeparators(valor: string, i: nat)
    requires i < |DocumentLayout(valor)| && !IsDigit(DocumentLayout(valor)[i])
    ensures var r := DocumentLayout(valor);
      && (if |SomenteNumeros(valor)| <= 11 then r[i] in CpfSeparators else r[i] in CnpjSeparators)
      && 0 < i < |r| - 1 && IsDigit(r[i - 1]) && IsDigit(r[i + 1])
  {
    var d := Take(SomenteNumeros(valor), 14);
    if |d| <= 11 {
      RenderAlphabet(d, CpfGroups, CpfSeparators, i);
      RenderSeparatorsEnclosed(d, CpfGroups, CpfSeparators, i);
    } else {
      RenderAlphabet(d, CnpjGroups, CnpjSeparators, i);
      RenderSeparatorsEnclosed(d, CnpjGroups, CnpjSeparators, i);
    }
  }

  /** A complete CPF is displayed as 000.000.000-00. */
  lemma DocumentLayoutCompleteCpf(valor: string)
    requires |SomenteNumeros(valor)| == 11
    ensures var d := SomenteNumeros(valor);
      DocumentLayout(valor) == d[..3] + "." + d[3..6] + "." + d[6..9] + "-" + d[9..]
  {
    CpfRenderFourGroups(SomenteNumeros(valor));
  }

  /** A complete CNPJ is displayed as 00.000.000/0000-00, and digits past
      the fourteenth are dropped. */
  lemma DocumentLayoutCompleteCnpj(valor: string)
    requires |SomenteNumeros(valor)| >= 14
    ensures var d := SomenteNumeros(valor);
      DocumentLayout(valor) == d[..2] + "." + d[2..5] + "." + d[5..8] + "/" + d[8..12] + "-" + d[12..14]
  {
    var d := SomenteNumeros(valor);
    var t := d[..14];
    assert Take(d, 14) == t;
    CnpjRenderFiveGroups(t);
    assert t[..2] == d[..2] && t[2..5] == d[2..5] && t[5..8] == d[5..8];
    assert t[8..12] == d[8..12] && t[12..] == d[12..14];
  }

  /* Worked examples. Each input is a parameter fixed by `requires`, which
     keeps the verifier from unfolding the definitions on the literal. */

  lemma DocumentLayoutCpfExample(s: string)
    requires s == "11144477735"
    ensures DocumentLayout(s) == "111.444.777-35"
  {
    SomenteNumerosOfDigits(s);
    CpfRenderFourGroups(s);
    assert s[..3] == "111" && s[3..6] == "444" && s[6..9] == "777" && s[9..] == "35";
  }

  lemma DocumentLayoutCnpjExample(s: string)
    requires s == "11222333000181"
    ensures DocumentLayout(s) == "11.222.333/0001-81"
  {
    SomenteNumerosOfDigits(s);
    CnpjRenderFiveGroups(s);
    Reassociate(s[..2] + "." + s[2..5] + "." + s[5..8] + "/", s[8..12], "-", s[12..]);
    CnpjExampleGroups(s);
  }

  /** Helper for DocumentLayoutCnpjExample: the groups of the example. */
  lemma CnpjExampleGroups(s: string)
    requires s == "11222333000181"
    ensures s[..2] + "." + s[2..5] + "." + s[5..8] + "/" + (s[8..12] + "-" + s[12..]) == "11.222.333/0001-81"
  {
    assert s[..2] + "." + s[2..5] + "." + s[5..8] + "/" == "11.222.333/" by {
      assert s[..2] == "11" && s[2..5] == "222" && s[5..8] == "333";
    }
    assert s[8..12] + "-" + s[12..] == "0001-81" by {
      assert s[8..12] == "0001" && s[12..] == "81";
    }
  }

  lemma DocumentLayoutPartialExamples(s3: string, s5: string)
    requires s3 == "123" && s5 == "12345"
    ensures DocumentLayout(s3) == "123"
    ensures DocumentLayout(s5) == "123.45"
  {
    SomenteNumerosOfDigits(s3);
    SomenteNumerosOfDigits(s5);
    CpfRenderTwoGroups(s5);
    assert s5[..3] == "123" && s5[3..] == "45";
  }

  /* ----- phone mask ----- */

  /** The display the phone mask must produce for the digits `d`: the area
      code in brackets as soon as one digit is present; then, after a space,
      the rest grouped 5+4 for an 11-digit number and 4+4 otherwise. */
  function PhoneDisplay(d: string): string {
    if d == [] then []
    else if |d| <= 2 then "(" + d + ")"
    else "(" + d[..2] + ") " + Render(d[2..], [SubscriberSplit(|d|), 4], "-")
  }

  /** Length of the first subscriber group: 5 for an 11-digit mobile
      number, 4 otherwise. */
  function SubscriberSplit(n: nat): nat {
    if n > 10 then 5 else 4
  }

  /** The phone display for `valor`, whose digits are truncated to 11. */
  function PhoneLayout(valor: string): string {
    PhoneDisplay(Take(SomenteNumeros(valor), 11))
  }

  /** `maskTelefoneBR`. */
  method MaskTelefoneBR(valor: string) returns (out: string)
    ensures out == PhoneLayout(valor)
  {
    var digits := Take(SomenteNumeros(valor), 11);
    var ddd := Slice(digits, 0, 2);
    var parte1 := if |digits| > 10 then Slice(digits, 2, 7) else Slice(digits, 2, 6);
    var parte2 := if |digits| > 10 then Slice(digits, 7, 11) else Slice(digits, 6, 10);
    PhoneSlices(digits, ddd, parte1, parte2);
    out := "";
    if ddd != "" { out := out + "(" + ddd + ")"; }
    if parte1 != "" { out := out + (if out != "" then " " else "") + parte1; }
    if parte2 != "" { out := out + "-" + parte2; }
  }

  /** Helper for MaskTelefoneBR: the display assembled from the three
      slices, step by step, is PhoneDisplay. */
  lemma PhoneSlices(digits: string, ddd: string, parte1: string, parte2: string)
    requires |digits| <= 11
    requires ddd == Slice(digits, 0, 2)
    requires parte1 == if |digits| > 10 then Slice(digits, 2, 7) else Slice(digits, 2, 6)
    requires parte2 == if |digits| > 10 then Slice(digits, 7, 11) else Slice(digits, 6, 10)
    ensures var o1 := if ddd != "" then "" + "(" + ddd + ")" else "";
      var o2 := if parte1 != "" then o1 + (if o1 != "" then " " else "") + parte1 else o1;
      PhoneDisplay(digits) == if parte2 != "" then o2 + "-" + parte2 else o2
  {
    PhoneDisplayShape(digits);
    assert "" + "(" + ddd + ")" == "(" + ddd + ")";
    if |digits| > 2 {
      ghost var open := "(" + digits[..2] + ") ";
      assert "(" + ddd + ")" + " " == open;
      if parte2 != "" {
        Reassociate(open, parte1, "-", parte2);
      }
    }
  }

  /** The phone display for each number of digits, written out. */
  lemma PhoneDisplayShape(d: string)
    requires |d| <= 11
    ensures 0 < |d| <= 2 ==> PhoneDisplay(d) == "(" + d + ")"
    ensures 2 < |d| <= 6 ==> PhoneDisplay(d) == "(" + d[..2] + ") " + d[2..]
    ensures 6 < |d| <= 10 ==> PhoneDisplay(d) == "(" + d[..2] + ") " + (d[2..6] + "-" + d[6..])
    ensures |d| == 11 ==> PhoneDisplay(d) == "(" + d[..2] + ") " + (d[2..7] + "-" + d[7..])
  {
    if |d| > 2 {
      var p := SubscriberSplit(|d|);
      assert [p, 4][1..] == [4] && "-"[1..] == "";
      if |d| > p + 2 {
        assert d[2..][..p] == d[2..p + 2] && d[2..][p..] == d[p + 2..];
      }
    }
  }

  /** The digits of the display are the first 11 digits of the input. */
  lemma PhoneLayoutDigits(valor: string)
    ensures SomenteNumeros(PhoneLayout(valor)) == Take(SomenteNumeros(valor), 11)
  {
    var d := Take(SomenteNumeros(valor), 11);
    if 0 < |d| <= 2 {
      SomenteNumerosAround("(", d, ")");
      SomenteNumerosOfDigits(d);
    } else if |d| > 2 {
      var rest := Render(d[2..], [SubscriberSplit(|d|), 4], "-");
      assert Total([SubscriberSplit(|d|), 4]) >= |d[2..]|;
      RenderDigits(d[2..], [SubscriberSplit(|d|), 4], "-");
      SomenteNumerosAround("(", d[..2], ") ");
      SomenteNumerosOfDigits(d[..2]);
      SomenteNumerosConcat("(" + d[..2] + ") ", rest);
      assert d == d[..2] + d[2..];
    }
  }

  /** Masking an already masked phone number changes nothing. */
  lemma PhoneLayoutIdempotent(valor: string)
    ensures PhoneLayout(PhoneLayout(valor)) == PhoneLayout(valor)
  {
    PhoneLayoutDigits(valor);
  }

  /** The brackets appear as soon as one digit is present, and a space
      appears exactly when a digit follows the area code, right after the
      closing bracket. */
  lemma PhoneLayoutPunctuation(valor: string)
    ensures var d := Take(SomenteNumeros(valor), 11); var r := PhoneLayout(valor);
      && (d == [] <==> r == [])
      && (d != [] ==> r[0] == '(' && r[|Take(d, 2)| + 1] == ')')
      && (' ' in r <==> |d| > 2)
      && (|d| > 2 ==> r[3] == ')' && r[4] == ' ')
  {
    var d := Take(SomenteNumeros(valor), 11);
    var r := PhoneLayout(valor);
    if 0 < |d| <= 2 {
      assert r == "(" + d + ")";
      assert forall k :: 0 <= k < |r| ==> r[k] != ' ';
    } else if |d| > 2 {
      assert r[4] == ' ';
    }
  }

  /** A complete mobile number is displayed as (AA) PPPPP-SSSS and a
      complete landline number as (AA) PPPP-SSSS. */
  lemma PhoneLayoutComplete(valor: string)
    ensures var d := SomenteNumeros(valor);
      && (|d| >= 11 ==>
            PhoneLayout(valor) == "(" + d[..2] + ") " + d[2..7] + "-" + d[7..11])
      && (|d| == 10 ==>
            PhoneLayout(valor) == "(" + d[..2] + ") " + d[2..6] + "-" + d[6..])
  {
    var d := SomenteNumeros(valor);
    var t := Take(d, 11);
    PhoneDisplayShape(t);
    if |d| >= 11 {
      assert t[..2] == d[..2] && t[2..7] == d[2..7] && t[7..] == d[7..11];
      Reassociate("(" + d[..2] + ") ", d[2..7], "-", d[7..11]);
    } else if |d| == 10 {
      Reassociate("(" + d[..2] + ") ", d[2..6], "-", d[6..]);
    }
  }

  lemma PhoneLayoutMobileExample(s: string)
    requires s == "65996837318"
    ensures PhoneLayout(s) == "(65) 99683-7318"
  {
    SomenteNumerosOfDigits(s);
    PhoneDisplayShape(s);
    assert s[..2] == "65" && s[2..7] == "99683" && s[7..] == "7318";
  }

  lemma PhoneLayoutLandlineExample(s: string)
    requires s == "6532221234"
    ensures PhoneLayout(s) == "(65) 3222-1234"
  {
    SomenteNumerosOfDigits(s);
    PhoneDisplayShape(s);
    assert s[..2] == "65" && s[2..6] == "3222" && s[6..] == "1234";
  }

  lemma PhoneLayoutPartialExamples(s1: string, s2: string, s7: string)
    requires s1 == "6" && s2 == "12" && s7 == "1234567"
    ensures PhoneLayout(s1) == "(6)"
    ensures PhoneLayout(s2) == "(12)"
    ensures PhoneLayout(s7) == "(12) 3456-7"
  {
    SomenteNumerosOfDigits(s1);
    SomenteNumerosOfDigits(s2);
    SomenteNumerosOfDigits(s7);
    PhoneDisplayShape(s1);
    PhoneDisplayShape(s2);
    PhoneDisplayShape(s7);
    assert s7[..2] == "12" && s7[2..6] == "3456" && s7[6..] == "7";
  }

  /* ----- CEP mask ----- */

  /** `maskCEP`: at most 8 digits, split 5+3, with `-` only when the second
      part has begun. */
  function MaskCep(valor: string): (r: string)
    ensures SomenteNumeros(r) == Take(SomenteNumeros(valor), 8)
    ensures '-' in r <==> |SomenteNumeros(valor)| > 5
    ensures |SomenteNumeros(valor)| > 5 ==> r[5] == '-'
  {
    var digits := Take(SomenteNumeros(valor), 8);
    var part1 := Slice(digits, 0, 5);
    var part2 := Slice(digits, 5, 8);
    CepDigits(part1, part2);
    if part2 != "" then part1 + "-" + part2 else part1
  }

  /** Helper for MaskCep: the digits of the two possible displays. */
  lemma CepDigits(part1: string, part2: string)
    requires AllDigits(part1) && AllDigits(part2)
    ensures SomenteNumeros(part1 + "-" + part2) == part1 + part2
    ensures SomenteNumeros(part1) == part1
  {
    var a := part1 + "-";
    SomenteNumerosConcat(a, part2);
    SomenteNumerosConcat(part1, "-");
    SomenteNumerosOfDigits(part1);
    SomenteNumerosOfDigits(part2);
    assert SomenteNumeros("-") == [];
    assert SomenteNumeros(a) == part1;
  }

  /** The CEP mask agrees with the generic grouping into 5+3. */
  lemma MaskCepIsGrouping(valor: string)
    ensures MaskCep(valor) == Render(Take(SomenteNumeros(valor), 8), CepGroups, "-")
  {
    var d := Take(SomenteNumeros(valor), 8);
    assert CepGroups[1..] == [3];
    if |d| > 5 {
      assert Take(d[5..], 3) == d[5..];
    }
  }

  /** Masking an already masked CEP changes nothing. */
  lemma MaskCepIdempotent(valor: string)
    ensures MaskCep(MaskCep(valor)) == MaskCep(valor)
  {
    var d := Take(SomenteNumeros(valor), 8);
    TakeTake(SomenteNumeros(valor), 8);
    assert Take(SomenteNumeros(MaskCep(valor)), 8) == d;
  }

  lemma MaskCepExamples(s8: string, s3: string)
    requires s8 == "78000000" && s3 == "780"
    ensures MaskCep(s8) == "78000-000"
    ensures MaskCep(s3) == "780"
  {
    SomenteNumerosOfDigits(s8);
    SomenteNumerosOfDigits(s3);
    assert s8[..5] == "78000" && s8[5..] == "000";
  }
}
