# Brazilian input masks and CPF/CNPJ validation, in Dafny

This project models `client/lib/br.ts` of the AgroFertil site. That file holds
the site's only real logic. It consists of:

- the digit extractor `somenteNumeros`;
- three keystroke masks that format a field as the user types:
  - `maskCpfCnpj`, for an individual (CPF, `000.000.000-00`) or a company (CNPJ, `00.000.000/0000-00`);
  - `maskTelefoneBR`, for a phone number shown as `(AA) PPPPP-SSSS` or `(AA) PPPP-SSSS`;
  - `maskCEP`, for a postal code shown as `00000-000`;
- the Receita Federal modulo-11 check-digit validators `validarCPF` and `validarCNPJ`;
- the dispatcher `validarDocumento`, which picks a validator by digit count.

The files are:

- `digits.dfy` (module `Digits`):
  - `somenteNumeros`, as a filter on `'0'..'9'`;
  - JavaScript's `slice` on strings (`Take`, `Slice`), with both ends clamped to the length.
- `layout.dfy` (module `Layout`) defines one reference function, `Render`. It cuts a digit string into groups of given sizes and writes a separator before a group only once that group has begun. The masks are proved against it, and its lemmas give the separator rules once for all masks.
- `masks.dfy` (module `Masks`):
  - `maskCpfCnpj` and `maskTelefoneBR` are methods. Each builds `out` by the same conditional appends as the source. Each is proved equal to a display function (`DocumentLayout`, `PhoneLayout`), and the properties are proved about those functions.
  - `maskCEP` is a single expression in the source, so it is a function here.
- `checksum.dfy` (module `Checksums`) states the validity rules as functions:
  - weighted sums;
  - the two check-digit formulas;
  - the wrapping weight counter `pos`;
  - `IsValidCpf`, `IsValidCnpj` and `IsValidDocument`.

  It also proves facts about repeated digits and holds worked examples.
- `validators.dfy` (module `Validators`) contains the validators as the loops they are. Each is proved to decide exactly the predicate of `Checksums`. It also relates the masks to validation.

Two partial phone displays are worth stating exactly, since they follow from the code's thresholds rather than from the final pattern:

- **Seven phone digits** show as `"(12) 3456-7"`: any count up to 10 splits 2+4+4 (`client/lib/br.ts:37-38`), so the first subscriber group takes four digits before the `-` appears (`Masks.PhoneLayoutPartialExamples`).
- **One phone digit** shows as `"(6)"`: the brackets close as soon as `ddd` is non-empty (`client/lib/br.ts:40`).

## Model

| member | source | states |
|---|---|---|
| Digits.SomenteNumeros | client/lib/br.ts:1-3 | the result holds only ASCII digits and is no longer than the input |
| Digits.SomenteNumerosConcat | client/lib/br.ts:1-3 | extraction distributes over concatenation, so the digits keep their input order |
| Digits.SomenteNumerosKeepsExactlyDigits | client/lib/br.ts:1-3 | a character is in the result exactly when it is in the input and is a digit |
| Digits.SomenteNumerosOfDigits | client/lib/br.ts:1-3 | a digit-only string is returned unchanged |
| Digits.SomenteNumerosIdempotent | client/lib/br.ts:1-3 | extracting twice equals extracting once |
| Digits.Take | client/lib/br.ts:6 | `s.slice(0, n)` is the prefix of `s` of length `n`, or all of `s` when it is shorter |
| Digits.Slice | client/lib/br.ts:9-12 | `s.slice(a, b)` is empty when `a` is past the end and otherwise the first `b - a` characters from position `a`, cut at the end |
| Layout.RenderDigits | client/lib/br.ts:13-17 | removing the separators from a grouped rendering gives back the digits, truncated to the total group size |
| Layout.RenderAlphabet | client/lib/br.ts:13-17 | every character of a rendering is an input digit or one of the layout's separators |
| Layout.RenderSeparatorsEnclosed | client/lib/br.ts:14-16 | every separator stands between two digits, so none is leading, trailing or doubled |
| Masks.MaskCpfCnpj | client/lib/br.ts:5-32 | the appends produce `DocumentLayout`: at most 14 digits, grouped 3-3-3-2 with `. . -` for up to 11 digits and 2-3-3-4-2 with `. . / -` above that |
| Masks.DocumentLayoutDigits | client/lib/br.ts:5-6 | the document display, with non-digits removed, is the first 14 digits of the input |
| Masks.DocumentLayoutIdempotent | client/lib/br.ts:5-32 | masking an already masked document changes nothing |
| Masks.DocumentLayoutSeparators | client/lib/br.ts:7-31 | each non-digit of the display is a separator of the layout in use (CPF layout up to 11 digits, CNPJ layout above) and sits between two digits |
| Masks.DocumentLayoutCompleteCpf | client/lib/br.ts:7-17 | 11 digits are shown as `ddd.ddd.ddd-dd` |
| Masks.DocumentLayoutCompleteCnpj | client/lib/br.ts:18-31 | 14 or more digits are shown as `dd.ddd.ddd/dddd-dd`, built from the first 14 |
| Masks.DocumentLayoutCpfExample | client/lib/br.ts:7-17 | `11144477735` shows as `111.444.777-35` |
| Masks.DocumentLayoutCnpjExample | client/lib/br.ts:18-31 | `11222333000181` shows as `11.222.333/0001-81` |
| Masks.DocumentLayoutPartialExamples | client/lib/br.ts:13-16 | partial input gives a partial mask: `123` shows as `123`, `12345` as `123.45` |
| Masks.MaskTelefoneBR | client/lib/br.ts:34-44 | the appends produce `PhoneLayout`: at most 11 digits; the area code in brackets; then a space and the rest grouped 5+4 for 11 digits and 4+4 otherwise |
| Masks.PhoneDisplayShape | client/lib/br.ts:36-43 | the phone display written out for 1-2, 3-6, 7-10 and 11 digits |
| Masks.PhoneLayoutDigits | client/lib/br.ts:35 | the phone display, with non-digits removed, is the first 11 digits of the input |
| Masks.PhoneLayoutIdempotent | client/lib/br.ts:34-44 | masking an already masked phone number changes nothing |
| Masks.PhoneLayoutPunctuation | client/lib/br.ts:40-41 | the display is empty iff there are no digits; it opens with `(` and closes the area code with `)` from the first digit on; it holds a space iff more than 2 digits are present, right after the `)` |
| Masks.PhoneLayoutComplete | client/lib/br.ts:37-38 | 11 or more digits show as `(AA) PPPPP-SSSS` and exactly 10 as `(AA) PPPP-SSSS` |
| Masks.PhoneLayoutMobileExample | client/lib/br.ts:34-44 | `65996837318` shows as `(65) 99683-7318` |
| Masks.PhoneLayoutLandlineExample | client/lib/br.ts:34-44 | `6532221234` shows as `(65) 3222-1234` |
| Masks.PhoneLayoutPartialExamples | client/lib/br.ts:37-42 | `6` shows as `(6)`, `12` as `(12)` and `1234567` as `(12) 3456-7` |
| Masks.MaskCep | client/lib/br.ts:46-51 | the display's digits are the first 8 input digits; `-` appears iff more than 5 digits are present, and then at position 5 |
| Masks.MaskCepIsGrouping | client/lib/br.ts:46-51 | the CEP mask is the 5+3 grouping with `-` |
| Masks.MaskCepIdempotent | client/lib/br.ts:46-51 | masking an already masked CEP changes nothing |
| Masks.MaskCepExamples | client/lib/br.ts:46-51 | `78000000` shows as `78000-000` and `780` as `780` |
| Checksums.Values | client/lib/br.ts:57 | each digit character maps to its value 0..9, position by position |
| Checksums.CpfCheckDigit | client/lib/br.ts:60-61 | the digit `11 - sum % 11` (10 and 11 mapped to 0) is at most 9 and makes `sum + d` a multiple of 11, except when `sum % 11 == 1`, where it is 0 |
| Checksums.CnpjCheckDigit | client/lib/br.ts:83-84 | the CNPJ formula `d < 2 ? 0 : 11 - d` gives the same digit as the CPF formula for every sum |
| Checksums.CheckDigitCharacterised | client/lib/br.ts:60-61 | a digit is the check digit iff it satisfies the multiple-of-11 condition (both directions) |
| Checksums.CheckDigitTimesTen | client/lib/br.ts:60-61 | the rule agrees with the textbook form `((10 * sum) % 11) % 10` |
| Checksums.WeightAfterClosedForm | client/lib/br.ts:80-81 | the counter `pos--; if (pos < 2) pos = 9`, started in 2..9, is `2 + (start - 2 - i) mod 8` after `i` steps and stays in 2..9 |
| Checksums.CnpjWeightsFromCounter | client/lib/br.ts:77-95 | the counter started at 5 produces the weights 5,4,3,2,9,8,7,6,5,4,3,2; started at 6 it produces 6,5,4,3,2,9,8,7,6,5,4,3,2 |
| Checksums.ValidityIgnoresPunctuation | client/lib/br.ts:54 | validating the extracted digits gives the same verdict as validating the input, for CPF, CNPJ and documents |
| Checksums.DocumentDigitCount | client/lib/br.ts:102-107 | a document is never valid unless it has 11 or 14 digits; with 11 it is valid iff it is a valid CPF, with 14 iff it is a valid CNPJ |
| Checksums.RepeatedDigitsPassCpfCheckDigits | client/lib/br.ts:56 | eleven copies of one digit always pass both CPF check digits, so only the repeated-digit test rejects them |
| Checksums.RepeatedDigitsCnpjCheckDigits | client/lib/br.ts:73 | fourteen copies of one digit pass the CNPJ check digits iff the digit is 0 |
| Checksums.CpfValidExample | client/lib/br.ts:53-68 | `52998224725` is a valid CPF |
| Checksums.CpfWrongDigitExample | client/lib/br.ts:65-67 | `52998224726` is not a valid CPF |
| Checksums.CpfRepeatedExample | client/lib/br.ts:56 | `11111111111` is not a valid CPF |
| Checksums.CnpjValidExample | client/lib/br.ts:70-100 | `11222333000181` is a valid CNPJ |
| Checksums.CnpjZerosExample | client/lib/br.ts:73 | `00000000000000` is not a valid CNPJ |
| Validators.DescendingSum | client/lib/br.ts:58-59 | the loop `sum += nums[i] * (top - i)` computes the weighted sum with weights `top, top - 1, …` |
| Validators.ValidarCpf | client/lib/br.ts:53-68 | returns true iff the input has exactly 11 digits, not all the same, and both check digits match |
| Validators.CnpjCalc | client/lib/br.ts:75-85 | `calc` returns the first CNPJ check digit of the first 12 values |
| Validators.ValidarCnpj | client/lib/br.ts:70-100 | returns true iff the input has exactly 14 digits, not all the same, and both check digits match |
| Validators.ValidarDocumento | client/lib/br.ts:102-107 | returns true iff the input is a valid CPF or a valid CNPJ, and never for a digit count other than 11 or 14 |
| Validators.MaskedDocumentValidity | client/lib/br.ts:102-107 | masking a document with at most 14 digits never changes its verdict, and a valid document stays valid once masked |
| Validators.MaskedCpfValidExample | client/lib/br.ts:102-104 | `529.982.247-25` is a valid document |
| Validators.MaskedCpfWrongDigitExample | client/lib/br.ts:102-104 | `529.982.247-26` is not a valid document |
| Validators.MaskedCnpjExample | client/lib/br.ts:70-100 | `11.222.333/0001-81` is a valid CNPJ |

## Left out

- The React pages and components (`ClientRegistrationForm.tsx`, `Index.tsx`, `NotFound.tsx`, `Header.tsx`, `Footer.tsx`): UI rendering with no algorithmic content. They are not part of this model.
- The zod / react-hook-form schema and the WhatsApp hand-off URL with `encodeURIComponent`: configuration of, and calls into, foreign libraries and an external link.
- JavaScript's regular expressions and `parseInt` are not modelled as engines:
  - `replace(/\D+/g, "")` is modelled as a filter keeping `'0'..'9'`;
  - `/^(\d)\1{n}$/`, applied to a string already known to hold `n + 1` digits, is modelled as "every character equals the first" (`AllSame`);
  - `parseInt(c, 10)` on one digit is modelled as `c - '0'`.
- Strings are sequences of Dafny characters rather than UTF-16 code units. Since `\d` matches only ASCII digits, every other character is treated as a non-digit in both.
- JavaScript numbers are modelled as unbounded naturals. The largest weighted sum is 9 × 65 = 585, far below 2^53, and JavaScript `%` agrees with Dafny's `%` on non-negative operands.
- Validators.CnpjCalc: requires at least 12 values. The closure reads `base[0..11]`, and its only caller passes exactly 12. On a shorter array JavaScript would compute `NaN`, which is not modelled.
- Validators.DescendingSum: the two CPF accumulation loops (lines 58-59 and 63-64) differ only in their bounds. They are written once, as a method, and `ValidarCpf` calls it twice.
