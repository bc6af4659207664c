/**
 * The tax-document value type: Brazilian CPF (11 digits, individuals) and
 * CNPJ (14 digits, organisations) numbers, validated with the Receita Federal
 * modulo-11 check digits and canonicalised to a zero-padded digit string.
 */
module Documents {
  import opened Wrappers
  import opened Schema
  import opened ModelErrors

  predicate IsDigit(c: char) {
    '0' <= c <= '9'
  }

  predicate AllDigits(s: string) {
    forall i :: 0 <= i < |s| ==> IsDigit(s[i])
  }

  /** `parseInt(c)` for a digit character. */
  function DigitValue(c: char): int {
    (c as int) - ('0' as int)
  }

  /** `input.replace(/\D/g, '')`: the digits of `s`, in order. */
  function OnlyDigits(s: string): string {
    if s == [] then []
    else (if IsDigit(s[0]) then [s[0]] else []) + OnlyDigits(s[1..])
  }

  /** What stripping keeps: only digits, no more characters than the input, and a digit string whole. */
  lemma {:induction false} OnlyDigitsProperties(s: string)
    ensures AllDigits(OnlyDigits(s)) && |OnlyDigits(s)| <= |s|
    ensures AllDigits(s) ==> OnlyDigits(s) == s
  {
    if s != [] {
      OnlyDigitsProperties(s[1..]);
    }
  }

  /** Stripping commutes with concatenation: the digits keep their order. */
  lemma {:induction false} OnlyDigitsAppend(a: string, b: string)
    ensures OnlyDigits(a + b) == OnlyDigits(a) + OnlyDigits(b)
  {
    if a == [] {
      assert a + b == b;
    } else {
      var h := if IsDigit(a[0]) then [a[0]] else [];
      assert (a + b)[0] == a[0];
      assert (a + b)[1..] == a[1..] + b;
      assert OnlyDigits(a + b) == h + OnlyDigits(a[1..] + b);
      OnlyDigitsAppend(a[1..], b);
      assert OnlyDigits(a) == h + OnlyDigits(a[1..]);
      assert h + (OnlyDigits(a[1..]) + OnlyDigits(b)) == (h + OnlyDigits(a[1..])) + OnlyDigits(b);
    }
  }

  function Zeros(n: nat): (z: string)
    ensures |z| == n && forall i :: 0 <= i < n ==> z[i] == '0'
  {
    if n == 0 then [] else Zeros(n - 1) + ['0']
  }

  /** `s.padStart(size, '0')`: zeros in front up to `size`; a longer string is kept whole. */
  function PadStart(s: string, size: nat): (r: string)
    ensures |r| == if |s| >= size then |s| else size
    ensures r[|r| - |s|..] == s
    ensures forall i :: 0 <= i < |r| - |s| ==> r[i] == '0'
    ensures |s| >= size ==> r == s
  {
    if |s| >= size then s else Zeros(size - |s|) + s
  }

  /** `cleanString(input, size)`: the digits of `input`, left-padded to `size` unless `size` is 0. */
  function CleanString(input: string, size: nat): (r: string)
    ensures AllDigits(r)
    ensures size > 0 ==> |r| >= size
  {
    OnlyDigitsProperties(input);
    if size == 0 then OnlyDigits(input) else PadStart(OnlyDigits(input), size)
  }

  /** `/^(\d)\1{len-1}$/.test(s)`: exactly `len` copies of one digit. */
  predicate IsRepeatedDigit(s: string, len: nat) {
    len > 0 && |s| == len && IsDigit(s[0]) && forall i :: 0 <= i < |s| ==> s[i] == s[0]
  }

  // ---------------------------------------------------------------------------
  // CPF
  // ---------------------------------------------------------------------------

  /** Σ_{i < n} d[i]·(top − i). */
  function CpfSum(d: string, n: nat, top: int): int
    requires n <= |d|
  {
    if n == 0 then 0 else CpfSum(d, n - 1, top) + DigitValue(d[n - 1]) * (top - (n - 1))
  }

  /** (sum·10) mod 11, with 10 (and 11, which cannot occur) read as 0. */
  function CpfCheckDigit(sum: int): (r: int)
    ensures 0 <= r <= 9
  {
    var remainder := (sum * 10) % 11;
    if remainder == 10 || remainder == 11 then 0 else remainder
  }

  /** The CPF checks on an already cleaned string of at least 11 digits. */
  predicate CpfDigitsValid(cpf: string)
    requires |cpf| >= 11
  {
    && !IsRepeatedDigit(cpf, 11)
    && CpfCheckDigit(CpfSum(cpf, 9, 10)) == DigitValue(cpf[9])
    && CpfCheckDigit(CpfSum(cpf, 10, 11)) == DigitValue(cpf[10])
  }

  /** `isValidCPF(value)`. */
  predicate CpfValid(value: string) {
    CpfDigitsValid(CleanString(value, 11))
  }

  /** One accumulation loop of `isValidCPF`: `sum += digit(i) * (top - i)` for `i < n`. */
  method CpfWeightedSum(cpf: string, n: nat, top: int) returns (sum: int)
    requires n <= |cpf|
    ensures sum == CpfSum(cpf, n, top)
  {
    sum := 0;
    for i := 0 to n
      invariant sum == CpfSum(cpf, i, top)
    {
      sum := sum + DigitValue(cpf[i]) * (top - i);
    }
  }

  /** `isValidCPF` with its two accumulation loops. */
  method IsValidCpf(value: string) returns (valid: bool)
    ensures valid == CpfValid(value)
  {
    var cpf := CleanString(value, 11);
    if IsRepeatedDigit(cpf, 11) {
      return false;
    }
    var sum := CpfWeightedSum(cpf, 9, 10);
    var remainder := (sum * 10) % 11;
    if remainder == 10 || remainder == 11 {
      remainder := 0;
    }
    assert remainder == CpfCheckDigit(sum);
    if remainder != DigitValue(cpf[9]) {
      return false;
    }
    sum := CpfWeightedSum(cpf, 10, 11);
    remainder := (sum * 10) % 11;
    if remainder == 10 || remainder == 11 {
      remainder := 0;
    }
    assert remainder == CpfCheckDigit(sum);
    return remainder == DigitValue(cpf[10]);
  }

  // ---------------------------------------------------------------------------
  // CNPJ
  // ---------------------------------------------------------------------------

  const CnpjWeights1: seq<int> := [5, 4, 3, 2, 9, 8, 7, 6, 5, 4, 3, 2]
  const CnpjWeights2: seq<int> := [6, 5, 4, 3, 2, 9, 8, 7, 6, 5, 4, 3, 2]

  /** Both weight lists are the cycle 2, 3, ..., 9 read from the rightmost weighted digit leftwards. */
  lemma CnpjWeightsCycle()
    ensures |CnpjWeights1| == 12 && |CnpjWeights2| == 13
    ensures forall i :: 0 <= i < 12 ==> CnpjWeights1[i] == 2 + (11 - i) % 8
    ensures forall i :: 0 <= i < 13 ==> CnpjWeights2[i] == 2 + (12 - i) % 8
  {
  }

  /** Σ_{i < n} d[i]·w[i]. */
  function CnpjSum(d: string, w: seq<int>, n: nat): int
    requires n <= |d| && n <= |w|
  {
    if n == 0 then 0 else CnpjSum(d, w, n - 1) + DigitValue(d[n - 1]) * w[n - 1]
  }

  /** 0 when sum mod 11 is below 2, otherwise 11 minus it. */
  function CnpjCheckDigit(sum: int): (r: int)
    ensures 0 <= r <= 9
  {
    var remainder := sum % 11;
    if remainder < 2 then 0 else 11 - remainder
  }

  /** The CNPJ checks on an already cleaned string of at least 14 digits. */
  predicate CnpjDigitsValid(cnpj: string)
    requires |cnpj| >= 14
  {
    && !IsRepeatedDigit(cnpj, 14)
    && CnpjCheckDigit(CnpjSum(cnpj, CnpjWeights1, 12)) == DigitValue(cnpj[12])
    && CnpjCheckDigit(CnpjSum(cnpj, CnpjWeights2, 13)) == DigitValue(cnpj[13])
  }

  /** `isValidCNPJ(value)`. */
  predicate CnpjValid(value: string) {
    CnpjDigitsValid(CleanString(value, 14))
  }

  /** One accumulation loop of `isValidCNPJ`: `sum += digit(i) * w[i]` for `i < n`. */
  method CnpjWeightedSum(cnpj: string, w: seq<int>, n: nat) returns (sum: int)
    requires n <= |cnpj| && n <= |w|
    ensures sum == CnpjSum(cnpj, w, n)
  {
    sum := 0;
    for i := 0 to n
      invariant sum == CnpjSum(cnpj, w, i)
    {
      sum := sum + DigitValue(cnpj[i]) * w[i];
    }
  }

  /** `isValidCNPJ` with its two accumulation loops. */
  method IsValidCnpj(value: string) returns (valid: bool)
    ensures valid == CnpjValid(value)
  {
    var cnpj := CleanString(value, 14);
    if IsRepeatedDigit(cnpj, 14) {
      return false;
    }
    var sum := CnpjWeightedSum(cnpj, CnpjWeights1, 12);
    var remainder := sum % 11;
    if remainder < 2 {
      remainder := 0;
    } else {
      remainder := 11 - remainder;
    }
    assert remainder == CnpjCheckDigit(sum);
    if remainder != DigitValue(cnpj[12]) {
      return false;
    }
    sum := CnpjWeightedSum(cnpj, CnpjWeights2, 13);
    remainder := sum % 11;
    if remainder < 2 {
      remainder := 0;
    } else {
      remainder := 11 - remainder;
    }
    assert remainder == CnpjCheckDigit(sum);
    return remainder == DigitValue(cnpj[13]);
  }

  // ---------------------------------------------------------------------------
  // The Document value
  // ---------------------------------------------------------------------------

  datatype Document = Document(value: string)

  /** `Document.tryParse(value)`: valid as a CPF or as a CNPJ. */
  predicate TryParse(value: string) {
    CpfValid(value) || CnpjValid(value)
  }

  /** The error `Document.parse` throws. */
  const InvalidDocumentFailure: ModelError := NewError(InvalidDocument, None, Some("document"))

  lemma InvalidDocumentFailureValue()
    ensures InvalidDocumentFailure == ModelError(InvalidDocument, "invalid.document", Some("document"))
  {
  }

  /** `max(|digits|, size)`. */
  function PaddedLength(digits: nat, size: nat): nat {
    if digits >= size then digits else size
  }

  /** `v` is the digits of `value`, behind zeros up to `size`. */
  predicate PaddedDigits(v: string, value: string, size: nat) {
    var d := OnlyDigits(value);
    && AllDigits(v) && |v| >= size && |v| == PaddedLength(|d|, size)
    && v[|v| - |d|..] == d
    && (forall i :: 0 <= i < |v| - |d| ==> v[i] == '0')
  }

  /** A cleaned value is the digits of the input, behind zeros up to `size`. */
  lemma CleanStringShape(value: string, size: nat)
    requires size > 0
    ensures PaddedDigits(CleanString(value, size), value, size)
  {
  }

  /**
   * `Document.parse(value)`: the digits of `value` zero-padded to 11 when it
   * is CPF-valid (CPF wins when both pass), else to 14 when it is CNPJ-valid;
   * otherwise an invalid-document error on field 'document'.
   */
  function Parse(value: string): (r: Result<Document, ModelError>)
    ensures r.Success? <==> TryParse(value)
    ensures r.Failure? ==> r.error == ModelError(InvalidDocument, "invalid.document", Some("document"))
    ensures r.Success? ==> PaddedDigits(r.value.value, value, if CpfValid(value) then 11 else 14)
  {
    var validCnpj := CnpjValid(value);
    var validCpf := CpfValid(value);
    if !validCpf && !validCnpj then
      InvalidDocumentFailureValue();
      Failure(InvalidDocumentFailure)
    else
      var size := if validCpf then 11 else 14;
      CleanStringShape(value, size);
      Success(Document(CleanString(value, size)))
  }

  /** A canonical document: a string that parses to itself. */
  predicate IsCanonical(s: string) {
    Parse(s) == Success(Document(s))
  }

  /** Cleaning an already clean string of sufficient length changes nothing. */
  lemma CleanStringOfClean(s: string, size: nat)
    requires AllDigits(s) && |s| >= size
    ensures CleanString(s, size) == s
  {
    OnlyDigitsProperties(s);
  }

  /** Parsing is idempotent: the value of a parsed document is canonical. */
  lemma {:induction false} ParseIdempotent(value: string)
    requires Parse(value).Success?
    ensures IsCanonical(Parse(value).value.value)
  {
    var w := Parse(value).value.value;
    CleanStringOfClean(w, 11);
    if CpfValid(value) {
      assert w == CleanString(value, 11);
      assert CpfValid(w);
    } else {
      assert CnpjValid(value);
      assert w == CleanString(value, 14);
      CleanStringOfClean(w, 14);
      assert CnpjValid(w);
    }
  }

  /** An input without any digit, such as 'invalid', is rejected: it pads to a run of zeros. */
  lemma NoDigitsRejected(value: string)
    requires OnlyDigits(value) == ""
    ensures !TryParse(value)
    ensures Parse(value).Failure?
  {
    assert CleanString(value, 11) == Zeros(11);
    assert IsRepeatedDigit(CleanString(value, 11), 11);
    assert CleanString(value, 14) == Zeros(14);
    assert IsRepeatedDigit(CleanString(value, 14), 14);
  }

  function Repeat(c: char, n: nat): (s: string)
    ensures |s| == n && forall i :: 0 <= i < n ==> s[i] == c
  {
    if n == 0 then [] else Repeat(c, n - 1) + [c]
  }

  /**
   * A run of 11 equal digits satisfies both CPF check-digit equations
   * (the weights sum to 54 and 65, and 540 ≡ 650 ≡ 1 mod 11), so it is the
   * repeated-digit test alone that rejects it.
   */
  lemma RepeatedDigitsPassCpfArithmetic(c: char)
    requires IsDigit(c)
    ensures CpfCheckDigit(CpfSum(Repeat(c, 11), 9, 10)) == DigitValue(Repeat(c, 11)[9])
    ensures CpfCheckDigit(CpfSum(Repeat(c, 11), 10, 11)) == DigitValue(Repeat(c, 11)[10])
    ensures !CpfValid(Repeat(c, 11))
  {
    var s := Repeat(c, 11);
    CpfSumConstant(s, c, 9, 10);
    CpfSumConstant(s, c, 10, 11);
    CpfCheckDigitOfRun(DigitValue(c));
    RepeatedDigitsRejected(s);
  }

  /** Digit times 54 and digit times 65 both check to the digit itself. */
  lemma CpfCheckDigitOfRun(d: int)
    requires 0 <= d <= 9
    ensures CpfCheckDigit(d * 54) == d
    ensures CpfCheckDigit(d * 65) == d
  {
    assert d * 54 * 10 == 11 * (49 * d) + d;
    ModElevenOf(49 * d, d);
    assert d * 65 * 10 == 11 * (59 * d) + d;
    ModElevenOf(59 * d, d);
  }

  lemma ModElevenOf(k: int, d: int)
    requires 0 <= d <= 9
    ensures (11 * k + d) % 11 == d
  {
  }

  /** A cleaned run of eleven equal digits fails the repeated-digit test. */
  lemma RepeatedDigitsRejected(s: string)
    requires |s| == 11 && AllDigits(s) && forall i :: 0 <= i < 11 ==> s[i] == s[0]
    ensures !CpfValid(s)
  {
    CleanStringOfClean(s, 11);
    assert IsRepeatedDigit(CleanString(s, 11), 11);
  }

  /** Fourteen copies of one digit, such as '00000000000000', are never a CNPJ. */
  lemma RepeatedCnpjDigitsRejected(s: string)
    requires |s| == 14 && AllDigits(s) && forall i :: 0 <= i < 14 ==> s[i] == s[0]
    ensures !CnpjValid(s)
  {
    CleanStringOfClean(s, 14);
    assert IsRepeatedDigit(CleanString(s, 14), 14);
  }

  /** On a run of equal digits the CPF sum is that digit times the sum of the weights. */
  lemma {:induction false} CpfSumConstant(s: string, c: char, n: nat, top: int)
    requires n <= |s| && forall i :: 0 <= i < |s| ==> s[i] == c
    ensures CpfSum(s, n, top) == DigitValue(c) * (n * top - n * (n - 1) / 2)
  {
    if n > 0 {
      CpfSumConstant(s, c, n - 1, top);
      assert (n - 1) * top - (n - 1) * (n - 2) / 2 + (top - (n - 1)) == n * top - n * (n - 1) / 2;
    }
  }

  // ---------------------------------------------------------------------------
  // Formatting is ignored; the documented examples
  // ---------------------------------------------------------------------------

  /** Only the digits of the input matter: punctuation such as '.', '/' and '-' is ignored. */
  lemma SameDigitsSameParse(v: string, w: string)
    requires OnlyDigits(v) == OnlyDigits(w)
    ensures Parse(v) == Parse(w)
  {
  }

  /** A digit string of at most 11 digits whose padded form passes the CPF checks. */
  lemma ParseCpfDigits(v: string, d: string)
    requires AllDigits(v) && |v| <= 11 && d == PadStart(v, 11) && CpfDigitsValid(d)
    ensures Parse(v) == Success(Document(d))
  {
    OnlyDigitsProperties(v);
  }

  /** A digit string of 11 to 14 digits whose padded form passes the CNPJ checks but not the CPF ones. */
  lemma ParseCnpjDigits(v: string, d: string)
    requires AllDigits(v) && 11 <= |v| <= 14 && d == PadStart(v, 14)
    requires !CpfDigitsValid(v) && CnpjDigitsValid(d)
    ensures Parse(v) == Success(Document(d))
  {
    OnlyDigitsProperties(v);
  }

  /** A digit string of at most 14 digits that fails both checks. */
  lemma RejectDigits(v: string, d: string)
    requires AllDigits(v) && 11 <= |v| <= 14 && d == PadStart(v, 14)
    requires !CpfDigitsValid(v) && !CnpjDigitsValid(d)
    ensures Parse(v) == Failure(InvalidDocumentFailure)
  {
    OnlyDigitsProperties(v);
  }
}
