/**
 * The documented CPF and CNPJ examples, evaluated on the model. Each is
 * split into small steps (the digits of a formatted input piece by piece,
 * each check sum on a digit literal) so that every lemma evaluates one
 * small literal computation.
 */
module DocumentExamples {
  import opened Wrappers
  import opened Documents

  // ---------------------------------------------------------------------------
  // Tools
  // ---------------------------------------------------------------------------

  lemma DigitsOfFour(a: string, b: string, c: string, e: string, v: string)
    requires v == a + b + c + e
    ensures OnlyDigits(v) == OnlyDigits(a) + OnlyDigits(b) + OnlyDigits(c) + OnlyDigits(e)
  {
    OnlyDigitsAppend(a + b + c, e);
    OnlyDigitsAppend(a + b, c);
    OnlyDigitsAppend(a, b);
  }

  /** A formatted input parses like its digits. */
  lemma ParseFormatted(v: string, digits: string, r: Result<Document, ModelErrors.ModelError>)
    requires OnlyDigits(v) == digits && AllDigits(digits) && Parse(digits) == r
    ensures Parse(v) == r
  {
    OnlyDigitsProperties(digits);
    SameDigitsSameParse(v, digits);
  }

  /** A CPF string whose two check sums are known, given one digit that differs from the first. */
  lemma CpfChecksPass(d: string, s1: int, s2: int, k: nat)
    requires |d| >= 11 && k < 11 && d[k] != d[0]
    requires CpfSum(d, 9, 10) == s1 && CpfCheckDigit(s1) == DigitValue(d[9])
    requires CpfSum(d, 10, 11) == s2 && CpfCheckDigit(s2) == DigitValue(d[10])
    ensures CpfDigitsValid(d)
  {
  }

  lemma CpfFirstCheckFails(d: string, s1: int)
    requires |d| >= 11 && CpfSum(d, 9, 10) == s1 && CpfCheckDigit(s1) != DigitValue(d[9])
    ensures !CpfDigitsValid(d)
  {
  }

  lemma CpfSecondCheckFails(d: string, s2: int)
    requires |d| >= 11 && CpfSum(d, 10, 11) == s2 && CpfCheckDigit(s2) != DigitValue(d[10])
    ensures !CpfDigitsValid(d)
  {
  }

  /** A CNPJ string whose two check sums are known, given one digit that differs from the first. */
  lemma CnpjChecksPass(d: string, s1: int, s2: int, k: nat)
    requires |d| >= 14 && k < 14 && d[k] != d[0]
    requires CnpjSum(d, CnpjWeights1, 12) == s1 && CnpjCheckDigit(s1) == DigitValue(d[12])
    requires CnpjSum(d, CnpjWeights2, 13) == s2 && CnpjCheckDigit(s2) == DigitValue(d[13])
    ensures CnpjDigitsValid(d)
  {
  }

  lemma CnpjFirstCheckFails(d: string, s1: int)
    requires |d| >= 14 && CnpjSum(d, CnpjWeights1, 12) == s1 && CnpjCheckDigit(s1) != DigitValue(d[12])
    ensures !CnpjDigitsValid(d)
  {
  }

  lemma CnpjSecondCheckFails(d: string, s2: int)
    requires |d| >= 14 && CnpjSum(d, CnpjWeights2, 13) == s2 && CnpjCheckDigit(s2) != DigitValue(d[13])
    ensures !CnpjDigitsValid(d)
  {
  }

  /** A short digit string pads to its zeros followed by itself. */
  lemma PadsTo(v: string, size: nat, d: string)
    requires |v| <= size && d == Zeros(size - |v|) + v
    ensures PadStart(v, size) == d
  {
  }

  /** The CNPJ sum with the cyclic weights 2..9, counted from digit `last` leftwards. */
  function CycleSum(d: string, last: int, n: nat): int
    requires n <= |d|
  {
    if n == 0 then 0 else CycleSum(d, last, n - 1) + DigitValue(d[n - 1]) * (2 + (last - (n - 1)) % 8)
  }

  lemma {:induction false} CnpjSumIsCycleSum(d: string, n: nat)
    requires n <= |d| && n <= 13
    ensures n <= 12 ==> CnpjSum(d, CnpjWeights1, n) == CycleSum(d, 11, n)
    ensures CnpjSum(d, CnpjWeights2, n) == CycleSum(d, 12, n)
  {
    CnpjWeightsCycle();
    if n > 0 {
      CnpjSumIsCycleSum(d, n - 1);
    }
  }

  // ---------------------------------------------------------------------------
  // Digits of the formatted examples, four pieces each
  // ---------------------------------------------------------------------------

  lemma DigitsOf243() ensures OnlyDigits("243.") == "243" { }
  lemma DigitsOf143() ensures OnlyDigits("143.") == "143" { }
  lemma DigitsOf551() ensures OnlyDigits("551.") == "551" { }
  lemma DigitsOf660() ensures OnlyDigits("660-") == "660" { }
  lemma DigitsOf1158() ensures OnlyDigits("11.58") == "1158" { }
  lemma DigitsOf2377() ensures OnlyDigits("2.377") == "2377" { }
  lemma DigitsOf0001() ensures OnlyDigits("/0001") == "0001" { }
  lemma DigitsOf12() ensures OnlyDigits("-12") == "12" { }

  lemma DigitsOfFormattedCpf(v: string)
    requires v == "243.551.660-66"
    ensures OnlyDigits(v) == "24355166066"
  {
    assert v == "243." + "551." + "660-" + "66";
    DigitsOfFormattedCpfPieces(v);
  }

  lemma DigitsOfFormattedCpfPieces(v: string)
    requires v == "243." + "551." + "660-" + "66"
    ensures OnlyDigits(v) == "24355166066"
  {
    DigitsOf243();
    DigitsOf551();
    DigitsOf660();
    OnlyDigitsProperties("66");
    DigitsOfFour("243.", "551.", "660-", "66", v);
  }

  lemma DigitsOfFormattedCnpj(v: string)
    requires v == "11.582.377/0001-12"
    ensures OnlyDigits(v) == "11582377000112"
  {
    assert v == "11.58" + "2.377" + "/0001" + "-12";
    DigitsOfFormattedCnpjPieces(v);
  }

  lemma DigitsOfFormattedCnpjPieces(v: string)
    requires v == "11.58" + "2.377" + "/0001" + "-12"
    ensures OnlyDigits(v) == "11582377000112"
  {
    DigitsOf1158();
    DigitsOf2377();
    DigitsOf0001();
    DigitsOf12();
    DigitsOfFour("11.58", "2.377", "/0001", "-12", v);
  }

  lemma DigitsOfRejectedFormattedCpf(v: string)
    requires v == "143.551.660-60"
    ensures OnlyDigits(v) == "14355166060"
  {
    assert v == "143." + "551." + "660-" + "60";
    DigitsOfRejectedFormattedCpfPieces(v);
  }

  lemma DigitsOfRejectedFormattedCpfPieces(v: string)
    requires v == "143." + "551." + "660-" + "60"
    ensures OnlyDigits(v) == "14355166060"
  {
    DigitsOf143();
    DigitsOf551();
    DigitsOf660();
    OnlyDigitsProperties("60");
    DigitsOfFour("143.", "551.", "660-", "60", v);
  }

  // ---------------------------------------------------------------------------
  // Check sums of the digit strings
  // ---------------------------------------------------------------------------

  lemma CpfSum24355166066()
    ensures CpfSum("24355166066", 9, 10) == 192
  {
    assert CpfSum("24355166066", 5, 10) == 145;
  }

  lemma CpfSum24355166066Second()
    ensures CpfSum("24355166066", 10, 11) == 236
  {
    assert CpfSum("24355166066", 5, 11) == 164;
  }

  lemma CpfSum00387690000()
    ensures CpfSum("00387690000", 9, 10) == 188
  {
    assert CpfSum("00387690000", 5, 10) == 122;
  }

  lemma CpfSum00387690000Second()
    ensures CpfSum("00387690000", 10, 11) == 221
  {
    assert CpfSum("00387690000", 5, 11) == 140;
  }

  lemma CpfSum11582377000112()
    ensures CpfSum("11582377000112", 9, 10) == 191
  {
    assert CpfSum("11582377000112", 5, 10) == 127;
  }

  lemma CpfSum6327015000145()
    ensures CpfSum("6327015000145", 10, 11) == 201
  {
    assert CpfSum("6327015000145", 5, 11) == 170;
  }

  lemma CpfSum14355166060()
    ensures CpfSum("14355166060", 9, 10) == 182
  {
    assert CpfSum("14355166060", 5, 10) == 135;
  }

  lemma CpfSum15431454158()
    ensures CpfSum("15431454158", 9, 10) == 168
  {
    assert CpfSum("15431454158", 5, 10) == 114;
  }

  lemma CpfSum19934642000125()
    ensures CpfSum("19934642000125", 9, 10) == 260
  {
    assert CpfSum("19934642000125", 5, 10) == 208;
  }

  lemma CpfSum55584087000899()
    ensures CpfSum("55584087000899", 9, 10) == 268
  {
    assert CpfSum("55584087000899", 5, 10) == 215;
  }

  lemma CycleSums11582377000112()
    ensures CycleSum("11582377000112", 11, 12) == 175
  {
    assert CycleSum("11582377000112", 11, 6) == 82;
  }

  lemma CycleSums11582377000112Second()
    ensures CycleSum("11582377000112", 12, 13) == 196
  {
    assert CycleSum("11582377000112", 12, 6) == 86;
  }

  lemma CycleSums06327015000145()
    ensures CycleSum("06327015000145", 11, 12) == 139
  {
    assert CycleSum("06327015000145", 11, 6) == 100;
  }

  lemma CycleSums06327015000145Second()
    ensures CycleSum("06327015000145", 12, 13) == 116
  {
    assert CycleSum("06327015000145", 12, 6) == 62;
  }

  lemma CycleSums00014355166060()
    ensures CycleSum("00014355166060", 11, 12) == 174
  {
    assert CycleSum("00014355166060", 11, 6) == 62;
  }

  lemma CycleSums00015431454158()
    ensures CycleSum("00015431454158", 11, 12) == 160
  {
    assert CycleSum("00015431454158", 11, 6) == 79;
  }

  lemma CycleSums00015431454158Second()
    ensures CycleSum("00015431454158", 12, 13) == 158
  {
    assert CycleSum("00015431454158", 12, 6) == 49;
  }

  lemma CycleSums19934642000125()
    ensures CycleSum("19934642000125", 11, 12) == 200
  {
    assert CycleSum("19934642000125", 11, 6) == 158;
  }

  lemma CycleSums55584087000899()
    ensures CycleSum("55584087000899", 11, 12) == 226
  {
    assert CycleSum("55584087000899", 11, 6) == 112;
  }

  // ---------------------------------------------------------------------------
  // The CNPJ sums in the model's own weights
  // ---------------------------------------------------------------------------

  lemma CnpjSums11582377000112(d: string)
    requires d == "11582377000112"
    ensures CnpjSum(d, CnpjWeights1, 12) == 175 && CnpjSum(d, CnpjWeights2, 13) == 196
  {
    CnpjSumIsCycleSum(d, 12);
    CnpjSumIsCycleSum(d, 13);
    CycleSums11582377000112();
    CycleSums11582377000112Second();
  }

  lemma CnpjSums06327015000145(d: string)
    requires d == "06327015000145"
    ensures CnpjSum(d, CnpjWeights1, 12) == 139 && CnpjSum(d, CnpjWeights2, 13) == 116
  {
    CnpjSumIsCycleSum(d, 12);
    CnpjSumIsCycleSum(d, 13);
    CycleSums06327015000145();
    CycleSums06327015000145Second();
  }

  lemma CnpjSums00015431454158(d: string)
    requires d == "00015431454158"
    ensures CnpjSum(d, CnpjWeights1, 12) == 160 && CnpjSum(d, CnpjWeights2, 13) == 158
  {
    CnpjSumIsCycleSum(d, 12);
    CnpjSumIsCycleSum(d, 13);
    CycleSums00015431454158();
    CycleSums00015431454158Second();
  }

  lemma CnpjSum00014355166060(d: string)
    requires d == "00014355166060"
    ensures CnpjSum(d, CnpjWeights1, 12) == 174
  {
    CnpjSumIsCycleSum(d, 12);
    CycleSums00014355166060();
  }

  lemma CnpjSum19934642000125(d: string)
    requires d == "19934642000125"
    ensures CnpjSum(d, CnpjWeights1, 12) == 200
  {
    CnpjSumIsCycleSum(d, 12);
    CycleSums19934642000125();
  }

  lemma CnpjSum55584087000899(d: string)
    requires d == "55584087000899"
    ensures CnpjSum(d, CnpjWeights1, 12) == 226
  {
    CnpjSumIsCycleSum(d, 12);
    CycleSums55584087000899();
  }

  // ---------------------------------------------------------------------------
  // The documented examples
  // ---------------------------------------------------------------------------

  /** '243.551.660-66' is the CPF '24355166066'. */
  lemma ExampleFormattedCpf(v: string)
    requires v == "243.551.660-66"
    ensures Parse(v) == Success(Document("24355166066"))
  {
    var d := "24355166066";
    DigitsOfFormattedCpf(v);
    AcceptedCpf24355166066(d);
    ParseCpfDigits(d, d);
    ParseFormatted(v, d, Success(Document(d)));
  }

  lemma AcceptedCpf24355166066(d: string)
    requires d == "24355166066"
    ensures AllDigits(d) && |d| == 11 && PadStart(d, 11) == d && CpfDigitsValid(d)
  {
    CpfSum24355166066();
    CpfSum24355166066Second();
    CpfChecksPass(d, 192, 236, 1);
  }

  /** '387690000' is padded to the CPF '00387690000'. */
  lemma ExampleShortCpf(v: string)
    requires v == "387690000"
    ensures Parse(v) == Success(Document("00387690000"))
  {
    ShortCpfPadded(v);
    AcceptedCpf00387690000("00387690000");
    ParseCpfDigits(v, "00387690000");
  }

  lemma ShortCpfPadded(v: string)
    requires v == "387690000"
    ensures AllDigits(v) && |v| <= 11 && PadStart(v, 11) == "00387690000"
  {
    assert "00387690000" == Zeros(2) + v;
    PadsTo(v, 11, "00387690000");
  }

  lemma AcceptedCpf00387690000(d: string)
    requires d == "00387690000"
    ensures CpfDigitsValid(d)
  {
    CpfSum00387690000();
    CpfSum00387690000Second();
    CpfChecksPass(d, 188, 221, 2);
  }

  /** '11.582.377/0001-12' is the CNPJ '11582377000112'. */
  lemma ExampleFormattedCnpj(v: string)
    requires v == "11.582.377/0001-12"
    ensures Parse(v) == Success(Document("11582377000112"))
  {
    var d := "11582377000112";
    DigitsOfFormattedCnpj(v);
    RejectedCpf11582377000112(d);
    AcceptedCnpj11582377000112(d);
    ParseCnpjDigits(d, d);
    ParseFormatted(v, d, Success(Document(d)));
  }

  lemma RejectedCpf11582377000112(d: string)
    requires d == "11582377000112"
    ensures AllDigits(d) && |d| == 14 && PadStart(d, 14) == d && !CpfDigitsValid(d)
  {
    CpfSum11582377000112();
    CpfFirstCheckFails(d, 191);
  }

  lemma AcceptedCnpj11582377000112(d: string)
    requires d == "11582377000112"
    ensures CnpjDigitsValid(d)
  {
    CnpjSums11582377000112(d);
    CnpjChecksPass(d, 175, 196, 2);
  }

  /** '6327015000145' is padded to the CNPJ '06327015000145'. */
  lemma ExampleShortCnpj(v: string)
    requires v == "6327015000145"
    ensures Parse(v) == Success(Document("06327015000145"))
  {
    ShortCnpjPadded(v);
    RejectedCpf6327015000145(v);
    AcceptedCnpj06327015000145("06327015000145");
    ParseCnpjDigits(v, "06327015000145");
  }

  lemma ShortCnpjPadded(v: string)
    requires v == "6327015000145"
    ensures AllDigits(v) && |v| == 13 && PadStart(v, 14) == "06327015000145"
  {
    assert "06327015000145" == Zeros(1) + v;
    PadsTo(v, 14, "06327015000145");
  }

  lemma RejectedCpf6327015000145(v: string)
    requires v == "6327015000145"
    ensures !CpfDigitsValid(v)
  {
    CpfSum6327015000145();
    CpfSecondCheckFails(v, 201);
  }

  lemma AcceptedCnpj06327015000145(d: string)
    requires d == "06327015000145"
    ensures CnpjDigitsValid(d)
  {
    CnpjSums06327015000145(d);
    CnpjChecksPass(d, 139, 116, 1);
  }

  /** '143.551.660-60' is rejected. */
  lemma ExampleRejectedFormattedCpf(v: string)
    requires v == "143.551.660-60"
    ensures Parse(v) == Failure(InvalidDocumentFailure)
  {
    var w := "14355166060";
    DigitsOfRejectedFormattedCpf(v);
    Padded14355166060(w);
    RejectedCpf14355166060(w);
    RejectedCnpj00014355166060("00014355166060");
    RejectDigits(w, "00014355166060");
    ParseFormatted(v, w, Failure(InvalidDocumentFailure));
  }

  lemma Padded14355166060(w: string)
    requires w == "14355166060"
    ensures AllDigits(w) && |w| == 11 && PadStart(w, 14) == "00014355166060"
  {
    assert "00014355166060" == Zeros(3) + w;
    PadsTo(w, 14, "00014355166060");
  }

  lemma RejectedCpf14355166060(w: string)
    requires w == "14355166060"
    ensures !CpfDigitsValid(w)
  {
    CpfSum14355166060();
    CpfFirstCheckFails(w, 182);
  }

  lemma RejectedCnpj00014355166060(d: string)
    requires d == "00014355166060"
    ensures !CnpjDigitsValid(d)
  {
    CnpjSum00014355166060(d);
    CnpjFirstCheckFails(d, 174);
  }

  /** '15431454158' is rejected: its CPF check fails and so does the second CNPJ check of its padding. */
  lemma ExampleRejectedCpf(v: string)
    requires v == "15431454158"
    ensures Parse(v) == Failure(InvalidDocumentFailure)
  {
    Padded15431454158(v);
    RejectedCpfChecks(v);
    RejectedCnpjChecks("00015431454158");
    RejectDigits(v, "00015431454158");
  }

  lemma Padded15431454158(v: string)
    requires v == "15431454158"
    ensures AllDigits(v) && |v| == 11 && PadStart(v, 14) == "00015431454158"
  {
    assert "00015431454158" == Zeros(3) + v;
    PadsTo(v, 14, "00015431454158");
  }

  lemma RejectedCpfChecks(v: string)
    requires v == "15431454158"
    ensures !CpfDigitsValid(v)
  {
    CpfSum15431454158();
    CpfFirstCheckFails(v, 168);
  }

  lemma RejectedCnpjChecks(d: string)
    requires d == "00015431454158"
    ensures !CnpjDigitsValid(d)
  {
    CnpjSums00015431454158(d);
    CnpjSecondCheckFails(d, 158);
  }

  /** '19934642000125' is rejected. */
  lemma ExampleRejectedCnpj(v: string)
    requires v == "19934642000125"
    ensures Parse(v) == Failure(InvalidDocumentFailure)
  {
    RejectedCpf19934642000125(v);
    RejectedCnpj19934642000125(v);
    RejectDigits(v, v);
  }

  lemma RejectedCpf19934642000125(v: string)
    requires v == "19934642000125"
    ensures AllDigits(v) && |v| == 14 && PadStart(v, 14) == v && !CpfDigitsValid(v)
  {
    CpfSum19934642000125();
    CpfFirstCheckFails(v, 260);
  }

  lemma RejectedCnpj19934642000125(v: string)
    requires v == "19934642000125"
    ensures !CnpjDigitsValid(v)
  {
    CnpjSum19934642000125(v);
    CnpjFirstCheckFails(v, 200);
  }

  /** '55584087000899' is rejected. */
  lemma ExampleRejectedCnpjWithNines(v: string)
    requires v == "55584087000899"
    ensures Parse(v) == Failure(InvalidDocumentFailure)
  {
    RejectedCpf55584087000899(v);
    RejectedCnpj55584087000899(v);
    RejectDigits(v, v);
  }

  lemma RejectedCpf55584087000899(v: string)
    requires v == "55584087000899"
    ensures AllDigits(v) && |v| == 14 && PadStart(v, 14) == v && !CpfDigitsValid(v)
  {
    CpfSum55584087000899();
    CpfFirstCheckFails(v, 268);
  }

  lemma RejectedCnpj55584087000899(v: string)
    requires v == "55584087000899"
    ensures !CnpjDigitsValid(v)
  {
    CnpjSum55584087000899(v);
    CnpjFirstCheckFails(v, 226);
  }

  // ---------------------------------------------------------------------------
  // Further documented examples: the tryParse cases and the documents used by
  // the farmer and farm scenarios
  // ---------------------------------------------------------------------------

  lemma DigitsOf872() ensures OnlyDigits("872.") == "872" { }
  lemma DigitsOf342() ensures OnlyDigits("342.") == "342" { }
  lemma DigitsOf230() ensures OnlyDigits("230-") == "230" { }
  lemma DigitsOf7410() ensures OnlyDigits("74.10") == "7410" { }
  lemma DigitsOf4642() ensures OnlyDigits("4.642") == "4642" { }
  lemma DigitsOf77() ensures OnlyDigits("-77") == "77" { }
  lemma DigitsOf613() ensures OnlyDigits("613.") == "613" { }
  lemma DigitsOf651() ensures OnlyDigits("651.") == "651" { }
  lemma DigitsOf665() ensures OnlyDigits("665-") == "665" { }
  lemma DigitsOf1058() ensures OnlyDigits("10.58") == "1058" { }
  lemma DigitsOf0003() ensures OnlyDigits("/0003") == "0003" { }
  lemma DigitsOf3087() ensures OnlyDigits("3.087") == "3087" { }
  lemma DigitsOf24() ensures OnlyDigits("-24") == "24" { }
  lemma DigitsOf3348() ensures OnlyDigits("33.48") == "3348" { }
  lemma DigitsOf7511() ensures OnlyDigits("7.511") == "7511" { }
  lemma DigitsOf39() ensures OnlyDigits("-39") == "39" { }
  lemma DigitsOf0138() ensures OnlyDigits("01.38") == "0138" { }
  lemma DigitsOf15() ensures OnlyDigits("-15") == "15" { }
  lemma DigitsOf292() ensures OnlyDigits("292.") == "292" { }
  lemma DigitsOf057() ensures OnlyDigits("057.") == "057" { }
  lemma DigitsOf320() ensures OnlyDigits("320-") == "320" { }

  /** '872.342.230-02' is the CPF '87234223002'. */
  lemma ExampleCpf87234223002(v: string)
    requires v == "872.342.230-02"
    ensures Parse(v) == Success(Document("87234223002"))
  {
    var d := "87234223002";
    Digits87234223002(v);
    AcceptedCpf87234223002(d);
    ParseCpfDigits(d, d);
    ParseFormatted(v, d, Success(Document(d)));
  }

  lemma Digits87234223002(v: string)
    requires v == "872.342.230-02"
    ensures OnlyDigits(v) == "87234223002"
  {
    assert v == "872." + "342." + "230-" + "02";
    Digits87234223002Pieces(v);
  }

  lemma Digits87234223002Pieces(v: string)
    requires v == "872." + "342." + "230-" + "02"
    ensures OnlyDigits(v) == "87234223002"
  {
    DigitsOf872();
    DigitsOf342();
    DigitsOf230();
    OnlyDigitsProperties("02");
    DigitsOfFour("872.", "342.", "230-", "02", v);
  }

  lemma CpfSum87234223002()
    ensures CpfSum("87234223002", 9, 10) == 231
  {
    assert CpfSum("87234223002", 5, 10) == 204;
  }

  lemma CpfSum87234223002Second()
    ensures CpfSum("87234223002", 10, 11) == 262
  {
    assert CpfSum("87234223002", 5, 11) == 228;
  }

  lemma AcceptedCpf87234223002(d: string)
    requires d == "87234223002"
    ensures AllDigits(d) && |d| == 11 && PadStart(d, 11) == d && CpfDigitsValid(d)
  {
    CpfSum87234223002();
    CpfSum87234223002Second();
    CpfChecksPass(d, 231, 262, 1);
  }

  /** '66760198093' is a CPF. */
  lemma ExampleCpf66760198093(v: string)
    requires v == "66760198093"
    ensures Parse(v) == Success(Document("66760198093"))
  {
    var d := "66760198093";
    AcceptedCpf66760198093(d);
    ParseCpfDigits(d, d);
  }

  lemma CpfSum66760198093()
    ensures CpfSum("66760198093", 9, 10) == 277
  {
    assert CpfSum("66760198093", 5, 10) == 212;
  }

  lemma CpfSum66760198093Second()
    ensures CpfSum("66760198093", 10, 11) == 338
  {
    assert CpfSum("66760198093", 5, 11) == 237;
  }

  lemma AcceptedCpf66760198093(d: string)
    requires d == "66760198093"
    ensures AllDigits(d) && |d| == 11 && PadStart(d, 11) == d && CpfDigitsValid(d)
  {
    CpfSum66760198093();
    CpfSum66760198093Second();
    CpfChecksPass(d, 277, 338, 2);
  }

  /** '74.104.642/0001-77' is the CNPJ '74104642000177'. */
  lemma ExampleCnpj74104642000177(v: string)
    requires v == "74.104.642/0001-77"
    ensures Parse(v) == Success(Document("74104642000177"))
  {
    var d := "74104642000177";
    Digits74104642000177(v);
    RejectedCpf74104642000177(d);
    AcceptedCnpj74104642000177(d);
    ParseCnpjDigits(d, d);
    ParseFormatted(v, d, Success(Document(d)));
  }

  lemma Digits74104642000177(v: string)
    requires v == "74.104.642/0001-77"
    ensures OnlyDigits(v) == "74104642000177"
  {
    assert v == "74.10" + "4.642" + "/0001" + "-77";
    Digits74104642000177Pieces(v);
  }

  lemma Digits74104642000177Pieces(v: string)
    requires v == "74.10" + "4.642" + "/0001" + "-77"
    ensures OnlyDigits(v) == "74104642000177"
  {
    DigitsOf7410();
    DigitsOf4642();
    DigitsOf0001();
    DigitsOf77();
    DigitsOfFour("74.10", "4.642", "/0001", "-77", v);
  }

  lemma CpfSum74104642000177()
    ensures CpfSum("74104642000177", 9, 10) == 190
  {
    assert CpfSum("74104642000177", 5, 10) == 138;
  }

  lemma RejectedCpf74104642000177(d: string)
    requires d == "74104642000177"
    ensures AllDigits(d) && |d| == 14 && PadStart(d, 14) == d && !CpfDigitsValid(d)
  {
    CpfSum74104642000177();
    CpfFirstCheckFails(d, 190);
  }

  lemma CycleSums74104642000177()
    ensures CycleSum("74104642000177", 11, 12) == 180
  {
    assert CycleSum("74104642000177", 11, 6) == 138;
  }

  lemma CycleSums74104642000177Second()
    ensures CycleSum("74104642000177", 12, 13) == 191
  {
    assert CycleSum("74104642000177", 12, 6) == 128;
  }

  lemma CnpjSums74104642000177(d: string)
    requires d == "74104642000177"
    ensures CnpjSum(d, CnpjWeights1, 12) == 180 && CnpjSum(d, CnpjWeights2, 13) == 191
  {
    CnpjSumIsCycleSum(d, 12);
    CnpjSumIsCycleSum(d, 13);
    CycleSums74104642000177();
    CycleSums74104642000177Second();
  }

  lemma AcceptedCnpj74104642000177(d: string)
    requires d == "74104642000177"
    ensures CnpjDigitsValid(d)
  {
    CnpjSums74104642000177(d);
    CnpjChecksPass(d, 180, 191, 1);
  }

  /** '19914642000124' is a CNPJ. */
  lemma ExampleCnpj19914642000124(v: string)
    requires v == "19914642000124"
    ensures Parse(v) == Success(Document("19914642000124"))
  {
    var d := "19914642000124";
    RejectedCpf19914642000124(d);
    AcceptedCnpj19914642000124(d);
    ParseCnpjDigits(d, d);
  }

  lemma CpfSum19914642000124()
    ensures CpfSum("19914642000124", 9, 10) == 246
  {
    assert CpfSum("19914642000124", 5, 10) == 194;
  }

  lemma RejectedCpf19914642000124(d: string)
    requires d == "19914642000124"
    ensures AllDigits(d) && |d| == 14 && PadStart(d, 14) == d && !CpfDigitsValid(d)
  {
    CpfSum19914642000124();
    CpfFirstCheckFails(d, 246);
  }

  lemma CycleSums19914642000124()
    ensures CycleSum("19914642000124", 11, 12) == 196
  {
    assert CycleSum("19914642000124", 11, 6) == 154;
  }

  lemma CycleSums19914642000124Second()
    ensures CycleSum("19914642000124", 12, 13) == 205
  {
    assert CycleSum("19914642000124", 12, 6) == 152;
  }

  lemma CnpjSums19914642000124(d: string)
    requires d == "19914642000124"
    ensures CnpjSum(d, CnpjWeights1, 12) == 196 && CnpjSum(d, CnpjWeights2, 13) == 205
  {
    CnpjSumIsCycleSum(d, 12);
    CnpjSumIsCycleSum(d, 13);
    CycleSums19914642000124();
    CycleSums19914642000124Second();
  }

  lemma AcceptedCnpj19914642000124(d: string)
    requires d == "19914642000124"
    ensures CnpjDigitsValid(d)
  {
    CnpjSums19914642000124(d);
    CnpjChecksPass(d, 196, 205, 1);
  }

  /** '613.651.665-80' is neither: tryParse is false. */
  lemma ExampleRejectedCpf61365166580(v: string)
    requires v == "613.651.665-80"
    ensures Parse(v) == Failure(InvalidDocumentFailure) && !TryParse(v)
  {
    var w := "61365166580";
    Digits61365166580(v);
    Padded61365166580(w);
    RejectedCpf61365166580(w);
    RejectedCnpj00061365166580("00061365166580");
    RejectDigits(w, "00061365166580");
    ParseFormatted(v, w, Failure(InvalidDocumentFailure));
  }

  lemma Digits61365166580(v: string)
    requires v == "613.651.665-80"
    ensures OnlyDigits(v) == "61365166580"
  {
    assert v == "613." + "651." + "665-" + "80";
    Digits61365166580Pieces(v);
  }

  lemma Digits61365166580Pieces(v: string)
    requires v == "613." + "651." + "665-" + "80"
    ensures OnlyDigits(v) == "61365166580"
  {
    DigitsOf613();
    DigitsOf651();
    DigitsOf665();
    OnlyDigitsProperties("80");
    DigitsOfFour("613.", "651.", "665-", "80", v);
  }

  lemma Padded61365166580(w: string)
    requires w == "61365166580"
    ensures AllDigits(w) && |w| == 11 && PadStart(w, 14) == "00061365166580"
  {
    assert "00061365166580" == Zeros(3) + w;
    PadsTo(w, 14, "00061365166580");
  }

  lemma CpfSum61365166580()
    ensures CpfSum("61365166580", 9, 10) == 222
  {
    assert CpfSum("61365166580", 5, 10) == 165;
  }

  lemma RejectedCpf61365166580(d: string)
    requires d == "61365166580"
    ensures !CpfDigitsValid(d)
  {
    CpfSum61365166580();
    CpfFirstCheckFails(d, 222);
  }

  lemma CycleSums00061365166580()
    ensures CycleSum("00061365166580", 11, 12) == 174
  {
    assert CycleSum("00061365166580", 11, 6) == 45;
  }

  lemma CnpjSum00061365166580(d: string)
    requires d == "00061365166580"
    ensures CnpjSum(d, CnpjWeights1, 12) == 174
  {
    CnpjSumIsCycleSum(d, 12);
    CycleSums00061365166580();
  }

  lemma RejectedCnpj00061365166580(d: string)
    requires d == "00061365166580"
    ensures !CnpjDigitsValid(d)
  {
    CnpjSum00061365166580(d);
    CnpjFirstCheckFails(d, 174);
  }

  /** '10.582.377/0003-12' is rejected: its first CNPJ check digit passes, the second does not. */
  lemma ExampleRejectedCnpj10582377000312(v: string)
    requires v == "10.582.377/0003-12"
    ensures Parse(v) == Failure(InvalidDocumentFailure) && !TryParse(v)
  {
    var d := "10582377000312";
    Digits10582377000312(v);
    RejectedCpf10582377000312(d);
    RejectedCnpj10582377000312(d);
    RejectDigits(d, d);
    ParseFormatted(v, d, Failure(InvalidDocumentFailure));
  }

  lemma Digits10582377000312(v: string)
    requires v == "10.582.377/0003-12"
    ensures OnlyDigits(v) == "10582377000312"
  {
    assert v == "10.58" + "2.377" + "/0003" + "-12";
    Digits10582377000312Pieces(v);
  }

  lemma Digits10582377000312Pieces(v: string)
    requires v == "10.58" + "2.377" + "/0003" + "-12"
    ensures OnlyDigits(v) == "10582377000312"
  {
    DigitsOf1058();
    DigitsOf2377();
    DigitsOf0003();
    DigitsOf12();
    DigitsOfFour("10.58", "2.377", "/0003", "-12", v);
  }

  lemma CpfSum10582377000312()
    ensures CpfSum("10582377000312", 9, 10) == 182
  {
    assert CpfSum("10582377000312", 5, 10) == 118;
  }

  lemma RejectedCpf10582377000312(d: string)
    requires d == "10582377000312"
    ensures AllDigits(d) && |d| == 14 && PadStart(d, 14) == d && !CpfDigitsValid(d)
  {
    CpfSum10582377000312();
    CpfFirstCheckFails(d, 182);
  }

  lemma CycleSums10582377000312Second()
    ensures CycleSum("10582377000312", 12, 13) == 197
  {
    assert CycleSum("10582377000312", 12, 6) == 81;
  }

  lemma CnpjSecondSum10582377000312(d: string)
    requires d == "10582377000312"
    ensures CnpjSum(d, CnpjWeights2, 13) == 197
  {
    CnpjSumIsCycleSum(d, 13);
    CycleSums10582377000312Second();
  }

  lemma RejectedCnpj10582377000312(d: string)
    requires d == "10582377000312"
    ensures !CnpjDigitsValid(d)
  {
    CnpjSecondSum10582377000312(d);
    CnpjSecondCheckFails(d, 197);
  }

  /** '11.583.087/0003-24' is neither: tryParse is false. */
  lemma ExampleRejectedCnpj11583087000324(v: string)
    requires v == "11.583.087/0003-24"
    ensures Parse(v) == Failure(InvalidDocumentFailure) && !TryParse(v)
  {
    var d := "11583087000324";
    Digits11583087000324(v);
    RejectedCpf11583087000324(d);
    RejectedCnpj11583087000324(d);
    RejectDigits(d, d);
    ParseFormatted(v, d, Failure(InvalidDocumentFailure));
  }

  lemma Digits11583087000324(v: string)
    requires v == "11.583.087/0003-24"
    ensures OnlyDigits(v) == "11583087000324"
  {
    assert v == "11.58" + "3.087" + "/0003" + "-24";
    Digits11583087000324Pieces(v);
  }

  lemma Digits11583087000324Pieces(v: string)
    requires v == "11.58" + "3.087" + "/0003" + "-24"
    ensures OnlyDigits(v) == "11583087000324"
  {
    DigitsOf1158();
    DigitsOf3087();
    DigitsOf0003();
    DigitsOf24();
    DigitsOfFour("11.58", "3.087", "/0003", "-24", v);
  }

  lemma CpfSum11583087000324()
    ensures CpfSum("11583087000324", 9, 10) == 186
  {
    assert CpfSum("11583087000324", 5, 10) == 133;
  }

  lemma RejectedCpf11583087000324(d: string)
    requires d == "11583087000324"
    ensures AllDigits(d) && |d| == 14 && PadStart(d, 14) == d && !CpfDigitsValid(d)
  {
    CpfSum11583087000324();
    CpfFirstCheckFails(d, 186);
  }

  lemma CycleSums11583087000324()
    ensures CycleSum("11583087000324", 11, 12) == 171
  {
    assert CycleSum("11583087000324", 11, 6) == 67;
  }

  lemma CnpjSum11583087000324(d: string)
    requires d == "11583087000324"
    ensures CnpjSum(d, CnpjWeights1, 12) == 171
  {
    CnpjSumIsCycleSum(d, 12);
    CycleSums11583087000324();
  }

  lemma RejectedCnpj11583087000324(d: string)
    requires d == "11583087000324"
    ensures !CnpjDigitsValid(d)
  {
    CnpjSum11583087000324(d);
    CnpjFirstCheckFails(d, 171);
  }

  /** '33.487.511/0001-39' is the CNPJ '33487511000139'. */
  lemma ExampleCnpj33487511000139(v: string)
    requires v == "33.487.511/0001-39"
    ensures Parse(v) == Success(Document("33487511000139"))
  {
    var d := "33487511000139";
    Digits33487511000139(v);
    RejectedCpf33487511000139(d);
    AcceptedCnpj33487511000139(d);
    ParseCnpjDigits(d, d);
    ParseFormatted(v, d, Success(Document(d)));
  }

  lemma Digits33487511000139(v: string)
    requires v == "33.487.511/0001-39"
    ensures OnlyDigits(v) == "33487511000139"
  {
    assert v == "33.48" + "7.511" + "/0001" + "-39";
    Digits33487511000139Pieces(v);
  }

  lemma Digits33487511000139Pieces(v: string)
    requires v == "33.48" + "7.511" + "/0001" + "-39"
    ensures OnlyDigits(v) == "33487511000139"
  {
    DigitsOf3348();
    DigitsOf7511();
    DigitsOf0001();
    DigitsOf39();
    DigitsOfFour("33.48", "7.511", "/0001", "-39", v);
  }

  lemma CpfSum33487511000139()
    ensures CpfSum("33487511000139", 9, 10) == 219
  {
    assert CpfSum("33487511000139", 5, 10) == 187;
  }

  lemma RejectedCpf33487511000139(d: string)
    requires d == "33487511000139"
    ensures AllDigits(d) && |d| == 14 && PadStart(d, 14) == d && !CpfDigitsValid(d)
  {
    CpfSum33487511000139();
    CpfFirstCheckFails(d, 219);
  }

  lemma CycleSums33487511000139()
    ensures CycleSum("33487511000139", 11, 12) == 173
  {
    assert CycleSum("33487511000139", 11, 6) == 158;
  }

  lemma CycleSums33487511000139Second()
    ensures CycleSum("33487511000139", 12, 13) == 156
  {
    assert CycleSum("33487511000139", 12, 6) == 132;
  }

  lemma CnpjSums33487511000139(d: string)
    requires d == "33487511000139"
    ensures CnpjSum(d, CnpjWeights1, 12) == 173 && CnpjSum(d, CnpjWeights2, 13) == 156
  {
    CnpjSumIsCycleSum(d, 12);
    CnpjSumIsCycleSum(d, 13);
    CycleSums33487511000139();
    CycleSums33487511000139Second();
  }

  lemma AcceptedCnpj33487511000139(d: string)
    requires d == "33487511000139"
    ensures CnpjDigitsValid(d)
  {
    CnpjSums33487511000139(d);
    CnpjChecksPass(d, 173, 156, 2);
  }

  /** '01.387.511/0001-15' is neither: tryParse is false. */
  lemma ExampleRejectedCnpj01387511000115(v: string)
    requires v == "01.387.511/0001-15"
    ensures Parse(v) == Failure(InvalidDocumentFailure) && !TryParse(v)
  {
    var d := "01387511000115";
    Digits01387511000115(v);
    RejectedCpf01387511000115(d);
    RejectedCnpj01387511000115(d);
    RejectDigits(d, d);
    ParseFormatted(v, d, Failure(InvalidDocumentFailure));
  }

  lemma Digits01387511000115(v: string)
    requires v == "01.387.511/0001-15"
    ensures OnlyDigits(v) == "01387511000115"
  {
    assert v == "01.38" + "7.511" + "/0001" + "-15";
    Digits01387511000115Pieces(v);
  }

  lemma Digits01387511000115Pieces(v: string)
    requires v == "01.38" + "7.511" + "/0001" + "-15"
    ensures OnlyDigits(v) == "01387511000115"
  {
    DigitsOf0138();
    DigitsOf7511();
    DigitsOf0001();
    DigitsOf15();
    DigitsOfFour("01.38", "7.511", "/0001", "-15", v);
  }

  lemma CpfSum01387511000115()
    ensures CpfSum("01387511000115", 9, 10) == 163
  {
    assert CpfSum("01387511000115", 5, 10) == 131;
  }

  lemma RejectedCpf01387511000115(d: string)
    requires d == "01387511000115"
    ensures AllDigits(d) && |d| == 14 && PadStart(d, 14) == d && !CpfDigitsValid(d)
  {
    CpfSum01387511000115();
    CpfFirstCheckFails(d, 163);
  }

  lemma CycleSums01387511000115()
    ensures CycleSum("01387511000115", 11, 12) == 147
  {
    assert CycleSum("01387511000115", 11, 6) == 132;
  }

  lemma CnpjSum01387511000115(d: string)
    requires d == "01387511000115"
    ensures CnpjSum(d, CnpjWeights1, 12) == 147
  {
    CnpjSumIsCycleSum(d, 12);
    CycleSums01387511000115();
  }

  lemma RejectedCnpj01387511000115(d: string)
    requires d == "01387511000115"
    ensures !CnpjDigitsValid(d)
  {
    CnpjSum01387511000115(d);
    CnpjFirstCheckFails(d, 147);
  }

  /** '292.057.320-95' is the CPF '29205732095'. */
  lemma ExampleCpf29205732095(v: string)
    requires v == "292.057.320-95"
    ensures Parse(v) == Success(Document("29205732095"))
  {
    var d := "29205732095";
    Digits29205732095(v);
    AcceptedCpf29205732095(d);
    ParseCpfDigits(d, d);
    ParseFormatted(v, d, Success(Document(d)));
  }

  lemma Digits29205732095(v: string)
    requires v == "292.057.320-95"
    ensures OnlyDigits(v) == "29205732095"
  {
    assert v == "292." + "057." + "320-" + "95";
    Digits29205732095Pieces(v);
  }

  lemma Digits29205732095Pieces(v: string)
    requires v == "292." + "057." + "320-" + "95"
    ensures OnlyDigits(v) == "29205732095"
  {
    DigitsOf292();
    DigitsOf057();
    DigitsOf320();
    OnlyDigitsProperties("95");
    DigitsOfFour("292.", "057.", "320-", "95", v);
  }

  lemma CpfSum29205732095()
    ensures CpfSum("29205732095", 9, 10) == 200
  {
    assert CpfSum("29205732095", 5, 10) == 147;
  }

  lemma CpfSum29205732095Second()
    ensures CpfSum("29205732095", 10, 11) == 248
  {
    assert CpfSum("29205732095", 5, 11) == 165;
  }

  lemma AcceptedCpf29205732095(d: string)
    requires d == "29205732095"
    ensures AllDigits(d) && |d| == 11 && PadStart(d, 11) == d && CpfDigitsValid(d)
  {
    CpfSum29205732095();
    CpfSum29205732095Second();
    CpfChecksPass(d, 200, 248, 1);
  }
}
