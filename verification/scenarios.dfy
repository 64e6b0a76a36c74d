/**
 Concrete inputs of the validator's documented usage and test suite, with the
 outcome the model gives each of them. Each fact about a literal is kept in a
 lemma of its own, and the general lemmas below put them together, so that every
 proof stays small for the verifier.
 */
module TaxIdScenarios {
  import opened Digits
  import opened CheckDigit
  import opened TaxId

  // General steps.

  /** A weighted sum assembled from the sums of two halves. */
  lemma JoinSums(ds: string, ws: seq<nat>, a: string, b: string, u: seq<nat>, v: seq<nat>, sa: nat, sb: nat)
    requires ds == a + b && ws == u + v
    requires |a| == |u| && |b| == |v| && AllDigits(a) && AllDigits(b)
    requires WeightedSum(a, u) == sa && WeightedSum(b, v) == sb
    ensures AllDigits(ds) && |ds| == |ws|
    ensures WeightedSum(ds, ws) == sa + sb
  {
    WeightedSumAppend(a, b, u, v);
  }

  /** The checksum of a digit string follows from its two weighted sums. */
  lemma ChecksumFromSums(ds: string, ws: seq<nat>, s1: nat, s2: nat)
    requires 2 <= |ds| && |ws| == |ds| - 1 && AllDigits(ds)
    requires WeightedSum(ds[..|ds| - 2], ws[1..]) == s1
    requires WeightedSum(ds[..|ds| - 1], ws) == s2
    ensures ChecksumHolds(ds, ws) <==> CheckDigitOf(s1) == DigitValue(ds[|ds| - 2]) && CheckDigitOf(s2) == DigitValue(ds[|ds| - 1])
  {
    CheckDigitOfIff(s1, DigitValue(ds[|ds| - 2]));
    CheckDigitOfIff(s2, DigitValue(ds[|ds| - 1]));
  }

  /** An input whose digits form a well-formed document is accepted. */
  lemma Accepted(v: string, kind: Kind, ds: string)
    requires Sanitize(v) == ds && WellFormed(kind, ds)
    ensures IsValid(v) == Pass
  {
  }

  /** A non-degenerate input of a document's length with wrong check digits is
      rejected by its checksum. */
  lemma ChecksumRejected(v: string, kind: Kind, ds: string)
    requires Sanitize(v) == ds && |ds| == StandardLength(kind) && AllDigits(ds)
    requires !AllSame(ds) && !ChecksumHolds(ds, Weights(kind))
    ensures IsValid(v) == Fail(InvalidChecksum)
  {
  }

  /** An input of a document's length whose digits are all the same is rejected
      as degenerate. */
  lemma DegenerateRejected(v: string, kind: Kind, ds: string)
    requires Sanitize(v) == ds && |ds| == StandardLength(kind) && AllSame(ds)
    ensures IsValid(v) == Fail(AllDigitsEqual)
  {
  }

  /** An input with some digits, but neither 11 nor 14, is rejected by length. */
  lemma LengthRejected(v: string, n: nat)
    requires |Sanitize(v)| == n && n != 0 && n != CpfStandardLength && n != CnpjStandardLength
    ensures IsValid(v) == Fail(InvalidLength)
  {
  }

  /** The pairwise reading of AllSame follows from every character being `c`. */
  lemma AllSameOf(s: string, c: char)
    requires |s| > 0 && forall i :: 0 <= i < |s| ==> s[i] == c
    ensures AllSame(s)
  {
  }

  // The sample CPF 123.456.789-09.

  lemma CpfSampleSum1Head()
    ensures AllDigits("1234") && |"1234"| == 4
    ensures WeightedSum("1234", [10, 9, 8, 7]) == 80
  {
  }

  lemma CpfSampleSum1Tail()
    ensures AllDigits("56789") && |"56789"| == 5
    ensures WeightedSum("56789", [6, 5, 4, 3, 2]) == 130
  {
  }

  lemma CpfSampleSum1Split()
    ensures "123456789" == "1234" + "56789"
    ensures CpfMultiplierWeights[1..] == [10, 9, 8, 7] + [6, 5, 4, 3, 2]
  {
  }

  /** The first weighted sum of the sample CPF. */
  lemma CpfSampleSum1()
    ensures WeightedSum("123456789", CpfMultiplierWeights[1..]) == 210
  {
    CpfSampleSum1Head();
    CpfSampleSum1Tail();
    CpfSampleSum1Split();
    JoinSums("123456789", CpfMultiplierWeights[1..], "1234", "56789", [10, 9, 8, 7], [6, 5, 4, 3, 2], 80, 130);
  }

  lemma CpfSampleSum2Head()
    ensures AllDigits("12345") && |"12345"| == 5
    ensures WeightedSum("12345", [11, 10, 9, 8, 7]) == 125
  {
  }

  lemma CpfSampleSum2Tail()
    ensures AllDigits("67890") && |"67890"| == 5
    ensures WeightedSum("67890", [6, 5, 4, 3, 2]) == 130
  {
  }

  lemma CpfSampleSum2Split()
    ensures "1234567890" == "12345" + "67890"
    ensures CpfMultiplierWeights == [11, 10, 9, 8, 7] + [6, 5, 4, 3, 2]
  {
  }

  /** The second weighted sum of the sample CPF. */
  lemma CpfSampleSum2()
    ensures WeightedSum("1234567890", CpfMultiplierWeights) == 255
  {
    CpfSampleSum2Head();
    CpfSampleSum2Tail();
    CpfSampleSum2Split();
    JoinSums("1234567890", CpfMultiplierWeights, "12345", "67890", [11, 10, 9, 8, 7], [6, 5, 4, 3, 2], 125, 130);
  }

  lemma CpfSampleShape()
    ensures AllDigits("12345678909")
    ensures "12345678909"[..9] == "123456789"
    ensures "12345678909"[..10] == "1234567890"
    ensures DigitValue("12345678909"[9]) == 0
    ensures DigitValue("12345678909"[10]) == 9
    ensures !AllSame("12345678909")
  {
    var ds := "12345678909";
    assert ds[0] != ds[1];
  }

  /** The remainder rule on the sample CPF's sums: 210 leaves remainder 1, so
      the digit is 0, and 255 leaves remainder 2, so the digit is 9. */
  lemma CpfSampleDigits()
    ensures CheckDigitOf(210) == 0 && CheckDigitOf(255) == 9
  {
  }

  /** Both check digits of 123.456.789-09 are right: 0 from the sum 210 and 9
      from the sum 255. */
  lemma CpfSampleChecksum()
    ensures WellFormed(Cpf, "12345678909")
  {
    CpfSampleShape();
    CpfSampleSum1();
    CpfSampleSum2();
    CpfSampleDigits();
    ChecksumFromSums("12345678909", CpfMultiplierWeights, 210, 255);
  }

  lemma CpfSampleGroups()
    ensures AllDigitGroups(["123", "456", "789", "09"]) && AllSeparators([".", ".", "-"])
  {
  }

  lemma CpfSampleWritten()
    ensures Interleave(["123", "456", "789", "09"], [".", ".", "-"]) == "123.456.789-09"
  {
  }

  lemma CpfSampleJoined()
    ensures Concat(["123", "456", "789", "09"]) == "12345678909"
  {
  }

  lemma CpfSampleFormatted()
    ensures Sanitize("123.456.789-09") == "12345678909"
  {
    CpfSampleGroups();
    CpfSampleWritten();
    CpfSampleJoined();
    SanitizeFormatted(["123", "456", "789", "09"], [".", ".", "-"]);
  }

  /** A plain and a formatted CPF are both accepted. */
  lemma ValidCpf()
    ensures IsValid("12345678909") == Pass
    ensures IsValid("123.456.789-09") == Pass
  {
    CpfSampleShape();
    SanitizeFixesDigits("12345678909");
    CpfSampleChecksum();
    Accepted("12345678909", Cpf, "12345678909");
    CpfSampleFormatted();
    Accepted("123.456.789-09", Cpf, "12345678909");
  }

  // The sample CNPJ 12.345.678/0001-95 and its misspelling 12.345.678/0001-99.

  lemma CnpjSampleSum1Parts()
    ensures WeightedSum("1234", [5, 4, 3, 2]) == 30
    ensures WeightedSum("5678", [9, 8, 7, 6]) == 190
  {
  }

  lemma CnpjSampleSum1Tail()
    ensures AllDigits("0001") && |"0001"| == 4
    ensures WeightedSum("0001", [5, 4, 3, 2]) == 2
  {
  }

  lemma CnpjSampleSum1Pieces()
    ensures "12345678" == "1234" + "5678"
    ensures [5, 4, 3, 2, 9, 8, 7, 6] == [5, 4, 3, 2] + [9, 8, 7, 6]
  {
  }

  lemma CnpjSampleSum1Split()
    ensures "123456780001" == "12345678" + "0001"
    ensures CnpjMultiplierWeights[1..] == [5, 4, 3, 2, 9, 8, 7, 6] + [5, 4, 3, 2]
  {
  }

  lemma CnpjSampleSum1Head()
    ensures AllDigits("12345678") && |"12345678"| == 8
    ensures WeightedSum("12345678", [5, 4, 3, 2, 9, 8, 7, 6]) == 220
  {
    CnpjSampleSum1Parts();
    CnpjSampleSum1Pieces();
    JoinSums("12345678", [5, 4, 3, 2, 9, 8, 7, 6], "1234", "5678", [5, 4, 3, 2], [9, 8, 7, 6], 30, 190);
  }

  lemma CnpjSampleSum1()
    ensures WeightedSum("123456780001", CnpjMultiplierWeights[1..]) == 222
  {
    CnpjSampleSum1Head();
    CnpjSampleSum1Tail();
    CnpjSampleSum1Split();
    JoinSums("123456780001", CnpjMultiplierWeights[1..], "12345678", "0001", [5, 4, 3, 2, 9, 8, 7, 6], [5, 4, 3, 2], 220, 2);
  }

  lemma CnpjSampleSum2Parts()
    ensures WeightedSum("12345", [6, 5, 4, 3, 2]) == 50
    ensures WeightedSum("678", [9, 8, 7]) == 166
  {
  }

  lemma CnpjSampleSum2Tail()
    ensures AllDigits("00019") && |"00019"| == 5
    ensures WeightedSum("00019", [6, 5, 4, 3, 2]) == 21
  {
  }

  lemma CnpjSampleSum2Pieces()
    ensures "12345678" == "12345" + "678"
    ensures [6, 5, 4, 3, 2, 9, 8, 7] == [6, 5, 4, 3, 2] + [9, 8, 7]
  {
  }

  lemma CnpjSampleSum2Split()
    ensures "1234567800019" == "12345678" + "00019"
    ensures CnpjMultiplierWeights == [6, 5, 4, 3, 2, 9, 8, 7] + [6, 5, 4, 3, 2]
  {
  }

  lemma CnpjSampleSum2Head()
    ensures AllDigits("12345678") && |"12345678"| == 8
    ensures WeightedSum("12345678", [6, 5, 4, 3, 2, 9, 8, 7]) == 216
  {
    CnpjSampleSum2Parts();
    CnpjSampleSum2Pieces();
    JoinSums("12345678", [6, 5, 4, 3, 2, 9, 8, 7], "12345", "678", [6, 5, 4, 3, 2], [9, 8, 7], 50, 166);
  }

  lemma CnpjSampleSum2()
    ensures WeightedSum("1234567800019", CnpjMultiplierWeights) == 237
  {
    CnpjSampleSum2Head();
    CnpjSampleSum2Tail();
    CnpjSampleSum2Split();
    JoinSums("1234567800019", CnpjMultiplierWeights, "12345678", "00019", [6, 5, 4, 3, 2, 9, 8, 7], [6, 5, 4, 3, 2], 216, 21);
  }

  /** The shape of a 14-digit string on the sample base 123456780001 whose first
      check digit is 9 and whose second is `d2`. */
  lemma CnpjSampleShape(ds: string, d2: char)
    requires IsAsciiDigit(d2)
    requires ds == "1234567800019" + [d2]
    ensures AllDigits(ds) && |ds| == 14
    ensures ds[..12] == "123456780001"
    ensures ds[..13] == "1234567800019"
    ensures DigitValue(ds[12]) == 9 && ds[13] == d2
    ensures !AllSame(ds)
  {
    assert ds[0] != ds[1];
  }

  /** The remainder rule on the sample CNPJ's sums: 222 leaves remainder 2, so
      the digit is 9, and 237 leaves remainder 6, so the digit is 5. */
  lemma CnpjSampleDigits()
    ensures CheckDigitOf(222) == 9 && CheckDigitOf(237) == 5
  {
  }

  /** The check digits of the base 123456780001 are 9, from the sum 222, and 5,
      from the sum 237: a string on that base with first check digit 9 passes its
      checksum exactly when its second check digit is 5. */
  lemma CnpjSampleChecksum(ds: string, d2: char)
    requires IsAsciiDigit(d2)
    requires ds == "1234567800019" + [d2]
    ensures AllDigits(ds) && |ds| == 14 && !AllSame(ds)
    ensures ChecksumHolds(ds, CnpjMultiplierWeights) <==> d2 == '5'
  {
    CnpjSampleShape(ds, d2);
    CnpjSampleSum1();
    CnpjSampleSum2();
    CnpjSampleDigits();
    ChecksumFromSums(ds, CnpjMultiplierWeights, 222, 237);
  }

  lemma CnpjSampleGroups()
    ensures AllDigitGroups(["12", "345", "678", "0001", "9"]) && AllSeparators([".", ".", "/", "-"])
  {
  }

  lemma CnpjSampleWritten()
    ensures Interleave(["12", "345", "678", "0001", "9"], [".", ".", "/", "-"]) == "12.345.678/0001-9"
  {
  }

  lemma CnpjSampleJoined()
    ensures Concat(["12", "345", "678", "0001", "9"]) == "1234567800019"
  {
  }

  /** The sample CNPJ as written, with any final digit `d2`, sanitises to its
      fourteen digits. */
  lemma CnpjSampleFormatted(d2: char)
    requires IsAsciiDigit(d2)
    ensures Sanitize("12.345.678/0001-9" + [d2]) == "1234567800019" + [d2]
  {
    CnpjSampleGroups();
    CnpjSampleWritten();
    CnpjSampleJoined();
    SanitizeFormatted(["12", "345", "678", "0001", "9"], [".", ".", "/", "-"]);
    SanitizeAppend("12.345.678/0001-9", [d2]);
    SanitizeSingle(d2);
  }

  lemma CnpjSampleEndings()
    ensures "12.345.678/0001-9" + ['5'] == "12.345.678/0001-95"
    ensures "12.345.678/0001-9" + ['9'] == "12.345.678/0001-99"
  {
  }

  /** A formatted CNPJ is accepted. */
  lemma ValidCnpj()
    ensures IsValid("12.345.678/0001-95") == Pass
  {
    var ds := "1234567800019" + ['5'];
    CnpjSampleChecksum(ds, '5');
    CnpjSampleFormatted('5');
    CnpjSampleEndings();
    Accepted("12.345.678/0001-95", Cnpj, ds);
  }

  /** A CNPJ with a wrong second check digit fails the checksum. */
  lemma WrongCheckDigits()
    ensures IsValid("12.345.678/0001-99") == Fail(InvalidChecksum)
  {
    var ds := "1234567800019" + ['9'];
    CnpjSampleChecksum(ds, '9');
    CnpjSampleFormatted('9');
    CnpjSampleEndings();
    ChecksumRejected("12.345.678/0001-99", Cnpj, ds);
  }

  // Degenerate and malformed inputs.

  lemma ZeroCpfGroups()
    ensures AllDigitGroups(["000", "000", "000", "00"]) && AllSeparators([".", ".", "-"])
  {
  }

  lemma ZeroCpfWritten()
    ensures Interleave(["000", "000", "000", "00"], [".", ".", "-"]) == "000.000.000-00"
  {
  }

  lemma ZeroCpfJoined()
    ensures Concat(["000", "000", "000", "00"]) == "00000000000"
  {
  }

  lemma ZeroCpf()
    ensures Sanitize("000.000.000-00") == "00000000000"
  {
    ZeroCpfGroups();
    ZeroCpfWritten();
    ZeroCpfJoined();
    SanitizeFormatted(["000", "000", "000", "00"], [".", ".", "-"]);
  }

  lemma ZeroCnpjGroups()
    ensures AllDigitGroups(["00", "000", "000", "0000", "00"]) && AllSeparators([".", ".", "/", "-"])
  {
  }

  lemma ZeroCnpjWritten()
    ensures Interleave(["00", "000", "000", "0000", "00"], [".", ".", "/", "-"]) == "00.000.000/0000-00"
  {
  }

  lemma ZeroCnpjJoined()
    ensures Concat(["00", "000", "000", "0000", "00"]) == "00000000000000"
  {
  }

  lemma ZeroCnpj()
    ensures Sanitize("00.000.000/0000-00") == "00000000000000"
  {
    ZeroCnpjGroups();
    ZeroCnpjWritten();
    ZeroCnpjJoined();
    SanitizeFormatted(["00", "000", "000", "0000", "00"], [".", ".", "/", "-"]);
  }

  lemma ZeroCpfAllSame()
    ensures AllSame("00000000000")
  {
    AllSameOf("00000000000", '0');
  }

  lemma ZeroCnpjAllSame()
    ensures AllSame("00000000000000")
  {
    AllSameOf("00000000000000", '0');
  }

  /** The all-zero CPF is rejected as degenerate. */
  lemma DegenerateCpf()
    ensures IsValid("000.000.000-00") == Fail(AllDigitsEqual)
  {
    ZeroCpf();
    ZeroCpfAllSame();
    DegenerateRejected("000.000.000-00", Cpf, "00000000000");
  }

  /** The all-zero CNPJ is rejected as degenerate. */
  lemma DegenerateCnpj()
    ensures IsValid("00.000.000/0000-00") == Fail(AllDigitsEqual)
  {
    ZeroCnpj();
    ZeroCnpjAllSame();
    DegenerateRejected("00.000.000/0000-00", Cnpj, "00000000000000");
  }

  lemma AllZeroCpfSum1Parts()
    ensures AllDigits("0000") && WeightedSum("0000", [10, 9, 8, 7]) == 0
    ensures AllDigits("00000") && WeightedSum("00000", [6, 5, 4, 3, 2]) == 0
  {
  }

  lemma AllZeroCpfSum1Split()
    ensures "000000000" == "0000" + "00000"
    ensures CpfMultiplierWeights[1..] == [10, 9, 8, 7] + [6, 5, 4, 3, 2]
  {
  }

  lemma AllZeroCpfSum1()
    ensures WeightedSum("000000000", CpfMultiplierWeights[1..]) == 0
  {
    AllZeroCpfSum1Parts();
    AllZeroCpfSum1Split();
    JoinSums("000000000", CpfMultiplierWeights[1..], "0000", "00000", [10, 9, 8, 7], [6, 5, 4, 3, 2], 0, 0);
  }

  lemma AllZeroCpfSum2Parts()
    ensures AllDigits("00000") && WeightedSum("00000", [11, 10, 9, 8, 7]) == 0
    ensures WeightedSum("00000", [6, 5, 4, 3, 2]) == 0
  {
  }

  lemma AllZeroCpfSum2Split()
    ensures "0000000000" == "00000" + "00000"
    ensures CpfMultiplierWeights == [11, 10, 9, 8, 7] + [6, 5, 4, 3, 2]
  {
  }

  lemma AllZeroCpfSum2()
    ensures WeightedSum("0000000000", CpfMultiplierWeights) == 0
  {
    AllZeroCpfSum2Parts();
    AllZeroCpfSum2Split();
    JoinSums("0000000000", CpfMultiplierWeights, "00000", "00000", [11, 10, 9, 8, 7], [6, 5, 4, 3, 2], 0, 0);
  }

  lemma AllZeroCpfShape()
    ensures AllDigits("00000000000")
    ensures "00000000000"[..9] == "000000000"
    ensures "00000000000"[..10] == "0000000000"
    ensures DigitValue("00000000000"[9]) == 0
    ensures DigitValue("00000000000"[10]) == 0
  {
  }

  /** The all-zero CPF satisfies the modulo-11 rule, so only the all-equal check
      keeps it from being accepted. */
  lemma AllZeroCpfHasValidChecksum()
    ensures ChecksumHolds("00000000000", CpfMultiplierWeights)
  {
    AllZeroCpfSum1();
    AllZeroCpfSum2();
    AllZeroCpfShape();
    ChecksumFromSums("00000000000", CpfMultiplierWeights, 0, 0);
    assert CheckDigitOf(0) == 0;
  }

  lemma ShortCpfGroups()
    ensures AllDigitGroups(["123", "456", "789"]) && AllSeparators([".", "."])
  {
  }

  lemma ShortCpfWritten()
    ensures Interleave(["123", "456", "789"], [".", "."]) == "123.456.789"
  {
  }

  lemma ShortCpfJoined()
    ensures Concat(["123", "456", "789"]) == "123456789"
  {
  }

  lemma ShortCpfLength()
    ensures Sanitize("123.456.789") == "123456789"
  {
    ShortCpfGroups();
    ShortCpfWritten();
    ShortCpfJoined();
    SanitizeFormatted(["123", "456", "789"], [".", "."]);
  }

  lemma ShortCnpjGroups()
    ensures AllDigitGroups(["12", "345", "678", "0001"]) && AllSeparators([".", ".", "/"])
  {
  }

  lemma ShortCnpjWritten()
    ensures Interleave(["12", "345", "678", "0001"], [".", ".", "/"]) == "12.345.678/0001"
  {
  }

  lemma ShortCnpjJoined()
    ensures Concat(["12", "345", "678", "0001"]) == "123456780001"
  {
  }

  lemma ShortCnpjLength()
    ensures Sanitize("12.345.678/0001") == "123456780001"
  {
    ShortCnpjGroups();
    ShortCnpjWritten();
    ShortCnpjJoined();
    SanitizeFormatted(["12", "345", "678", "0001"], [".", ".", "/"]);
  }

  /** The letters count as separators, as does the trailing `x`, which ends an
      empty last group. */
  lemma LettersInsideGroups()
    ensures AllDigitGroups(["123", "789", "0", ""]) && AllSeparators([".abc.", "-", "x"])
  {
  }

  lemma LettersInsideWritten()
    ensures Interleave(["123", "789", "0", ""], [".abc.", "-", "x"]) == "123.abc.789-0x"
  {
  }

  lemma LettersInsideJoined()
    ensures Concat(["123", "789", "0", ""]) == "1237890"
  {
  }

  lemma LettersInsideLength()
    ensures Sanitize("123.abc.789-0x") == "1237890"
  {
    LettersInsideGroups();
    LettersInsideWritten();
    LettersInsideJoined();
    SanitizeFormatted(["123", "789", "0", ""], [".abc.", "-", "x"]);
  }

  lemma ThreeDigitsLength()
    ensures Sanitize("123") == "123"
  {
    SanitizeFixesDigits("123");
  }

  /** A CPF missing its check digits is rejected by length. */
  lemma ShortCpfRejected()
    ensures IsValid("123.456.789") == Fail(InvalidLength)
  {
    ShortCpfLength();
    LengthRejected("123.456.789", 9);
  }

  /** A CNPJ missing its check digits is rejected by length. */
  lemma ShortCnpjRejected()
    ensures IsValid("12.345.678/0001") == Fail(InvalidLength)
  {
    ShortCnpjLength();
    LengthRejected("12.345.678/0001", 12);
  }

  /** Three digits are rejected by length. */
  lemma ThreeDigitsRejected()
    ensures IsValid("123") == Fail(InvalidLength)
  {
    ThreeDigitsLength();
    LengthRejected("123", 3);
  }

  /** Digits pulled out from among letters are validated as such: seven of them
      are rejected by length, not as malformed input. */
  lemma LettersInsideRejected()
    ensures IsValid("123.abc.789-0x") == Fail(InvalidLength)
  {
    LettersInsideLength();
    LengthRejected("123.abc.789-0x", 7);
  }

  /** Input without any digit is rejected as invalid input. */
  lemma NoDigitInputs()
    ensures IsValid("") == Fail(InvalidInput)
    ensures IsValid("abc.-/") == Fail(InvalidInput)
  {
  }

  /** `has_all_equal_digits` holds of eleven ones and not of the empty string. */
  lemma AllEqualDigitsExamples()
    ensures HasAllEqualDigits("11111111111")
    ensures !HasAllEqualDigits("")
  {
    AllSameOf("11111111111", '1');
  }
}
