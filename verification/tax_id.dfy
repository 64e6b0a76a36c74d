/**
 The validator for Brazilian taxpayer numbers: CPF (individuals, 11 digits) and
 CNPJ (companies, 14 digits). `IsValid` sanitises its input to the ASCII digits,
 classifies it by digit count, rejects strings whose digits are all equal, and
 verifies the two trailing modulo-11 check digits.
 */
module TaxId {
  import opened Digits
  import opened CheckDigit

  /** The four failure reasons the validator reports. */
  datatype Error = InvalidInput | InvalidLength | AllDigitsEqual | InvalidChecksum

  /** `Result<(), &'static str>`: success, or a failure with its reason. */
  datatype Outcome = Pass | Fail(error: Error)

  /** The two document kinds, told apart by their digit count only. */
  datatype Kind = Cpf | Cnpj

  const CpfStandardLength: nat := 11
  const CnpjStandardLength: nat := 14
  const CpfMultiplierWeights: seq<nat> := [11, 10, 9, 8, 7, 6, 5, 4, 3, 2]
  const CnpjMultiplierWeights: seq<nat> := [6, 5, 4, 3, 2, 9, 8, 7, 6, 5, 4, 3, 2]

  function StandardLength(kind: Kind): nat {
    match kind
    case Cpf => CpfStandardLength
    case Cnpj => CnpjStandardLength
  }

  /** The weight table of a kind has one weight per digit except the last: the
      second check digit is computed over all of them. */
  function Weights(kind: Kind): (ws: seq<nat>)
    ensures |ws| == StandardLength(kind) - 1
    ensures StandardLength(kind) >= 2
  {
    match kind
    case Cpf => CpfMultiplierWeights
    case Cnpj => CnpjMultiplierWeights
  }

  /** Every character of `s` equals every other, and there is at least one. */
  ghost predicate AllSame(s: string) {
    |s| > 0 && forall i, j :: 0 <= i < |s| && 0 <= j < |s| ==> s[i] == s[j]
  }

  /** `chars.all(|c| c == first_char)` over the remaining characters. */
  function AllEqualTo(s: string, c: char): (b: bool)
    ensures b <==> forall i :: 0 <= i < |s| ==> s[i] == c
  {
    if |s| == 0 then true else s[0] == c && AllEqualTo(s[1..], c)
  }

  /** `has_all_equal_digits`: false on the empty string, otherwise whether every
      character equals the first. */
  function HasAllEqualDigits(value: string): (b: bool)
    ensures b <==> AllSame(value)
  {
    if |value| == 0 then false else AllEqualTo(value[1..], value[0])
  }

  /** Both trailing digits of `ds` are the check digits the modulo-11 rule names:
      the first for the leading |ds| - 2 digits under all weights but the first,
      the second for the leading |ds| - 1 digits under the whole table. */
  ghost predicate ChecksumHolds(ds: string, weights: seq<nat>)
    requires 2 <= |ds| && |weights| == |ds| - 1 && AllDigits(ds)
  {
    var n := |ds|;
    && IsCheckDigitFor(WeightedSum(ds[..n - 2], weights[1..]), DigitValue(ds[n - 2]))
    && IsCheckDigitFor(WeightedSum(ds[..n - 1], weights), DigitValue(ds[n - 1]))
  }

  /** `is_valid_check_digits`: the characters from position `length - 2` on are
      compared with the two computed check digits rendered as text. The requires
      are what keeps the slicing, the `weights[1..]`, the `assert_eq!` and the
      `expect` of the source from panicking; `IsValid` meets them on every input. */
  function IsValidCheckDigits(value: string, length: nat, weights: seq<nat>): (b: bool)
    requires 2 <= length <= |value| + 1
    requires |weights| == length - 1
    requires AllDigits(value[..length - 1])
    ensures b <==> |value| == length && AllDigits(value) && ChecksumHolds(value, weights)
  {
    assert value[..length - 2] == value[..length - 1][..length - 2];
    var checkDigits := value[length - 2..];
    var first := CalculateCheckDigit(value[..length - 2], weights[1..]);
    var second := CalculateCheckDigit(value[..length - 1], weights);
    var b := checkDigits == [DigitChar(first), DigitChar(second)];
    CheckDigitsMatch(value, length, weights, first, second, b);
    b
  }

  /** The textual comparison of IsValidCheckDigits agrees with the digit-wise
      modulo-11 rule. */
  lemma CheckDigitsMatch(value: string, length: nat, weights: seq<nat>, first: nat, second: nat, b: bool)
    requires 2 <= length <= |value| + 1
    requires |weights| == length - 1
    requires AllDigits(value[..length - 1])
    requires first == CalculateCheckDigit(value[..length - 2], weights[1..])
    requires second == CalculateCheckDigit(value[..length - 1], weights)
    requires b == (value[length - 2..] == [DigitChar(first), DigitChar(second)])
    ensures b <==> |value| == length && AllDigits(value) && ChecksumHolds(value, weights)
  {
    var tail := value[length - 2..];
    if b {
      assert |value| == length;
      assert value[length - 2] == tail[0] == DigitChar(first);
      assert value[length - 1] == tail[1] == DigitChar(second);
      assert AllDigits(value) by {
        forall i | 0 <= i < |value|
          ensures IsAsciiDigit(value[i])
        {
          if i < length - 1 {
            assert value[i] == value[..length - 1][i];
          }
        }
      }
      assert value[..length - 2] == value[..|value| - 2];
      CalculateCheckDigitIff(value[..length - 2], weights[1..], DigitValue(value[length - 2]));
      CalculateCheckDigitIff(value[..length - 1], weights, DigitValue(value[length - 1]));
    }
    if |value| == length && AllDigits(value) && ChecksumHolds(value, weights) {
      CalculateCheckDigitIff(value[..length - 2], weights[1..], DigitValue(value[length - 2]));
      CalculateCheckDigitIff(value[..length - 1], weights, DigitValue(value[length - 1]));
      DigitCharOfValue(value[length - 2]);
      DigitCharOfValue(value[length - 1]);
      assert tail == [value[length - 2], value[length - 1]];
    }
  }

  /** `validate`: the all-equal check comes first, so a degenerate string is
      reported as such whatever its check digits; otherwise the checksum decides. */
  function Validate(value: string, length: nat, weights: seq<nat>): (r: Outcome)
    requires 2 <= length <= |value| + 1
    requires |weights| == length - 1
    requires AllDigits(value[..length - 1])
    ensures r == Fail(AllDigitsEqual) <==> AllSame(value)
    ensures r == Pass <==> !AllSame(value) && |value| == length && AllDigits(value) && ChecksumHolds(value, weights)
    ensures r == Fail(InvalidChecksum) <==> !AllSame(value) && !(|value| == length && AllDigits(value) && ChecksumHolds(value, weights))
  {
    if HasAllEqualDigits(value) then Fail(AllDigitsEqual)
    else if IsValidCheckDigits(value, length, weights) then Pass
    else Fail(InvalidChecksum)
  }

  /** A digit string of the given kind's length, not degenerate, with both
      check digits right. */
  ghost predicate WellFormed(kind: Kind, ds: string) {
    && |ds| == StandardLength(kind)
    && AllDigits(ds)
    && !AllSame(ds)
    && ChecksumHolds(ds, Weights(kind))
  }

  /** A digit string of the given kind's length, not degenerate, whose trailing
      digits break the modulo-11 rule of that kind. */
  ghost predicate BadChecksum(kind: Kind, ds: string) {
    && |ds| == StandardLength(kind)
    && AllDigits(ds)
    && !AllSame(ds)
    && !ChecksumHolds(ds, Weights(kind))
  }

  /** `is_valid`, the entry point: sanitise, reject the empty result, dispatch on
      the digit count, and validate with the matching weight table. Each of the
      five outcomes is reported for exactly one class of inputs:
      - "Invalid input" for inputs without any ASCII digit;
      - "Invalid length" for a digit count other than 0, 11 and 14;
      - "All digits are equal" for 11 or 14 identical digits, whatever their checksum;
      - success for the digits of a well-formed CPF or CNPJ;
      - "Invalid checksum" for the remaining 11- and 14-digit inputs. */
  function IsValid(value: string): (r: Outcome)
    ensures r == Fail(InvalidInput) <==> NoDigits(value)
    ensures r == Fail(InvalidLength) <==>
      var n := |Sanitize(value)|; n != 0 && n != CpfStandardLength && n != CnpjStandardLength
    ensures r == Fail(AllDigitsEqual) <==>
      var ds := Sanitize(value); (|ds| == CpfStandardLength || |ds| == CnpjStandardLength) && AllSame(ds)
    ensures r == Pass <==> WellFormed(Cpf, Sanitize(value)) || WellFormed(Cnpj, Sanitize(value))
    ensures r == Fail(InvalidChecksum) <==> BadChecksum(Cpf, Sanitize(value)) || BadChecksum(Cnpj, Sanitize(value))
  {
    SanitizeEmptyIff(value);
    var sanitized := Sanitize(value);
    if |sanitized| == 0 then Fail(InvalidInput)
    else if |sanitized| == CpfStandardLength then Validate(sanitized, CpfStandardLength, Weights(Cpf))
    else if |sanitized| == CnpjStandardLength then Validate(sanitized, CnpjStandardLength, Weights(Cnpj))
    else Fail(InvalidLength)
  }

  /** Only the sanitised digits matter: validating the sanitised string gives the
      same outcome as validating the raw input. */
  lemma IsValidOfSanitized(value: string)
    ensures IsValid(Sanitize(value)) == IsValid(value)
  {
    SanitizeIdempotent(value);
  }

  /** Formatting is ignored: inserting any run of non-digit characters (dots,
      slashes, hyphens, letters, spaces) anywhere leaves the outcome unchanged. */
  lemma IsValidIgnoresSeparators(prefix: string, separators: string, suffix: string)
    requires NoDigits(separators)
    ensures IsValid(prefix + separators + suffix) == IsValid(prefix + suffix)
  {
    SanitizeIgnoresNonDigits(prefix, separators, suffix);
  }

  /** The CPF weights total 65. */
  lemma CpfWeightTotal()
    ensures Total(CpfMultiplierWeights) == 65
  {
  }

  /** The CNPJ weights total 64. */
  lemma CnpjWeightTotal()
    ensures Total(CnpjMultiplierWeights) == 64
  {
  }

  /** No weight table totals more than 65. */
  lemma WeightTotalBound(kind: Kind)
    ensures Total(Weights(kind)) <= 65
  {
    if kind == Cpf {
      CpfWeightTotal();
    } else {
      CnpjWeightTotal();
    }
  }

  /** Both sums formed for a digit string under a weight table of total at most
      65 are at most 585. */
  lemma SumsFit(ds: string, ws: seq<nat>)
    requires 2 <= |ds| && |ws| == |ds| - 1 && AllDigits(ds)
    requires Total(ws) <= 65
    ensures WeightedSum(ds[..|ds| - 2], ws[1..]) <= 585
    ensures WeightedSum(ds[..|ds| - 1], ws) <= 585
  {
    TotalOfTail(ws);
    assert ds[..|ds| - 2] == ds[..|ds| - 1][..|ds| - 2];
  }

  /** Each weighted sum `calculate_check_digit` forms on a document of either kind
      is at most 9 * 65 = 585, far below the `u32` limit, so the source's sum
      never wraps around. */
  lemma CheckSumsFitU32(kind: Kind, ds: string)
    requires |ds| == StandardLength(kind)
    requires AllDigits(ds)
    ensures WeightedSum(ds[..|ds| - 2], Weights(kind)[1..]) <= 585
    ensures WeightedSum(ds[..|ds| - 1], Weights(kind)) <= 585
    ensures 585 < U32Limit
  {
    WeightTotalBound(kind);
    SumsFit(ds, Weights(kind));
  }
}
