# Brazilian tax-ID validator, modelled in Dafny

This project models `BrazilTaxIdValidator` from the `docval` crate. The validator
checks Brazilian taxpayer numbers:

- CPF (Cadastro de Pessoas Físicas), the 11-digit number of an individual;
- CNPJ (Cadastro Nacional da Pessoa Jurídica), the 14-digit number of a company.

`is_valid` is a pure pipeline with five steps:

1. Keep only the ASCII digits of the input.
2. Reject an empty result as "Invalid input".
3. Read the document kind off the digit count. Any count other than 11 or 14 is "Invalid length".
4. Reject a string whose digits are all equal.
5. Compare the two trailing digits with the two weighted modulo-11 check digits.

The model has four modules:

- `Digits` (digits.dfy): the digit predicate, digit values and renderings, and the sanitising filter with its algebra.
- `CheckDigit` (check_digit.dfy): the weighted sum and the remainder rule. It also has an independent statement of the modulo-11 rule, `IsCheckDigitFor`: the check digit is the decimal digit that completes the sum to a multiple of 11, or 0 when no decimal digit does.
- `TaxId` (tax_id.dfy): the outcome datatype, the weight tables, `has_all_equal_digits`, `is_valid_check_digits`, `validate` and `is_valid`, whose contract characterises each of its five outcomes.
- `TaxIdScenarios` (scenarios.dfy): the repository's test inputs, each proved to get the outcome its test expects.

Every panic site of the source is a `requires` of the member that models it:

- the `assert_eq!` on lengths;
- the `expect` on the digit conversion;
- the slicing;
- the `length - 2` subtraction.

`IsValid` meets these requires on every input, which is the proof that none of these panics can fire.

## Model

| member | source | states |
|---|---|---|
| Digits.DigitValue | src/brazil/tax_id.rs:122 | converting a decimal digit character yields a value of at most 9 |
| Digits.DigitChar | src/brazil/tax_id.rs:111 | rendering a single digit gives one ASCII digit character that reads back as that digit |
| Digits.DigitCharOfValue | src/brazil/tax_id.rs:111-112 | reading a digit character and rendering it again gives the same character, so the textual comparison is a digit comparison |
| Digits.Sanitize | src/brazil/tax_id.rs:81-83 | the sanitised string holds only ASCII digits and is no longer than the input |
| Digits.SanitizeAppend | src/brazil/tax_id.rs:81-83 | sanitising distributes over concatenation, so digits keep their order and each part contributes its own digits |
| Digits.SanitizeSingle | src/brazil/tax_id.rs:82 | one character is kept exactly when it is an ASCII digit |
| Digits.SanitizeCount | src/brazil/tax_id.rs:81-83 | each digit occurs in the result as often as in the input, and every non-digit occurs zero times |
| Digits.SanitizeCounts | src/brazil/tax_id.rs:81-83 | the multiset form of the previous row, for all characters at once |
| Digits.SanitizeFixesDigits | src/brazil/tax_id.rs:81-83 | a string of digits only is left unchanged |
| Digits.SanitizeIdempotent | src/brazil/tax_id.rs:81-83 | sanitising twice equals sanitising once |
| Digits.SanitizeMembers | src/brazil/tax_id.rs:81-83 | a character occurs in the result if and only if it is a digit occurring in the input |
| Digits.SanitizeEmptyIff | src/brazil/tax_id.rs:60-61 | the sanitised string is empty if and only if the input contains no ASCII digit |
| Digits.SanitizeIgnoresNonDigits | src/brazil/tax_id.rs:81-83 | inserting non-digit characters anywhere leaves the sanitised string unchanged |
| Digits.SanitizeFormatted | src/brazil/tax_id.rs:57-60 | a number written as any sequence of digit groups, consecutive groups separated by runs of non-digits, sanitises to its groups joined together |
| CheckDigit.WeightedSum | src/brazil/tax_id.rs:118-124 | the weighted sum of the digits is at most nine times the total of the weights |
| CheckDigit.WeightedSumAppend | src/brazil/tax_id.rs:118-124 | the weighted sum of a concatenation is the sum of the two parts' weighted sums, each digit paired with its own weight |
| CheckDigit.CompletesByRemainder | src/brazil/tax_id.rs:126 | whether a digit completes a sum to a multiple of 11 depends only on the sum's remainder modulo 11 |
| CheckDigit.CheckDigitUnique | src/brazil/tax_id.rs:126-131 | at most one digit satisfies the modulo-11 rule for a given sum |
| CheckDigit.CheckDigitOf | src/brazil/tax_id.rs:126-131 | the remainder rule always yields a single decimal digit, and it is the digit the modulo-11 rule names |
| CheckDigit.CheckDigitOfIff | src/brazil/tax_id.rs:126-131 | the remainder rule returns d if and only if d is the modulo-11 check digit of the sum |
| CheckDigit.CalculateCheckDigit | src/brazil/tax_id.rs:115-132 | the check digit of a digit string under a weight table of equal length is in 0..9 and satisfies the modulo-11 rule for the weighted sum |
| CheckDigit.CalculateCheckDigitIff | src/brazil/tax_id.rs:115-132 | the computed check digit equals d if and only if d satisfies the modulo-11 rule for the weighted sum |
| TaxId.Weights | src/brazil/tax_id.rs:50-53 | each weight table has one weight fewer than its kind's digit count, so both check-digit calls pass equal lengths |
| TaxId.AllEqualTo | src/brazil/tax_id.rs:101 | the iterator test holds exactly when every remaining character equals the first |
| TaxId.HasAllEqualDigits | src/brazil/tax_id.rs:98-104 | true exactly when the string is non-empty and all its characters are pairwise equal |
| TaxId.IsValidCheckDigits | src/brazil/tax_id.rs:107-113 | the textual comparison succeeds if and only if the string has the given length, is all digits, and both trailing digits satisfy the modulo-11 rule for their prefixes and weights |
| TaxId.CheckDigitsMatch | src/brazil/tax_id.rs:108-112 | comparing the trailing characters with the rendered check digits agrees with the digit-wise modulo-11 rule, in both directions |
| TaxId.Validate | src/brazil/tax_id.rs:86-95 | "All digits are equal" exactly for all-equal strings, whatever their checksum; otherwise success exactly when the checksum holds, and "Invalid checksum" exactly when it does not |
| TaxId.IsValid | src/brazil/tax_id.rs:59-69 | each outcome is characterised, both ways: "Invalid input" if and only if the input holds no ASCII digit; "Invalid length" if and only if the digit count is neither 0, 11 nor 14; "All digits are equal" if and only if there are 11 or 14 digits, all equal, whatever their checksum; success if and only if the digits form a well-formed CPF (11 digits checked with the CPF weights) or CNPJ (14 digits checked with the CNPJ weights); "Invalid checksum" if and only if the digits have one kind's length, are not all equal, and break that kind's modulo-11 rule |
| TaxId.IsValidOfSanitized | src/brazil/tax_id.rs:59-60 | validating the sanitised digits gives the same outcome as validating the raw input |
| TaxId.IsValidIgnoresSeparators | src/brazil/tax_id.rs:57-60 | inserting any run of non-digit characters into the input leaves the outcome unchanged |
| TaxId.CpfWeightTotal | src/brazil/tax_id.rs:52 | the CPF weights total 65 |
| TaxId.CnpjWeightTotal | src/brazil/tax_id.rs:53 | the CNPJ weights total 64 |
| TaxId.WeightTotalBound | src/brazil/tax_id.rs:52-53 | neither weight table totals more than 65 |
| TaxId.SumsFit | src/brazil/tax_id.rs:109-110 | both sums formed under a table of total at most 65 are at most 585 |
| TaxId.CheckSumsFitU32 | src/brazil/tax_id.rs:118-124 | every weighted sum the validator forms is at most 585, below 2^32, so the `u32` sum never wraps |
| TaxIdScenarios.ChecksumFromSums | src/brazil/tax_id.rs:107-113 | given the two weighted sums of a digit string, its checksum holds exactly when the remainder rule of each sum gives the matching trailing digit |
| TaxIdScenarios.CpfSampleSum1 | src/brazil/tax_id.rs:109 | the first weighted sum of the CPF 123.456.789-09 is 210 |
| TaxIdScenarios.CpfSampleSum2 | src/brazil/tax_id.rs:110 | the second weighted sum of the CPF 123.456.789-09 is 255 |
| TaxIdScenarios.CpfSampleChecksum | src/brazil/tax_id.rs:16-19 | 12345678909 is a well-formed CPF: its check digits are 0 (from 210) and 9 (from 255) |
| TaxIdScenarios.CpfSampleFormatted | tests/brazil_tax_id_validator.rs:10-13 | 123.456.789-09 sanitises to 12345678909 |
| TaxIdScenarios.ValidCpf | tests/brazil_tax_id_validator.rs:4-13 | the plain and the formatted sample CPF are both accepted |
| TaxIdScenarios.CnpjSampleSum1 | src/brazil/tax_id.rs:109 | the first weighted sum of the CNPJ 12.345.678/0001-95 is 222 |
| TaxIdScenarios.CnpjSampleSum2 | src/brazil/tax_id.rs:110 | the second weighted sum of the CNPJ 12.345.678/0001-95 is 237 |
| TaxIdScenarios.CnpjSampleChecksum | src/brazil/tax_id.rs:107-113 | on the base 123456780001 with first check digit 9, the checksum holds if and only if the second check digit is 5 |
| TaxIdScenarios.CnpjSampleFormatted | src/brazil/tax_id.rs:17 | the formatted sample CNPJ, ending in any final digit, sanitises to its fourteen digits ending in that digit |
| TaxIdScenarios.ValidCnpj | tests/brazil_tax_id_validator.rs:28-31 | the formatted sample CNPJ is accepted |
| TaxIdScenarios.WrongCheckDigits | src/brazil/tax_id.rs:90-94 | the sample CNPJ with second check digit 9 instead of 5 fails with "Invalid checksum" |
| TaxIdScenarios.ZeroCpf | tests/brazil_tax_id_validator.rs:17 | 000.000.000-00 sanitises to eleven zeros |
| TaxIdScenarios.ZeroCnpj | tests/brazil_tax_id_validator.rs:35 | 00.000.000/0000-00 sanitises to fourteen zeros |
| TaxIdScenarios.DegenerateCpf | tests/brazil_tax_id_validator.rs:15-19 | the all-zero CPF fails with "All digits are equal" |
| TaxIdScenarios.DegenerateCnpj | tests/brazil_tax_id_validator.rs:33-37 | the all-zero CNPJ fails with "All digits are equal" |
| TaxIdScenarios.AllZeroCpfHasValidChecksum | src/brazil/tax_id.rs:87-90 | the all-zero CPF satisfies the modulo-11 rule, so only the all-equal check, which runs first, rejects it |
| TaxIdScenarios.ShortCpfRejected | tests/brazil_tax_id_validator.rs:21-25 | a CPF without its check digits fails with "Invalid length" |
| TaxIdScenarios.ShortCnpjRejected | tests/brazil_tax_id_validator.rs:39-43 | a CNPJ without its check digits fails with "Invalid length" |
| TaxIdScenarios.ThreeDigitsRejected | tests/brazil_tax_id_validator.rs:46-49 | three digits fail with "Invalid length" |
| TaxIdScenarios.LettersInsideRejected | tests/brazil_tax_id_validator.rs:57-60 | the digits among the letters of 123.abc.789-0x are seven, so it fails with "Invalid length" |
| TaxIdScenarios.NoDigitInputs | src/brazil/tax_id.rs:60-63 | the empty string and a string of separators only fail with "Invalid input" |
| TaxIdScenarios.AllEqualDigitsExamples | src/brazil/tax_id.rs:139-142 | `has_all_equal_digits` holds of eleven ones and not of the empty string |

## Left out

- The `validator` adapter (src/brazil/tax_id.rs:71-78), and the test at tests/brazil_tax_id_validator.rs:62-69 that uses it. The adapter only wraps the outcome in a third-party `ValidationError`.
- The example programs under examples/. They only print outcomes to the console.
- Error messages as `&'static str`. Each is one constructor of `TaxId.Error`: "Invalid input", "Invalid length", "All digits are equal" and "Invalid checksum".
- Rust strings are UTF-8 and `len()` counts bytes. The model's strings are sequences of characters. The two counts agree on sanitised strings, which hold only ASCII digits, and every length test of the source is on a sanitised string.
- The `format!` of the two check digits is modelled as the two-character string of their digit characters. This is exact because each check digit is at most 9 (`CheckDigit.CheckDigitOf`).
- CheckDigit.WeightedSum: the `u32` sum and products are computed as unbounded naturals. `TaxId.CheckSumsFitU32` proves every sum the validator forms stays at most 585, so wrap-around cannot occur.
- A panic is not an outcome in the model. Each panic site is a `requires`, and every call from `IsValid` meets it.
