/**
  The Brazilian taxpayer number (CPF) helpers of the front-end's
  `lib/utils.ts`: `isValidCPF`, which checks the two mod-11 check digits, and
  `formatCPF`, which lays the digits out as "ddd.ddd.ddd-dd".
*/
module Cpf {
  import opened Text
  import opened Seqs

  /** `cpf.replace(/[^\d]/g, '')`: the ASCII digits, in order. */
  function DigitsOf(cpf: string): (r: string)
    ensures AllDigits(r)
  {
    FilterKeepsOnly(cpf, IsDigit);
    Filter(cpf, IsDigit)
  }

  /** Σ_{i < n} digit(c[i]) · (top − i): the weighted sum a check-digit loop accumulates. */
  function WeightedSum(c: string, n: nat, top: int): int
    requires n <= |c| && AllDigits(c)
  {
    if n == 0 then 0 else WeightedSum(c, n - 1, top) + DigitValue(c[n - 1]) * (top - (n - 1))
  }

  /** `11 - (sum % 11)`, with 10 and 11 read as 0. */
  function CheckDigit(sum: int): (d: nat)
    ensures d < 10
  {
    var d := 11 - sum % 11;
    if d == 10 || d == 11 then 0 else d
  }

  /** `/^(\d)\1{10}$/` on eleven digits: every digit equals the first. */
  predicate IsRepdigit(c: string)
  {
    forall i :: 0 <= i < |c| ==> c[i] == c[0]
  }

  /** What `isValidCPF` accepts. */
  predicate ValidCpf(cpf: string)
  {
    var c := DigitsOf(cpf);
    |c| == 11 && !IsRepdigit(c)
    && CheckDigit(WeightedSum(c, 9, 10)) == DigitValue(c[9])
    && CheckDigit(WeightedSum(c, 10, 11)) == DigitValue(c[10])
  }

  /** `isValidCPF`, with its two accumulation loops. */
  method IsValidCpf(cpf: string) returns (ok: bool)
    ensures ok <==> ValidCpf(cpf)
  {
    var clean := DigitsOf(cpf);
    if |clean| != 11 {
      return false;
    }
    if IsRepdigit(clean) {
      return false;
    }
    var sum := 0;
    for i := 0 to 9
      invariant sum == WeightedSum(clean, i, 10)
    {
      sum := sum + DigitValue(clean[i]) * (10 - i);
    }
    var checkDigit := 11 - sum % 11;
    if checkDigit == 10 || checkDigit == 11 {
      checkDigit := 0;
    }
    if checkDigit != DigitValue(clean[9]) {
      return false;
    }
    sum := 0;
    for i := 0 to 10
      invariant sum == WeightedSum(clean, i, 11)
    {
      sum := sum + DigitValue(clean[i]) * (11 - i);
    }
    checkDigit := 11 - sum % 11;
    if checkDigit == 10 || checkDigit == 11 {
      checkDigit := 0;
    }
    if checkDigit != DigitValue(clean[10]) {
      return false;
    }
    return true;
  }

  /** The weighted sum over a run of one repeated digit `d`. */
  lemma {:induction false} WeightedSumOfRepdigit(c: string, n: nat, top: int, d: nat)
    requires n <= |c| && AllDigits(c) && d < 10
    requires forall i :: 0 <= i < |c| ==> c[i] == DigitChar(d)
    ensures WeightedSum(c, n, top) == d * (n * top - n * (n - 1) / 2)
  {
    if n > 0 {
      WeightedSumOfRepdigit(c, n - 1, top, d);
      assert DigitValue(c[n - 1]) == d;
      assert (n - 1) * top - (n - 1) * (n - 2) / 2 + (top - (n - 1)) == n * top - n * (n - 1) / 2 by {
        assert n * (n - 1) == (n - 1) * (n - 2) + 2 * (n - 1);
      }
    }
  }

  /**
    Every eleven-digit repetition passes both check-digit tests, so the
    repetition test is what rejects "111.111.111-11" and its like.
  */
  lemma RepdigitsPassCheckDigits(c: string, d: nat)
    requires |c| == 11 && d < 10 && forall i :: 0 <= i < |c| ==> c[i] == DigitChar(d)
    ensures AllDigits(c)
    ensures CheckDigit(WeightedSum(c, 9, 10)) == DigitValue(c[9])
    ensures CheckDigit(WeightedSum(c, 10, 11)) == DigitValue(c[10])
  {
    WeightedSumOfRepdigit(c, 9, 10, d);
    WeightedSumOfRepdigit(c, 10, 11, d);
    assert WeightedSum(c, 9, 10) == 54 * d && WeightedSum(c, 10, 11) == 65 * d;
    assert DigitValue(c[9]) == d && DigitValue(c[10]) == d;
    assert CheckDigit(54 * d) == d && CheckDigit(65 * d) == d by {
      if d == 0 {} else if d == 1 {} else if d == 2 {} else if d == 3 {} else if d == 4 {}
      else if d == 5 {} else if d == 6 {} else if d == 7 {} else if d == 8 {} else {}
    }
  }

  /** `isValidCPF` is false unless exactly eleven digits remain, and false on repeated digits. */
  lemma InvalidShapes(cpf: string)
    ensures |DigitsOf(cpf)| != 11 ==> !ValidCpf(cpf)
    ensures IsRepdigit(DigitsOf(cpf)) ==> !ValidCpf(cpf)
  {
  }

  /**
    `formatCPF`: the regex `(\d{3})(\d{3})(\d{3})(\d{2})` is neither anchored
    nor global, so on the digits it rewrites the first eleven and keeps the
    rest; fewer than eleven digits come back as they are.
  */
  function FormatCpf(cpf: string): string
  {
    var c := DigitsOf(cpf);
    if |c| < 11 then c
    else c[..3] + "." + c[3..6] + "." + c[6..9] + "-" + c[9..11] + c[11..]
  }

  /** Eleven digits are laid out as "ddd.ddd.ddd-dd". */
  lemma FormatCpfLayout(cpf: string)
    requires |DigitsOf(cpf)| == 11
    ensures var f := FormatCpf(cpf);
            |f| == 14 && f[3] == '.' && f[7] == '.' && f[11] == '-'
            && forall i :: 0 <= i < 14 && i != 3 && i != 7 && i != 11 ==> IsDigit(f[i])
  {
  }

  lemma FormatCpfShort(cpf: string)
    requires |DigitsOf(cpf)| < 11
    ensures FormatCpf(cpf) == DigitsOf(cpf)
  {
  }

  /** Appending one non-digit leaves the digits of a string unchanged. */
  lemma DigitsOfPunctuated(u: string, x: char)
    requires !IsDigit(x)
    ensures Filter(u + [x], IsDigit) == Filter(u, IsDigit)
  {
    FilterAppend(u, [x], IsDigit);
    FilterSingleton(x, IsDigit);
  }

  /** Appending a run of digits appends it to the digits. */
  lemma DigitsOfExtended(u: string, v: string)
    requires AllDigits(v)
    ensures Filter(u + v, IsDigit) == Filter(u, IsDigit) + v
  {
    FilterAppend(u, v, IsDigit);
    FilterAllKept(v, IsDigit);
  }

  /** Formatting only inserts punctuation: the digits of the result are the digits of the input. */
  lemma FormatCpfKeepsDigits(cpf: string)
    ensures DigitsOf(FormatCpf(cpf)) == DigitsOf(cpf)
  {
    var c := DigitsOf(cpf);
    FilterAllKept(c, IsDigit);
    if |c| >= 11 {
      var s1 := c[..3];
      FilterAllKept(s1, IsDigit);
      var s2 := s1 + ".";
      DigitsOfPunctuated(s1, '.');
      var s3 := s2 + c[3..6];
      DigitsOfExtended(s2, c[3..6]);
      var s4 := s3 + ".";
      DigitsOfPunctuated(s3, '.');
      var s5 := s4 + c[6..9];
      DigitsOfExtended(s4, c[6..9]);
      var s6 := s5 + "-";
      DigitsOfPunctuated(s5, '-');
      var s7 := s6 + c[9..11];
      DigitsOfExtended(s6, c[9..11]);
      var s8 := s7 + c[11..];
      DigitsOfExtended(s7, c[11..]);
      assert Filter(s8, IsDigit) == c[..3] + c[3..6] + c[6..9] + c[9..11] + c[11..] == c by {
        assert c[..3] + c[3..6] == c[..6];
        assert c[..6] + c[6..9] == c[..9];
        assert c[..9] + c[9..11] == c[..11];
        assert c[..11] + c[11..] == c;
      }
      assert FormatCpf(cpf) == s8;
    }
  }

  /** So a CPF is valid exactly when its formatted form is, and formatting twice changes nothing more. */
  lemma FormatCpfPreservesValidity(cpf: string)
    ensures ValidCpf(FormatCpf(cpf)) <==> ValidCpf(cpf)
    ensures FormatCpf(FormatCpf(cpf)) == FormatCpf(cpf)
  {
    FormatCpfKeepsDigits(cpf);
  }

  /** The two weighted sums of the worked instance below. */
  lemma ExampleSums(c: string)
    requires c == "52998224725"
    ensures AllDigits(c) && WeightedSum(c, 9, 10) == 295 && WeightedSum(c, 10, 11) == 347
  {
    assert c[0] == '5' && c[1] == '2' && c[2] == '9' && c[3] == '9' && c[4] == '8' && c[5] == '2';
    assert c[6] == '2' && c[7] == '4' && c[8] == '7' && c[9] == '2' && c[10] == '5';
    assert AllDigits(c);
    assert DigitValue(c[0]) == 5 && DigitValue(c[1]) == 2 && DigitValue(c[2]) == 9 && DigitValue(c[3]) == 9;
    assert DigitValue(c[4]) == 8 && DigitValue(c[5]) == 2 && DigitValue(c[6]) == 2 && DigitValue(c[7]) == 4;
    assert DigitValue(c[8]) == 7 && DigitValue(c[9]) == 2;
    assert WeightedSum(c, 0, 10) == 0 && WeightedSum(c, 0, 11) == 0;
    assert WeightedSum(c, 1, 10) == 50 && WeightedSum(c, 1, 11) == 55;
    assert WeightedSum(c, 2, 10) == 68 && WeightedSum(c, 2, 11) == 75;
    assert WeightedSum(c, 3, 10) == 140 && WeightedSum(c, 3, 11) == 156;
    assert WeightedSum(c, 4, 10) == 203 && WeightedSum(c, 4, 11) == 228;
    assert WeightedSum(c, 5, 10) == 251 && WeightedSum(c, 5, 11) == 284;
    assert WeightedSum(c, 6, 10) == 261 && WeightedSum(c, 6, 11) == 296;
    assert WeightedSum(c, 7, 10) == 269 && WeightedSum(c, 7, 11) == 306;
    assert WeightedSum(c, 8, 10) == 281 && WeightedSum(c, 8, 11) == 322;
    assert WeightedSum(c, 9, 10) == 295 && WeightedSum(c, 9, 11) == 343;
    assert WeightedSum(c, 10, 11) == 347;
  }

  /** A worked instance: "52998224725" carries the check digits 2 and 5. */
  lemma ValidExample(c: string)
    requires c == "52998224725"
    ensures ValidCpf(c)
  {
    ExampleSums(c);
    FilterAllKept(c, IsDigit);
    assert DigitsOf(c) == c;
    assert c[1] != c[0];
  }
}
