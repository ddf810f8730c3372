/** IBAN generation and validation (pkg/iban/generator.go): ISO 13616 with the MOD 97-10 system of
    ISO/IEC 7064. Strings are ASCII. */
module Iban {
  import opened Common
  import opened Decimal

  const COUNTRY := "ET"
  const BANK := "NEO"
  const BRANCH := "0001"

  predicate IsLetter(c: char) { 'A' <= UpperChar(c) <= 'Z' }

  predicate Alphanumeric(c: char) { IsDigit(c) || IsLetter(c) }

  predicate AllAlphanumeric(s: string) { forall i :: 0 <= i < |s| ==> Alphanumeric(s[i]) }

  /** The number a character stands for: 0 to 9, or 10 to 35 for a letter of either case. */
  function Weight(c: char): nat
    requires Alphanumeric(c)
  {
    if IsDigit(c) then DigitValue(c) else UpperChar(c) as int - 'A' as int + 10
  }

  /** The two digits of a number below 100. */
  function TwoDigits(w: nat): string
    requires w < 100
  {
    [DigitChar(w / 10), DigitChar(w % 10)]
  }

  /** A letter becomes its two-digit number, any other character stays. */
  function Expand(c: char): string {
    if IsLetter(c) then TwoDigits(UpperChar(c) as int - 'A' as int + 10) else [c]
  }

  lemma ExpandMeans(c: char)
    ensures AllDigits(Expand(c)) <==> Alphanumeric(c)
    ensures Alphanumeric(c) ==> Value(Expand(c)) == Weight(c) && |Expand(c)| == if IsDigit(c) then 1 else 2
  {
    if IsLetter(c) {
      TwoDigitsValue(UpperChar(c) as int - 'A' as int + 10);
    } else if IsDigit(c) {
      ValueOne(c);
    } else {
      assert Expand(c)[0] == c;
    }
  }

  lemma TwoDigitsValue(w: nat)
    requires w < 100
    ensures AllDigits(TwoDigits(w)) && Value(TwoDigits(w)) == w
  {
    var s := TwoDigits(w);
    assert s[..1] == [DigitChar(w / 10)];
    ValueOne(DigitChar(w / 10));
  }

  function Digits(s: string): string {
    if s == "" then "" else Digits(s[..|s| - 1]) + Expand(s[|s| - 1])
  }

  method LettersToDigits(s: string) returns (r: string)
    ensures r == Digits(s)
  {
    r := "";
    for i := 0 to |s|
      invariant r == Digits(s[..i])
    {
      assert s[..i + 1][..i] == s[..i];
      var ch := UpperChar(s[i]);
      if 'A' <= ch <= 'Z' {
        var w := ch as int - 'A' as int + 10;
        r := r + TwoDigits(w);
      } else {
        r := r + [ch];
      }
    }
    assert s[..|s|] == s;
  }

  predicate IsSign(c: char) { c == '+' || c == '-' }

  /** A text without its leading sign, if it has one. */
  function Body(s: string): string { if s != "" && IsSign(s[0]) then s[1..] else s }

  predicate Negative(s: string) { s != "" && s[0] == '-' }

  /** big.Int.SetString in base ten: an optional sign and at least one digit. */
  function Parse(s: string): Option<int> {
    var body := Body(s);
    if body == "" || !AllDigits(body) then None else Some(Signed(Negative(s), Value(body)))
  }

  function Signed(negative: bool, n: int): int { if negative then -n else n }

  function Rearranged(iban: string): string
    requires |iban| >= 4
  {
    iban[4..] + iban[..4]
  }

  /** The text reads as a number that leaves remainder one. */
  predicate Accepts(s: string) {
    var n := Parse(s);
    n.Some? && n.value % 97 == 1
  }

  predicate Validate(iban: string) { |iban| >= 5 && Accepts(Digits(Rearranged(iban))) }

  /** None stands for the nil dereference that follows a failed parse. */
  function CheckDigits(country: string, bban: string): Option<string> { CheckOf(Digits(bban) + Digits(country)) }

  function CheckOf(base: string): Option<string> {
    var n := Parse(base + "00");
    if n.None? then None else Some(Padded(98 - n.value % 97, 2))
  }

  function Bban(accountNumber: string, currencyCode: string): string { BANK + BRANCH + accountNumber + Upper(currencyCode) }

  function Generate(accountNumber: string, currencyCode: string): Option<string> {
    var bban := Bban(accountNumber, currencyCode);
    var check := CheckDigits(COUNTRY, bban);
    if check.None? then None else Some(COUNTRY + check.value + bban)
  }

  function FormatAccountNumber(n: int): string { if n >= 0 then Padded(n, 10) else "-" + Padded(-n, 9) }

  // ---------------------------------------------------------------- arithmetic modulo 97

  function Times97(q: int): int { 97 * q }

  ghost predicate Multiple(d: int) { exists q :: d == Times97(q) }

  lemma SameRemainder(a: int, b: int)
    requires a % 97 == 1 && b % 97 == 1
    ensures Multiple(a - b)
  {
    assert a - b == Times97(a / 97 - b / 97);
  }

  lemma SmallMultiple(d: int)
    requires Multiple(d) && -97 < d < 97
    ensures d == 0
  {}

  /** Ten has the inverse 68 modulo 97, so shifting never hides a difference. */
  lemma {:induction false} MultipleShifted(d: int, k: nat)
    requires Multiple(Shift(d, k))
    ensures Multiple(d)
  {
    if k > 0 {
      var x := Shift(d, k - 1);
      var q :| x * 10 == Times97(q);
      assert x == Times97(68 * q - 7 * x);
      MultipleShifted(d, k - 1);
    }
  }

  lemma MultipleSigned(negative: bool, a: int, b: int)
    requires Multiple(Signed(negative, a) - Signed(negative, b))
    ensures Multiple(a - b)
  {
    var q :| Signed(negative, a) - Signed(negative, b) == Times97(q);
    assert a - b == Times97(q) || a - b == Times97(-q);
  }

  // ---------------------------------------------------------------- changing digits in the middle

  lemma DigitsSnoc(s: string, c: char)
    ensures Digits(s + [c]) == Digits(s) + Expand(c)
  {
    var t := s + [c];
    assert t[..|t| - 1] == s && t[|t| - 1] == c;
  }

  lemma Regroup(a: string, b: string, c: string)
    ensures a + b + c == a + (b + c)
  {}

  lemma {:induction false} DigitsConcat(s: string, t: string)
    ensures Digits(s + t) == Digits(s) + Digits(t)
    decreases |t|
  {
    if t == "" {
      assert s + t == s;
    } else {
      var front, c := t[..|t| - 1], t[|t| - 1];
      DigitsConcat(s, front);
      Regroup(s, front, [c]);
      Regroup(Digits(s), Digits(front), Expand(c));
      assert t == front + [c];
      DigitsSnoc(s + front, c);
    }
  }

  lemma DigitsOne(c: char)
    ensures Digits([c]) == Expand(c)
  {
    assert [c][..0] == "";
  }

  lemma BodyAround(x: string, m: string, y: string)
    requires m != "" && AllDigits(m)
    ensures Body(x + m + y) == Body(x) + m + y && Negative(x + m + y) == Negative(x)
  {
    var s := x + m + y;
    assert s[0] == if x == "" then m[0] else x[0];
  }

  lemma AllDigitsAround(x: string, m: string, y: string)
    requires AllDigits(m)
    ensures AllDigits(x + m + y) <==> AllDigits(x) && AllDigits(y)
  {
    var s := x + m + y;
    assert forall i :: 0 <= i < |x| ==> x[i] == s[i];
    assert forall i :: 0 <= i < |y| ==> y[i] == s[|x| + |m| + i];
  }

  /** Parsing a text with a known run of digits somewhere in it. */
  lemma ParseAround(x: string, m: string, y: string)
    requires m != "" && AllDigits(m)
    ensures AllDigits(Body(x) + m + y) <==> AllDigits(Body(x)) && AllDigits(y)
    ensures Parse(x + m + y) ==
            if AllDigits(Body(x) + m + y) then Some(Signed(Negative(x), Value(Body(x) + m + y))) else None
  {
    BodyAround(x, m, y);
    AllDigitsAround(Body(x), m, y);
  }

  /** A difference between two numbers with common first and last digits comes from the middle. */
  lemma MiddleDiffers(x: string, m: string, m': string, y: string)
    requires AllDigits(x) && AllDigits(m) && AllDigits(m') && AllDigits(y) && |m| == |m'|
    requires AllDigits(x + m + y) && AllDigits(x + m' + y) && Multiple(Value(x + m + y) - Value(x + m' + y))
    ensures Multiple(Value(m) - Value(m'))
  {
    CommonHead(x, m, m');
    FrontDiffers(x + m, x + m', y, Value(m) - Value(m'));
  }

  lemma FrontDiffers(s: string, s': string, y: string, gap: int)
    requires AllDigits(s) && AllDigits(s') && AllDigits(y) && Value(s) - Value(s') == gap
    requires AllDigits(s + y) && AllDigits(s' + y) && Multiple(Value(s + y) - Value(s' + y))
    ensures Multiple(gap)
  {
    TailGap(s, s', y, gap);
    MultipleShifted(gap, |y|);
  }

  lemma TailGap(s: string, s': string, y: string, gap: int)
    requires AllDigits(s) && AllDigits(s') && AllDigits(y) && Value(s) - Value(s') == gap
    ensures AllDigits(s + y) && AllDigits(s' + y) && Value(s + y) - Value(s' + y) == Shift(gap, |y|)
  {
    CommonTail(s, s', y, |y|);
  }

  /** Replacing a run of digits by another of the same length goes unnoticed only if the two numbers
      differ by a multiple of 97. */
  lemma ChangeShows(x: string, m: string, m': string, y: string)
    requires m != "" && AllDigits(m) && AllDigits(m') && |m| == |m'|
    requires Accepts(x + m + y)
    ensures Accepts(x + m' + y) ==> Multiple(Value(m) - Value(m'))
  {
    ParseAround(x, m, y);
    ParseAround(x, m', y);
    if Accepts(x + m' + y) {
      SameRemainder(Parse(x + m + y).value, Parse(x + m' + y).value);
      MultipleSigned(Negative(x), Value(Body(x) + m + y), Value(Body(x) + m' + y));
      MiddleDiffers(Body(x), m, m', y);
    }
  }

  // ---------------------------------------------------------------- error detection

  /** What precedes and follows the characters from i to j in the rearranged text, when they are on
      the same side of position 4. */
  function Before(iban: string, i: nat): string
    requires 4 <= |iban| && i <= |iban|
  {
    if i < 4 then iban[4..] + iban[..i] else iban[4..i]
  }

  function After(iban: string, i: nat, j: nat): string
    requires 4 <= |iban| && i < j <= |iban| && (j <= 4 || 4 <= i)
  {
    if i < 4 then iban[j..4] else iban[j..] + iban[..4]
  }

  lemma RearrangedAround(iban: string, i: nat, j: nat)
    requires 4 <= |iban| && i < j <= |iban| && (j <= 4 || 4 <= i)
    ensures Rearranged(iban) == Before(iban, i) + iban[i..j] + After(iban, i, j)
  {
    var m := iban[i..j];
    if i < 4 {
      assert iban[..4] == iban[..i] + m + iban[j..4];
      assert iban[4..] + (iban[..i] + m + iban[j..4]) == (iban[4..] + iban[..i]) + m + iban[j..4];
    } else {
      assert iban[4..] == iban[4..i] + m + iban[j..];
      assert (iban[4..i] + m + iban[j..]) + iban[..4] == iban[4..i] + m + (iban[j..] + iban[..4]);
    }
  }

  /** Validation seen from a run of characters on one side of position 4. */
  lemma ValidAround(iban: string, i: nat, j: nat)
    requires 5 <= |iban| && i < j <= |iban| && (j <= 4 || 4 <= i)
    ensures Validate(iban) <==> Accepts(Digits(Before(iban, i)) + Digits(iban[i..j]) + Digits(After(iban, i, j)))
  {
    RearrangedAround(iban, i, j);
    DigitsConcat(Before(iban, i) + iban[i..j], After(iban, i, j));
    DigitsConcat(Before(iban, i), iban[i..j]);
  }

  /** A change confined to the run leaves the rest of the rearranged text alone. */
  lemma SameSurroundings(iban: string, changed: string, i: nat, j: nat)
    requires 4 <= |iban| == |changed| && i < j <= |iban| && (j <= 4 || 4 <= i)
    requires iban[..i] == changed[..i] && iban[j..] == changed[j..]
    ensures Before(changed, i) == Before(iban, i) && After(changed, i, j) == After(iban, i, j)
  {
    if i < 4 {
      assert iban[4..] == iban[j..][4 - j..] && changed[4..] == changed[j..][4 - j..];
      assert iban[j..4] == iban[j..][..4 - j] && changed[j..4] == changed[j..][..4 - j];
    } else {
      assert iban[4..i] == iban[..i][4..] && changed[4..i] == changed[..i][4..];
      assert iban[..4] == iban[..i][..4] && changed[..4] == changed[..i][..4];
    }
  }

  /** A change confined to such a run, expanding to m before and m' after: it goes unnoticed if m and
      m' are the same, and only if they differ by a multiple of 97. */
  lemma ChangeDetected(iban: string, changed: string, i: nat, j: nat, m: string, m': string)
    requires Validate(iban) && |changed| == |iban| && i < j <= |iban| && (j <= 4 || 4 <= i)
    requires iban[..i] == changed[..i] && iban[j..] == changed[j..]
    requires m == Digits(iban[i..j]) && m' == Digits(changed[i..j])
    requires m != "" && AllDigits(m) && AllDigits(m') && |m| == |m'|
    ensures Validate(changed) ==> Multiple(Value(m) - Value(m'))
    ensures m == m' ==> Validate(changed)
  {
    var x, y := Digits(Before(iban, i)), Digits(After(iban, i, j));
    assert Accepts(x + m + y) by { ValidAround(iban, i, j); }
    assert Validate(changed) <==> Accepts(x + m' + y) by {
      SameSurroundings(iban, changed, i, j);
      ValidAround(changed, i, j);
    }
    ChangeShows(x, m, m', y);
  }

  /** Two runs of digits that could be mistaken for each other: they have the same length, and are alike or
      differ by no multiple of 97. */
  ghost predicate Told(m: string, m': string, alike: bool) {
    && m != "" && AllDigits(m) && AllDigits(m') && |m| == |m'|
    && (Multiple(Value(m) - Value(m')) ==> alike) && (alike ==> m == m')
  }

  /** A change from one to the other goes unnoticed exactly when they are alike. */
  lemma ChangeTold(iban: string, changed: string, i: nat, j: nat, m: string, m': string, alike: bool)
    requires Validate(iban) && |changed| == |iban| && i < j <= |iban| && (j <= 4 || 4 <= i)
    requires iban[..i] == changed[..i] && iban[j..] == changed[j..]
    requires m == Digits(iban[i..j]) && m' == Digits(changed[i..j]) && Told(m, m', alike)
    ensures Validate(changed) <==> alike
  {
    ChangeDetected(iban, changed, i, j, m, m');
  }

  /** Two characters of the same kind that stand for different numbers. */
  predicate Confusable(c: char, d: char) {
    (IsDigit(c) && IsDigit(d) && c != d) || (IsLetter(c) && IsLetter(d) && UpperChar(c) != UpperChar(d))
  }

  /** Replacing one digit of a valid IBAN by a different digit, or one letter by a different letter,
      always makes it invalid, whatever its length. */
  lemma SubstitutionDetected(iban: string, i: nat, c: char)
    requires Validate(iban) && i < |iban| && Confusable(iban[i], c)
    ensures !Validate(iban[i := c])
  {
    var changed := iban[i := c];
    OneSlices(iban, changed, i, c);
    ConfusableTold(iban[i], c, iban[i..i + 1], changed[i..i + 1]);
    OneNoticed(iban, changed, i, Digits(iban[i..i + 1]), Digits(changed[i..i + 1]));
  }

  lemma OneNoticed(iban: string, changed: string, i: nat, m: string, m': string)
    requires Validate(iban) && |changed| == |iban| && i < |iban|
    requires iban[..i] == changed[..i] && iban[i + 1..] == changed[i + 1..]
    requires m == Digits(iban[i..i + 1]) && m' == Digits(changed[i..i + 1]) && Told(m, m', false)
    ensures !Validate(changed)
  {
    ChangeTold(iban, changed, i, i + 1, m, m', false);
  }

  lemma OneSlices(iban: string, changed: string, i: nat, c: char)
    requires i < |iban| && changed == iban[i := c]
    ensures |changed| == |iban| && changed[..i] == iban[..i] && changed[i + 1..] == iban[i + 1..]
    ensures iban[i..i + 1] == [iban[i]] && changed[i..i + 1] == [c]
  {}

  lemma ConfusableTold(c: char, d: char, one: string, other: string)
    requires Confusable(c, d) && one == [c] && other == [d]
    ensures Told(Digits(one), Digits(other), false)
  {
    DigitsOne(c);
    DigitsOne(d);
    ExpandMeans(c);
    ExpandMeans(d);
    WeightsDiffer(c, d);
  }

  lemma WeightsDiffer(c: char, d: char)
    requires Confusable(c, d)
    ensures !Multiple(Weight(c) - Weight(d))
  {
    if Multiple(Weight(c) - Weight(d)) { SmallMultiple(Weight(c) - Weight(d)); }
  }

  /** Two adjacent characters whose expansion reads the same in either order: equal ones, or a letter
      worth eleven times the digit beside it (B and 1, M and 2, X and 3). */
  predicate Palindromic(c: char, d: char)
    requires Alphanumeric(c) && Alphanumeric(d)
  {
    || UpperChar(c) == UpperChar(d)
    || (!IsDigit(c) && IsDigit(d) && Weight(c) == 11 * Weight(d))
    || (IsDigit(c) && !IsDigit(d) && Weight(d) == 11 * Weight(c))
  }

  lemma PairValue(c: char, d: char)
    requires Alphanumeric(c) && Alphanumeric(d)
    ensures AllDigits(Expand(c) + Expand(d)) && |Expand(c) + Expand(d)| == |Expand(d) + Expand(c)| && Expand(c) != ""
    ensures Value(Expand(c) + Expand(d)) == Weight(c) * (if IsDigit(d) then 10 else 100) + Weight(d)
  {
    ExpandMeans(c);
    ExpandMeans(d);
    ValueConcat(Expand(c), Expand(d));
    assert Shift(Weight(c), 1) == Weight(c) * 10;
    assert Shift(Weight(c), 2) == Shift(Weight(c), 1) * 10;
  }

  /** Nine and ninety-nine are invertible modulo 97 as well. */
  lemma MultipleOfNine(t: int)
    requires Multiple(9 * t)
    ensures Multiple(t)
  {
    var q :| 9 * t == Times97(q);
    assert t == Times97(54 * q - 5 * t);
  }

  lemma MultipleOfNinetyNine(t: int)
    requires Multiple(99 * t)
    ensures Multiple(t)
  {
    var q :| 99 * t == Times97(q);
    assert t == Times97(49 * q - 50 * t);
  }

  lemma PairDifference(c: char, d: char)
    requires Alphanumeric(c) && Alphanumeric(d)
    ensures AllDigits(Expand(c) + Expand(d)) && AllDigits(Expand(d) + Expand(c))
    ensures |Expand(c) + Expand(d)| == |Expand(d) + Expand(c)| && Expand(c) != ""
    ensures Multiple(Value(Expand(c) + Expand(d)) - Value(Expand(d) + Expand(c))) ==> Palindromic(c, d)
  {
    PairValue(c, d);
    PairValue(d, c);
    var u: int, v: int := Weight(c), Weight(d);
    var t := if IsDigit(c) == IsDigit(d) then u - v else if IsDigit(d) then u - 11 * v else 11 * u - v;
    var gap := Value(Expand(c) + Expand(d)) - Value(Expand(d) + Expand(c));
    assert gap == if IsDigit(c) || IsDigit(d) then 9 * t else 99 * t;
    if Multiple(gap) {
      if IsDigit(c) || IsDigit(d) { MultipleOfNine(t); } else { MultipleOfNinetyNine(t); }
      SmallMultiple(t);
    }
  }

  lemma PairText(c: char, d: char)
    requires Alphanumeric(c) && Alphanumeric(d) && Palindromic(c, d)
    ensures Expand(c) + Expand(d) == Expand(d) + Expand(c)
  {
    if UpperChar(c) != UpperChar(d) {
      var u := if IsDigit(c) then Weight(c) else Weight(d);
      assert 11 * u / 10 == u && 11 * u % 10 == u;
    }
  }

  lemma PairExpands(c: char, d: char)
    requires Alphanumeric(c) && Alphanumeric(d)
    ensures Told(Expand(c) + Expand(d), Expand(d) + Expand(c), Palindromic(c, d))
  {
    PairDifference(c, d);
    if Palindromic(c, d) { PairText(c, d); }
  }

  /** Swapping two adjacent letters or digits on the same side of position 4 of a valid IBAN makes it
      invalid if and only if their expansion does not read the same in either order; in particular
      two unequal digits, or two different letters, are always caught. */
  lemma TranspositionDetected(iban: string, i: nat)
    requires Validate(iban) && i + 1 < |iban| && i != 3 && Alphanumeric(iban[i]) && Alphanumeric(iban[i + 1])
    ensures Validate(iban[i := iban[i + 1]][i + 1 := iban[i]]) <==> Palindromic(iban[i], iban[i + 1])
  {
    var c, d := iban[i], iban[i + 1];
    var swapped := iban[i := d][i + 1 := c];
    SwapSlices(iban, swapped, i);
    SwapTold(c, d, iban[i..i + 2], swapped[i..i + 2]);
    ChangeTold(iban, swapped, i, i + 2, Digits(iban[i..i + 2]), Digits(swapped[i..i + 2]), Palindromic(c, d));
  }

  lemma SwapSlices(iban: string, swapped: string, i: nat)
    requires i + 1 < |iban| && swapped == iban[i := iban[i + 1]][i + 1 := iban[i]]
    ensures |swapped| == |iban| && swapped[..i] == iban[..i] && swapped[i + 2..] == iban[i + 2..]
    ensures iban[i..i + 2] == [iban[i], iban[i + 1]] && swapped[i..i + 2] == [iban[i + 1], iban[i]]
  {}

  lemma SwapTold(c: char, d: char, pair: string, other: string)
    requires Alphanumeric(c) && Alphanumeric(d) && pair == [c, d] && other == [d, c]
    ensures Told(Digits(pair), Digits(other), Palindromic(c, d))
  {
    PairDigits(c, d, pair);
    PairDigits(d, c, other);
    PairExpands(c, d);
  }

  lemma PairDigits(c: char, d: char, pair: string)
    requires pair == [c, d]
    ensures Digits(pair) == Expand(c) + Expand(d)
  {
    assert pair == [c] + [d];
    DigitsConcat([c], [d]);
    DigitsOne(c);
    DigitsOne(d);
  }

  // ---------------------------------------------------------------- generation

  lemma AllDigitsConcat(s: string, t: string)
    ensures AllDigits(s + t) <==> AllDigits(s) && AllDigits(t)
  {
    AllDigitsAround(s, "", t);
    assert s + "" + t == s + t;
  }

  lemma {:induction false} DigitsAreDigits(s: string)
    ensures AllDigits(Digits(s)) <==> AllAlphanumeric(s)
  {
    if s != "" {
      var n := |s| - 1;
      DigitsAreDigits(s[..n]);
      ExpandMeans(s[n]);
      AllDigitsConcat(Digits(s[..n]), Expand(s[n]));
      assert forall i :: 0 <= i < n ==> s[..n][i] == s[i];
    }
  }

  lemma {:induction false} DigitsStay(s: string)
    requires AllDigits(s)
    ensures Digits(s) == s
  {
    if s != "" {
      var n := |s| - 1;
      DigitsStay(s[..n]);
      ExpandMeans(s[n]);
      assert s == s[..n] + [s[n]];
    }
  }

  lemma TwoDigitText(k: nat)
    requires k < 100
    ensures |Padded(k, 2)| == 2
  {
    if k >= 10 { assert |Text(k / 10)| == 1; }
  }

  /** The digits the check is computed over, without the two zeros. */
  function Base(bban: string): string { Digits(bban) + Digits(COUNTRY) }

  lemma BaseDigits(bban: string)
    ensures AllDigits(Base(bban)) <==> AllAlphanumeric(bban)
  {
    DigitsAreDigits(bban);
    DigitsAreDigits(COUNTRY);
    AllDigitsConcat(Digits(bban), Digits(COUNTRY));
  }

  /** A text that starts with the expansion of a letter or digit carries no sign. */
  lemma Unsigned(bban: string, tail: string)
    requires bban != "" && Alphanumeric(bban[0])
    ensures Body(Base(bban) + tail) == Base(bban) + tail && !Negative(Base(bban) + tail)
  {
    assert bban == [bban[0]] + bban[1..];
    DigitsConcat([bban[0]], bban[1..]);
    DigitsOne(bban[0]);
    ExpandMeans(bban[0]);
    assert (Base(bban) + tail)[0] == Expand(bban[0])[0];
  }

  lemma BaseParses(bban: string, tail: string)
    requires bban != "" && Alphanumeric(bban[0]) && AllDigits(tail)
    ensures AllDigits(Base(bban) + tail) <==> AllAlphanumeric(bban)
    ensures Parse(Base(bban) + tail) == if AllAlphanumeric(bban) then Some(Value(Base(bban) + tail)) else None
  {
    BaseDigits(bban);
    AllDigitsConcat(Base(bban), tail);
    Unsigned(bban, tail);
  }

  lemma RearrangedGenerated(check: string, bban: string)
    requires |check| == 2 && AllDigits(check)
    ensures Digits(Rearranged(COUNTRY + check + bban)) == Base(bban) + check
  {
    var iban := COUNTRY + check + bban;
    assert iban[4..] == bban && iban[..4] == COUNTRY + check;
    DigitsConcat(bban, COUNTRY + check);
    DigitsConcat(COUNTRY, check);
    DigitsStay(check);
    assert Digits(bban) + (Digits(COUNTRY) + check) == Base(bban) + check;
  }

  lemma CheckedValue(base: string, check: string)
    requires AllDigits(base) && AllDigits(check) && |check| == 2
    ensures AllDigits(base + "00") && AllDigits(base + check) && Value(base + check) == Value(base + "00") + Value(check)
  {
    CommonHead(base, check, "00");
    assert "00" == Zeros(2);
    ZerosAreWorthless(2);
  }

  lemma Complement(n: nat)
    ensures (n + (98 - n % 97)) % 97 == 1
  {
    assert n + (98 - n % 97) == 97 * (n / 97 + 1) + 1;
  }

  /** Round trip: Generate succeeds for exactly the alphanumeric inputs, and Validate accepts every
      IBAN it produces. */
  lemma RoundTrip(accountNumber: string, currencyCode: string)
    ensures Generate(accountNumber, currencyCode).Some? <==> AllAlphanumeric(accountNumber) && AllAlphanumeric(currencyCode)
    ensures Generate(accountNumber, currencyCode).Some? ==> Validate(Generate(accountNumber, currencyCode).value)
  {
    var bban := Bban(accountNumber, currencyCode);
    assert bban[0] == 'N';
    BaseParses(bban, "00");
    BbanAlphanumeric(accountNumber, currencyCode);
    if AllAlphanumeric(bban) {
      GeneratedIsValid(bban);
    }
  }

  /** The check digits complete the base to remainder one. */
  lemma Completes(base: string, n: nat, k: nat, check: string)
    requires AllDigits(base) && AllDigits(base + "00") && n == Value(base + "00") && k == 98 - n % 97 && check == Padded(k, 2)
    ensures |check| == 2 && AllDigits(check) && AllDigits(base + check) && Value(base + check) % 97 == 1
  {
    TwoDigitText(k);
    PaddedValue(k, 2);
    CheckedValue(base, check);
    Complement(n);
  }

  lemma CheckOfCompletes(base: string, zeros: string, n: nat, check: string)
    requires zeros == base + "00" && AllDigits(base) && AllDigits(zeros) && n == Value(zeros)
    requires Parse(zeros) == Some(n) && CheckOf(base) == Some(check)
    ensures |check| == 2 && AllDigits(check) && AllDigits(base + check) && Value(base + check) % 97 == 1
  {
    assert check == Padded(98 - n % 97, 2);
    Completes(base, n, 98 - n % 97, check);
  }

  lemma CheckCompletes(bban: string, base: string, check: string)
    requires bban != "" && AllAlphanumeric(bban) && base == Base(bban) && CheckOf(base) == Some(check)
    ensures |check| == 2 && AllDigits(check) && Accepts(base + check)
  {
    BaseDigits(bban);
    BaseParses(bban, "00");
    CheckOfCompletes(base, base + "00", Value(base + "00"), check);
    BaseParses(bban, check);
  }

  lemma GeneratedIsValid(bban: string)
    requires bban != "" && AllAlphanumeric(bban)
    ensures CheckDigits(COUNTRY, bban).Some? && Validate(COUNTRY + CheckDigits(COUNTRY, bban).value + bban)
  {
    assert CheckDigits(COUNTRY, bban).Some? by { BaseParses(bban, "00"); }
    var check := CheckDigits(COUNTRY, bban).value;
    CheckCompletes(bban, Base(bban), check);
    RearrangedGenerated(check, bban);
  }

  lemma BbanAlphanumeric(accountNumber: string, currencyCode: string)
    ensures AllAlphanumeric(Bban(accountNumber, currencyCode)) <==> AllAlphanumeric(accountNumber) && AllAlphanumeric(currencyCode)
  {
    var head := BANK + BRANCH;
    assert AllAlphanumeric(head);
    AlphanumericConcat(head, accountNumber);
    AlphanumericConcat(head + accountNumber, Upper(currencyCode));
    AlphanumericUpper(currencyCode);
  }

  lemma AlphanumericConcat(s: string, t: string)
    ensures AllAlphanumeric(s + t) <==> AllAlphanumeric(s) && AllAlphanumeric(t)
  {
    assert forall i :: 0 <= i < |s| ==> (s + t)[i] == s[i];
    assert forall i :: 0 <= i < |t| ==> (s + t)[|s| + i] == t[i];
  }

  lemma AlphanumericUpper(s: string)
    ensures AllAlphanumeric(Upper(s)) <==> AllAlphanumeric(s)
  {
    forall i | 0 <= i < |s| ensures Alphanumeric(Upper(s)[i]) <==> Alphanumeric(s[i]) {
      assert Upper(s)[i] == UpperChar(s[i]);
    }
  }

  /** The layout: country, two check digits, bank and branch, account number, currency in capitals.
      The check digits are 98 less the remainder, divided by 97, of the rest with "ET00" moved to its end. */
  predicate WellMade(x: string, rest: string) {
    && |x| >= 4 && x[..2] == "ET" && x[4..] == rest
    && AllDigits(x[2..4]) && AllDigits(Digits(rest + "ET00")) && Value(x[2..4]) == 98 - Value(Digits(rest + "ET00")) % 97
  }

  lemma GeneratedForm(accountNumber: string, currencyCode: string, x: string)
    requires Generate(accountNumber, currencyCode) == Some(x)
    ensures WellMade(x, "NEO0001" + accountNumber + Upper(currencyCode))
  {
    var bban := Bban(accountNumber, currencyCode);
    BbanForm(accountNumber, currencyCode, bban);
    assert CheckDigits(COUNTRY, bban).Some?;
    FormOf(bban, CheckDigits(COUNTRY, bban).value);
  }

  lemma BbanForm(accountNumber: string, currencyCode: string, bban: string)
    requires Generate(accountNumber, currencyCode).Some? && bban == Bban(accountNumber, currencyCode)
    ensures bban != "" && AllAlphanumeric(bban) && bban == "NEO0001" + accountNumber + Upper(currencyCode)
  {
    RoundTrip(accountNumber, currencyCode);
    BbanAlphanumeric(accountNumber, currencyCode);
    assert "NEO" + "0001" == "NEO0001";
  }

  lemma FormOf(bban: string, check: string)
    requires bban != "" && AllAlphanumeric(bban) && CheckDigits(COUNTRY, bban) == Some(check)
    ensures WellMade(COUNTRY + check + bban, bban)
  {
    var zeros := Digits(bban + "ET00");
    ZerosForm(bban);
    ZerosParse(bban, zeros);
    CheckOfValue(Base(bban), zeros, Value(zeros), check);
    Laid(COUNTRY + check + bban, check, bban);
  }

  lemma Laid(x: string, check: string, bban: string)
    requires |check| == 2 && x == COUNTRY + check + bban
    ensures x[..2] == "ET" && x[2..4] == check && x[4..] == bban
  {}

  lemma ZerosForm(bban: string)
    ensures Digits(bban + "ET00") == Base(bban) + "00"
  {
    DigitsConcat(bban, "ET00");
    assert "ET" + "00" == "ET00";
    DigitsConcat("ET", "00");
    DigitsStay("00");
    assert Digits(bban) + (Digits(COUNTRY) + "00") == Base(bban) + "00";
  }

  lemma CheckValue(n: nat, check: string)
    requires check == Padded(98 - n % 97, 2)
    ensures |check| == 2 && AllDigits(check) && Value(check) == 98 - n % 97
  {
    TwoDigitText(98 - n % 97);
    PaddedValue(98 - n % 97, 2);
  }

  lemma CheckOfValue(base: string, zeros: string, n: nat, check: string)
    requires zeros == base + "00" && Parse(zeros) == Some(n) && CheckOf(base) == Some(check)
    ensures |check| == 2 && AllDigits(check) && Value(check) == 98 - n % 97
  {
    CheckValue(n, check);
  }

  lemma ZerosParse(bban: string, zeros: string)
    requires bban != "" && AllAlphanumeric(bban) && zeros == Base(bban) + "00"
    ensures AllDigits(zeros) && Parse(zeros) == Some(Value(zeros))
  {
    BaseParses(bban, "00");
  }

  /** What Validate accepts, for text of digits and letters: at least five characters whose number, with the
      first four moved to the end and letters counted from ten, leaves one when divided by 97. */
  lemma ValidMeans(iban: string)
    requires AllAlphanumeric(iban)
    ensures Validate(iban) <==>
            |iban| >= 5 && AllDigits(Digits(iban[4..] + iban[..4])) && Value(Digits(iban[4..] + iban[..4])) % 97 == 1
  {
    if |iban| >= 5 {
      var s := iban[4..] + iban[..4];
      assert AllAlphanumeric(s);
      DigitsAreDigits(s);
    }
  }

  /** x carries the account number and the currency code at their places. */
  predicate Carries(x: string, accountNumber: string, currency: string) {
    |x| == 14 + |accountNumber| && x[11..|x| - 3] == accountNumber && x[|x| - 3..] == currency
  }

  lemma CarriesOne(x: string, a: string, c: string, b: string, d: string)
    requires Carries(x, a, c) && Carries(x, b, d) && |c| == |d|
    ensures a == b && c == d
  {
  }

  lemma GeneratedCarries(accountNumber: string, currencyCode: string, x: string)
    requires Generate(accountNumber, currencyCode) == Some(x) && |currencyCode| == 3
    ensures Carries(x, accountNumber, Upper(currencyCode))
  {
    var n := Parse(Digits(Bban(accountNumber, currencyCode)) + Digits(COUNTRY) + "00").value;
    TwoDigitText(98 - n % 97);
    CarriesParts(Padded(98 - n % 97, 2), accountNumber, Upper(currencyCode));
  }

  lemma CarriesParts(check: string, accountNumber: string, currency: string)
    requires |check| == 2 && |currency| == 3
    ensures Carries(COUNTRY + check + (BANK + BRANCH + accountNumber + currency), accountNumber, currency)
  {}

  /** A missed swap: B stands for 11, so B1 and 1B expand alike. */
  lemma TranspositionExample() returns (iban: string)
    ensures |iban| == 16 && iban[11..13] == "B1" && Validate(iban) && Validate(iban[11 := '1'][12 := 'B'])
  {
    assert Generate("B1", "ETB").Some? && Validate(Generate("B1", "ETB").value) by { RoundTrip("B1", "ETB"); }
    iban := Generate("B1", "ETB").value;
    assert |iban| == 16 && iban[11..13] == "B1" by { GeneratedCarries("B1", "ETB", iban); }
    SwapMissed(iban);
  }

  lemma SwapMissed(iban: string)
    requires |iban| == 16 && iban[11..13] == "B1" && Validate(iban)
    ensures Validate(iban[11 := '1'][12 := 'B'])
  {
    assert iban[11] == iban[11..13][0] && iban[12] == iban[11..13][1];
    TranspositionDetected(iban, 11);
  }

  /** An account number is its sequence number in ten digits. */
  lemma AccountNumberForm(n: nat)
    requires n < 10_000_000_000
    ensures var a := FormatAccountNumber(n); |a| == 10 && AllDigits(a) && Value(a) == n
  {
    assert Shift(1, 10) == 10_000_000_000 by {
      assert Shift(1, 4) == 10_000;
      assert Shift(1, 7) == 10_000_000;
    }
    TextFits(n, 10);
    PaddedValue(n, 10);
  }

  /** Uniqueness: for non-negative sequence numbers and three-character currency codes the IBAN
      determines both, currency codes being compared without regard to case. */
  lemma GenerateInjective(m: nat, c: string, n: nat, d: string)
    requires |c| == 3 && |d| == 3 && AllAlphanumeric(c) && AllAlphanumeric(d)
    ensures Generate(FormatAccountNumber(m), c).Some? && Generate(FormatAccountNumber(n), d).Some?
    ensures Generate(FormatAccountNumber(m), c) == Generate(FormatAccountNumber(n), d) <==> m == n && Upper(c) == Upper(d)
  {
    var a, b := Padded(m, 10), Padded(n, 10);
    assert Generate(a, c).Some? && Generate(b, d).Some? by {
      RoundTrip(a, c);
      RoundTrip(b, d);
    }
    var x, y := Generate(a, c).value, Generate(b, d).value;
    assert Carries(x, a, Upper(c)) by { GeneratedCarries(a, c, x); }
    assert Carries(y, b, Upper(d)) by { GeneratedCarries(b, d, y); }
    if x == y { CarriesOne(x, a, Upper(c), b, Upper(d)); }
    assert a == b ==> m == n by {
      PaddedValue(m, 10);
      PaddedValue(n, 10);
    }
  }
}
