/** Application numbers of src/loan-applications/loan-applications.service.ts: `MP-SA-2026-00001234`. */
module ApplicationNumbers {
  import opened Tables
  import opened Rounding

  // Decimal digits

  function Digit(d: nat): char
    requires d < 10
  {
    ['0', '1', '2', '3', '4', '5', '6', '7', '8', '9'][d]
  }

  predicate IsDigit(c: char) {
    '0' <= c <= '9'
  }

  predicate AllDigits(s: string) {
    forall i :: 0 <= i < |s| ==> IsDigit(s[i])
  }

  /** `String(n)`. */
  function ToString(n: nat): string {
    if n < 10 then [Digit(n)] else ToString(n / 10) + [Digit(n % 10)]
  }

  /** `padStart(8, '0')`. */
  function PadStart8(s: string): string
    decreases 8 - |s|
  {
    if |s| >= 8 then s else PadStart8("0" + s)
  }

  /** `::BIGINT` of a string of digits. */
  function Parse(s: string): nat
    requires AllDigits(s)
  {
    if s == "" then 0 else 10 * Parse(s[..|s| - 1]) + (s[|s| - 1] as int - '0' as int)
  }

  // Numbers

  predicate IsWord(s: string) {
    |s| > 0 && forall i :: 0 <= i < |s| ==> 'A' <= s[i] <= 'Z' || 'a' <= s[i] <= 'z' || IsDigit(s[i]) || s[i] == '_'
  }

  function Format(productType: string, year: nat, n: nat): string {
    "MP-" + productType + "-" + ToString(year) + "-" + PadStart8(ToString(n))
  }

  /** `^MP-[A-Za-z0-9_]+-[0-9]{4}-[0-9]{8}$`: the last 14 characters have fixed places. */
  predicate Matches(s: string) {
    && |s| >= 18 && s[..3] == "MP-" && IsWord(s[3..|s| - 14])
    && s[|s| - 14] == '-' && AllDigits(s[|s| - 13..|s| - 9])
    && s[|s| - 9] == '-' && AllDigits(s[|s| - 8..])
  }

  /** `substring(... from '[0-9]{8}$')`. */
  function Suffix(s: string): nat
    requires Matches(s)
  {
    Parse(s[|s| - 8..])
  }

  // The sequence

  /** A PostgreSQL sequence; a fresh one returns its first value as it stands. */
  datatype Sequence = Sequence(last: nat, called: bool)

  function NextValue(s: Sequence): nat {
    if s.called then s.last + 1 else s.last
  }

  ghost predicate IsMaxSuffix(numbers: set<string>, m: nat) {
    && (forall s :: s in numbers && Matches(s) ==> Suffix(s) <= m)
    && (m > 0 ==> exists s :: s in numbers && Matches(s) && Suffix(s) == m)
  }

  function Synced(s: Sequence, m: nat): Sequence {
    if m > 0 && s.last < m then Sequence(m, true) else s
  }

  datatype InsertResult = Inserted | NumberCollision | ActiveAdvanceConflict | OtherError

  const MAX_ATTEMPTS := 5

  /** The retry loop, whatever the database answers each time: other requests may run between the attempts. */
  method RetryLoop(answers: nat -> InsertResult) returns (attempts: nat, result: InsertResult)
    ensures 1 <= attempts <= 5
    ensures result == answers(attempts - 1)
    ensures forall i :: 0 <= i < attempts - 1 ==> answers(i) == NumberCollision
    ensures result == NumberCollision <==> forall i :: 0 <= i < 5 ==> answers(i) == NumberCollision
  {
    var appNumAttempts: nat := 0;
    attempts := 0;
    while true
      invariant attempts == appNumAttempts < MAX_ATTEMPTS
      invariant forall i :: 0 <= i < attempts ==> answers(i) == NumberCollision
      decreases MAX_ATTEMPTS - attempts
    {
      result := answers(attempts);
      attempts := attempts + 1;
      if result == Inserted { break; }
      if result == NumberCollision {
        appNumAttempts := appNumAttempts + 1;
        if appNumAttempts < MAX_ATTEMPTS { continue; }
      }
      break;
    }
  }

  /** The applications' numbers and the sequence, with no concurrent writer. */
  class NumberSource {
    var numbers: set<string>
    var sequence: Sequence

    constructor (numbers: set<string>, sequence: Sequence)
      ensures this.numbers == numbers && this.sequence == sequence
    {
      this.numbers, this.sequence := numbers, sequence;
    }

    method SyncApplicationNumberSequence() returns (maxSeq: nat)
      modifies `sequence
      ensures IsMaxSuffix(numbers, maxSeq) && sequence == Synced(old(sequence), maxSeq)
      ensures (forall s :: s in numbers && Matches(s) ==> Suffix(s) <= old(sequence).last) ==> sequence == old(sequence)
      ensures (exists s :: s in numbers && Matches(s) && Suffix(s) > old(sequence).last) ==>
                sequence == Sequence(maxSeq, true)
    {
      maxSeq := 0;
      var rows := FindMany(set s | s in numbers && Matches(s));
      for i := 0 to |rows|
        invariant forall s :: s in rows ==> s in numbers && Matches(s)
        invariant forall j :: 0 <= j < i ==> Suffix(rows[j]) <= maxSeq
        invariant maxSeq > 0 ==> exists s :: s in numbers && Matches(s) && Suffix(s) == maxSeq
      {
        assert rows[i] in rows;
        if Suffix(rows[i]) > maxSeq { maxSeq := Suffix(rows[i]); }
      }
      assert forall s :: s in numbers && Matches(s) ==> s in rows;
      if maxSeq <= 0 { return; }
      if sequence.last >= maxSeq { return; }
      sequence := Sequence(maxSeq, true);
    }

    method GenerateApplicationNumber(productType: string, year: nat) returns (number: string)
      modifies `sequence
      ensures sequence == Sequence(if old(sequence).called then old(sequence).last + 1 else old(sequence).last, true)
      ensures number == Format(productType, year, sequence.last)
    {
      sequence := Sequence(if sequence.called then sequence.last + 1 else sequence.last, true);
      number := Format(productType, year, sequence.last);
    }

    /** `create` up to the inserted row: synchronise, then generate and insert, retrying on a taken number. */
    method Create(productType: string, year: nat) returns (ok: bool, number: string, generated: nat)
      requires IsWord(productType) && 1000 <= year <= 9999
      modifies this
      ensures generated <= MAX_ATTEMPTS
      ensures ok ==> number !in old(numbers) && numbers == old(numbers) + {number}
      ensures !ok ==> numbers == old(numbers)
      ensures BelowLimit(old(numbers), old(sequence)) ==> ok && generated <= 2
      ensures BelowLimit(old(numbers), old(sequence)) ==>
                number == Format(productType, year, sequence.last) && sequence.called
                && Matches(number) && Suffix(number) == sequence.last
                && Follows(old(numbers), old(sequence), sequence.last)
    {
      var appNumAttempts: nat := 0;
      generated := 0;
      var maxSeq := SyncApplicationNumberSequence();
      ghost var m := maxSeq;
      SyncedFollows(numbers, old(sequence), m);
      while true
        invariant numbers == old(numbers) && generated == appNumAttempts < MAX_ATTEMPTS
        invariant IsMaxSuffix(numbers, m) && (m > 0 ==> sequence.last >= m)
        invariant BelowLimit(old(numbers), old(sequence)) ==> appNumAttempts <= 1 && NextValue(sequence) < 100000000
        invariant BelowLimit(old(numbers), old(sequence)) && appNumAttempts == 1 ==> sequence.called
        invariant BelowLimit(old(numbers), old(sequence)) ==>
                    Follows(old(numbers), old(sequence), NextValue(sequence))
        decreases MAX_ATTEMPTS - appNumAttempts
      {
        ghost var before := sequence;
        number := GenerateApplicationNumber(productType, year);
        generated := generated + 1;
        if number !in numbers {
          if BelowLimit(old(numbers), old(sequence)) { SuffixUndoesFormat(productType, year, sequence.last); }
          numbers := numbers + {number};
          return true, number, generated;
        }
        if NextValue(before) < 100000000 {
          TakenNumber(numbers, m, productType, year, NextValue(before));
          SuffixUndoesFormat(productType, year, NextValue(before));
          if BelowLimit(old(numbers), old(sequence)) {
            TakenFollows(numbers, old(sequence), m, NextValue(before), number);
          }
        }
        appNumAttempts := appNumAttempts + 1;
        if appNumAttempts >= MAX_ATTEMPTS { return false, number, generated; }
        maxSeq := SyncApplicationNumberSequence();
        SameMaximum(numbers, m, maxSeq);
      }
    }
  }

  /** Every number still to be generated within two attempts has at most eight digits. */
  ghost predicate BelowLimit(numbers: set<string>, s: Sequence) {
    s.last + 1 < 100000000 && forall t :: t in numbers && Matches(t) ==> Suffix(t) + 1 < 100000000
  }

  /** The value comes after the suffixes there are, and is the sequence's next one or the one after a suffix. Only a
      fresh sequence may give a value in use, for another product type. */
  ghost predicate Follows(numbers: set<string>, s: Sequence, n: nat) {
    && (forall t :: t in numbers && Matches(t) ==> Suffix(t) <= n)
    && (s.called ==> forall t :: t in numbers && Matches(t) ==> Suffix(t) < n)
    && (n == (if s.called then s.last + 1 else s.last) || exists t :: t in numbers && Matches(t) && n == Suffix(t) + 1)
  }

  lemma SyncedFollows(numbers: set<string>, s: Sequence, m: nat)
    requires IsMaxSuffix(numbers, m)
    ensures Follows(numbers, s, NextValue(Synced(s, m)))
  {
  }

  lemma TakenFollows(numbers: set<string>, s: Sequence, m: nat, n: nat, taken: string)
    requires IsMaxSuffix(numbers, m) && Follows(numbers, s, n) && n <= m
    requires taken in numbers && Matches(taken) && Suffix(taken) == n
    ensures Follows(numbers, s, n + 1)
  {
  }

  lemma SameMaximum(numbers: set<string>, m: nat, m': nat)
    requires IsMaxSuffix(numbers, m) && IsMaxSuffix(numbers, m')
    ensures m == m'
  {
  }

  lemma TakenNumber(numbers: set<string>, m: nat, productType: string, year: nat, n: nat)
    requires IsMaxSuffix(numbers, m) && IsWord(productType) && 1000 <= year <= 9999 && n < 100000000
    requires Format(productType, year, n) in numbers
    ensures n <= m
  {
    SuffixUndoesFormat(productType, year, n);
  }

  // The suffix undoes the formatter

  lemma {:induction false} ParseToString(n: nat)
    ensures AllDigits(ToString(n)) && |ToString(n)| >= 1 && Parse(ToString(n)) == n
  {
    if n >= 10 {
      ParseToString(n / 10);
      var s := ToString(n);
      assert s[..|s| - 1] == ToString(n / 10);
    } else {
      assert [Digit(n)][..0] == "";
      assert Parse([Digit(n)]) == 10 * Parse("") + n;
    }
  }

  lemma {:induction false} ToStringLength(n: nat, width: nat)
    requires width >= 1 && n < Pow10(width)
    ensures |ToString(n)| <= width
    decreases width
  {
    assert Pow10(1) == 10;
    if n >= 10 {
      assert width > 1;
      ToStringLength(n / 10, width - 1);
    }
  }

  lemma {:induction false} ParseZero(s: string)
    requires AllDigits(s)
    ensures AllDigits("0" + s) && Parse("0" + s) == Parse(s)
    decreases |s|
  {
    var z := "0" + s;
    if s == "" {
      assert z[..0] == "";
    } else {
      assert z[..|z| - 1] == "0" + s[..|s| - 1];
      ParseZero(s[..|s| - 1]);
    }
  }

  lemma {:induction false} PadKeeps(s: string)
    requires AllDigits(s)
    ensures AllDigits(PadStart8(s)) && Parse(PadStart8(s)) == Parse(s)
    ensures |PadStart8(s)| == if |s| >= 8 then |s| else 8
    decreases 8 - |s|
  {
    if |s| < 8 {
      ParseZero(s);
      PadKeeps("0" + s);
    }
  }

  lemma YearDigits(year: nat)
    requires 1000 <= year <= 9999
    ensures |ToString(year)| == 4 && AllDigits(ToString(year))
  {
    ParseToString(year);
    assert |ToString(year / 1000)| == 1;
    assert year / 10 / 10 == year / 100 && year / 100 / 10 == year / 1000;
    assert |ToString(year / 100)| == 2;
    assert |ToString(year / 10)| == 3;
  }

  /** Parsing the eight-digit suffix of a generated number gives back the sequence value. */
  lemma SuffixUndoesFormat(productType: string, year: nat, n: nat)
    requires IsWord(productType) && 1000 <= year <= 9999 && n < 100000000
    ensures Matches(Format(productType, year, n)) && Suffix(Format(productType, year, n)) == n
  {
    YearDigits(year);
    ParseToString(n);
    EightDigits();
    ToStringLength(n, 8);
    PadKeeps(ToString(n));
    var y, d, s := ToString(year), PadStart8(ToString(n)), Format(productType, year, n);
    assert |s| == |productType| + 17;
    assert s[|s| - 8..] == d;
    assert s[|s| - 13..|s| - 9] == y;
    assert s[3..|s| - 14] == productType;
  }

  lemma OneDigit(d: nat)
    requires d < 10
    ensures ToString(d) == [Digit(d)]
  {
  }

  lemma AppendDigit(n: nat, d: nat)
    requires 0 < n && d < 10
    ensures ToString(10 * n + d) == ToString(n) + [Digit(d)]
  {
    assert (10 * n + d) / 10 == n && (10 * n + d) % 10 == d;
  }

  lemma FourDigits(a: nat, b: nat, c: nat, d: nat)
    requires 0 < a < 10 && b < 10 && c < 10 && d < 10
    ensures ToString(1000 * a + 100 * b + 10 * c + d) == [Digit(a), Digit(b), Digit(c), Digit(d)]
  {
    hide ToString, Digit;
    OneDigit(a);
    AppendDigit(a, b);
    AppendDigit(10 * a + b, c);
    AppendDigit(100 * a + 10 * b + c, d);
  }

  lemma PaddedFour(s: string)
    requires |s| == 4
    ensures PadStart8(s) == "0000" + s
  {
    var s1, s2, s3 := "0" + s, "0" + ("0" + s), "0" + ("0" + ("0" + s));
    assert PadStart8(s) == PadStart8(s1);
    assert PadStart8(s1) == PadStart8(s2);
    assert PadStart8(s2) == PadStart8(s3);
    assert PadStart8(s3) == "0" + s3;
  }

  /** A number as it is printed. */
  lemma Formatted()
    ensures Format("SA", 2026, 1234) == "MP-SA-2026-00001234"
  {
    hide ToString, PadStart8;
    FourDigits(2, 0, 2, 6);
    FourDigits(1, 2, 3, 4);
    PaddedFour("1234");
  }

  lemma EightDigits()
    ensures Pow10(8) == 100000000
  {
    assert Pow10(0) == 1 && Pow10(1) == 10 && Pow10(2) == 100 && Pow10(3) == 1000;
    assert Pow10(4) == 10000 && Pow10(5) == 100000 && Pow10(6) == 1000000 && Pow10(7) == 10000000;
  }

  /** From 10^8 on the pattern no longer sees the numbers it should stay ahead of. */
  lemma NineDigitsUnseen(productType: string, year: nat, n: nat)
    requires IsWord(productType) && 1000 <= year <= 9999 && n >= 100000000
    ensures !Matches(Format(productType, year, n))
  {
    ParseToString(n);
    AtLeastNine(n);
    PadKeeps(ToString(n));
    var d, s := PadStart8(ToString(n)), Format(productType, year, n);
    assert s[|s| - |d|..] == d;
    assert s[|s| - 9] == d[|d| - 9];
    assert IsDigit(d[|d| - 9]);
  }

  lemma AtLeastNine(n: nat)
    requires n >= 100000000
    ensures |ToString(n)| >= 9
  {
    LongEnough(n, 8);
  }

  lemma {:induction false} LongEnough(n: nat, k: nat)
    requires n >= Pow10(k)
    ensures |ToString(n)| >= k + 1
    decreases k
  {
    if k > 0 {
      Pow10Positive(k - 1);
      LongEnough(n / 10, k - 1);
    }
  }
}
