/** Decimal printing and parsing, splitting and joining: the parts of Go's fmt, strconv and
    strings packages that the operator's names and addresses are built from and read with. */
module Text {
  datatype Option<+T> = None | Some(value: T)

  const INT32_LIMIT: int := 0x8000_0000
  const INT64_LIMIT: int := 0x8000_0000_0000_0000

  predicate IsInt32(x: int) {
    -INT32_LIMIT <= x < INT32_LIMIT
  }

  /** Go's conversion int32(x): keep the low 32 bits, read as two's complement. */
  function Truncate32(x: int): (r: int)
    ensures IsInt32(r)
    ensures (x - r) % (2 * INT32_LIMIT) == 0
    ensures IsInt32(x) ==> r == x
    ensures 0 <= x ==> r <= x
  {
    (x + INT32_LIMIT) % (2 * INT32_LIMIT) - INT32_LIMIT
  }

  // ---------------------------------------------------------------- decimal numbers

  predicate IsDigit(c: char) {
    '0' <= c <= '9'
  }

  predicate AllDigits(s: string) {
    forall i :: 0 <= i < |s| ==> IsDigit(s[i])
  }

  function Digit(d: nat): (c: char)
    requires d < 10
    ensures IsDigit(c)
  {
    ('0' as int + d) as char
  }

  function DigitValue(c: char): nat
    requires IsDigit(c)
  {
    c as int - '0' as int
  }

  /** %d of a non-negative number. */
  function Dec(n: nat): (s: string)
    ensures |s| > 0 && AllDigits(s)
  {
    if n < 10 then [Digit(n)] else Dec(n / 10) + [Digit(n % 10)]
  }

  /** %d of any number. */
  function DecInt(n: int): (s: string)
    ensures |s| > 0
    ensures forall i :: 0 <= i < |s| ==> IsDigit(s[i]) || s[i] == '-'
  {
    if n < 0 then "-" + Dec(-n) else Dec(n)
  }

  function DigitsValue(s: string): nat
    requires AllDigits(s)
  {
    if s == [] then 0 else 10 * DigitsValue(s[..|s| - 1]) + DigitValue(s[|s| - 1])
  }

  /** strconv.Atoi on a 64-bit machine: an optional sign, then digits only, then a range check. */
  function Atoi(s: string): Option<int> {
    var signed := |s| > 0 && (s[0] == '-' || s[0] == '+');
    var body := if signed then s[1..] else s;
    if |body| == 0 || !AllDigits(body) then None
    else
      var v: int := if signed && s[0] == '-' then -(DigitsValue(body) as int) else DigitsValue(body);
      if -INT64_LIMIT <= v < INT64_LIMIT then Some(v) else None
  }

  lemma {:induction false} DecReadsBack(n: nat)
    ensures DigitsValue(Dec(n)) == n
  {
    if n >= 10 {
      DecReadsBack(n / 10);
      var s := Dec(n);
      assert s[..|s| - 1] == Dec(n / 10);
    }
  }

  lemma DecIntReadsBack(n: int)
    ensures n < 0 <==> DecInt(n)[0] == '-'
    ensures n < 0 ==> AllDigits(DecInt(n)[1..]) && DigitsValue(DecInt(n)[1..]) == -n
    ensures n >= 0 ==> AllDigits(DecInt(n)) && DigitsValue(DecInt(n)) == n
  {
    var m := if n < 0 then -n else n;
    DecReadsBack(m);
    assert ("-" + Dec(m))[1..] == Dec(m);
  }

  /** Atoi undoes %d on exactly the 64-bit range, and refuses what is outside it. */
  lemma AtoiUndoesDecInt(n: int)
    ensures Atoi(DecInt(n)) == if -INT64_LIMIT <= n < INT64_LIMIT then Some(n) else None
  {
    DecIntReadsBack(n);
    if n >= 0 {
      assert IsDigit(DecInt(n)[0]);
    }
  }

  function InRange(v: int): Option<int> {
    if -9223372036854775808 <= v <= 9223372036854775807 then Some(v) else None
  }

  /** Digits read as their value with or without a plus sign, negative behind a minus sign, all within 64 bits. */
  lemma AtoiSigns(d: string)
    requires d != "" && AllDigits(d)
    ensures Atoi(d) == InRange(DigitsValue(d)) && Atoi("+" + d) == InRange(DigitsValue(d))
    ensures Atoi("-" + d) == InRange(-(DigitsValue(d) as int))
  {
    assert IsDigit(d[0]);
    assert ("+" + d)[1..] == d && ("-" + d)[1..] == d;
  }

  /** Nothing else is read. */
  lemma AtoiReadsOnlyNumbers(s: string)
    requires Atoi(s).Some?
    ensures s != "" && (AllDigits(s) || (s[0] in {'+', '-'} && s[1..] != "" && AllDigits(s[1..])))
  {
  }

  // ---------------------------------------------------------------- searching and cutting

  predicate Free(s: string, c: char) {
    forall i :: 0 <= i < |s| ==> s[i] != c
  }

  /** strings.LastIndexAny for one ASCII character; -1 when it does not occur. */
  function LastIndex(s: string, c: char): (k: int)
    ensures -1 <= k < |s|
    ensures k >= 0 ==> s[k] == c
    ensures Free(s[k + 1..], c)
  {
    if s == [] then -1
    else if s[|s| - 1] == c then |s| - 1
    else
      var k := LastIndex(s[..|s| - 1], c);
      assert forall i :: k < i < |s| ==> s[i] != c by {
        forall i | k < i < |s| ensures s[i] != c {
          if i < |s| - 1 { assert s[i] == s[..|s| - 1][k + 1..][i - k - 1]; }
        }
      }
      k
  }

  lemma NothingBehind(s: string, c: char, a: int, b: nat)
    requires -1 <= a < |s| && Free(s[a + 1..], c)
    requires b < |s| && s[b] == c
    ensures b <= a
  {
    assert forall i :: a < i < |s| ==> s[i] == s[a + 1..][i - a - 1];
  }

  /** The last occurrence is the only one with no further occurrence behind it. */
  lemma LastIndexUnique(front: string, c: char, back: string)
    requires Free(back, c)
    ensures LastIndex(front + [c] + back, c) == |front|
  {
    var s := front + [c] + back;
    assert s[|front|] == c && s[|front| + 1..] == back;
    NothingBehind(s, c, LastIndex(s, c), |front|);
    NothingBehind(s, c, |front|, LastIndex(s, c));
  }

  function Join(parts: seq<string>, sep: char): string {
    if |parts| == 0 then ""
    else if |parts| == 1 then parts[0]
    else parts[0] + [sep] + Join(parts[1..], sep)
  }

  /** strings.Split by one separator character. */
  function Split(s: string, sep: char): (parts: seq<string>)
    ensures |parts| > 0
  {
    if s == [] then [""]
    else if s[0] == sep then [""] + Split(s[1..], sep)
    else
      var rest := Split(s[1..], sep);
      [[s[0]] + rest[0]] + rest[1..]
  }

  lemma {:induction false} SplitHead(head: string, sep: char, tail: string)
    requires Free(head, sep)
    ensures Split(head + [sep] + tail, sep) == [head] + Split(tail, sep)
    ensures Split(head, sep) == [head]
  {
    var s := head + [sep] + tail;
    if head == [] {
      assert s[1..] == tail;
    } else {
      SplitHead(head[1..], sep, tail);
      assert s[1..] == head[1..] + [sep] + tail;
      assert [head[0]] + head[1..] == head;
    }
  }

  /** Splitting undoes joining when no part holds the separator and there is a part. */
  lemma {:induction false} SplitUndoesJoin(parts: seq<string>, sep: char)
    requires |parts| > 0
    requires forall i :: 0 <= i < |parts| ==> Free(parts[i], sep)
    ensures Split(Join(parts, sep), sep) == parts
  {
    if |parts| == 1 {
      SplitHead(parts[0], sep, "");
    } else {
      SplitUndoesJoin(parts[1..], sep);
      SplitHead(parts[0], sep, Join(parts[1..], sep));
    }
  }

  /** Join grows at its end the way a loop over the parts builds it. */
  lemma {:induction false} JoinSnoc(parts: seq<string>, last: string, sep: char)
    ensures Join(parts + [last], sep) == if parts == [] then last else Join(parts, sep) + [sep] + last
  {
    if |parts| == 0 {
      assert parts + [last] == [last];
    } else {
      assert (parts + [last])[1..] == parts[1..] + [last];
      JoinSnoc(parts[1..], last, sep);
    }
  }
}
