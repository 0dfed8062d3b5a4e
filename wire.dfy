/**
  The text encoding of integers between the storage server and its clients:
  the server prints a reply with `snprintf("%d", …)` and the boiler server
  reads it back with `atoi`. Integers are unbounded here; C's `int` range is
  not modelled.
 */
module Wire {

  datatype Option<T> = None | Some(value: T)

  predicate IsDigit(c: char) {
    '0' <= c <= '9'
  }

  /** C's `isspace` in the "C" locale, which `atoi` skips before the number. */
  predicate IsSpace(c: char) {
    c == ' ' || c == '\t' || c == '\n' || c == '\U{0B}' || c == '\U{0C}' || c == '\r'
  }

  function DigitValue(c: char): (d: nat)
    requires IsDigit(c)
    ensures d < 10
  {
    c as int - '0' as int
  }

  function DigitChar(d: nat): (c: char)
    requires d < 10
    ensures IsDigit(c) && DigitValue(c) == d
  {
    ('0' as int + d) as char
  }

  predicate AllDigits(s: seq<char>) {
    forall i :: 0 <= i < |s| ==> IsDigit(s[i])
  }

  /** The decimal digits of `n`, most significant first, without leading zeros. */
  function Digits(n: nat): (s: seq<char>)
    ensures 1 <= |s| && AllDigits(s)
    ensures |s| > 1 ==> s[0] != '0'
    decreases n
  {
    if n < 10 then [DigitChar(n)] else Digits(n / 10) + [DigitChar(n % 10)]
  }

  /** What `printf("%d", n)` writes. */
  function FormatInt(n: int): (s: seq<char>)
    ensures 1 <= |s|
    ensures s[0] == '-' <==> n < 0
    ensures AllDigits(s[1..])
  {
    if n < 0 then ['-'] + Digits(-n) else Digits(n)
  }

  /** The digit loop of `atoi`: consumes the longest run of leading digits. */
  function Accumulate(s: seq<char>, acc: int): int {
    if s != [] && IsDigit(s[0]) then Accumulate(s[1..], acc * 10 + DigitValue(s[0])) else acc
  }

  /** C's `atoi`: leading white space, an optional sign, then digits; 0 when there are none. */
  function Atoi(s: seq<char>): int {
    if s != [] && IsSpace(s[0]) then Atoi(s[1..])
    else if s != [] && s[0] == '-' then -Accumulate(s[1..], 0)
    else if s != [] && s[0] == '+' then Accumulate(s[1..], 0)
    else Accumulate(s, 0)
  }

  /** Appending one digit shifts the accumulated value by one decimal place. */
  lemma {:induction false} AccumulateSnoc(s: seq<char>, c: char, acc: int)
    requires AllDigits(s) && IsDigit(c)
    ensures Accumulate(s + [c], acc) == Accumulate(s, acc) * 10 + DigitValue(c)
    decreases |s|
  {
    if s == [] {
      assert s + [c] == [c];
    } else {
      assert (s + [c])[1..] == s[1..] + [c];
      AccumulateSnoc(s[1..], c, acc * 10 + DigitValue(s[0]));
    }
  }

  lemma {:induction false} AccumulateDigits(n: nat)
    ensures Accumulate(Digits(n), 0) == n
    decreases n
  {
    if n >= 10 {
      AccumulateDigits(n / 10);
      AccumulateSnoc(Digits(n / 10), DigitChar(n % 10), 0);
    }
  }

  /** `atoi` recovers exactly the integer that `%d` printed, negative values included. */
  lemma AtoiFormatInt(n: int)
    ensures Atoi(FormatInt(n)) == n
  {
    if n < 0 {
      assert FormatInt(n)[1..] == Digits(-n);
      AccumulateDigits(-n);
    } else {
      AccumulateDigits(n);
    }
  }

  /** Replies of at most two digits fit the client's 31-byte read buffer with room to spare. */
  lemma ShortFormat(n: int)
    requires -9 <= n <= 99
    ensures |FormatInt(n)| <= 3
  {
    if n < 0 {
      assert Digits(-n) == [DigitChar(-n)];
    } else if n >= 10 {
      assert Digits(n / 10) == [DigitChar(n / 10)];
    }
  }
}
