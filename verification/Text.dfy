/**
 The pieces of Go's `strconv`, `strings` and `fmt` that the operator's printers and
 parsers rely on: decimal printing, `Atoi`, `Split` and substring search.
 */
module Text {
  import opened Wrappers

  const MIN_INT64: int := -0x8000_0000_0000_0000
  const MAX_INT64: int := 0x7FFF_FFFF_FFFF_FFFF

  predicate IsInt64(n: int) {
    MIN_INT64 <= n <= MAX_INT64
  }

  predicate IsDigit(c: char) {
    '0' <= c <= '9'
  }

  predicate AllDigits(s: string) {
    forall i :: 0 <= i < |s| ==> IsDigit(s[i])
  }

  function DigitValue(c: char): (d: nat)
    requires IsDigit(c)
    ensures d < 10
  {
    c as int - '0' as int
  }

  function DigitChar(d: nat): (c: char)
    requires d < 10
    ensures IsDigit(c) && DigitValue(c) == d
  {
    (d + '0' as int) as char
  }

  /** The number a non-empty run of digits denotes. */
  function NatValue(s: string): (n: nat)
    requires AllDigits(s)
  {
    if s == [] then 0 else 10 * NatValue(s[..|s| - 1]) + DigitValue(s[|s| - 1])
  }

  /** The canonical decimal form of a natural number: it denotes `n` and has no leading zero. */
  function NatText(n: nat): (s: string)
    ensures s != [] && AllDigits(s)
    ensures NatValue(s) == n
    ensures |s| > 1 ==> s[0] != '0'
  {
    if n < 10 then
      [DigitChar(n)]
    else
      var s := NatText(n / 10) + [DigitChar(n % 10)];
      assert s[..|s| - 1] == NatText(n / 10);
      assert n / 10 >= 1;
      assert |NatText(n / 10)| == 1 ==> NatText(n / 10)[0] != '0' by {
        var t := NatText(n / 10);
        if |t| == 1 {
          assert t[..0] == [];
          assert NatValue(t) == DigitValue(t[0]);
        }
      }
      s
  }

  /** `fmt.Sprintf("%d", n)`. */
  function Itoa(n: int): (s: string)
    ensures s != []
    ensures n >= 0 ==> s == NatText(n)
    ensures n < 0 ==> s == ['-'] + NatText(-n)
  {
    if n < 0 then ['-'] + NatText(-n) else NatText(n)
  }

  function Signed(negative: bool, digits: string): (r: Result<int>)
  {
    if digits == [] || !AllDigits(digits) then Err
    else
      var n: int := if negative then -(NatValue(digits) as int) else NatValue(digits);
      if IsInt64(n) then Ok(n) else Err
  }

  /** `strconv.Atoi` on a 64-bit platform: an optional sign, then digits, in range. */
  function Atoi(s: string): (r: Result<int>)
    ensures r.Ok? ==> IsInt64(r.value)
  {
    if s != [] && (s[0] == '-' || s[0] == '+') then Signed(s[0] == '-', s[1..])
    else Signed(false, s)
  }

  /** What was printed is read back, on the whole 64-bit range and nowhere else. */
  lemma AtoiItoa(n: int)
    ensures Atoi(Itoa(n)) == if IsInt64(n) then Ok(n) else Err
  {
    if n < 0 {
      assert Itoa(n)[1..] == NatText(-n);
    } else {
      assert IsDigit(NatText(n)[0]);
    }
  }

  /** A digit further on the right counts ten times less. */
  lemma DigitsArePowersOfTen(s: string, c: char)
    requires AllDigits(s) && IsDigit(c)
    ensures NatValue(s + [c]) == 10 * NatValue(s) + (c as int - 48)
  {
    assert (s + [c])[..|s|] == s;
  }

  /** What `Atoi` accepts: digits with at most one sign before them, denoting a 64-bit integer. */
  lemma AtoiAccepts(s: string, digits: string)
    requires digits != "" && AllDigits(digits)
    ensures Atoi(digits) == Atoi("+" + digits) ==
      if NatValue(digits) <= 9223372036854775807 then Ok(NatValue(digits)) else Err
    ensures Atoi("-" + digits) == if NatValue(digits) <= 9223372036854775808 then Ok(0 - NatValue(digits)) else Err
    ensures Atoi(s).Ok? ==>
      s != "" && AllDigits(s[1..]) && (IsDigit(s[0]) || ((s[0] == '+' || s[0] == '-') && |s| > 1))
  {
    assert ("+" + digits)[1..] == digits && ("-" + digits)[1..] == digits;
    assert IsDigit(digits[0]);
  }

  lemma ItoaSign(n: int)
    ensures Itoa(n)[0] == '-' <==> n < 0
    ensures n < 0 ==> Itoa(n)[1..] == NatText(-n)
  {
    assert n >= 0 ==> IsDigit(NatText(n)[0]);
  }

  lemma ItoaInjective(a: int, b: int)
    requires Itoa(a) == Itoa(b)
    ensures a == b
  {
    ItoaSign(a);
    ItoaSign(b);
  }

  predicate IsItoaChar(c: char) {
    IsDigit(c) || c == '-'
  }

  lemma ItoaChars(n: int)
    ensures forall i :: 0 <= i < |Itoa(n)| ==> IsItoaChar(Itoa(n)[i])
  {
    if n < 0 {
      assert forall i :: 1 <= i < |Itoa(n)| ==> Itoa(n)[i] == NatText(-n)[i - 1];
    }
  }

  /** `strings.Split(s, sep)` for a one-character separator. */
  function Split(s: string, sep: char): (parts: seq<string>)
    ensures |parts| >= 1
    ensures forall i :: 0 <= i < |parts| ==> sep !in parts[i]
  {
    if s == [] then [""]
    else
      var rest := Split(s[1..], sep);
      if s[0] == sep then [""] + rest
      else [[s[0]] + rest[0]] + rest[1..]
  }

  /** `strings.Join(parts, sep)`. */
  function Join(parts: seq<string>, sep: char): (s: string)
    requires |parts| >= 1
  {
    if |parts| == 1 then parts[0] else parts[0] + [sep] + Join(parts[1..], sep)
  }

  /** The prefix of `s` before the first `sep`, or all of `s`. */
  function Before(s: string, sep: char): (r: string)
    ensures sep !in r && r <= s
  {
    if s == [] || s[0] == sep then [] else [s[0]] + Before(s[1..], sep)
  }

  lemma {:induction false} SplitAppend(head: string, sep: char, tail: string)
    requires sep !in head
    ensures Split(head + [sep] + tail, sep) == [head] + Split(tail, sep)
  {
    if head == [] {
      assert ([sep] + tail)[1..] == tail;
      assert head + [sep] + tail == [sep] + tail;
    } else {
      var s := head + [sep] + tail;
      assert s[1..] == head[1..] + [sep] + tail;
      SplitAppend(head[1..], sep, tail);
      assert Split(s, sep) == [[s[0]] + head[1..]] + Split(tail, sep);
      assert [s[0]] + head[1..] == head;
    }
  }

  lemma {:induction false} SplitWhole(s: string, sep: char)
    requires sep !in s
    ensures Split(s, sep) == [s]
  {
    if s != [] {
      SplitWhole(s[1..], sep);
      assert [s[0]] + s[1..] == s;
      assert Split(s, sep) == [[s[0]] + s[1..]] + [];
    }
  }

  /** Splitting undoes joining when no part contains the separator. */
  lemma {:induction false} SplitJoin(parts: seq<string>, sep: char)
    requires |parts| >= 1
    requires forall i :: 0 <= i < |parts| ==> sep !in parts[i]
    ensures Split(Join(parts, sep), sep) == parts
  {
    if |parts| == 1 {
      SplitWhole(parts[0], sep);
    } else {
      SplitJoin(parts[1..], sep);
      SplitAppend(parts[0], sep, Join(parts[1..], sep));
      assert parts == [parts[0]] + parts[1..];
    }
  }

  /** Joining undoes splitting. */
  lemma {:induction false} JoinSplit(s: string, sep: char)
    ensures Join(Split(s, sep), sep) == s
  {
    if s != [] {
      JoinSplit(s[1..], sep);
      var rest := Split(s[1..], sep);
      if s[0] == sep {
        assert ([""] + rest)[1..] == rest;
        assert s == [sep] + s[1..];
      } else {
        assert ([[s[0]] + rest[0]] + rest[1..])[1..] == rest[1..];
        assert s == [s[0]] + s[1..];
      }
    }
  }

  /** The number of separators is what a split counts. */
  function Count(s: string, c: char): nat {
    if s == [] then 0 else (if s[0] == c then 1 else 0) + Count(s[1..], c)
  }

  lemma {:induction false} SplitLength(s: string, sep: char)
    ensures |Split(s, sep)| == Count(s, sep) + 1
  {
    if s != [] {
      SplitLength(s[1..], sep);
    }
  }

  lemma {:induction false} CountAppend(a: string, b: string, c: char)
    ensures Count(a + b, c) == Count(a, c) + Count(b, c)
  {
    if a == [] {
      assert a + b == b;
    } else {
      assert (a + b)[1..] == a[1..] + b;
      CountAppend(a[1..], b, c);
    }
  }

  lemma {:induction false} CountZero(s: string, c: char)
    ensures Count(s, c) == 0 <==> c !in s
  {
    if s != [] {
      CountZero(s[1..], c);
    }
  }

  predicate OccursAt(s: string, sub: string, i: nat) {
    i + |sub| <= |s| && s[i..i + |sub|] == sub
  }

  /** `strings.Contains`. */
  predicate Contains(s: string, sub: string) {
    exists i: nat | i <= |s| :: OccursAt(s, sub, i)
  }

  /** A text contains another exactly when it is some text, that one, and some text. */
  lemma ContainsMeans(s: string, sub: string)
    ensures Contains(s, sub) <==> exists front, back :: s == front + sub + back
  {
    if Contains(s, sub) {
      var i: nat :| i <= |s| && OccursAt(s, sub, i);
      assert s == s[..i] + sub + s[i + |sub|..];
    }
    forall front, back | s == front + sub + back
      ensures Contains(s, sub)
    {
      assert s[|front|..|front| + |sub|] == sub;
      assert OccursAt(s, sub, |front|);
    }
  }
}
