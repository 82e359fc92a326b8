/**
 The string primitives the connector leans on: splitting at ":" and Go's decimal
 conversions between strings and 64-bit integers.
 */
module Text {

  import opened Sequences
  import opened Wrappers

  const MIN_INT64: int := -0x8000_0000_0000_0000
  const MAX_INT64: int := 0x7FFF_FFFF_FFFF_FFFF

  /** The value a 64-bit register holds after an operation whose exact result is `x`. */
  function Wrap64(x: int): (r: int)
    ensures MIN_INT64 <= r <= MAX_INT64
    ensures MIN_INT64 <= x <= MAX_INT64 ==> r == x
  {
    (x + 0x8000_0000_0000_0000) % 0x1_0000_0000_0000_0000 - 0x8000_0000_0000_0000
  }

  /** The register differs from the exact result by a multiple of 2^64, and is the only 64-bit value that does. */
  lemma WrapIsCongruent(x: int, y: int)
    requires MIN_INT64 <= y <= MAX_INT64
    ensures y == Wrap64(x) <==> exists k: int :: y == x + k * 0x1_0000_0000_0000_0000
  {
    var k := (x + 0x8000_0000_0000_0000) / 0x1_0000_0000_0000_0000;
    assert Wrap64(x) == x + -k * 0x1_0000_0000_0000_0000;
  }

  // ---------------------------------------------------------------- splitting

  predicate ColonFree(s: string) {
    forall i :: 0 <= i < |s| ==> s[i] != ':'
  }

  function FirstColon(s: string): (i: nat)
    requires !ColonFree(s)
    ensures i < |s| && s[i] == ':' && ColonFree(s[..i])
  {
    if s[0] == ':' then 0
    else
      var i := 1 + FirstColon(s[1..]);
      assert s[..i] == [s[0]] + s[1..][..i - 1];
      i
  }

  /** strings.Split(s, ":"). */
  function Split(s: string): (parts: seq<string>)
    ensures |parts| >= 1
    ensures |parts| == 1 ==> ColonFree(s) && parts == [s]
  {
    if ColonFree(s) then [s]
    else var i := FirstColon(s); [s[..i]] + Split(s[i + 1..])
  }

  /** strings.Join(parts, ":"). */
  function Join(parts: seq<string>): string
    requires |parts| >= 1
  {
    if |parts| == 1 then parts[0] else parts[0] + ":" + Join(parts[1..])
  }

  /** Splitting cuts at every colon and loses nothing: the parts are colon-free and join to the text. */
  lemma {:induction false} JoinSplit(s: string)
    ensures forall p :: p in Split(s) ==> ColonFree(p)
    ensures Join(Split(s)) == s
    decreases |s|
  {
    if !ColonFree(s) {
      var head, rest := CutAtColon(s);
      JoinSplit(rest);
      SplitAt(head, rest);
      assert ([head] + Split(rest))[1..] == Split(rest);
    }
  }

  /** No other colon-free parts join to the text. */
  lemma {:induction false} SplitJoin(parts: seq<string>)
    requires |parts| >= 1 && forall p :: p in parts ==> ColonFree(p)
    ensures Split(Join(parts)) == parts
  {
    if |parts| > 1 {
      SplitJoin(parts[1..]);
      SplitAt(parts[0], Join(parts[1..]));
      assert [parts[0]] + parts[1..] == parts;
    } else {
      assert [parts[0]] == parts;
    }
  }

  lemma FirstColonUnique(s: string, j: nat)
    requires j < |s| && s[j] == ':' && ColonFree(s[..j])
    ensures !ColonFree(s) && FirstColon(s) == j
  {
    var i := FirstColon(s);
    assert forall k :: 0 <= k < i ==> s[k] == s[..i][k];
    assert forall k :: 0 <= k < j ==> s[k] == s[..j][k];
  }

  /** The part before the first separator, then the parts of the rest. */
  lemma SplitAt(head: string, tail: string)
    requires ColonFree(head)
    ensures Split(head + ":" + tail) == [head] + Split(tail)
  {
    var whole := head + ":" + tail;
    assert whole[..|head|] == head && whole[|head| + 1..] == tail;
    FirstColonUnique(whole, |head|);
  }

  lemma CutAtColon(a: string) returns (head: string, rest: string)
    requires !ColonFree(a)
    ensures ColonFree(head) && a == head + ":" + rest && |rest| < |a|
  {
    var j := FirstColon(a);
    head, rest := a[..j], a[j + 1..];
  }

  lemma {:induction false} SplitConcat(a: string, b: string)
    ensures Split(a + ":" + b) == Split(a) + Split(b)
    decreases |a|
  {
    if ColonFree(a) {
      SplitAt(a, b);
    } else {
      var head, rest := CutAtColon(a);
      SplitConcat(rest, b);
      SplitAt(head, rest);
      SplitAt(head, rest + ":" + b);
      Regroup(head, rest, b);
      Reassociate([head], Split(rest), Split(b));
    }
  }

  lemma Regroup(head: string, rest: string, b: string)
    ensures (head + ":" + rest) + ":" + b == head + ":" + (rest + ":" + b)
  {
  }

  // ------------------------------------------------------- decimal conversion

  predicate IsDigit(c: char) {
    '0' <= c <= '9'
  }

  predicate AllDigits(s: string) {
    forall i :: 0 <= i < |s| ==> IsDigit(s[i])
  }

  function DigitValue(c: char): nat
    requires IsDigit(c)
  {
    c as int - '0' as int
  }

  function Digit(n: nat): char
    requires n < 10
  {
    ('0' as int + n) as char
  }

  function Value(s: string): nat
    requires AllDigits(s)
  {
    if s == "" then 0 else 10 * Value(s[..|s| - 1]) + DigitValue(s[|s| - 1])
  }

  function Digits(n: nat): string {
    if n < 10 then [Digit(n)] else Digits(n / 10) + [Digit(n % 10)]
  }

  /** strconv.Itoa. */
  function Itoa(n: int): string {
    if n < 0 then "-" + Digits(-n) else Digits(n)
  }

  /** strconv.Atoi on a 64-bit platform; None stands for the conversion error. */
  function Atoi(s: string): Option<int> {
    var signed := s != "" && (s[0] == '-' || s[0] == '+');
    var body := if signed then s[1..] else s;
    if body == "" || !AllDigits(body) then None
    else
      var magnitude: int := Value(body);
      var v := if signed && s[0] == '-' then -magnitude else magnitude;
      InRange(v)
  }

  lemma {:induction false} DigitsValue(n: nat)
    ensures Digits(n) != "" && AllDigits(Digits(n)) && Value(Digits(n)) == n
  {
    if n >= 10 {
      DigitsValue(n / 10);
      var d := Digits(n);
      assert d[..|d| - 1] == Digits(n / 10);
    }
  }

  function InRange(n: int): Option<int> {
    if MIN_INT64 <= n <= MAX_INT64 then Some(n) else None
  }

  lemma AtoiDigits(s: string, n: nat)
    requires s == Digits(n)
    ensures s != "" && Atoi(s) == InRange(n)
  {
    DigitsValue(n);
    assert IsDigit(s[0]);
  }

  /** Numbers are printed in decimal: the digits of the tens first, then the last digit. */
  lemma PrintedDigits(n: int, d: nat)
    requires n >= 0 && d < 10
    ensures Itoa(d) == "0123456789"[d..d + 1]
    ensures n > 0 ==> Itoa(10 * n + d) == Itoa(n) + "0123456789"[d..d + 1]
    ensures n > 0 ==> Itoa(-n) == "-" + Itoa(n)
  {
    assert (10 * n + d) / 10 == n && (10 * n + d) % 10 == d;
  }

  /** A text reads as a number exactly if it is a decimal numeral, with or without a sign, of a 64-bit value. */
  lemma AtoiReads(s: string, n: int)
    ensures Atoi(s) == Some(n) <==>
      && MIN_INT64 <= n <= MAX_INT64
      && exists d :: d != "" && AllDigits(d)
           && (((s == d || s == "+" + d) && n == Value(d)) || (s == "-" + d && n + Value(d) == 0))
  {
    if Atoi(s) == Some(n) {
      var d := if s[0] == '-' || s[0] == '+' then s[1..] else s;
      assert d != "" && AllDigits(d) && (s == d || s == [s[0]] + d);
    }
    if d :| d != "" && AllDigits(d)
            && (((s == d || s == "+" + d) && n == Value(d)) || (s == "-" + d && n + Value(d) == 0)) {
      assert IsDigit(d[0]);
      assert s != d ==> s[1..] == d;
    }
  }

  lemma AtoiMinus(s: string, d: string, n: nat, negated: int)
    requires s == "-" + d && d == Digits(n) && negated + n == 0
    ensures s != "" && Atoi(s) == InRange(negated)
  {
    DigitsValue(n);
    assert s[0] == '-' && s[1..] == d;
  }

  /** Atoi undoes Itoa on every 64-bit integer and rejects the numerals outside that range. */
  lemma AtoiItoa(n: int)
    ensures Itoa(n) != "" && Atoi(Itoa(n)) == InRange(n)
  {
    if n < 0 {
      AtoiMinus(Itoa(n), Digits(-n), -n, n);
    } else {
      AtoiDigits(Itoa(n), n);
    }
  }

  // ------------------------------------------------------------------ trimming

  /** unicode.IsSpace. */
  predicate IsSpace(c: char) {
    var x := c as int;
    || 0x09 <= x <= 0x0D || x == 0x20 || x == 0x85 || x == 0xA0 || x == 0x1680
    || 0x2000 <= x <= 0x200A || x == 0x2028 || x == 0x2029 || x == 0x202F || x == 0x205F || x == 0x3000
  }

  /** Of the ASCII characters: the blank, tab, line feed, vertical tab, form feed and carriage return. */
  lemma AsciiSpaces(c: char)
    requires c as int < 0x80
    ensures IsSpace(c) <==> c in " \t\n\r" || c as int in {0x0B, 0x0C}
  {
  }

  /** strings.TrimSpace. */
  function TrimSpace(s: string): string {
    if s != "" && IsSpace(s[0]) then TrimSpace(s[1..])
    else if s != "" && IsSpace(s[|s| - 1]) then TrimSpace(s[..|s| - 1])
    else s
  }

  predicate AllSpaces(s: string) {
    forall i :: 0 <= i < |s| ==> IsSpace(s[i])
  }

  /** Trimming removes exactly the padding around a text that starts and ends with something else. */
  lemma {:induction false} TrimPadded(left: string, body: string, right: string)
    requires AllSpaces(left) && AllSpaces(right) && body != "" && !IsSpace(body[0]) && !IsSpace(body[|body| - 1])
    ensures TrimSpace(left + body + right) == body
    decreases |left| + |right|
  {
    var s := left + body + right;
    if left != "" {
      assert s[0] == left[0] && s[1..] == left[1..] + body + right;
      TrimPadded(left[1..], body, right);
    } else if right != "" {
      assert s[0] == body[0] && s[|s| - 1] == right[|right| - 1];
      assert s[..|s| - 1] == left + body + right[..|right| - 1];
      TrimPadded(left, body, right[..|right| - 1]);
    } else {
      assert s == body;
    }
  }

  lemma ItoaNotPadded(n: int)
    ensures Itoa(n) != "" && !IsSpace(Itoa(n)[0]) && !IsSpace(Itoa(n)[|Itoa(n)| - 1])
  {
    if n < 0 {
      DigitsValue(-n);
      var d := Digits(-n);
      assert Itoa(n)[|Itoa(n)| - 1] == d[|d| - 1] && IsDigit(d[|d| - 1]);
    } else {
      DigitsValue(n);
      var d := Digits(n);
      assert IsDigit(d[0]) && IsDigit(d[|d| - 1]);
    }
  }
}
