/** Integers as decimal strings, and the compound string keys built from them. */
module Decimal {
  import opened Options

  const DIGITS: string := "0123456789"

  predicate IsDigit(c: char) {
    '0' <= c <= '9'
  }

  function DigitValue(c: char): nat
    requires IsDigit(c)
  {
    c as int - '0' as int
  }

  function Digits(n: nat): (s: string)
    ensures s != [] && forall i :: 0 <= i < |s| ==> IsDigit(s[i])
  {
    if n < 10 then [DIGITS[n]] else Digits(n / 10) + [DIGITS[n % 10]]
  }

  /** `toString()` of an integer. */
  function Show(n: int): (s: string)
    ensures s != [] && forall i :: 0 <= i < |s| ==> IsDigit(s[i]) || s[i] == '-'
  {
    if n < 0 then "-" + Digits(-n) else Digits(n)
  }

  /** Value of a string of digits. */
  function Value(s: string): nat
    requires forall i :: 0 <= i < |s| ==> IsDigit(s[i])
  {
    if s == [] then 0 else Value(s[..|s| - 1]) * 10 + DigitValue(s[|s| - 1])
  }

  /** Length of the longest prefix made of digits. */
  function DigitPrefix(s: string): (n: nat)
    ensures n <= |s| && (forall i :: 0 <= i < n ==> IsDigit(s[i])) && (n < |s| ==> !IsDigit(s[n]))
  {
    if s == [] || !IsDigit(s[0]) then 0 else 1 + DigitPrefix(s[1..])
  }

  /** `Number.parseInt` of a decimal string; `None` for NaN. */
  function Parse(s: string): Option<int> {
    var negative := s != [] && s[0] == '-';
    var body := if negative then s[1..] else s;
    var n := DigitPrefix(body);
    var value: int := Value(body[..n]);
    if n == 0 then None else Some(if negative then -value else value)
  }

  lemma {:induction false} ValueOfDigits(n: nat)
    ensures Value(Digits(n)) == n
  {
    var s := Digits(n);
    if n < 10 {
      assert s[..0] == [];
    } else {
      ValueOfDigits(n / 10);
      assert s[..|s| - 1] == Digits(n / 10);
    }
  }

  lemma {:induction false} DigitPrefixOfDigits(s: string)
    requires forall i :: 0 <= i < |s| ==> IsDigit(s[i])
    ensures DigitPrefix(s) == |s|
  {
    if s != [] {
      DigitPrefixOfDigits(s[1..]);
    }
  }

  /** Parsing what was shown gives the number back. */
  lemma ParseShow(n: int)
    ensures Parse(Show(n)) == Some(n)
  {
    hide Digits, Value, DigitPrefix;
    var m: nat := if n < 0 then -n else n;
    var body := Digits(m);
    DigitPrefixOfDigits(body);
    ValueOfDigits(m);
    assert body[..|body|] == body;
    assert n < 0 ==> Show(n)[1..] == body;
  }

  /** Two prefixes followed by a separator and a string free of it are equal if the wholes are. */
  lemma SplitAtLast(a: string, x: string, b: string, y: string, separator: char)
    requires a + [separator] + x == b + [separator] + y
    requires separator !in x && separator !in y
    ensures a == b && x == y
  {
    var s, t := a + [separator] + x, b + [separator] + y;
    assert s[|a|] == separator && t[|b|] == separator;
    assert a == s[..|a|] && b == t[..|b|];
    assert x == s[|a| + 1..] && y == t[|b| + 1..];
  }

  /** The key of an actor's cell at a tick. */
  function CellKey(id: string, tick: int): string {
    id + ":" + Show(tick)
  }

  /** Keys of distinct (actor, tick) pairs never collide, whatever characters the IDs hold. */
  lemma CellKeyInjective(a: string, s: int, b: string, t: int)
    requires CellKey(a, s) == CellKey(b, t)
    ensures a == b && s == t
  {
    SplitAtLast(a, Show(s), b, Show(t), ':');
    ParseShow(s);
    ParseShow(t);
  }

  /** The identifier of a stage attempt in the set of processed stages. */
  function StageAttemptKey(stage: int, attempt: Option<int>): string {
    Show(stage) + if attempt.Some? then ":" + Show(attempt.value) else ""
  }

  lemma ShowIsPlain(n: int)
    ensures ':' !in Show(n)
  {
  }

  /** Distinct stage attempts have distinct identifiers. */
  lemma StageAttemptKeyInjective(s: int, a: Option<int>, t: int, b: Option<int>)
    requires StageAttemptKey(s, a) == StageAttemptKey(t, b)
    ensures s == t && a == b
  {
    hide Show;
    var x, y := Show(s), Show(t);
    ShowIsPlain(s);
    ShowIsPlain(t);
    ParseShow(s);
    ParseShow(t);
    if a.Some? && b.Some? {
      AttemptsEqual(x, a.value, y, b.value);
    } else {
      assert x + "" == x && y + "" == y;
    }
  }

  lemma AttemptsEqual(x: string, a: int, y: string, b: int)
    requires x + (":" + Show(a)) == y + (":" + Show(b))
    ensures x == y && a == b
  {
    ShowIsPlain(a);
    ShowIsPlain(b);
    assert x + [':'] + Show(a) == x + (":" + Show(a));
    assert y + [':'] + Show(b) == y + (":" + Show(b));
    SplitAtLast(x, Show(a), y, Show(b), ':');
    ParseShow(a);
    ParseShow(b);
  }
}
