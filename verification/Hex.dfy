/** Byte strings, and numbers in hexadecimal: printing as `%x` does, parsing as a signed 64-bit parser in base
    16 does. */
module Hex {
  import opened Options

  type Byte = b: int | 0 <= b < 256

  const CR: Byte := 13
  const LF: Byte := 10
  const SEMICOLON: Byte := 59
  const PLUS: Byte := 43
  const MINUS: Byte := 45
  const CRLF: seq<Byte> := [CR, LF]
  const MAX_INT64 := 0x7FFF_FFFF_FFFF_FFFF

  predicate IsDigit(b: Byte) {
    48 <= b <= 57 || 97 <= b <= 102 || 65 <= b <= 70
  }

  function DigitValue(b: Byte): (v: nat)
    requires IsDigit(b)
    ensures v < 16
  {
    if b <= 57 then b - 48 else if b <= 70 then b - 55 else b - 87
  }

  function DigitOf(v: nat): (b: Byte)
    requires v < 16
    ensures IsDigit(b) && DigitValue(b) == v
  {
    if v < 10 then v + 48 else v + 87
  }

  predicate Digits(s: seq<Byte>) {
    s != [] && forall b | b in s :: IsDigit(b)
  }

  function Value(s: seq<Byte>): nat
    requires forall b | b in s :: IsDigit(b)
    decreases |s|
  {
    if s == [] then 0 else Value(s[..|s| - 1]) * 16 + DigitValue(s[|s| - 1])
  }

  function Print(n: nat): (s: seq<Byte>)
    ensures Digits(s) && Value(s) == n
  {
    if n < 16 then
      var s := [DigitOf(n)];
      assert s[..0] == [];
      s
    else
      var s := Print(n / 16) + [DigitOf(n % 16)];
      assert s[..|s| - 1] == Print(n / 16);
      s
  }

  /** The number a text stands for; out of range and anything but an optionally signed numeral is an error. */
  function Parse(s: seq<Byte>): Option<int> {
    var signed := s != [] && (s[0] == PLUS || s[0] == MINUS);
    var digits := if signed then s[1..] else s;
    if !Digits(digits) then None
    else if signed && s[0] == MINUS then
      if Value(digits) <= MAX_INT64 + 1 then Some(0 - Value(digits)) else None
    else if Value(digits) <= MAX_INT64 then Some(Value(digits))
    else None
  }

  lemma PrintParses(n: nat)
    requires n <= MAX_INT64
    ensures Parse(Print(n)) == Some(n)
  {
    var s := Print(n);
    assert s[0] in s;
  }

  predicate Blank(b: Byte) {
    b == 32 || 9 <= b <= 13
  }

  function TrimLeft(s: seq<Byte>): seq<Byte> {
    if s != [] && Blank(s[0]) then TrimLeft(s[1..]) else s
  }

  function TrimRight(s: seq<Byte>): seq<Byte>
    decreases |s|
  {
    if s != [] && Blank(s[|s| - 1]) then TrimRight(s[..|s| - 1]) else s
  }

  /** Everything before the first `stop`. */
  function Before(s: seq<Byte>, stop: Byte): seq<Byte> {
    if s == [] || s[0] == stop then [] else [s[0]] + Before(s[1..], stop)
  }

  lemma {:induction false} BeforeNone(s: seq<Byte>, stop: Byte)
    requires stop !in s
    ensures Before(s, stop) == s
  {
    if s != [] {
      BeforeNone(s[1..], stop);
      assert s == [s[0]] + s[1..];
    }
  }

  lemma TrimDigits(s: seq<Byte>)
    requires Digits(s)
    ensures TrimRight(TrimLeft(s + CRLF)) == s
  {
    assert s[0] in s && s[|s| - 1] in s;
    var line := s + CRLF;
    assert line[0] == s[0];
    assert TrimLeft(line) == line;
    assert line[..|line| - 1] == s + [CR];
    assert TrimRight(line) == TrimRight(s + [CR]);
    assert (s + [CR])[..|s|] == s;
    assert TrimRight(s + [CR]) == TrimRight(s);
  }
}
