/** Key strings: joining segments with the key separator and splitting them again,
    and the decimal form of a counter. */
module Strings {

  const SEPARATOR := '.'

  predicate NoDot(s: string) {
    SEPARATOR !in s
  }

  /** The segments with the separator placed in between. */
  function Join(parts: seq<string>): string {
    if |parts| == 0 then ""
    else if |parts| == 1 then parts[0]
    else parts[0] + [SEPARATOR] + Join(parts[1..])
  }

  /** Splits a string at its last separator. */
  function Cut(s: string): (string, string) {
    if s == "" then ("", "")
    else if s[|s| - 1] == SEPARATOR then (s[..|s| - 1], "")
    else
      var (head, tail) := Cut(s[..|s| - 1]);
      (head, tail + [s[|s| - 1]])
  }

  lemma {:induction false} CutJoin(a: string, b: string)
    requires NoDot(b)
    ensures Cut(a + [SEPARATOR] + b) == (a, b)
  {
    var s := a + [SEPARATOR] + b;
    if b == "" {
      assert s[..|s| - 1] == a;
    } else {
      var c := b[..|b| - 1];
      CutJoin(a, c);
      assert s[..|s| - 1] == a + [SEPARATOR] + c;
      assert b == c + [b[|b| - 1]];
    }
  }

  lemma JoinTwo(a: string, b: string)
    ensures Join([a, b]) == a + [SEPARATOR] + b
  {
    assert [a, b][1..] == [b];
  }

  lemma JoinFour(a: string, b: string, c: string, d: string)
    ensures Join([a, b, c, d]) == (((a + [SEPARATOR] + b) + [SEPARATOR] + c) + [SEPARATOR] + d)
  {
    assert [a, b, c, d][1..] == [b, c, d];
    assert [b, c, d][1..] == [c, d];
    JoinTwo(c, d);
    var s := [SEPARATOR];
    calc {
      Join([a, b, c, d]);
      a + s + (b + s + (c + s + d));
      (((a + s + b) + s + c) + s + d);
    }
  }

  lemma JoinThree(a: string, b: string, c: string)
    ensures Join([a, b, c]) == (a + [SEPARATOR] + b) + [SEPARATOR] + c
  {
    assert [a, b, c][1..] == [b, c];
    JoinTwo(b, c);
    var s := [SEPARATOR];
    assert a + s + (b + s + c) == (a + s + b) + s + c;
  }

  // ---------- plain keys: one id, one separator-free name ----------

  function Key(id: string, name: string): string {
    Join([id, name])
  }

  /** A plain key determines its id and its name, whatever the id looks like. */
  lemma KeyInjective(id: string, name: string, id': string, name': string)
    requires NoDot(name) && NoDot(name')
    ensures Key(id, name) == Key(id', name') <==> id == id' && name == name'
  {
    JoinTwo(id, name);
    JoinTwo(id', name');
    CutJoin(id, name);
    CutJoin(id', name');
  }

  // ---------- decimal numbers ----------

  datatype Parsed = Number(n: int) | NotANumber

  predicate IsDigit(c: char) {
    '0' <= c <= '9'
  }

  function Itoa(n: nat): string {
    if n < 10 then [('0' as int + n) as char] else Itoa(n / 10) + [('0' as int + n % 10) as char]
  }

  function Print(n: int): string {
    if n < 0 then "-" + Itoa(-n) else Itoa(n)
  }

  /** The value of a non-empty string of digits. */
  function Digits(s: string): Parsed {
    if s == "" || !IsDigit(s[|s| - 1]) then NotANumber
    else
      var d := s[|s| - 1] as int - '0' as int;
      if |s| == 1 then Number(d)
      else match Digits(s[..|s| - 1]) case Number(n) => Number(10 * n + d) case NotANumber => NotANumber
  }

  /** Parses an optionally signed decimal number. */
  function Atoi(s: string): Parsed {
    if s != "" && s[0] == '-' then
      match Digits(s[1..]) case Number(n) => Number(-n) case NotANumber => NotANumber
    else if s != "" && s[0] == '+' then Digits(s[1..])
    else Digits(s)
  }

  lemma {:induction false} DigitsOfItoa(n: nat)
    ensures Digits(Itoa(n)) == Number(n)
    ensures Itoa(n) != "" && IsDigit(Itoa(n)[0])
  {
    if n >= 10 {
      DigitsOfItoa(n / 10);
      var s := Itoa(n);
      assert s[..|s| - 1] == Itoa(n / 10);
    }
  }

  /** Printing a counter and parsing it gives the counter back. */
  lemma AtoiItoa(n: nat)
    ensures Atoi(Itoa(n)) == Number(n)
  {
    DigitsOfItoa(n);
  }

  lemma ItoaInjective(m: nat, n: nat)
    ensures Itoa(m) == Itoa(n) <==> m == n
  {
    AtoiItoa(m);
    AtoiItoa(n);
  }
}
