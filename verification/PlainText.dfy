/** Decimal numbers, and splitting, joining and stripping of ASCII text as Python does it. */
module PlainText {

  // ---- Decimal numbers ----------------------------------------------------------

  predicate IsDigit(c: char) {
    '0' <= c <= '9'
  }

  /** `str.isdecimal`, on ASCII text. */
  predicate IsDecimal(s: string) {
    s != [] && forall i | 0 <= i < |s| :: IsDigit(s[i])
  }

  function DigitValue(c: char): (d: nat)
    requires IsDigit(c)
    ensures d < 10
  {
    (c as int) - ('0' as int)
  }

  function Digit(d: nat): (c: char)
    requires d < 10
    ensures IsDigit(c) && DigitValue(c) == d
  {
    (('0' as int) + d) as char
  }

  function PrintNat(n: nat): string {
    if n < 10 then [Digit(n)] else PrintNat(n / 10) + [Digit(n % 10)]
  }

  function ParseNat(s: string): nat
    requires forall i | 0 <= i < |s| :: IsDigit(s[i])
  {
    if s == [] then 0 else ParseNat(s[..|s| - 1]) * 10 + DigitValue(s[|s| - 1])
  }

  lemma {:induction false} ParseOfPrint(n: nat)
    ensures IsDecimal(PrintNat(n)) && ParseNat(PrintNat(n)) == n
  {
    if n >= 10 {
      ParseOfPrint(n / 10);
      var s := PrintNat(n);
      assert s[..|s| - 1] == PrintNat(n / 10);
    } else {
      var s := PrintNat(n);
      assert s[..|s| - 1] == [];
    }
  }

  // ---- Splitting and joining ------------------------------------------------------

  /** `s.split(sep)` for one character. */
  function Split(s: string, sep: char): (parts: seq<string>)
    ensures |parts| >= 1
  {
    if s == [] then [[]]
    else
      var rest := Split(s[1..], sep);
      if s[0] == sep then [[]] + rest else [[s[0]] + rest[0]] + rest[1..]
  }

  /** `sep.join(parts)`. */
  function Join(parts: seq<string>, sep: char): string {
    if parts == [] then []
    else if |parts| == 1 then parts[0]
    else parts[0] + [sep] + Join(parts[1..], sep)
  }

  lemma {:induction false} SplitWithoutSeparator(s: string, sep: char)
    requires sep !in s
    ensures Split(s, sep) == [s]
  {
    if s != [] {
      SplitWithoutSeparator(s[1..], sep);
      assert [s[0]] + s[1..] == s;
    }
  }

  lemma {:induction false} SplitFirst(part: string, rest: string, sep: char)
    requires sep !in part
    ensures Split(part + [sep] + rest, sep) == [part] + Split(rest, sep)
  {
    var s := part + [sep] + rest;
    if part == [] {
      assert s[1..] == rest;
    } else {
      SplitFirst(part[1..], rest, sep);
      assert s[1..] == part[1..] + [sep] + rest;
      assert [part[0]] + part[1..] == part;
    }
  }

  lemma {:induction false} SplitOfJoin(parts: seq<string>, sep: char)
    requires parts != [] && forall i | 0 <= i < |parts| :: sep !in parts[i]
    ensures Split(Join(parts, sep), sep) == parts
  {
    if |parts| == 1 {
      SplitWithoutSeparator(parts[0], sep);
    } else {
      SplitOfJoin(parts[1..], sep);
      SplitFirst(parts[0], Join(parts[1..], sep), sep);
      assert [parts[0]] + parts[1..] == parts;
    }
  }

  lemma {:induction false} JoinHasNo(parts: seq<string>, sep: char, c: char)
    requires c != sep && forall i | 0 <= i < |parts| :: c !in parts[i]
    ensures c !in Join(parts, sep)
  {
    if |parts| > 1 { JoinHasNo(parts[1..], sep, c); }
  }

  /** The parts joined again are the text, and none holds the separator. */
  lemma {:induction false} JoinOfSplit(s: string, sep: char)
    ensures Join(Split(s, sep), sep) == s
    ensures forall i | 0 <= i < |Split(s, sep)| :: sep !in Split(s, sep)[i]
  {
    if s != [] {
      var rest := Split(s[1..], sep);
      JoinOfSplit(s[1..], sep);
      assert [s[0]] + s[1..] == s;
      if s[0] == sep {
        assert ([[]] + rest)[1..] == rest;
      } else {
        assert ([[s[0]] + rest[0]] + rest[1..])[1..] == rest[1..];
      }
    }
  }

  // ---- Stripping --------------------------------------------------------------------

  predicate IsSpace(c: char) {
    '\t' <= c <= '\r' || '\U{001C}' <= c <= ' '
  }

  function StripLeft(s: string): string {
    if s != [] && IsSpace(s[0]) then StripLeft(s[1..]) else s
  }

  function StripRight(s: string): string {
    if s != [] && IsSpace(s[|s| - 1]) then StripRight(s[..|s| - 1]) else s
  }

  function Strip(s: string): string {
    StripRight(StripLeft(s))
  }

  predicate Tight(s: string) {
    s != [] && !IsSpace(s[0]) && !IsSpace(s[|s| - 1])
  }

  lemma {:induction false} LeftIsTaken(s: string) returns (left: string)
    ensures s == left + StripLeft(s) && forall c | c in left :: IsSpace(c)
    ensures StripLeft(s) == [] || !IsSpace(StripLeft(s)[0])
  {
    left := [];
    if s != [] && IsSpace(s[0]) {
      var rest := LeftIsTaken(s[1..]);
      left := [s[0]] + rest;
      assert s == [s[0]] + s[1..];
    }
  }

  lemma {:induction false} RightIsTaken(s: string) returns (right: string)
    ensures s == StripRight(s) + right && forall c | c in right :: IsSpace(c)
    ensures StripRight(s) == [] || (!IsSpace(StripRight(s)[|StripRight(s)| - 1]) && StripRight(s)[0] == s[0])
  {
    right := [];
    if s != [] && IsSpace(s[|s| - 1]) {
      var rest := RightIsTaken(s[..|s| - 1]);
      right := rest + [s[|s| - 1]];
      assert s == s[..|s| - 1] + [s[|s| - 1]];
    }
  }

  /** Stripping takes spaces from both ends, and all of them. */
  lemma {:induction false} StripTakesSpaces(s: string) returns (left: string, right: string)
    ensures s == left + Strip(s) + right && forall c | c in left || c in right :: IsSpace(c)
    ensures Strip(s) == [] || Tight(Strip(s))
  {
    left := LeftIsTaken(s);
    right := RightIsTaken(StripLeft(s));
    assert s == left + (Strip(s) + right);
  }

  lemma {:induction false} StripTight(s: string)
    requires Tight(s)
    ensures Strip(s) == s
  {}

  /** Spaces around a text without spaces at its ends are what stripping takes. */
  lemma {:induction false} StripBetween(left: string, body: string, right: string)
    requires Tight(body) && forall c | c in left || c in right :: IsSpace(c)
    ensures Strip(left + body + right) == body
  {
    StripLeftPart(left, body + right);
    assert left + body + right == left + (body + right);
    StripRightPart(body, right);
  }

  lemma {:induction false} StripLeftPart(left: string, rest: string)
    requires rest != [] && !IsSpace(rest[0]) && forall c | c in left :: IsSpace(c)
    ensures StripLeft(left + rest) == rest
  {
    if left == [] {
      assert left + rest == rest;
    } else {
      StripLeftPart(left[1..], rest);
      assert (left + rest)[1..] == left[1..] + rest;
    }
  }

  lemma {:induction false} StripRightPart(rest: string, right: string)
    requires rest != [] && !IsSpace(rest[|rest| - 1]) && forall c | c in right :: IsSpace(c)
    ensures StripRight(rest + right) == rest
  {
    if right == [] {
      assert rest + right == rest;
    } else {
      StripRightPart(rest, right[..|right| - 1]);
      assert (rest + right)[..|rest + right| - 1] == rest + right[..|right| - 1];
    }
  }

  lemma {:induction false} DecimalIsTight(s: string)
    requires IsDecimal(s)
    ensures Tight(s) && forall c | c in s :: IsDigit(c)
  {}
}
