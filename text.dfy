/**
 * Text helpers used by the rendering of a student record: the decimal text
 * of an integer (what an f-string does with an `int`), and the joining and
 * splitting of text into lines.
 */
module Text {

  // ---------------------------------------------------------------------
  // Decimal text of integers
  // ---------------------------------------------------------------------

  predicate IsDigit(c: char) {
    '0' <= c <= '9'
  }

  predicate AllDigits(s: string) {
    forall i :: 0 <= i < |s| ==> IsDigit(s[i])
  }

  function DigitChar(d: nat): (c: char)
    requires d < 10
    ensures IsDigit(c)
  {
    ('0' as int + d) as char
  }

  function DigitValue(c: char): (d: nat)
    requires IsDigit(c)
    ensures d < 10
  {
    c as int - '0' as int
  }

  /** The value of a string of decimal digits, most significant first. */
  function DigitsValue(s: string): nat
    requires AllDigits(s)
  {
    if s == [] then 0 else DigitsValue(s[..|s| - 1]) * 10 + DigitValue(s[|s| - 1])
  }

  /** Canonical decimal text of a natural number: digits only, no leading zero. */
  function NatToString(n: nat): (s: string)
    ensures |s| > 0 && AllDigits(s)
    ensures s[0] == '0' <==> n == 0
  {
    if n < 10 then [DigitChar(n)] else NatToString(n / 10) + [DigitChar(n % 10)]
  }

  lemma {:induction false} NatToStringRoundTrip(n: nat)
    ensures DigitsValue(NatToString(n)) == n
  {
    if n >= 10 {
      var s := NatToString(n);
      assert s[..|s| - 1] == NatToString(n / 10);
      NatToStringRoundTrip(n / 10);
    }
  }

  /** Decimal text of an integer, with a leading '-' when it is negative. */
  function IntToString(n: int): string
  {
    if n < 0 then "-" + NatToString(-n) else NatToString(n)
  }

  /** Text that reads as a decimal integer: an optional '-' and at least one digit. */
  predicate IsIntLiteral(s: string) {
    if |s| > 0 && s[0] == '-' then |s| > 1 && AllDigits(s[1..]) else |s| > 0 && AllDigits(s)
  }

  function IntValue(s: string): int
    requires IsIntLiteral(s)
  {
    if s[0] == '-' then -(DigitsValue(s[1..]) as int) else DigitsValue(s)
  }

  /** The text of an integer reads back as that integer and holds no newline. */
  lemma IntToStringRoundTrip(n: int)
    ensures IsIntLiteral(IntToString(n)) && IntValue(IntToString(n)) == n
    ensures '\n' !in IntToString(n)
  {
    var s := IntToString(n);
    if n < 0 {
      assert s[1..] == NatToString(-n);
      NatToStringRoundTrip(-n);
    } else {
      NatToStringRoundTrip(n);
    }
  }

  // ---------------------------------------------------------------------
  // Lines
  // ---------------------------------------------------------------------

  /** The lines joined with a newline between neighbours, no trailing newline. */
  function Unlines(ls: seq<string>): string
  {
    if |ls| == 0 then ""
    else if |ls| == 1 then ls[0]
    else Unlines(ls[..|ls| - 1]) + "\n" + ls[|ls| - 1]
  }

  /** Every line followed by a newline: the text built by appending `line + "\n"` in turn. */
  function Terminated(ls: seq<string>): string
  {
    if ls == [] then "" else Terminated(ls[..|ls| - 1]) + ls[|ls| - 1] + "\n"
  }

  /** The text cut at every newline; a text without newline is one line. */
  function Split(s: string): (ls: seq<string>)
    ensures |ls| > 0
  {
    if s == [] then [""]
    else if s[0] == '\n' then [""] + Split(s[1..])
    else
      var rest := Split(s[1..]);
      [[s[0]] + rest[0]] + rest[1..]
  }

  predicate NoNewline(s: string) {
    '\n' !in s
  }

  predicate NoNewlines(ls: seq<string>) {
    forall i :: 0 <= i < |ls| ==> NoNewline(ls[i])
  }

  lemma NoNewlinesAppend(a: seq<string>, b: seq<string>)
    requires NoNewlines(a) && NoNewlines(b)
    ensures NoNewlines(a + b)
  {
  }

  /** Building text line by line with trailing newlines, then appending a last
      line, gives the joined lines. */
  lemma {:induction false} UnlinesAsTerminated(ls: seq<string>)
    requires |ls| > 0
    ensures Unlines(ls) == Terminated(ls[..|ls| - 1]) + ls[|ls| - 1]
  {
    if |ls| > 1 {
      var init := ls[..|ls| - 1];
      UnlinesAsTerminated(init);
      assert init[..|init| - 1] == ls[..|ls| - 2];
    }
  }

  /** Appending one more line and its newline to text built line by line. */
  lemma TerminatedSnoc(prefix: string, ls: seq<string>, x: string)
    ensures prefix + Terminated(ls + [x]) == prefix + Terminated(ls) + (x + "\n")
  {
    assert (ls + [x])[..|ls + [x]| - 1] == ls;
  }

  /** Joined lines ending in `x` and `y`: the earlier lines and `x` each with a newline, then `y`. */
  lemma UnlinesLastTwo(body: seq<string>, x: string, y: string)
    ensures Unlines(body + [x, y]) == Terminated(body) + (x + "\n") + y
  {
    var ls := body + [x, y];
    UnlinesAsTerminated(ls);
    assert ls[..|ls| - 1] == body + [x];
    TerminatedSnoc("", body, x);
    assert "" + Terminated(body + [x]) == Terminated(body + [x]);
    assert "" + Terminated(body) == Terminated(body);
  }

  lemma {:induction false} TerminatedAppend(a: seq<string>, b: seq<string>)
    ensures Terminated(a + b) == Terminated(a) + Terminated(b)
  {
    if b != [] {
      assert (a + b)[..|a + b| - 1] == a + b[..|b| - 1];
      TerminatedAppend(a, b[..|b| - 1]);
    } else {
      assert a + b == a;
    }
  }

  lemma {:induction false} SplitSingle(s: string)
    requires NoNewline(s)
    ensures Split(s) == [s]
  {
    if s != [] {
      assert s[0] != '\n';
      SplitSingle(s[1..]);
      assert [s[0]] + s[1..] == s;
    }
  }

  lemma {:induction false} SplitAtNewline(a: string, b: string)
    ensures Split(a + "\n" + b) == Split(a) + Split(b)
  {
    if a == [] {
      assert a + "\n" + b == ['\n'] + b;
      assert (['\n'] + b)[1..] == b;
    } else {
      var s := a + "\n" + b;
      assert s[0] == a[0];
      assert s[1..] == a[1..] + "\n" + b;
      SplitAtNewline(a[1..], b);
    }
  }

  /** Splitting the joined lines gives the lines back, when none holds a newline. */
  lemma {:induction false} SplitUnlines(ls: seq<string>)
    requires |ls| > 0 && NoNewlines(ls)
    ensures Split(Unlines(ls)) == ls
  {
    if |ls| == 1 {
      assert NoNewline(ls[0]);
      SplitSingle(ls[0]);
    } else {
      var init := ls[..|ls| - 1];
      assert NoNewline(ls[|ls| - 1]);
      SplitUnlines(init);
      SplitAtNewline(Unlines(init), ls[|ls| - 1]);
      SplitSingle(ls[|ls| - 1]);
      assert init + [ls[|ls| - 1]] == ls;
    }
  }

  /** The joined text starts with the first line and a newline, and ends with
      the last line, when there are at least two lines. */
  lemma {:induction false} UnlinesEnds(ls: seq<string>)
    requires |ls| >= 2
    ensures |Unlines(ls)| >= |ls[0]| + 1 + |ls[|ls| - 1]|
    ensures Unlines(ls)[..|ls[0]| + 1] == ls[0] + "\n"
    ensures Unlines(ls)[|Unlines(ls)| - |ls[|ls| - 1]|..] == ls[|ls| - 1]
  {
    var init := ls[..|ls| - 1];
    var last := ls[|ls| - 1];
    if |ls| > 2 {
      UnlinesEnds(init);
      assert init[0] == ls[0];
      var u := Unlines(init);
      assert u[..|ls[0]| + 1] == ls[0] + "\n";
      assert (u + "\n" + last)[..|ls[0]| + 1] == u[..|ls[0]| + 1];
    } else {
      assert Unlines(ls) == ls[0] + "\n" + last;
    }
  }
}
