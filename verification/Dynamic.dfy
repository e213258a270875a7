/**
 The text of `/proc/KU/dynamic`: the kernel module prints boundary values one to a line, and the
 library reads them back with `fgets` into short buffers and `atoi`.
 */
module Dynamic {
  // ----- Printing -------------------------------------------------------------------------------

  predicate IsDigit(c: char) {
    '0' <= c <= '9'
  }

  function Digit(d: nat): char
    requires d < 10
  {
    '0' + d as char
  }

  function Digits(n: nat): (s: string)
    ensures |s| > 0 && forall i :: 0 <= i < |s| ==> IsDigit(s[i])
  {
    if n < 10 then [Digit(n)] else Digits(n / 10) + [Digit(n % 10)]
  }

  /** What `%d` prints. */
  function Decimal(x: int): (s: Word)
    ensures |s| > 0
  {
    if x < 0 then "-" + Digits(-x) else Digits(x)
  }

  /** What stands on one line. */
  type Word = s: string | forall i :: 0 <= i < |s| ==> s[i] != '\n' witness ""

  /** A word on its line, and what follows. */
  function LineThen(d: Word, tail: string): string {
    d + "\n" + tail
  }

  function Lines(ds: seq<Word>): string {
    if ds == [] then "" else LineThen(ds[0], Lines(ds[1..]))
  }

  function Words(xs: seq<int>): seq<Word> {
    seq(|xs|, i requires 0 <= i < |xs| => Decimal(xs[i]))
  }

  /** The values one to a line. */
  function Printed(xs: seq<int>): string {
    Lines(Words(xs))
  }

  lemma PrintedFirst(x: int, xs: seq<int>)
    ensures Printed([x] + xs) == LineThen(Decimal(x), Printed(xs))
  {
    assert Words([x] + xs)[1..] == Words(xs);
  }

  lemma PrintedTwo(x: int, y: int, xs: seq<int>)
    ensures Printed([x, y] + xs) == LineThen(Decimal(x), LineThen(Decimal(y), Printed(xs)))
  {
    assert [x, y] + xs == [x] + ([y] + xs);
    PrintedFirst(x, [y] + xs);
    PrintedFirst(y, xs);
  }

  lemma LineThenMore(d: Word, text: string, more: string)
    ensures LineThen(d, text + more) == LineThen(d, text) + more
  {
  }

  lemma {:induction false} PrintedLast(xs: seq<int>, x: int)
    ensures Printed(xs + [x]) == Printed(xs) + (Decimal(x) + "\n")
  {
    if xs == [] {
      assert xs + [x] == [x] + [] && [x] + [] == [x];
      PrintedFirst(x, []);
    } else {
      var first, rest := xs[0], xs[1..];
      assert xs == [first] + rest;
      assert xs + [x] == [first] + (rest + [x]);
      PrintedFirst(first, rest);
      PrintedFirst(first, rest + [x]);
      PrintedLast(rest, x);
      LineThenMore(Decimal(first), Printed(rest), Decimal(x) + "\n");
    }
  }

  /** A value and then a newline are printed after what has been printed. */
  method Show(text: string, ghost xs: seq<int>, x: int) returns (r: string)
    requires text == Printed(xs)
    ensures r == Printed(xs + [x]) == text + (Decimal(x) + "\n")
  {
    PrintedLast(xs, x);
    r := text + (Decimal(x) + "\n");
  }

  // ----- Reading --------------------------------------------------------------------------------

  /** `fgets` with a buffer of nine bytes reads at most eight characters. */
  const LIMIT := 8

  /** Where a line of `s` ends, its newline included, if it is not longer than `limit`. */
  function LineLength(s: string, limit: nat): (n: nat)
    ensures n <= |s| && n <= limit
    ensures forall i :: 0 <= i < n - 1 ==> s[i] != '\n'
    ensures n < limit && n < |s| ==> n > 0 && s[n - 1] == '\n'
  {
    if s == "" || limit == 0 then 0
    else if s[0] == '\n' then 1
    else
      var rest := LineLength(s[1..], limit - 1);
      assert forall i :: 1 <= i < |s| ==> s[i] == s[1..][i - 1];
      1 + rest
  }

  method Fgets(s: string) returns (line: string, rest: string)
    ensures line == Line(s) && rest == Skip(s)
  {
    var n := 0;
    while n < LIMIT && n < |s| && (n == 0 || s[n - 1] != '\n')
      invariant n <= LIMIT && n <= |s| && forall i :: 0 <= i < n - 1 ==> s[i] != '\n'
    {
      n := n + 1;
    }
    LineLengthIs(s, LIMIT, n);
    line, rest := s[..n], s[n..];
  }

  lemma {:induction false} LineLengthIs(s: string, limit: nat, n: nat)
    requires n <= limit && n <= |s| && forall i :: 0 <= i < n - 1 ==> s[i] != '\n'
    requires n == limit || n == |s| || (n > 0 && s[n - 1] == '\n')
    ensures LineLength(s, limit) == n
  {
    if n > 0 && s[0] != '\n' {
      LineLengthIs(s[1..], limit - 1, n - 1);
    }
  }

  predicate IsSpace(c: char) {
    c == ' ' || '\t' <= c <= '\r'
  }

  /** The value of the digits at the start of `s`, after the digits with value `acc`. */
  function Number(s: string, acc: int): int {
    if s == "" || !IsDigit(s[0]) then acc else Number(s[1..], acc * 10 + (s[0] - '0') as int)
  }

  /** What `atoi` computes, as long as it does not overflow. */
  function Value(s: string): int {
    if s != "" && IsSpace(s[0]) then Value(s[1..])
    else if s != "" && s[0] == '-' then -Number(s[1..], 0)
    else if s != "" && s[0] == '+' then Number(s[1..], 0)
    else Number(s, 0)
  }

  method Atoi(s: string) returns (x: int)
    ensures x == Value(s)
  {
    var i := 0;
    while i < |s| && IsSpace(s[i])
      invariant i <= |s| && Value(s) == Value(s[i..])
    {
      i := i + 1;
    }
    var negative := i < |s| && s[i] == '-';
    if i < |s| && (s[i] == '-' || s[i] == '+') {
      i := i + 1;
    }
    ghost var digits := s[i..];
    x := 0;
    while i < |s| && IsDigit(s[i])
      invariant i <= |s| && Number(s[i..], x) == Number(digits, 0)
    {
      x := x * 10 + (s[i] - '0') as int;
      i := i + 1;
    }
    x := if negative then -x else x;
  }

  /** The line that `fgets` reads, and what is left of `s` then. */
  function Line(s: string): string {
    s[..LineLength(s, LIMIT)]
  }

  function Skip(s: string): string {
    s[LineLength(s, LIMIT)..]
  }

  /** What is left of `s` after `n` lines have been read. */
  function Rest(s: string, n: nat): string {
    if n == 0 then s else Rest(Skip(s), n - 1)
  }

  function Values(s: string, n: nat): (xs: seq<int>)
    ensures |xs| == n
  {
    if n == 0 then []
    else [Value(Line(s))] + Values(Skip(s), n - 1)
  }

  /** Reading `n` boundary values. */
  method ReadValues(s: string, n: nat) returns (xs: seq<int>)
    ensures xs == Values(s, n)
  {
    xs := [];
    var rest := s;
    for i := 0 to n
      invariant xs + Values(rest, n - i) == Values(s, n)
    {
      ghost var was, before := xs, rest;
      var line;
      line, rest := Fgets(rest);
      var x := Atoi(line);
      xs := xs + [x];
      assert Values(before, n - i) == [x] + Values(rest, n - i - 1);
      assert was + ([x] + Values(rest, n - i - 1)) == xs + Values(rest, n - i - 1);
    }
    assert Values(rest, 0) == [];
  }

  // ----- The round trip -------------------------------------------------------------------------

  lemma {:induction false} NumberOfDigits(n: nat, tail: string)
    ensures Number(Digits(n) + tail, 0) == Number(tail, n)
  {
    if n < 10 {
      assert ([Digit(n)] + tail)[1..] == tail;
    } else {
      var d := [Digit(n % 10)];
      assert Digits(n) + tail == Digits(n / 10) + (d + tail);
      NumberOfDigits(n / 10, d + tail);
      assert (d + tail)[1..] == tail;
    }
  }

  /** `atoi` skips spaces, takes one sign if there is one, and stops at the first other character. */
  lemma {:induction false} ValueOfText(pad: string, sign: string, n: nat, tail: string)
    requires forall i :: 0 <= i < |pad| ==> pad[i] == ' ' || '\t' <= pad[i] <= '\r'
    requires sign == "" || sign == "-" || sign == "+"
    requires tail == "" || !('0' <= tail[0] <= '9')
    ensures Value(pad + (sign + (Digits(n) + tail))) == (if sign == "-" then -1 else 1) * n
  {
    var text := sign + (Digits(n) + tail);
    NumberOfDigits(n, tail);
    if pad == "" {
      assert pad + text == text;
      assert sign != "" ==> text[1..] == Digits(n) + tail;
      assert sign == "" ==> text == Digits(n) + tail && text[0] == Digits(n)[0];
    } else {
      assert (pad + text)[1..] == pad[1..] + text;
      ValueOfText(pad[1..], sign, n, tail);
    }
  }

  /** `atoi` inverts `%d`. */
  lemma ValueOfDecimal(x: int)
    ensures Value(Decimal(x) + "\n") == x
  {
    var s := Decimal(x) + "\n";
    assert s[0] == Decimal(x)[0];
    assert Number("\n", if x < 0 then -x else x) == if x < 0 then -x else x;
    if x < 0 {
      assert s[1..] == Digits(-x) + "\n";
      NumberOfDigits(-x, "\n");
    } else {
      NumberOfDigits(x, "\n");
    }
  }

  /** A short line is read whole; of a long one only the first eight characters are. */
  lemma LineOf(d: Word, tail: string)
    ensures LineLength(LineThen(d, tail), LIMIT) == if |d| < LIMIT then |d| + 1 else LIMIT
  {
    var s := LineThen(d, tail);
    assert forall i :: 0 <= i < |d| ==> s[i] == d[i];
    LineLengthIs(s, LIMIT, if |d| < LIMIT then |d| + 1 else LIMIT);
  }

  lemma ShortAdvances(d: Word, tail: string)
    requires |d| < LIMIT
    ensures Line(LineThen(d, tail)) == d + "\n" && Skip(LineThen(d, tail)) == tail
  {
    LineOf(d, tail);
  }

  ghost predicate AllFit(ds: seq<Word>) {
    forall i :: 0 <= i < |ds| ==> |ds[i]| < LIMIT
  }

  /** Lines that fit are read one by one. */
  lemma {:induction false} LinesRead(ds: seq<Word>)
    requires AllFit(ds)
    ensures Rest(Lines(ds), |ds|) == ""
    ensures Values(Lines(ds), |ds|) == seq(|ds|, i requires 0 <= i < |ds| => Value(ds[i] + "\n"))
  {
    if ds != [] {
      ShortAdvances(ds[0], Lines(ds[1..]));
      LinesRead(ds[1..]);
    }
  }

  function Newlines(s: string): nat {
    if s == "" then 0 else (if s[0] == '\n' then 1 else 0) + Newlines(s[1..])
  }

  lemma {:induction false} NewlinesSplit(s: string, n: nat)
    requires n <= |s|
    ensures Newlines(s) == Newlines(s[..n]) + Newlines(s[n..])
  {
    if n > 0 {
      assert s[1..][..n - 1] == s[..n][1..] && s[1..][n - 1..] == s[n..];
      NewlinesSplit(s[1..], n - 1);
    } else {
      assert s[..0] == "" && s[0..] == s;
    }
  }

  lemma {:induction false} NoNewlines(s: string)
    requires forall i :: 0 <= i < |s| ==> s[i] != '\n'
    ensures Newlines(s) == 0
  {
    if s != "" {
      NoNewlines(s[1..]);
    }
  }

  /** Reading a line uses up at most one newline. */
  lemma {:induction false} RestKeepsNewlines(s: string, n: nat)
    ensures Newlines(Rest(s, n)) >= Newlines(s) - n
  {
    if n > 0 {
      var k := LineLength(s, LIMIT);
      RestKeepsNewlines(Skip(s), n - 1);
      NewlinesSplit(s, k);
      if k > 0 {
        NewlinesSplit(s[..k], k - 1);
        NoNewlines(s[..k][..k - 1]);
        assert |s[..k][k - 1..]| == 1;
      }
    }
  }

  lemma LineNewlines(d: Word, tail: string)
    ensures Newlines(LineThen(d, tail)) == 1 + Newlines(tail)
  {
    var s := LineThen(d, tail);
    NewlinesSplit(s, |d|);
    assert s[..|d|] == d && s[|d|..] == "\n" + tail && s[|d|..][1..] == tail;
    NoNewlines(d);
  }

  lemma {:induction false} LinesNewlines(ds: seq<Word>)
    ensures Newlines(Lines(ds)) == |ds|
  {
    if ds != [] {
      LineNewlines(ds[0], Lines(ds[1..]));
      LinesNewlines(ds[1..]);
    }
  }

  /** The first read of a long line uses up no newline. */
  lemma LongKeepsNewline(d: Word, tail: string)
    requires |d| >= LIMIT
    ensures Newlines(Skip(LineThen(d, tail))) == Newlines(LineThen(d, tail))
  {
    var s := LineThen(d, tail);
    LineOf(d, tail);
    assert s[..LIMIT] == d[..LIMIT];
    NoNewlines(s[..LIMIT]);
    NewlinesSplit(s, LIMIT);
  }

  lemma LongFirst(d: Word, tail: string, n: nat)
    requires |d| >= LIMIT && Newlines(tail) >= n
    ensures Rest(LineThen(d, tail), n + 1) != ""
  {
    LongKeepsNewline(d, tail);
    LineNewlines(d, tail);
    RestKeepsNewlines(Skip(LineThen(d, tail)), n);
  }

  lemma StillBehind(d: Word, tail: string, n: nat)
    requires |d| < LIMIT && Rest(tail, n) != ""
    ensures Rest(LineThen(d, tail), n + 1) != ""
  {
    ShortAdvances(d, tail);
  }

  /** With a line that does not fit the reader falls behind and never catches up. */
  lemma {:induction false} LongFallsBehind(ds: seq<Word>)
    requires !AllFit(ds)
    ensures Rest(Lines(ds), |ds|) != ""
  {
    var tail := Lines(ds[1..]);
    if |ds[0]| < LIMIT {
      assert ds == [ds[0]] + ds[1..];
      LongFallsBehind(ds[1..]);
      StillBehind(ds[0], tail, |ds| - 1);
    } else {
      LinesNewlines(ds[1..]);
      LongFirst(ds[0], tail, |ds| - 1);
    }
  }

  // ----- Boundary values -------------------------------------------------------------------------

  predicate Short(x: int) {
    |Decimal(x)| < LIMIT
  }

  ghost predicate AllShort(xs: seq<int>) {
    forall i :: 0 <= i < |xs| ==> Short(xs[i])
  }

  lemma ShortFits(xs: seq<int>)
    ensures AllShort(xs) <==> AllFit(Words(xs))
  {
    assert forall i :: 0 <= i < |xs| ==> Words(xs)[i] == Decimal(xs[i]);
  }

  /** Reading back what was printed gives the same values and uses the text up. */
  lemma RoundTrip(xs: seq<int>)
    requires AllShort(xs)
    ensures Values(Printed(xs), |xs|) == xs && Rest(Printed(xs), |xs|) == ""
  {
    ShortFits(xs);
    LinesRead(Words(xs));
    forall i | 0 <= i < |xs| ensures Value(Words(xs)[i] + "\n") == xs[i] {
      ValueOfDecimal(xs[i]);
    }
  }

  /** The reader stays in step with the printer -- the text is used up, and then the values are the
      printed ones -- exactly when every value has at most seven characters. */
  lemma InStepIff(xs: seq<int>)
    ensures Rest(Printed(xs), |xs|) == "" <==> AllShort(xs)
    ensures AllShort(xs) ==> Values(Printed(xs), |xs|) == xs
  {
    ShortFits(xs);
    if AllShort(xs) {
      RoundTrip(xs);
    } else {
      LongFallsBehind(Words(xs));
    }
  }

  /** Of a line of eight characters the newline is left over, and the next line reads as zero. */
  lemma LeftOverNewline(d: Word, tail: string)
    requires |d| == LIMIT
    ensures Values(LineThen(d, tail), 2) == [Value(d), 0]
  {
    var s := LineThen(d, tail);
    LineOf(d, tail);
    assert Line(s) == d && Skip(s) == "\n" + tail;
    assert Values(s, 2) == [Value(d)] + Values("\n" + tail, 1);
    NewlineIsZero(tail);
  }

  /** A value of eight characters makes the next one read as zero. */
  lemma LongValueHidesNext(x: int, y: int)
    requires |Decimal(x)| == LIMIT
    ensures Values(Printed([x, y]), 2) == [x, 0]
  {
    assert Words([x, y])[0] == Decimal(x);
    LeftOverNewline(Decimal(x), Lines(Words([x, y])[1..]));
    DecimalAlone(x);
  }

  lemma DecimalAlone(x: int)
    ensures Value(Decimal(x)) == x
  {
    var d := Decimal(x);
    if x < 0 {
      assert d[1..] == Digits(-x) + "";
      NumberOfDigits(-x, "");
    } else {
      assert d == Digits(x) + "";
      NumberOfDigits(x, "");
    }
  }

  lemma NewlineIsZero(tail: string)
    ensures Values("\n" + tail, 1) == [0]
  {
    var s := "\n" + tail;
    LineLengthIs(s, LIMIT, 1);
    assert s[..1] == "\n" && "\n"[1..] == "";
    assert Value("\n") == Value("") == 0;
    assert Values(s[1..], 0) == [];
  }

  function Power(k: nat): nat {
    if k == 0 then 1 else 10 * Power(k - 1)
  }

  lemma {:induction false} DigitsLength(n: nat, k: nat)
    requires k > 0
    ensures |Digits(n)| <= k <==> n < Power(k)
  {
    assert Power(1) == 10 * Power(0) == 10;
    if n < 10 {
      PowerGrows(k);
    } else if k > 1 {
      DigitsLength(n / 10, k - 1);
    }
  }

  lemma {:induction false} PowerGrows(k: nat)
    requires k > 0
    ensures Power(k) >= 10
  {
    if k > 1 {
      PowerGrows(k - 1);
    } else {
      assert Power(0) == 1;
    }
  }

  /** The values that are read back correctly wherever they stand. */
  lemma ShortIff(x: int)
    ensures Short(x) <==> -999_999 <= x <= 9_999_999
  {
    assert Power(7) == 10_000_000 && Power(6) == 1_000_000;
    if x < 0 {
      DigitsLength(-x, 6);
    } else {
      DigitsLength(x, 7);
    }
  }
}
