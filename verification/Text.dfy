/** Text as the journal sees it: decimal numbers, flattened foreign strings, and lines. */
module Text {

  // ---------------------------------------------------------------------
  // Decimal numbers
  // ---------------------------------------------------------------------

  predicate IsDigit(c: char) { '0' <= c <= '9' }

  predicate AllDigits(s: string) { forall i :: 0 <= i < |s| ==> IsDigit(s[i]) }

  function DigitValue(c: char): (d: nat)
    requires IsDigit(c)
    ensures d < 10 && "0123456789"[d] == c
  {
    c as int - 48
  }

  function DigitChar(d: nat): (c: char)
    requires d < 10
    ensures IsDigit(c) && DigitValue(c) == d && c == "0123456789"[d]
  {
    (d + 48) as char
  }

  /** The shortest decimal rendering of `n`, as `Display` for the unsigned integers writes it. */
  function Decimal(n: nat): (s: string)
    ensures |s| > 0 && AllDigits(s)
  {
    if n < 10 then [DigitChar(n)] else Decimal(n / 10) + [DigitChar(n % 10)]
  }

  lemma DecimalGrows(n: nat, d: nat)
    requires n > 0 && d < 10
    ensures Decimal(10 * n + d) == Decimal(n) + ["0123456789"[d]]
  {
  }

  function Signed(i: int): string { if i < 0 then "-" + Decimal(-i) else Decimal(i) }

  /** The value of a string of digits, most significant first. */
  function Number(s: string): nat
    requires AllDigits(s)
  {
    if s == "" then 0 else Number(s[..|s| - 1]) * 10 + DigitValue(s[|s| - 1])
  }

  lemma {:induction false} NumberOfDecimal(n: nat)
    ensures Number(Decimal(n)) == n
  {
    if n >= 10 {
      NumberOfDecimal(n / 10);
      assert Decimal(n)[..|Decimal(n)| - 1] == Decimal(n / 10);
    }
  }

  function Pow10(k: nat): (p: nat)
    ensures p > 0
  {
    if k == 0 then 1 else 10 * Pow10(k - 1)
  }

  /** A number has at most `k` digits exactly when it is below ten to the `k`. */
  lemma {:induction false} DecimalLength(n: nat, k: nat)
    requires k > 0
    ensures |Decimal(n)| <= k <==> n < Pow10(k)
  {
    if n >= 10 && k > 1 {
      DecimalLength(n / 10, k - 1);
    } else if n >= 10 {
      assert |Decimal(n / 10)| > 0;
    } else {
      assert Pow10(k) >= 10;
    }
  }

  lemma {:induction false} Pow10Ten()
    ensures Pow10(10) == 10_000_000_000
    ensures Pow10(23) == 100_000_000_000_000_000_000_000
  {
    assert Pow10(5) == 100_000;
    assert Pow10(10) == 10_000_000_000;
    assert Pow10(15) == 1_000_000_000_000_000;
    assert Pow10(20) == 100_000_000_000_000_000_000;
  }

  // ---------------------------------------------------------------------
  // Foreign text on its way into the journal
  // ---------------------------------------------------------------------

  predicate OneLine(s: string) { '\n' !in s }

  function FlatChar(c: char): char { if c == '\n' || c == '\r' then ' ' else c }

  /** Replace every line break by a space. */
  function Flat(s: string): (r: string)
    ensures |r| == |s|
    ensures forall i :: 0 <= i < |s| ==> r[i] == (if s[i] == '\n' || s[i] == '\r' then ' ' else s[i])
  {
    if s == "" then "" else [FlatChar(s[0])] + Flat(s[1..])
  }

  /** At most `limit` characters of `s`, with its line breaks flattened: take, then replace. */
  function Bounded(s: string, limit: nat): (r: string)
    ensures |r| == (if |s| <= limit then |s| else limit)
    ensures OneLine(r) && '\r' !in r
    ensures forall i :: 0 <= i < |r| ==> r[i] == (if s[i] == '\n' || s[i] == '\r' then ' ' else s[i])
  {
    Flat(if |s| <= limit then s else s[..limit])
  }

  // ---------------------------------------------------------------------
  // Lines
  // ---------------------------------------------------------------------

  /** The text written by printing each line in turn, each followed by a newline. */
  function Unlines(lines: seq<string>): string
  {
    if lines == [] then "" else lines[0] + "\n" + Unlines(lines[1..])
  }

  function FirstNewline(t: string): (i: nat)
    ensures i <= |t| && OneLine(t[..i])
    ensures i < |t| ==> t[i] == '\n'
  {
    if t == "" || t[0] == '\n' then 0 else 1 + FirstNewline(t[1..])
  }

  /** What a reader of the journal sees: the text cut at every newline. */
  function SplitLines(t: string): seq<string>
    decreases |t|
  {
    var i := FirstNewline(t);
    if i == |t| then (if t == "" then [] else [t])
    else [t[..i]] + SplitLines(t[i + 1..])
  }

  lemma {:induction false} UnlinesAppend(lines: seq<string>, line: string)
    ensures Unlines(lines + [line]) == Unlines(lines) + line + "\n"
  {
    if lines == [] {
      assert Unlines([line]) == line + "\n" + Unlines([]);
    } else {
      UnlinesAppend(lines[1..], line);
      assert (lines + [line])[1..] == lines[1..] + [line];
    }
  }

  lemma {:induction false} FirstNewlineIs(t: string, i: nat)
    requires i < |t| && t[i] == '\n' && OneLine(t[..i])
    ensures FirstNewline(t) == i
  {
  }

  lemma {:induction false} SplitFront(line: string, rest: string)
    requires OneLine(line)
    ensures SplitLines(line + "\n" + rest) == [line] + SplitLines(rest)
  {
    var t := line + "\n" + rest;
    assert t[..|line|] == line;
    FirstNewlineIs(t, |line|);
    assert t[|line| + 1..] == rest;
  }

  /** Lines without newlines survive the trip through the text. */
  lemma {:induction false} SplitUnlines(lines: seq<string>)
    requires forall i :: 0 <= i < |lines| ==> OneLine(lines[i])
    ensures SplitLines(Unlines(lines)) == lines
  {
    if lines != [] {
      SplitUnlines(lines[1..]);
      SplitFront(lines[0], Unlines(lines[1..]));
    }
  }

  lemma {:induction false} SplitIsOneLine(t: string)
    ensures forall i :: 0 <= i < |SplitLines(t)| ==> OneLine(SplitLines(t)[i])
    decreases |t|
  {
    var i := FirstNewline(t);
    if i < |t| {
      SplitIsOneLine(t[i + 1..]);
    } else {
      assert t[..i] == t;
    }
  }

  /** A reader recovers the lines that were printed exactly when none of them held a newline. */
  lemma {:induction false} LinesRecoverable(lines: seq<string>)
    ensures SplitLines(Unlines(lines)) == lines <==> forall i :: 0 <= i < |lines| ==> OneLine(lines[i])
  {
    SplitIsOneLine(Unlines(lines));
    if forall i :: 0 <= i < |lines| ==> OneLine(lines[i]) {
      SplitUnlines(lines);
    }
  }
}
