/** The string operations the wire codec is built from: Python's
    `str.split(sep)` and `sep.join(...)` for a one-character separator, the
    newline-terminated line lists the header builders produce, decimal
    rendering of status codes and `str.startswith`. */
module Strings {
  import opened Base

  /** `s.split(c)`: the pieces of `s` between occurrences of `c`, empty pieces
      included, so there is always at least one piece and no piece holds `c`. */
  function Split(s: string, c: char): (r: seq<string>)
    ensures |r| >= 1
    ensures forall i :: 0 <= i < |r| ==> c !in r[i]
  {
    if s == [] then [""]
    else if s[0] == c then [""] + Split(s[1..], c)
    else
      var t := Split(s[1..], c);
      [[s[0]] + t[0]] + t[1..]
  }

  /** `c.join(parts)`. */
  function Join(parts: seq<string>, c: char): string
  {
    if |parts| == 0 then ""
    else if |parts| == 1 then parts[0]
    else parts[0] + [c] + Join(parts[1..], c)
  }

  /** Each line followed by a newline, in order: what `HeadersBuilder.append_headers`
      and the header loop of `ProtocolRequest.to_protocol_msg` accumulate. */
  function LinesText(lines: seq<string>): string
  {
    if lines == [] then "" else lines[0] + "\n" + LinesText(lines[1..])
  }

  /** A list of lines none of which holds a newline. */
  predicate SingleLines(lines: seq<string>)
  {
    forall i :: 0 <= i < |lines| ==> '\n' !in lines[i]
  }

  predicate StartsWith(s: string, prefix: string)
  {
    |prefix| <= |s| && s[..|prefix|] == prefix
  }

  /** A character missing from a string is missing from its prefixes. */
  lemma NotInPrefix(s: string, prefix: string, c: char)
    requires StartsWith(s, prefix) && c !in s
    ensures c !in prefix
  {
  }

  /** Splitting and joining again gives back the string. */
  lemma {:induction false} JoinSplit(s: string, c: char)
    ensures Join(Split(s, c), c) == s
  {
    if s == [] {
    } else if s[0] == c {
      JoinSplit(s[1..], c);
      assert s == [c] + s[1..];
    } else {
      JoinSplit(s[1..], c);
      JoinCons(s[0], Split(s[1..], c), c);
      assert s == [s[0]] + s[1..];
    }
  }

  /** Prepending a character to the first piece prepends it to the join. */
  lemma JoinCons(ch: char, t: seq<string>, c: char)
    requires |t| >= 1
    ensures Join([[ch] + t[0]] + t[1..], c) == [ch] + Join(t, c)
  {
    var u := [[ch] + t[0]] + t[1..];
    if |t| > 1 {
      assert u[1..] == t[1..];
    }
  }

  /** A string without the separator is a single piece. */
  lemma {:induction false} SplitNoSeparator(s: string, c: char)
    requires c !in s
    ensures Split(s, c) == [s]
  {
    if s != [] {
      SplitNoSeparator(s[1..], c);
      assert s == [s[0]] + s[1..];
    }
  }

  /** A string splits into two or more pieces exactly when it holds the separator. */
  lemma SplitMany(s: string, c: char)
    ensures c in s <==> |Split(s, c)| >= 2
  {
    if c !in s {
      SplitNoSeparator(s, c);
    } else if |Split(s, c)| == 1 {
      JoinSplit(s, c);
      assert false;
    }
  }

  /** A separator between two strings splits them apart: the pieces are those
      of the left part followed by those of the right part. */
  lemma {:induction false} SplitAround(a: string, b: string, c: char)
    ensures Split(a + [c] + b, c) == Split(a, c) + Split(b, c)
  {
    if a == [] {
      assert a + [c] + b == [c] + b;
      assert ([c] + b)[1..] == b;
    } else {
      assert (a + [c] + b)[0] == a[0];
      assert (a + [c] + b)[1..] == a[1..] + [c] + b;
      SplitAround(a[1..], b, c);
    }
  }

  /** Pieces of a string that starts with a separator-free part. */
  lemma SplitLead(a: string, rest: string, c: char)
    requires c !in a
    ensures Split(a + [c] + rest, c) == [a] + Split(rest, c)
  {
    SplitAround(a, rest, c);
    SplitNoSeparator(a, c);
  }

  /** Newline-terminated single lines followed by anything split back into
      those lines followed by the pieces of what follows. */
  lemma {:induction false} SplitLinesText(lines: seq<string>, tail: string)
    requires SingleLines(lines)
    ensures Split(LinesText(lines) + tail, '\n') == lines + Split(tail, '\n')
  {
    if lines == [] {
      assert LinesText(lines) + tail == tail;
    } else {
      SingleLinesTail(lines);
      SplitFirstLine(lines, tail);
      SplitLinesText(lines[1..], tail);
      var rest := Split(tail, '\n');
      assert [lines[0]] + (lines[1..] + rest) == ([lines[0]] + lines[1..]) + rest;
      assert [lines[0]] + lines[1..] == lines;
    }
  }

  lemma SplitFirstLine(lines: seq<string>, tail: string)
    requires lines != [] && '\n' !in lines[0]
    ensures Split(LinesText(lines) + tail, '\n') == [lines[0]] + Split(LinesText(lines[1..]) + tail, '\n')
  {
    var rest := LinesText(lines[1..]) + tail;
    assert LinesText(lines) + tail == lines[0] + ['\n'] + rest;
    SplitLead(lines[0], rest, '\n');
  }

  lemma SingleLinesTail(lines: seq<string>)
    requires SingleLines(lines) && lines != []
    ensures SingleLines(lines[1..]) && '\n' !in lines[0]
  {
    forall i | 0 <= i < |lines[1..]| ensures '\n' !in lines[1..][i] {
      assert lines[1..][i] == lines[i + 1];
    }
  }

  /** The position of the first `c` in `s`, or `|s|` when there is none. */
  function IndexOf(s: string, c: char): (k: nat)
    ensures k <= |s| && c !in s[..k]
    ensures k < |s| ==> s[k] == c
  {
    if s == [] then 0
    else if s[0] == c then 0
    else
      var k := IndexOf(s[1..], c);
      assert s[..k + 1] == [s[0]] + s[1..][..k];
      1 + k
  }

  /** The first `c` after a `c`-free prefix is the one right after it. */
  lemma {:induction false} IndexOfAfter(a: string, b: string, c: char)
    requires c !in a
    ensures IndexOf(a + [c] + b, c) == |a|
  {
    if a != [] {
      assert (a + [c] + b)[1..] == a[1..] + [c] + b;
      IndexOfAfter(a[1..], b, c);
    }
  }

  /** The first piece is everything before the first separator; the other
      pieces are those of what follows it. */
  lemma {:induction false} SplitHead(s: string, c: char)
    ensures Split(s, c)[0] == s[..IndexOf(s, c)]
    ensures IndexOf(s, c) < |s| ==> Split(s, c)[1..] == Split(s[IndexOf(s, c) + 1..], c)
    ensures IndexOf(s, c) == |s| ==> |Split(s, c)| == 1
  {
    if s != [] && s[0] != c {
      SplitHead(s[1..], c);
      var k := IndexOf(s[1..], c);
      assert s[..k + 1] == [s[0]] + s[1..][..k];
      if k < |s[1..]| {
        assert s[k + 2..] == s[1..][k + 1..];
      }
    }
  }

  /** A prefix free of the separator joins the first piece. */
  lemma {:induction false} SplitPrefix(p: string, s: string, c: char)
    requires c !in p
    ensures Split(p + s, c) == [p + Split(s, c)[0]] + Split(s, c)[1..]
  {
    if p == [] {
      assert p + s == s;
      assert p + Split(s, c)[0] == Split(s, c)[0];
      assert Split(s, c) == [Split(s, c)[0]] + Split(s, c)[1..];
    } else {
      assert (p + s)[0] == p[0];
      assert (p + s)[1..] == p[1..] + s;
      SplitPrefix(p[1..], s, c);
      assert [p[0]] + (p[1..] + Split(s, c)[0]) == p + Split(s, c)[0];
    }
  }

  /** Joining with newlines is the newline-terminated list of all pieces but
      the last, followed by the last piece. */
  lemma {:induction false} JoinAsLines(parts: seq<string>)
    requires |parts| >= 1
    ensures Join(parts, '\n') == LinesText(parts[..|parts| - 1]) + parts[|parts| - 1]
  {
    if |parts| > 1 {
      JoinAsLines(parts[1..]);
      assert parts[1..][..|parts[1..]| - 1] == parts[1..|parts| - 1];
      assert parts[..|parts| - 1][1..] == parts[1..|parts| - 1];
    }
  }

  /** Concatenating two line lists concatenates their texts. */
  lemma {:induction false} LinesTextAppend(xs: seq<string>, ys: seq<string>)
    ensures LinesText(xs + ys) == LinesText(xs) + LinesText(ys)
  {
    if xs == [] {
      assert xs + ys == ys;
    } else {
      assert (xs + ys)[1..] == xs[1..] + ys;
      LinesTextAppend(xs[1..], ys);
    }
  }

  // Decimal numbers, as `str(int)` prints them and `int(str)` reads them.

  predicate IsDigit(ch: char)
  {
    '0' <= ch <= '9'
  }

  function DigitChar(d: nat): (ch: char)
    requires d < 10
    ensures IsDigit(ch) && (ch as int) - ('0' as int) == d
  {
    (('0' as int) + d) as char
  }

  /** `str(n)` for a non-negative integer: its decimal digits, at least one. */
  function NatToString(n: nat): (r: string)
    ensures |r| >= 1
    ensures forall i :: 0 <= i < |r| ==> IsDigit(r[i])
  {
    if n < 10 then [DigitChar(n)] else NatToString(n / 10) + [DigitChar(n % 10)]
  }

  function DigitValue(ch: char): nat
    requires IsDigit(ch)
  {
    (ch as int) - ('0' as int)
  }

  function DigitsValue(s: string): nat
    requires forall i :: 0 <= i < |s| ==> IsDigit(s[i])
  {
    if s == [] then 0 else DigitsValue(s[..|s| - 1]) * 10 + DigitValue(s[|s| - 1])
  }

  /** `int(s)` on a string of ASCII digits; anything else raises ValueError. */
  function ParseNat(s: string): (r: Result<nat>)
    ensures r.Ok? <==> s != [] && forall i :: 0 <= i < |s| ==> IsDigit(s[i])
  {
    if s != [] && forall i :: 0 <= i < |s| ==> IsDigit(s[i]) then Ok(DigitsValue(s)) else Err(ValueError)
  }

  /** Printing a number and reading it back gives the number. */
  lemma {:induction false} ParseNatToString(n: nat)
    ensures ParseNat(NatToString(n)) == Ok(n)
  {
    if n >= 10 {
      ParseNatToString(n / 10);
      var s := NatToString(n);
      assert s[..|s| - 1] == NatToString(n / 10);
      assert DigitValue(s[|s| - 1]) == n % 10;
      assert DigitsValue(s) == (n / 10) * 10 + n % 10;
    }
  }
}
