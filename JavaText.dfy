/** The few pieces of java.lang text behaviour the order layer relies on:
    Integer.toString and Integer.valueOf on decimal text, String.split(","),
    String.replaceAll("\\D", ""), and the token test behind Scanner.hasNext(). */
module JavaText {
  import opened Outcomes

  predicate IsDigit(c: char) { '0' <= c <= '9' }

  function DigitChar(d: nat): (c: char)
    requires d < 10
    ensures IsDigit(c) && c as int - '0' as int == d
  {
    ('0' as int + d) as char
  }

  function DigitValue(c: char): (d: nat)
    requires IsDigit(c)
    ensures d < 10 && DigitChar(d) == c
  {
    c as int - '0' as int
  }

  predicate AllDigits(s: string) { forall i :: 0 <= i < |s| ==> IsDigit(s[i]) }

  /** Integer.toString of a non-negative number: its decimal digits, no
      leading zeros. */
  function NatText(n: nat): (s: string)
    ensures |s| >= 1 && AllDigits(s)
    ensures (s[0] == '0') == (n == 0)
    decreases n
  {
    if n < 10 then [DigitChar(n)] else NatText(n / 10) + [DigitChar(n % 10)]
  }

  /** Integer.toString of any int: a '-' in front of the digits of a
      negative number. */
  function IntText(n: int): (s: string)
    ensures |s| >= 1 && ',' !in s
    ensures n >= 0 ==> s == NatText(n)
    ensures n < 0 ==> s == "-" + NatText(-n)
  {
    if n < 0 then "-" + NatText(-n) else NatText(n)
  }

  /** The value of a non-empty run of decimal digits, most significant first. */
  function DigitsValue(s: string): (n: nat)
    requires |s| >= 1 && AllDigits(s)
    decreases |s|
  {
    if |s| == 1 then DigitValue(s[0])
    else DigitsValue(s[..|s| - 1]) * 10 + DigitValue(s[|s| - 1])
  }

  /** Integer.valueOf / Long.parseLong on decimal text: an optional '+' or
      '-' followed by at least one digit, anything else rejected. */
  function ParseInt(s: string): (r: Option<int>)
    ensures r.Some? ==> |s| >= 1
    ensures (|s| >= 1 && AllDigits(s)) ==> r == Some(DigitsValue(s) as int)
  {
    if |s| >= 1 && AllDigits(s) then Some(DigitsValue(s))
    else if |s| >= 2 && s[0] == '-' && AllDigits(s[1..]) then Some(-(DigitsValue(s[1..]) as int))
    else if |s| >= 2 && s[0] == '+' && AllDigits(s[1..]) then Some(DigitsValue(s[1..]))
    else None
  }

  lemma {:induction false} DigitsValueOfNatText(n: nat)
    ensures DigitsValue(NatText(n)) == n
    decreases n
  {
    if n >= 10 {
      var s := NatText(n);
      assert s[..|s| - 1] == NatText(n / 10);
      DigitsValueOfNatText(n / 10);
    }
  }

  /** Integer.valueOf reads back what Integer.toString wrote. */
  lemma ParseIntText(n: int)
    ensures ParseInt(IntText(n)) == Some(n)
  {
    if n < 0 {
      var s := IntText(n);
      assert s[1..] == NatText(-n);
      DigitsValueOfNatText(-n);
    } else {
      DigitsValueOfNatText(n);
    }
  }

  // ---------------------------------------------------------------------
  // String.split(",")

  /** Every field between commas, empty ones included. */
  function SplitAll(s: string): (f: seq<string>)
    ensures |f| >= 1
    ensures forall i :: 0 <= i < |f| ==> ',' !in f[i]
    decreases |s|
  {
    if s == [] then [""]
    else
      var rest := SplitAll(s[1..]);
      if s[0] == ',' then [""] + rest else [[s[0]] + rest[0]] + rest[1..]
  }

  function DropTrailingEmpty(f: seq<string>): (r: seq<string>)
    ensures |r| <= |f| && r == f[..|r|]
    ensures r == [] || r[|r| - 1] != ""
    decreases |f|
  {
    if f != [] && f[|f| - 1] == "" then DropTrailingEmpty(f[..|f| - 1]) else f
  }

  /** String.split(","): a text without a comma is its own single field;
      otherwise the fields between commas with trailing empty fields removed. */
  function JavaSplit(s: string): (f: seq<string>)
    ensures forall i :: 0 <= i < |f| ==> ',' !in f[i]
  {
    if ',' !in s then [s] else DropTrailingEmpty(SplitAll(s))
  }

  /** The fields joined by single commas. */
  function JoinComma(f: seq<string>): string
    decreases |f|
  {
    if |f| == 0 then "" else if |f| == 1 then f[0] else f[0] + "," + JoinComma(f[1..])
  }

  lemma {:induction false} SplitAllNoComma(s: string)
    requires ',' !in s
    ensures SplitAll(s) == [s]
    decreases |s|
  {
    if s != [] {
      SplitAllNoComma(s[1..]);
      assert [s[0]] + s[1..] == s;
    }
  }

  lemma {:induction false} SplitAllAfterField(a: string, t: string)
    requires ',' !in a
    ensures SplitAll(a + "," + t) == [a] + SplitAll(t)
    decreases |a|
  {
    if a == [] {
      assert (a + "," + t)[1..] == t;
    } else {
      assert (a + "," + t)[1..] == a[1..] + "," + t;
      SplitAllAfterField(a[1..], t);
      assert [a[0]] + a[1..] == a;
    }
  }

  /** Splitting comma-joined fields gives back every field, as long as no
      field holds a comma. */
  lemma {:induction false} SplitAllJoin(f: seq<string>)
    requires |f| >= 1
    requires forall i :: 0 <= i < |f| ==> ',' !in f[i]
    ensures SplitAll(JoinComma(f)) == f
    decreases |f|
  {
    if |f| == 1 {
      SplitAllNoComma(f[0]);
    } else {
      SplitAllAfterField(f[0], JoinComma(f[1..]));
      SplitAllJoin(f[1..]);
      assert [f[0]] + f[1..] == f;
    }
  }

  /** A trailing comma adds one empty field at the end. */
  lemma {:induction false} SplitAllTrailingComma(t: string)
    ensures SplitAll(t + ",") == SplitAll(t) + [""]
    decreases |t|
  {
    if t == [] {
      assert t + "," == ",";
      assert SplitAll(",") == [""] + SplitAll("");
    } else {
      assert (t + ",")[0] == t[0] && (t + ",")[1..] == t[1..] + ",";
      SplitAllTrailingComma(t[1..]);
    }
  }

  lemma {:induction false} JoinHasComma(f: seq<string>)
    requires |f| >= 2
    ensures ',' in JoinComma(f)
  {
    var s := JoinComma(f);
    assert s[|f[0]|] == ',';
  }

  /** Dropping trailing empty fields never drops a non-empty first field. */
  lemma {:induction false} DropKeepsHead(f: seq<string>)
    requires |f| >= 1 && f[0] != ""
    ensures |DropTrailingEmpty(f)| >= 1 && DropTrailingEmpty(f)[0] == f[0]
    decreases |f|
  {
    if f[|f| - 1] == "" {
      DropKeepsHead(f[..|f| - 1]);
    }
  }

  /** The first field of a text that starts with a comma-free, non-empty
      field followed by a comma is that field, whatever follows. */
  lemma JavaSplitHead(a: string, t: string)
    requires a != "" && ',' !in a
    ensures |JavaSplit(a + "," + t)| >= 1 && JavaSplit(a + "," + t)[0] == a
  {
    var s := a + "," + t;
    assert s[|a|] == ',';
    SplitAllAfterField(a, t);
    DropKeepsHead(SplitAll(s));
  }

  /** Nothing is dropped when the last field is not empty. */
  lemma DropNothingTrailing(f: seq<string>)
    requires |f| >= 1 && f[|f| - 1] != ""
    ensures DropTrailingEmpty(f) == f
  {
  }

  /** String.split(",") undoes the joining when no field holds a comma and the
      last field is not empty (Java drops trailing empty fields). */
  lemma JavaSplitJoin(f: seq<string>)
    requires |f| >= 1 && f[|f| - 1] != ""
    requires forall i :: 0 <= i < |f| ==> ',' !in f[i]
    ensures JavaSplit(JoinComma(f)) == f
  {
    if |f| == 1 {
      assert JoinComma(f) == f[0] && [f[0]] == f;
    } else {
      JoinHasComma(f);
      SplitAllJoin(f);
      DropNothingTrailing(f);
    }
  }

  // ---------------------------------------------------------------------
  // Scanner.hasNext() / nextLine() over the lines of a file

  /** Character.isWhitespace: the separators java.util.Scanner skips. */
  predicate IsJavaWhitespace(c: char)
  {
    var k := c as int;
    (9 <= k <= 13) || (28 <= k <= 32) || k == 0x1680
    || (0x2000 <= k <= 0x2006) || (0x2008 <= k <= 0x200A)
    || k == 0x2028 || k == 0x2029 || k == 0x205F || k == 0x3000
  }

  predicate IsBlank(line: string) { forall i :: 0 <= i < |line| ==> IsJavaWhitespace(line[i]) }

  /** Scanner.hasNext(): some token (a non-whitespace character) remains. */
  predicate HasToken(lines: seq<string>)
    decreases |lines|
  {
    lines != [] && (!IsBlank(lines[0]) || HasToken(lines[1..]))
  }

  /** The lines a `while (reader.hasNext()) reader.nextLine()` loop visits:
      every line up to the last one holding a token; a blank line in the
      middle is visited, trailing blank lines are not. */
  function ScannedLines(lines: seq<string>): (r: seq<string>)
    ensures |r| <= |lines|
    decreases |lines|
  {
    if HasToken(lines) then [lines[0]] + ScannedLines(lines[1..]) else []
  }

  /** A file in which no line is blank is visited in full. */
  lemma {:induction false} ScannedNonBlank(lines: seq<string>)
    requires forall i :: 0 <= i < |lines| ==> !IsBlank(lines[i])
    ensures ScannedLines(lines) == lines
    decreases |lines|
  {
    if lines != [] {
      assert !IsBlank(lines[0]);
      ScannedNonBlank(lines[1..]);
    }
  }

  /** The loop form of ScannedLines: after visiting lines[..i] while a token
      remained, the rest of the scan is the scan of lines[i..]. */
  lemma {:induction false} ScannedStep(lines: seq<string>, i: nat)
    requires i < |lines| && HasToken(lines[i..])
    requires ScannedLines(lines) == lines[..i] + ScannedLines(lines[i..])
    ensures ScannedLines(lines) == lines[..i + 1] + ScannedLines(lines[i + 1..])
  {
    var t, rest := lines[i..], ScannedLines(lines[i + 1..]);
    assert ScannedLines(t) == [lines[i]] + rest by {
      assert t[0] == lines[i] && t[1..] == lines[i + 1..];
      ScannedHead(t);
    }
    assert lines[..i] + [lines[i]] == lines[..i + 1];
  }

  /** A scan that finds a token visits the first line and goes on with the rest. */
  lemma ScannedHead(t: seq<string>)
    requires HasToken(t)
    ensures |t| >= 1 && ScannedLines(t) == [t[0]] + ScannedLines(t[1..])
  { }

  // ---------------------------------------------------------------------
  // String.replaceAll("\\D", "")

  /** The decimal digits of a text, in order. */
  function DigitsOf(s: string): (d: string)
    ensures AllDigits(d) && |d| <= |s|
    decreases |s|
  {
    if s == [] then []
    else (if IsDigit(s[0]) then [s[0]] else []) + DigitsOf(s[1..])
  }

  lemma {:induction false} DigitsOfAppend(a: string, b: string)
    ensures DigitsOf(a + b) == DigitsOf(a) + DigitsOf(b)
    decreases |a|
  {
    if a == [] {
      assert a + b == b;
    } else {
      var ab := a + b;
      assert ab[0] == a[0] && ab[1..] == a[1..] + b;
      var head := if IsDigit(a[0]) then [a[0]] else [];
      assert DigitsOf(ab) == head + DigitsOf(a[1..] + b);
      DigitsOfAppend(a[1..], b);
      assert DigitsOf(a) == head + DigitsOf(a[1..]);
      assert head + (DigitsOf(a[1..]) + DigitsOf(b)) == (head + DigitsOf(a[1..])) + DigitsOf(b);
    }
  }

  /** A text without digits has none to keep. */
  lemma {:induction false} DigitsOfNone(s: string)
    requires forall i :: 0 <= i < |s| ==> !IsDigit(s[i])
    ensures DigitsOf(s) == ""
    decreases |s|
  {
    if s != [] {
      DigitsOfNone(s[1..]);
    }
  }

  lemma {:induction false} DigitsOfDigits(s: string)
    requires AllDigits(s)
    ensures DigitsOf(s) == s
    decreases |s|
  {
    if s != [] {
      DigitsOfDigits(s[1..]);
      assert [s[0]] + s[1..] == s;
    }
  }
}
