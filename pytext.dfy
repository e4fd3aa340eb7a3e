/** The Python string operations the scanner relies on: str.split() with no
    argument, str.splitlines(), line iteration over a text file, int() on a
    token, and pathlib's PurePath.stem. */
module PyText {
  import opened Base

  /** str.isspace() for one character: the characters CPython's
      str.split() treats as white space. */
  predicate IsSpace(c: char)
  {
    || c == ' '
    || ('\t' <= c <= '\r')
    || ('\U{1C}' <= c <= '\U{1F}')
    || c == '\U{85}'
    || c == '\U{A0}'
    || c == '\U{1680}'
    || ('\U{2000}' <= c <= '\U{200A}')
    || c == '\U{2028}'
    || c == '\U{2029}'
    || c == '\U{202F}'
    || c == '\U{205F}'
    || c == '\U{3000}'
  }

  /** A token str.split() can yield: non-empty, without white space. */
  predicate IsWord(w: string)
  {
    w != [] && forall i :: 0 <= i < |w| ==> !IsSpace(w[i])
  }

  /** The length of the longest prefix of s whose characters all satisfy p. */
  function PrefixRun(s: string, p: char -> bool): (k: nat)
    ensures k <= |s|
    ensures forall i :: 0 <= i < k ==> p(s[i])
    ensures k < |s| ==> !p(s[k])
  {
    if s == [] || !p(s[0]) then 0 else 1 + PrefixRun(s[1..], p)
  }

  lemma {:induction false} PrefixRunAppend(a: string, b: string, p: char -> bool)
    ensures PrefixRun(a + b, p) == if PrefixRun(a, p) < |a| then PrefixRun(a, p) else |a| + PrefixRun(b, p)
  {
    if a != [] {
      assert (a + b)[1..] == a[1..] + b;
      PrefixRunAppend(a[1..], b, p);
    } else {
      assert a + b == b;
    }
  }

  /** The word being collected, as a token list: nothing when empty. */
  function Flush(cur: string): seq<string>
  {
    if cur == [] then [] else [cur]
  }

  /** Split s, given the non-white-space characters cur read just before it. */
  function SplitFrom(s: string, cur: string): (r: seq<string>)
    requires forall i :: 0 <= i < |cur| ==> !IsSpace(cur[i])
    ensures forall i :: 0 <= i < |r| ==> IsWord(r[i])
    ensures r == [] <==> cur == [] && forall i :: 0 <= i < |s| ==> IsSpace(s[i])
  {
    if s == [] then Flush(cur)
    else
      assert (forall i :: 0 <= i < |s| ==> IsSpace(s[i]))
             <==> IsSpace(s[0]) && (forall i :: 0 <= i < |s[1..]| ==> IsSpace(s[1..][i]));
      if IsSpace(s[0]) then Flush(cur) + SplitFrom(s[1..], [])
      else SplitFrom(s[1..], cur + [s[0]])
  }

  /** str.split() with no argument: the maximal runs of non-white-space
      characters, in order; leading and trailing white space give no
      empty tokens. */
  function Split(s: string): (r: seq<string>)
    ensures forall i :: 0 <= i < |r| ==> IsWord(r[i])
    ensures r == [] <==> forall i :: 0 <= i < |s| ==> IsSpace(s[i])
  {
    SplitFrom(s, [])
  }

  /** Words separated by single spaces: the shape the split rows were
      written in. */
  function JoinWords(ws: seq<string>): string
  {
    if ws == [] then ""
    else if |ws| == 1 then ws[0]
    else ws[0] + " " + JoinWords(ws[1..])
  }

  lemma {:induction false} SplitFromAtSpace(x: string, c: char, y: string, cur: string)
    requires IsSpace(c)
    requires forall i :: 0 <= i < |cur| ==> !IsSpace(cur[i])
    ensures SplitFrom(x + [c] + y, cur) == SplitFrom(x, cur) + SplitFrom(y, [])
    decreases |x|
  {
    if x == [] {
      assert x + [c] + y == [c] + y;
      assert ([c] + y)[1..] == y;
    } else {
      assert (x + [c] + y)[1..] == x[1..] + [c] + y;
      if IsSpace(x[0]) {
        SplitFromAtSpace(x[1..], c, y, []);
      } else {
        SplitFromAtSpace(x[1..], c, y, cur + [x[0]]);
      }
    }
  }

  /** A white-space character separates the tokens on either side of it. */
  lemma SplitAtSpace(x: string, c: char, y: string)
    requires IsSpace(c)
    ensures Split(x + [c] + y) == Split(x) + Split(y)
  {
    SplitFromAtSpace(x, c, y, []);
  }

  lemma {:induction false} SplitFromWord(w: string, cur: string)
    requires forall i :: 0 <= i < |cur| ==> !IsSpace(cur[i])
    requires forall i :: 0 <= i < |w| ==> !IsSpace(w[i])
    ensures SplitFrom(w, cur) == Flush(cur + w)
  {
    if w == [] {
      assert cur + w == cur;
    } else {
      assert cur + w == (cur + [w[0]]) + w[1..];
      SplitFromWord(w[1..], cur + [w[0]]);
    }
  }

  /** A word splits into itself. */
  lemma SplitWord(w: string)
    requires IsWord(w)
    ensures Split(w) == [w]
  {
    SplitFromWord(w, []);
    assert [] + w == w;
  }

  /** Splitting words joined by single spaces gives the words back. */
  lemma {:induction false} SplitJoinWords(ws: seq<string>)
    requires forall i :: 0 <= i < |ws| ==> IsWord(ws[i])
    ensures Split(JoinWords(ws)) == ws
  {
    if |ws| == 1 {
      SplitWord(ws[0]);
    } else if |ws| > 1 {
      SplitWord(ws[0]);
      SplitAtSpace(ws[0], ' ', JoinWords(ws[1..]));
      SplitJoinWords(ws[1..]);
      assert ws[0] + " " + JoinWords(ws[1..]) == ws[0] + [' '] + JoinWords(ws[1..]);
      assert [ws[0]] + ws[1..] == ws;
    }
  }

  /** Words joined by single spaces hold no line boundary. */
  lemma {:induction false} JoinWordsHasNoLineBreak(ws: seq<string>)
    requires forall i :: 0 <= i < |ws| ==> IsWord(ws[i])
    ensures forall j :: 0 <= j < |JoinWords(ws)| ==> !IsLineBreak(JoinWords(ws)[j])
  {
    if |ws| > 1 {
      JoinWordsHasNoLineBreak(ws[1..]);
      var s := JoinWords(ws);
      var w := ws[0];
      forall j | 0 <= j < |s|
        ensures !IsLineBreak(s[j])
      {
        if j < |w| {
          assert s[j] == w[j];
        } else if j > |w| {
          assert s[j] == JoinWords(ws[1..])[j - |w| - 1];
        }
      }
    }
  }

  /** Trailing white space (a line terminator) does not change the tokens. */
  lemma SplitDropsTrailingSpace(x: string, c: char)
    requires IsSpace(c)
    ensures Split(x + [c]) == Split(x)
  {
    SplitAtSpace(x, c, "");
    assert x + [c] + "" == x + [c];
  }

  /** A line boundary for str.splitlines(). */
  predicate IsLineBreak(c: char)
  {
    || c == '\n'
    || c == '\r'
    || c == '\U{0B}'
    || c == '\U{0C}'
    || ('\U{1C}' <= c <= '\U{1E}')
    || c == '\U{85}'
    || c == '\U{2028}'
    || c == '\U{2029}'
  }

  predicate IsNotLineBreak(c: char) { !IsLineBreak(c) }

  /** str.splitlines(): the lines of s without their terminators, "\r\n"
      counting as one terminator; a final terminator starts no new line. */
  function SplitLines(s: string): (r: seq<string>)
    ensures r == [] <==> s == []
    ensures forall i :: 0 <= i < |r| ==> forall j :: 0 <= j < |r[i]| ==> !IsLineBreak(r[i][j])
    ensures r != [] ==> r[0] == s[..PrefixRun(s, IsNotLineBreak)]
    decreases |s|
  {
    if s == [] then []
    else
      var k := PrefixRun(s, IsNotLineBreak);
      var rest :=
        if k == |s| then []
        else if s[k] == '\r' && k + 1 < |s| && s[k + 1] == '\n' then s[k + 2..]
        else s[k + 1..];
      [s[..k]] + SplitLines(rest)
  }

  /** The first of the lines is everything before the first line boundary. */
  lemma FirstOfSplitLines(line: string, c: char, rest: string)
    requires forall j :: 0 <= j < |line| ==> !IsLineBreak(line[j])
    requires IsLineBreak(c)
    ensures SplitLines(line + [c] + rest)[0] == line
  {
    var s := line + [c] + rest;
    assert s == line + ([c] + rest);
    PrefixRunAppend(line, [c] + rest, IsNotLineBreak);
    assert PrefixRun([c] + rest, IsNotLineBreak) == 0;
  }

  predicate IsNewline(c: char) { c == '\n' || c == '\r' }

  predicate IsNotNewline(c: char) { !IsNewline(c) }

  /** The lines iterating over a file opened in text mode yields: with
      universal newlines, "\n", "\r" and "\r\n" each end a line and are
      read as "\n", which the line keeps; a last line without terminator is
      yielded as it is. */
  function ReadLines(s: string): (r: seq<string>)
    ensures r == [] <==> s == []
    ensures |r| <= |s|
    decreases |s|
  {
    if s == [] then []
    else
      var k := PrefixRun(s, IsNotNewline);
      if k == |s| then [s]
      else
        var rest := if s[k] == '\r' && k + 1 < |s| && s[k + 1] == '\n' then s[k + 2..] else s[k + 1..];
        [s[..k] + "\n"] + ReadLines(rest)
  }

  predicate IsDigit(c: char) { '0' <= c <= '9' }

  /** The digits int() accepts in base 10: ASCII digits, with single
      underscores allowed between two digits. */
  predicate IsDigitString(t: string)
  {
    && t != []
    && IsDigit(t[0])
    && IsDigit(t[|t| - 1])
    && (forall i :: 0 <= i < |t| ==> IsDigit(t[i]) || t[i] == '_')
    && (forall i :: 0 < i < |t| && t[i] == '_' ==> t[i - 1] != '_')
  }

  /** The value of a digit string, underscores ignored. */
  function DigitsValue(t: string): nat
  {
    if t == [] then 0
    else if t[|t| - 1] == '_' then DigitsValue(t[..|t| - 1])
    else 10 * DigitsValue(t[..|t| - 1]) + ((t[|t| - 1] as int - '0' as int) % 10)
  }

  /** sys.get_int_max_str_digits() at its default: int() and str() refuse a
      decimal number with more digits than this. */
  const MaxStrDigits: nat := 4300

  /** The number of digits in t, underscores not counted. */
  function DigitCount(t: string): nat
  {
    CountOf(t, IsDigit)
  }

  /** A digit string int() converts: one within the digit limit. */
  predicate IsConvertibleDigits(t: string)
  {
    IsDigitString(t) && DigitCount(t) <= MaxStrDigits
  }

  /** int() on a token without surrounding white space: an optional sign
      followed by a digit string of at most MaxStrDigits digits; None where
      int() raises ValueError. */
  function ParseInt(t: string): (r: Option<int>)
    ensures r.Some? <==> IsConvertibleDigits(t) || (t != [] && (t[0] == '+' || t[0] == '-') && IsConvertibleDigits(t[1..]))
    ensures r.Some? && t[0] == '-' ==> r.value == -(DigitsValue(t[1..]) as int)
    ensures r.Some? && t[0] == '+' ==> r.value == DigitsValue(t[1..])
    ensures r.Some? && t[0] != '-' && t[0] != '+' ==> r.value == DigitsValue(t)
  {
    if t != [] && t[0] == '-' && IsConvertibleDigits(t[1..]) then Some(-(DigitsValue(t[1..]) as int))
    else if t != [] && t[0] == '+' && IsConvertibleDigits(t[1..]) then Some(DigitsValue(t[1..]))
    else if IsConvertibleDigits(t) then Some(DigitsValue(t))
    else None
  }

  function DigitChar(d: nat): char
    requires d < 10
  {
    ('0' as int + d) as char
  }

  /** The decimal digits of n, most significant first, no leading zero. */
  function NatToString(n: nat): string
  {
    if n < 10 then [DigitChar(n)] else NatToString(n / 10) + [DigitChar(n % 10)]
  }

  /** str() of an integer. */
  function IntToString(n: int): string
  {
    if n < 0 then "-" + NatToString(-n) else NatToString(n)
  }

  lemma {:induction false} NatToStringDigits(n: nat)
    ensures IsDigitString(NatToString(n))
    ensures forall i :: 0 <= i < |NatToString(n)| ==> IsDigit(NatToString(n)[i])
    ensures DigitsValue(NatToString(n)) == n
  {
    if n >= 10 {
      NatToStringDigits(n / 10);
      var s := NatToString(n);
      assert s[..|s| - 1] == NatToString(n / 10);
    }
  }

  /** int(str(n)) == n for every integer n that str() converts: one of at
      most MaxStrDigits digits. */
  lemma ParseIntRoundTrip(n: int)
    requires |NatToString(if n < 0 then -n else n)| <= MaxStrDigits
    ensures ParseInt(IntToString(n)) == Some(n)
    ensures IsWord(IntToString(n))
  {
    var m := if n < 0 then -n else n;
    var d := NatToString(m);
    assert IsConvertibleDigits(d) && DigitsValue(d) == m by {
      NatToStringDigits(m);
      assert DigitCount(d) == |d|;
    }
    assert forall i :: 0 <= i < |d| ==> !IsSpace(d[i]) by {
      NatToStringDigits(m);
    }
    var s := IntToString(n);
    if n < 0 {
      assert s == "-" + d && s[1..] == d;
    } else {
      assert s == d;
    }
  }

  predicate StartsWith(s: string, prefix: string)
  {
    |prefix| <= |s| && s[..|prefix|] == prefix
  }

  predicate EndsWith(s: string, suffix: string)
  {
    |suffix| <= |s| && s[|s| - |suffix|..] == suffix
  }

  /** The position of the last '.' in s, or -1 when there is none. */
  function LastDot(s: string): (i: int)
    ensures -1 <= i < |s|
    ensures i >= 0 ==> s[i] == '.'
    ensures forall j :: i < j < |s| ==> s[j] != '.'
  {
    if s == [] then -1
    else if s[|s| - 1] == '.' then |s| - 1
    else LastDot(s[..|s| - 1])
  }

  /** The last dot is the dot after which no other dot follows. */
  lemma LastDotIs(s: string, i: nat)
    requires i < |s| && s[i] == '.'
    requires forall j :: i < j < |s| ==> s[j] != '.'
    ensures LastDot(s) == i
  {
  }

  /** pathlib's PurePath.stem of a final path component: the name without
      its last suffix, where a dot that begins or ends the name does not
      start a suffix. */
  function Stem(name: string): (r: string)
    ensures |r| <= |name| && r == name[..|r|]
    ensures name != [] ==> r != []
    ensures r != name ==> name[|r|] == '.' && '.' !in name[|r| + 1..] && |r| + 1 < |name|
    ensures 0 < LastDot(name) < |name| - 1 ==> r == name[..LastDot(name)]
    ensures !(0 < LastDot(name) < |name| - 1) ==> r == name
  {
    var i := LastDot(name);
    if 0 < i < |name| - 1 then name[..i] else name
  }

  /** A stem starts with a dot exactly when the name does. */
  lemma StemHiddenIffNameHidden(name: string)
    ensures StartsWith(Stem(name), ".") <==> StartsWith(name, ".")
  {
    var r := Stem(name);
    if name != [] {
      assert r[..1] == name[..1];
    }
  }

  /** A name without a dot is its own stem. */
  lemma StemOfDotless(name: string)
    requires '.' !in name
    ensures Stem(name) == name
  {
    assert forall j :: 0 <= j < |name| ==> name[j] != '.';
  }
}
