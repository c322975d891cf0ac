/**
 * String helpers with the meaning the JavaScript runtime gives them:
 * `String.prototype.trim`, `Array.prototype.join`, splitting a string at a
 * separator, and the decimal rendering of a number inside a template literal.
 * Strings are sequences of Unicode scalar values.
 */
module Text {

  /** True for the characters `String.prototype.trim` removes: the ECMAScript
      WhiteSpace code points (tab, vertical tab, form feed, space, no-break
      space, byte order mark and the Unicode space separators) and the
      LineTerminator code points (line feed, carriage return, U+2028, U+2029). */
  predicate IsJsSpace(c: char)
  {
    || c == '\t' || c == '\n' || c == '\U{0B}' || c == '\U{0C}' || c == '\r' || c == ' '
    || c == '\U{A0}' || c == '\U{1680}' || ('\U{2000}' <= c <= '\U{200A}')
    || c == '\U{2028}' || c == '\U{2029}' || c == '\U{202F}' || c == '\U{205F}'
    || c == '\U{3000}' || c == '\U{FEFF}'
  }

  /** Every character of `s` is one that trim removes. */
  predicate Blank(s: string)
  {
    forall i | 0 <= i < |s| :: IsJsSpace(s[i])
  }

  /** Drops leading white space: the result is the longest suffix of `s`
      that does not start with white space. */
  function TrimStart(s: string): (r: string)
    ensures |r| <= |s| && r == s[|s| - |r|..]
    ensures Blank(s[..|s| - |r|])
    ensures r == [] || !IsJsSpace(r[0])
  {
    if s != [] && IsJsSpace(s[0]) then TrimStart(s[1..]) else s
  }

  /** Drops trailing white space: the result is the longest prefix of `s`
      that does not end with white space. */
  function TrimEnd(s: string): (r: string)
    ensures |r| <= |s| && r == s[..|r|]
    ensures Blank(s[|r|..])
    ensures r == [] || !IsJsSpace(r[|r| - 1])
  {
    if s != [] && IsJsSpace(s[|s| - 1]) then TrimEnd(s[..|s| - 1]) else s
  }

  /** `s.trim()`. */
  function Trim(s: string): string
  {
    TrimEnd(TrimStart(s))
  }

  /** A trimmed string is empty exactly when the original is all white space:
      this is what makes `s.trim()` falsy. */
  lemma TrimEmptyIffBlank(s: string)
    ensures Trim(s) == [] <==> Blank(s)
  {
    var t := TrimStart(s);
    var k := |s| - |t|;
    if t == [] {
      assert s[..k] == s;
    } else {
      assert t[0] == s[k];
      assert TrimEnd(t) != [];
    }
  }

  /** `xs.join(sep)`: the elements with `sep` between neighbours. */
  function Join(xs: seq<string>, sep: string): string
  {
    if |xs| == 0 then ""
    else if |xs| == 1 then xs[0]
    else xs[0] + sep + Join(xs[1..], sep)
  }

  /** `s.split(sep)` for a non-empty separator: the pieces between
      successive occurrences of `sep`, scanning left to right. */
  function Split(s: string, sep: string): (r: seq<string>)
    requires sep != []
    ensures |r| >= 1
    decreases |s|
  {
    if s == [] then [""]
    else if sep <= s then [""] + Split(s[|sep|..], sep)
    else
      var t := Split(s[1..], sep);
      [[s[0]] + t[0]] + t[1..]
  }

  /** The lines of `s`, as `s.split("\n")`. */
  function Lines(s: string): (r: seq<string>)
    ensures |r| >= 1
  {
    Split(s, "\n")
  }

  /** A string that cannot contain the separator is one piece. */
  lemma {:induction false} SplitWhole(a: string, sep: string)
    requires sep != [] && sep[0] !in a
    ensures Split(a, sep) == [a]
  {
    if a != [] {
      assert !(sep <= a);
      SplitWhole(a[1..], sep);
      assert [a[0]] + a[1..] == a;
    }
  }

  /** Splitting stops at the first separator when the text before it cannot
      contain the separator's first character. */
  lemma {:induction false} SplitAfter(a: string, sep: string, b: string)
    requires sep != [] && sep[0] !in a
    ensures Split(a + sep + b, sep) == [a] + Split(b, sep)
  {
    var s := a + sep + b;
    if a == [] {
      assert s == sep + b;
      assert sep <= s;
      assert s[|sep|..] == b;
    } else {
      assert s[0] == a[0] && a[0] != sep[0];
      assert !(sep <= s);
      assert s[1..] == a[1..] + sep + b;
      SplitAfter(a[1..], sep, b);
      assert [a[0]] + a[1..] == a;
    }
  }

  /** Splitting at a one-character separator distributes over a join at
      that character: the pieces of `a` come first, then those of `b`. */
  lemma {:induction false} SplitAtChar(a: string, c: char, b: string)
    ensures Split(a + [c] + b, [c]) == Split(a, [c]) + Split(b, [c])
  {
    var s := a + [c] + b;
    if a == [] {
      assert s == [c] + b && [c] <= s && s[1..] == b;
    } else if a[0] == c {
      assert [c] <= s && [c] <= a;
      assert s[1..] == a[1..] + [c] + b;
      SplitAtChar(a[1..], c, b);
    } else {
      assert !([c] <= s) && !([c] <= a);
      assert s[1..] == a[1..] + [c] + b;
      SplitAtChar(a[1..], c, b);
    }
  }

  /** The lines of two texts joined by a line break are the lines of the
      first followed by the lines of the second. */
  lemma LinesConcat(a: string, b: string)
    ensures Lines(a + "\n" + b) == Lines(a) + Lines(b)
  {
    SplitAtChar(a, '\n', b);
  }

  /** A text without a line break is a single line. */
  lemma OneLine(a: string)
    requires '\n' !in a
    ensures Lines(a) == [a]
  {
    SplitWhole(a, "\n");
  }

  /** Appending a line break and a one-line `tag + value` adds that one
      line. */
  lemma AppendField(a: string, tag: string, value: string)
    requires '\n' !in tag && '\n' !in value
    ensures Lines(a + "\n" + tag + value) == Lines(a) + [tag + value]
  {
    assert a + "\n" + tag + value == a + "\n" + (tag + value);
    LinesConcat(a, tag + value);
    OneLine(tag + value);
  }

  /** Appending two line breaks and a line adds an empty line and that
      line. */
  lemma AppendBlankLine(a: string, line: string)
    requires '\n' !in line
    ensures Lines(a + "\n\n" + line) == Lines(a) + ["", line]
  {
    assert a + "\n\n" + line == a + "\n" + ("" + "\n" + line);
    LinesConcat(a, "" + "\n" + line);
    LinesConcat("", line);
    OneLine("");
    OneLine(line);
  }

  /** Appending two line breaks and a one-line `tag + value` adds an
      empty line and that line. */
  lemma AppendBlankField(a: string, tag: string, value: string)
    requires '\n' !in tag && '\n' !in value
    ensures Lines(a + "\n\n" + tag + value) == Lines(a) + ["", tag + value]
  {
    assert a + "\n\n" + tag + value == a + "\n\n" + (tag + value);
    AppendBlankLine(a, tag + value);
  }

  /** Two prefixes of one text: the shorter is a prefix of the longer. */
  lemma SharedStart(a: string, b: string, s: string)
    requires a <= s && b <= s
    ensures a <= b || b <= a
  {
    if |a| <= |b| {
      assert a == s[..|a|] == b[..|a|];
    } else {
      assert b == s[..|b|] == a[..|b|];
    }
  }

  /** A join starts with its first element. */
  lemma JoinStart(xs: seq<string>, sep: string)
    requires |xs| >= 1
    ensures xs[0] <= Join(xs, sep)
  {
    if |xs| > 1 {
      assert Join(xs, sep) == xs[0] + (sep + Join(xs[1..], sep));
    }
  }

  /** Joining loses nothing when no element of one list is a proper prefix
      of an element of the other: equal joins come from equal lists. */
  lemma {:induction false} JoinInjective(xs: seq<string>, ys: seq<string>, sep: string)
    requires |xs| >= 1 && |ys| >= 1 && sep != []
    requires forall i, j | 0 <= i < |xs| && 0 <= j < |ys| :: (xs[i] <= ys[j] || ys[j] <= xs[i]) ==> xs[i] == ys[j]
    requires Join(xs, sep) == Join(ys, sep)
    ensures xs == ys
  {
    JoinStart(xs, sep);
    JoinStart(ys, sep);
    SharedStart(xs[0], ys[0], Join(xs, sep));
    var a := xs[0];
    assert ys[0] == a;
    if |xs| > 1 && |ys| > 1 {
      var k := |a + sep|;
      assert Join(xs, sep) == a + sep + Join(xs[1..], sep);
      assert Join(ys, sep) == a + sep + Join(ys[1..], sep);
      assert Join(xs[1..], sep) == Join(xs, sep)[k..] == Join(ys[1..], sep);
      JoinInjective(xs[1..], ys[1..], sep);
      assert xs == [a] + xs[1..] && ys == [a] + ys[1..];
    }
  }

  /** `c` occurs nowhere in the join when it occurs in no element and not in
      the separator. */
  lemma {:induction false} JoinAvoids(xs: seq<string>, sep: string, c: char)
    requires c !in sep
    requires forall i | 0 <= i < |xs| :: c !in xs[i]
    ensures c !in Join(xs, sep)
  {
    if |xs| > 1 {
      JoinAvoids(xs[1..], sep, c);
    }
  }

  /** The decimal digit for `d`. */
  function Digit(d: nat): (c: char)
    requires d < 10
    ensures '0' <= c <= '9'
  {
    ['0', '1', '2', '3', '4', '5', '6', '7', '8', '9'][d]
  }

  predicate AllDigits(s: string)
  {
    forall i | 0 <= i < |s| :: '0' <= s[i] <= '9'
  }

  /** The value of a string of decimal digits. */
  function DigitsValue(s: string): nat
    requires AllDigits(s)
  {
    if s == [] then 0
    else 10 * DigitsValue(s[..|s| - 1]) + ((s[|s| - 1] as int) - ('0' as int))
  }

  /** `${n}` for a non-negative integer: its shortest decimal rendering. */
  function Decimal(n: nat): (r: string)
    ensures r != [] && AllDigits(r)
    ensures r[0] == '0' ==> r == "0"
  {
    if n < 10 then [Digit(n)] else Decimal(n / 10) + [Digit(n % 10)]
  }

  /** Reading the digits back gives the number: the rendering loses nothing. */
  lemma {:induction false} DecimalRoundTrip(n: nat)
    ensures DigitsValue(Decimal(n)) == n
  {
    var r := Decimal(n);
    if n >= 10 {
      DecimalRoundTrip(n / 10);
      assert r[..|r| - 1] == Decimal(n / 10);
    }
    var d := if n < 10 then n else n % 10;
    assert r[|r| - 1] == Digit(d);
    assert (Digit(d) as int) - ('0' as int) == d;
  }
}
