/** Character classes and string operations shared by the server (Python) and
    the browser (JavaScript) models: splitting on `[\n,\s]+`, trimming, prefix
    stripping, and decimal printing and parsing. */
module Text {

  import opened Wrappers

  /** Whose whitespace rules apply: Python's `str.isspace` (which is also what
      `re`'s `\s` and `str.strip()` use), or JavaScript's WhiteSpace and
      LineTerminator (used by `\s` and `String.prototype.trim`). */
  datatype Dialect = Python | JavaScript

  predicate IsSpace(d: Dialect, c: char) {
    var n := c as int;
    || (9 <= n <= 13) || n == 0x20 || n == 0xA0 || n == 0x1680
    || (0x2000 <= n <= 0x200A) || n == 0x2028 || n == 0x2029
    || n == 0x202F || n == 0x205F || n == 0x3000
    || (d == Python && ((0x1C <= n <= 0x1F) || n == 0x85))
    || (d == JavaScript && n == 0xFEFF)
  }

  /** The character class `[\n,\s]` that both sides split username lists on. */
  predicate IsSeparator(d: Dialect, c: char) {
    c == '\n' || c == ',' || IsSpace(d, c)
  }

  predicate NoSeparator(d: Dialect, s: string) {
    forall i :: 0 <= i < |s| ==> !IsSeparator(d, s[i])
  }

  /** Index of the first separator in `s`, or `|s|` when there is none. */
  function FieldEnd(d: Dialect, s: string): (k: nat)
    ensures k <= |s|
    ensures forall i :: 0 <= i < k ==> !IsSeparator(d, s[i])
    ensures k < |s| ==> IsSeparator(d, s[k])
  {
    if s == [] || IsSeparator(d, s[0]) then 0 else 1 + FieldEnd(d, s[1..])
  }

  /** `s` without its leading run of separators. */
  function DropSeparators(d: Dialect, s: string): (r: string)
    ensures |r| <= |s| && r == s[|s| - |r|..]
    ensures r == [] || !IsSeparator(d, r[0])
    ensures forall i :: 0 <= i < |s| - |r| ==> IsSeparator(d, s[i])
  {
    if s != [] && IsSeparator(d, s[0]) then DropSeparators(d, s[1..]) else s
  }

  /** `re.split(r'[\n,\s]+', s)` in Python and `s.split(/[\n,\s]+/)` in
      JavaScript: the fields between maximal runs of separators. A leading or
      trailing run yields an empty first or last field; `""` yields `[""]`. */
  function Split(d: Dialect, s: string): (fields: seq<string>)
    ensures |fields| >= 1
    decreases |s|
  {
    var k := FieldEnd(d, s);
    if k == |s| then [s] else [s[..k]] + Split(d, DropSeparators(d, s[k..]))
  }

  /** `sep.join(xs)` / `xs.join(sep)`. */
  function Join(xs: seq<string>, sep: string): string {
    if xs == [] then "" else if |xs| == 1 then xs[0] else xs[0] + sep + Join(xs[1..], sep)
  }

  /** No field that splitting produces contains a separator. */
  lemma {:induction false} SplitFieldsHaveNoSeparator(d: Dialect, s: string)
    ensures forall f :: f in Split(d, s) ==> NoSeparator(d, f)
    decreases |s|
  {
    var k := FieldEnd(d, s);
    if k < |s| {
      SplitFieldsHaveNoSeparator(d, DropSeparators(d, s[k..]));
    }
  }

  lemma {:induction false} FieldEndOfClean(d: Dialect, a: string, b: string)
    requires NoSeparator(d, a)
    requires b == [] || IsSeparator(d, b[0])
    ensures FieldEnd(d, a + b) == |a|
    decreases |a|
  {
    if a == [] {
      assert a + b == b;
    } else {
      assert (a + b)[0] == a[0] && !IsSeparator(d, a[0]);
      assert (a + b)[1..] == a[1..] + b;
      assert NoSeparator(d, a[1..]) by {
        forall i | 0 <= i < |a[1..]| ensures !IsSeparator(d, a[1..][i]) {
          assert a[1..][i] == a[i + 1];
        }
      }
      FieldEndOfClean(d, a[1..], b);
    }
  }

  /** Splitting a list that was joined with one separator gives the list back,
      provided every name is non-empty and separator-free. */
  lemma {:induction false} SplitJoin(d: Dialect, names: seq<string>, sep: char)
    requires |names| >= 1
    requires forall i :: 0 <= i < |names| ==> names[i] != [] && NoSeparator(d, names[i])
    requires IsSeparator(d, sep)
    ensures Split(d, Join(names, [sep])) == names
    decreases |names|
  {
    if |names| == 1 {
      FieldEndOfClean(d, names[0], []);
      assert names[0] + [] == names[0];
    } else {
      var tail := names[1..];
      var rest := Join(tail, [sep]);
      assert Join(names, [sep]) == names[0] + [sep] + rest;
      HeadOfTailClean(d, names);
      JoinStartsWith(tail, [sep]);
      SplitCons(d, names[0], sep, rest);
      SplitJoin(d, tail, sep);
      assert names == [names[0]] + tail;
    }
  }

  lemma {:induction false} HeadOfTailClean(d: Dialect, names: seq<string>)
    requires |names| >= 2
    requires forall i :: 0 <= i < |names| ==> names[i] != [] && NoSeparator(d, names[i])
    ensures forall i :: 0 <= i < |names[1..]| ==> names[1..][i] != [] && NoSeparator(d, names[1..][i])
    ensures names[1..][0] == names[1] && !IsSeparator(d, names[1][0])
  {
    forall i | 0 <= i < |names[1..]| ensures names[1..][i] != [] && NoSeparator(d, names[1..][i]) {
      assert names[1..][i] == names[i + 1];
    }
  }

  lemma {:induction false} SplitCons(d: Dialect, a: string, sep: char, rest: string)
    requires NoSeparator(d, a) && IsSeparator(d, sep)
    requires rest == [] || !IsSeparator(d, rest[0])
    ensures Split(d, a + [sep] + rest) == [a] + Split(d, rest)
  {
    var s := a + [sep] + rest;
    assert s == a + ([sep] + rest);
    FieldEndOfClean(d, a, [sep] + rest);
    var k := |a|;
    assert s[..k] == a;
    assert s[k..] == [sep] + rest;
    assert ([sep] + rest)[1..] == rest;
    assert DropSeparators(d, s[k..]) == rest;
  }

  lemma {:induction false} JoinStartsWith(xs: seq<string>, sep: string)
    requires |xs| >= 1 && xs[0] != []
    ensures Join(xs, sep) != [] && Join(xs, sep)[0] == xs[0][0]
  {
  }

  lemma {:induction false} JoinEndsWith(xs: seq<string>, sep: string)
    requires |xs| >= 1 && xs[|xs| - 1] != []
    ensures var j := Join(xs, sep); j != [] && j[|j| - 1] == xs[|xs| - 1][|xs[|xs| - 1]| - 1]
    decreases |xs|
  {
    if |xs| > 1 {
      assert xs[1..][|xs[1..]| - 1] == xs[|xs| - 1];
      JoinEndsWith(xs[1..], sep);
    }
  }

  /** Every suffix of a separator-free string is separator-free. */
  lemma {:induction false} NoSeparatorSuffix(d: Dialect, t: string, k: nat)
    requires NoSeparator(d, t) && k <= |t|
    ensures NoSeparator(d, t[k..])
  {
    forall i | 0 <= i < |t[k..]| ensures !IsSeparator(d, t[k..][i]) {
      assert t[k..][i] == t[k + i];
    }
  }

  /** The length of the leading run of whitespace in `s`. */
  function LeadingSpace(d: Dialect, s: string): (k: nat)
    ensures k <= |s|
    ensures forall i :: 0 <= i < k ==> IsSpace(d, s[i])
    ensures k < |s| ==> !IsSpace(d, s[k])
  {
    if s != [] && IsSpace(d, s[0]) then 1 + LeadingSpace(d, s[1..]) else 0
  }

  /** Where the trailing run of whitespace in `s` begins. */
  function TrailingStart(d: Dialect, s: string): (k: nat)
    ensures k <= |s|
    ensures forall i :: k <= i < |s| ==> IsSpace(d, s[i])
    ensures 0 < k ==> !IsSpace(d, s[k - 1])
  {
    if s != [] && IsSpace(d, s[|s| - 1]) then TrailingStart(d, s[..|s| - 1]) else |s|
  }

  /** `s` without its leading whitespace (JavaScript `trimStart`, Python `lstrip()`). */
  function TrimStart(d: Dialect, s: string): string {
    s[LeadingSpace(d, s)..]
  }

  /** `s` without its trailing whitespace. */
  function TrimEnd(d: Dialect, s: string): string {
    s[..TrailingStart(d, s)]
  }

  /** Python `s.strip()` and JavaScript `s.trim()`: the longest infix of `s`
      that neither starts nor ends with whitespace, everything cut being whitespace. */
  function Strip(d: Dialect, s: string): string {
    TrimEnd(d, TrimStart(d, s))
  }

  /** What stripping cuts away is whitespace on both sides of the result,
      which neither starts nor ends with whitespace. */
  lemma {:induction false} StripSpec(d: Dialect, s: string)
    ensures var r := Strip(d, s);
      && StrippedAt(d, s, r, LeadingSpace(d, s))
      && (r == [] || (!IsSpace(d, r[0]) && !IsSpace(d, r[|r| - 1])))
  {
    var a := LeadingSpace(d, s);
    var t := s[a..];
    var b := TrailingStart(d, t);
    var r := t[..b];
    assert r == s[a..a + b];
    TrailingSpaceOfSuffix(d, s, a);
    if r != [] {
      assert r[0] == s[a] && r[|r| - 1] == t[b - 1];
    }
  }

  /** The trailing whitespace of a suffix of `s` is whitespace of `s`. */
  lemma {:induction false} TrailingSpaceOfSuffix(d: Dialect, s: string, a: nat)
    requires a <= |s|
    ensures forall i :: a + TrailingStart(d, s[a..]) <= i < |s| ==> IsSpace(d, s[i])
  {
    var t := s[a..];
    forall i | a + TrailingStart(d, t) <= i < |s| ensures IsSpace(d, s[i]) {
      assert s[i] == t[i - a];
    }
  }

  /** `r` is the infix of `s` at offset `a`, and all that lies around it is whitespace. */
  predicate StrippedAt(d: Dialect, s: string, r: string, a: int) {
    && 0 <= a <= |s| - |r| && r == s[a..a + |r|]
    && (forall i :: 0 <= i < a ==> IsSpace(d, s[i]))
    && (forall i :: a + |r| <= i < |s| ==> IsSpace(d, s[i]))
  }

  /** A string without separators has no whitespace to strip. */
  lemma {:induction false} StripClean(d: Dialect, s: string)
    requires NoSeparator(d, s)
    ensures Strip(d, s) == s
  {
    if s != [] {
      StripNoEdges(d, s);
    }
  }

  /** A string that neither starts nor ends with whitespace is its own strip. */
  lemma {:induction false} StripNoEdges(d: Dialect, s: string)
    requires s != [] && !IsSpace(d, s[0]) && !IsSpace(d, s[|s| - 1])
    ensures Strip(d, s) == s
  {
    assert LeadingSpace(d, s) == 0;
    assert s[0..] == s;
    assert TrailingStart(d, s) == |s|;
    assert s[..|s|] == s;
  }

  /** The length of the leading run of `c` in `s`. */
  function LeadingRun(s: string, c: char): (k: nat)
    ensures k <= |s|
    ensures forall i :: 0 <= i < k ==> s[i] == c
    ensures k < |s| ==> s[k] != c
  {
    if s != [] && s[0] == c then 1 + LeadingRun(s[1..], c) else 0
  }

  /** Python `s.lstrip(c)`: every leading `c` removed. */
  function LStripAll(s: string, c: char): string {
    s[LeadingRun(s, c)..]
  }

  /** JavaScript `s.replace(/^@/, '')` for `c == '@'`: at most one leading `c` removed. */
  function RemoveOneLeading(s: string, c: char): (r: string)
    ensures if s != [] && s[0] == c then s == [c] + r else r == s
  {
    if s != [] && s[0] == c then s[1..] else s
  }

  predicate IsDigit(c: char) {
    '0' <= c <= '9'
  }

  function DigitChar(v: nat): (c: char)
    requires v < 10
    ensures IsDigit(c) && (c as int) - ('0' as int) == v
  {
    (('0' as int) + v) as char
  }

  /** Python `str(n)` and JavaScript `${n}` for a non-negative integer. */
  function NatToDecimal(n: nat): (s: string)
    ensures s != [] && forall i :: 0 <= i < |s| ==> IsDigit(s[i])
  {
    if n < 10 then [DigitChar(n)] else NatToDecimal(n / 10) + [DigitChar(n % 10)]
  }

  /** JavaScript's `${i}` for an integer. */
  function IntToDecimal(i: int): string {
    if i < 0 then "-" + NatToDecimal(-i) else NatToDecimal(i)
  }

  predicate AllDigits(s: string) {
    forall i :: 0 <= i < |s| ==> IsDigit(s[i])
  }

  /** The value of a string of decimal digits, most significant first. */
  function DigitsValue(s: string): nat
    requires AllDigits(s)
  {
    if s == [] then 0
    else DigitsValue(s[..|s| - 1]) * 10 + ((s[|s| - 1] as int) - ('0' as int))
  }

  /** Reading a timestamp field: a non-empty run of decimal digits, or nothing. */
  function ParseDecimal(s: string): Option<nat> {
    if s != [] && AllDigits(s) then Some(DigitsValue(s)) else None
  }

  /** Printing a number and parsing it back gives the number. */
  lemma {:induction false} DecimalRoundTrip(n: nat)
    ensures ParseDecimal(NatToDecimal(n)) == Some(n)
  {
    var s := NatToDecimal(n);
    if n < 10 {
      assert s[..|s| - 1] == [];
    } else {
      DecimalRoundTrip(n / 10);
      assert s[..|s| - 1] == NatToDecimal(n / 10);
      assert DigitsValue(s) == DigitsValue(NatToDecimal(n / 10)) * 10 + n % 10;
    }
  }

  /** Python `s.split(c)[-1]`: the part of `s` after its last `c`, or all of `s`. */
  function LastSegment(s: string, c: char): (r: string)
    ensures c !in r
    ensures |r| <= |s| && r == s[|s| - |r|..]
    ensures |r| < |s| ==> s[|s| - |r| - 1] == c
  {
    if s == [] then []
    else if s[|s| - 1] == c then []
    else LastSegment(s[..|s| - 1], c) + [s[|s| - 1]]
  }

  /** Whatever precedes the last `c`, the segment after it is recovered exactly. */
  lemma {:induction false} LastSegmentOfSuffix(a: string, c: char, b: string)
    requires c !in b
    ensures LastSegment(a + [c] + b, c) == b
    decreases |b|
  {
    var s := a + [c] + b;
    if b != [] {
      var b' := b[..|b| - 1];
      assert s[..|s| - 1] == a + [c] + b';
      assert s[|s| - 1] == b[|b| - 1];
      LastSegmentOfSuffix(a, c, b');
      assert b == b' + [b[|b| - 1]];
    }
  }
}
