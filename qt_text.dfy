/** The QString operations the plugin relies on, as functions on Dafny strings.
    A Dafny `char` stands for one character of a QString, taken as a Unicode code
    point rather than a UTF-16 code unit. */
module QtText {
  import opened Wrappers

  /** QChar::isSpace: the control characters 9..13, the Unicode separators and U+0085. */
  predicate IsSpace(c: char) {
    ('\t' <= c <= '\r') || c == ' ' || c == '\U{0085}' || c == '\U{00A0}' || c == '\U{1680}'
    || ('\U{2000}' <= c <= '\U{200A}') || c == '\U{2028}' || c == '\U{2029}'
    || c == '\U{202F}' || c == '\U{205F}' || c == '\U{3000}'
  }

  /** QString::startsWith, case-sensitive. */
  predicate StartsWith(s: string, prefix: string) {
    |prefix| <= |s| && s[..|prefix|] == prefix
  }

  /** `n` copies of the character `c`. */
  function Repeat(c: char, n: nat): (r: string)
    ensures |r| == n && forall k :: 0 <= k < n ==> r[k] == c
  {
    seq(n, _ => c)
  }

  function Spaces(n: nat): string {
    Repeat(' ', n)
  }

  /** QString::indexOf / QByteArray::indexOf for one character: -1 when absent. */
  function IndexOf(s: string, c: char): (i: int)
    ensures -1 <= i < |s|
    ensures i == -1 <==> c !in s
    ensures 0 <= i ==> s[i] == c && c !in s[..i]
    decreases |s|
  {
    if |s| == 0 then -1
    else if s[0] == c then 0
    else
      var j := IndexOf(s[1..], c);
      assert s[1..] == s[1..];
      if j == -1 then -1
      else
        assert s[..j + 1] == [s[0]] + s[1..][..j];
        j + 1
  }

  // ---------------------------------------------------------------------------
  // QString::split(sep) (empty parts kept) and its inverse QStringList::join(sep)

  function Split(s: string, sep: char): (parts: seq<string>)
    ensures |parts| >= 1
    ensures forall k :: 0 <= k < |parts| ==> sep !in parts[k]
    decreases |s|
  {
    var i := IndexOf(s, sep);
    if i < 0 then [s]
    else
      var rest := Split(s[i + 1..], sep);
      assert forall k :: 1 <= k <= |rest| ==> ([s[..i]] + rest)[k] == rest[k - 1];
      [s[..i]] + rest
  }

  function Join(parts: seq<string>, sep: char): string
    requires |parts| >= 1
    decreases |parts|
  {
    if |parts| == 1 then parts[0] else parts[0] + [sep] + Join(parts[1..], sep)
  }

  lemma SplitNoSeparator(a: string, sep: char)
    requires sep !in a
    ensures Split(a, sep) == [a]
  {
  }

  lemma {:induction false} IndexOfAfter(a: string, b: string, c: char)
    requires c !in a
    ensures IndexOf(a + [c] + b, c) == |a|
    decreases |a|
  {
    var s := a + [c] + b;
    if a != [] {
      assert s[0] == a[0];
      assert s[1..] == a[1..] + [c] + b;
      IndexOfAfter(a[1..], b, c);
    }
  }

  lemma SplitAfterSeparator(a: string, b: string, sep: char)
    requires sep !in a
    ensures Split(a + [sep] + b, sep) == [a] + Split(b, sep)
  {
    var s := a + [sep] + b;
    IndexOfAfter(a, b, sep);
    assert s[..|a|] == a && s[|a| + 1..] == b;
  }

  /** Joining the parts of a split gives the string back. */
  lemma {:induction false} JoinSplit(s: string, sep: char)
    ensures Join(Split(s, sep), sep) == s
    decreases |s|
  {
    var i := IndexOf(s, sep);
    if i >= 0 {
      JoinSplit(s[i + 1..], sep);
      JoinAtSeparator(s, i, Split(s[i + 1..], sep), sep);
    }
  }

  /** Joining the text before a separator with parts that join to the text after it
      gives the whole string. */
  lemma JoinAtSeparator(s: string, i: nat, rest: seq<string>, sep: char)
    requires i < |s| && s[i] == sep
    requires |rest| >= 1 && Join(rest, sep) == s[i + 1..]
    ensures Join([s[..i]] + rest, sep) == s
  {
    assert ([s[..i]] + rest)[1..] == rest;
    assert s == s[..i] + [sep] + s[i + 1..];
  }

  /** Splitting a join of separator-free parts gives the parts back. */
  lemma {:induction false} SplitJoin(parts: seq<string>, sep: char)
    requires |parts| >= 1
    requires forall k :: 0 <= k < |parts| ==> sep !in parts[k]
    ensures Split(Join(parts, sep), sep) == parts
    decreases |parts|
  {
    if |parts| == 1 {
      SplitNoSeparator(parts[0], sep);
    } else {
      SplitJoin(parts[1..], sep);
      SplitAfterSeparator(parts[0], Join(parts[1..], sep), sep);
      assert parts == [parts[0]] + parts[1..];
    }
  }

  // ---------------------------------------------------------------------------
  // QString::split(sep, QString::SkipEmptyParts)

  function DropEmpty(parts: seq<string>): (r: seq<string>)
    ensures |r| <= |parts|
    ensures forall k :: 0 <= k < |r| ==> r[k] != "" && r[k] in parts
    decreases |parts|
  {
    if parts == [] then []
    else (if parts[0] == "" then [] else [parts[0]]) + DropEmpty(parts[1..])
  }

  function SplitSkipEmpty(s: string, sep: char): (tokens: seq<string>)
    ensures forall k :: 0 <= k < |tokens| ==> tokens[k] != "" && sep !in tokens[k]
  {
    DropEmpty(Split(s, sep))
  }

  lemma DropEmptyCons(x: string, rest: seq<string>)
    ensures DropEmpty([x] + rest) == (if x == "" then [] else [x]) + DropEmpty(rest)
  {
    assert ([x] + rest)[1..] == rest;
  }

  /** Separators at the start of a line produce no token. */
  lemma {:induction false} SkipLeadingSeparators(n: nat, rest: string, sep: char)
    ensures SplitSkipEmpty(Repeat(sep, n) + rest, sep) == SplitSkipEmpty(rest, sep)
    decreases n
  {
    if n > 0 {
      var tail := Repeat(sep, n - 1) + rest;
      assert Repeat(sep, n) == [sep] + Repeat(sep, n - 1);
      assert Repeat(sep, n) + rest == [] + [sep] + tail;
      SplitAfterSeparator([], tail, sep);
      assert Split(Repeat(sep, n) + rest, sep) == [""] + Split(tail, sep);
      DropEmptyCons("", Split(tail, sep));
      assert SplitSkipEmpty(Repeat(sep, n) + rest, sep) == SplitSkipEmpty(tail, sep);
      SkipLeadingSeparators(n - 1, rest, sep);
    } else {
      assert Repeat(sep, n) + rest == rest;
    }
  }

  /** A separator-free word followed by a separator is the first token. */
  lemma WordThenSeparator(word: string, rest: string, sep: char)
    requires word != "" && sep !in word
    ensures SplitSkipEmpty(word + [sep] + rest, sep) == [word] + SplitSkipEmpty(rest, sep)
  {
    SplitAfterSeparator(word, rest, sep);
    DropEmptyCons(word, Split(rest, sep));
  }

  /** A non-empty separator-free string is a single token. */
  lemma SingleWord(word: string, sep: char)
    requires word != "" && sep !in word
    ensures SplitSkipEmpty(word, sep) == [word]
  {
    SplitNoSeparator(word, sep);
    DropEmptyCons(word, []);
  }

  /** The first token of a line sits after a run of separators. */
  lemma {:induction false} LeadingToken(s: string, sep: char) returns (j: nat)
    requires |SplitSkipEmpty(s, sep)| >= 1
    ensures j + |SplitSkipEmpty(s, sep)[0]| <= |s|
    ensures forall k :: 0 <= k < j ==> s[k] == sep
    ensures s[j..j + |SplitSkipEmpty(s, sep)[0]|] == SplitSkipEmpty(s, sep)[0]
    decreases |s|
  {
    var i := IndexOf(s, sep);
    if i < 0 {
      DropEmptyCons(s, []);
      j := 0;
    } else if i == 0 {
      SeparatorFirst(s, sep);
      var j' := LeadingToken(s[1..], sep);
      j := j' + 1;
      var t := SplitSkipEmpty(s, sep)[0];
      assert s[j..j + |t|] == s[1..][j'..j' + |t|];
    } else {
      WordFirst(s, i, sep);
      j := 0;
    }
  }

  /** A leading separator produces no token. */
  lemma SeparatorFirst(s: string, sep: char)
    requires s != [] && s[0] == sep
    ensures SplitSkipEmpty(s, sep) == SplitSkipEmpty(s[1..], sep)
  {
    assert s == Repeat(sep, 1) + s[1..];
    SkipLeadingSeparators(1, s[1..], sep);
  }

  /** The text before the first separator, when there is some, is the first token. */
  lemma WordFirst(s: string, i: nat, sep: char)
    requires 0 < i < |s| && i == IndexOf(s, sep)
    ensures SplitSkipEmpty(s, sep) == [s[..i]] + SplitSkipEmpty(s[i + 1..], sep)
  {
    assert s == s[..i] + [sep] + s[i + 1..];
    WordThenSeparator(s[..i], s[i + 1..], sep);
  }

  // ---------------------------------------------------------------------------
  // What the tokens are: the line with its separators removed.

  function Concat(parts: seq<string>): string
    decreases |parts|
  {
    if parts == [] then "" else parts[0] + Concat(parts[1..])
  }

  function Remove(s: string, c: char): (r: string)
    ensures c !in r
    decreases |s|
  {
    if s == "" then "" else (if s[0] == c then "" else [s[0]]) + Remove(s[1..], c)
  }

  lemma {:induction false} RemoveAppend(a: string, b: string, c: char)
    ensures Remove(a + b, c) == Remove(a, c) + Remove(b, c)
    decreases |a|
  {
    if a != "" {
      assert (a + b)[0] == a[0] && (a + b)[1..] == a[1..] + b;
      RemoveAppend(a[1..], b, c);
    } else {
      assert a + b == b;
    }
  }

  lemma {:induction false} RemoveAbsent(a: string, c: char)
    requires c !in a
    ensures Remove(a, c) == a
    decreases |a|
  {
    if a != "" {
      RemoveAbsent(a[1..], c);
      assert a == [a[0]] + a[1..];
    }
  }

  lemma {:induction false} ConcatDropEmpty(parts: seq<string>)
    ensures Concat(DropEmpty(parts)) == Concat(parts)
    decreases |parts|
  {
    if parts != [] {
      ConcatDropEmpty(parts[1..]);
      if parts[0] != "" {
        var d := [parts[0]] + DropEmpty(parts[1..]);
        assert DropEmpty(parts) == d;
        assert d[1..] == DropEmpty(parts[1..]);
      } else {
        assert DropEmpty(parts) == DropEmpty(parts[1..]);
        assert Concat(parts) == "" + Concat(parts[1..]);
      }
    }
  }

  lemma {:induction false} RemoveAroundSeparator(s: string, i: nat, sep: char)
    requires i < |s| && s[i] == sep && sep !in s[..i]
    ensures Remove(s, sep) == s[..i] + Remove(s[i + 1..], sep)
  {
    var tail := [sep] + s[i + 1..];
    assert s == s[..i] + tail;
    RemoveAppend(s[..i], tail, sep);
    RemoveAbsent(s[..i], sep);
    assert Remove(s, sep) == s[..i] + Remove(tail, sep);
    RemoveAppend([sep], s[i + 1..], sep);
    assert Remove([sep], sep) == "";
    assert Remove(tail, sep) == Remove(s[i + 1..], sep);
  }

  lemma {:induction false} ConcatSplit(s: string, sep: char)
    ensures Concat(Split(s, sep)) == Remove(s, sep)
    decreases |s|
  {
    var i := IndexOf(s, sep);
    if i < 0 {
      RemoveAbsent(s, sep);
      assert Concat([s]) == s + Concat([]);
    } else {
      var parts := Split(s, sep);
      assert parts[1..] == Split(s[i + 1..], sep);
      assert Concat(parts) == s[..i] + Concat(Split(s[i + 1..], sep));
      ConcatSplit(s[i + 1..], sep);
      RemoveAroundSeparator(s, i, sep);
    }
  }

  /** Skipping empty parts loses nothing but the separators: the tokens, put
      together, are the line with every separator removed. */
  lemma {:induction false} TokensAreTheLineWithoutSeparators(s: string, sep: char)
    ensures Concat(SplitSkipEmpty(s, sep)) == Remove(s, sep)
  {
    ConcatDropEmpty(Split(s, sep));
    ConcatSplit(s, sep);
  }

  // ---------------------------------------------------------------------------
  // QString::toInt() in base 10: surrounding white space is ignored, one sign
  // is allowed, and anything else, or a value outside a 32-bit int, gives 0.

  const MinInt: int := -0x8000_0000
  const MaxInt: int := 0x7fff_ffff

  function TrimStart(s: string): string
    decreases |s|
  {
    if |s| > 0 && IsSpace(s[0]) then TrimStart(s[1..]) else s
  }

  function TrimEnd(s: string): string
    decreases |s|
  {
    if |s| > 0 && IsSpace(s[|s| - 1]) then TrimEnd(s[..|s| - 1]) else s
  }

  predicate IsDigit(c: char) {
    '0' <= c <= '9'
  }

  predicate AllDigits(s: string) {
    forall k :: 0 <= k < |s| ==> IsDigit(s[k])
  }

  function DigitsValue(s: string): nat
    requires AllDigits(s)
    decreases |s|
  {
    if s == "" then 0 else DigitsValue(s[..|s| - 1]) * 10 + (s[|s| - 1] as int - '0' as int)
  }

  /** The integer a string spells, if it spells one. */
  function ParseInteger(s: string): Option<int> {
    var t := TrimEnd(TrimStart(s));
    if |t| > 0 && (t[0] == '+' || t[0] == '-') then
      var d := t[1..];
      if d != "" && AllDigits(d) then
        var v: int := DigitsValue(d);
        Some(if t[0] == '-' then -v else v)
      else None
    else if t != "" && AllDigits(t) then Some(DigitsValue(t))
    else None
  }

  function ToInt(s: string): (r: int)
    ensures MinInt <= r <= MaxInt
    ensures r != 0 ==> ParseInteger(s) == Some(r)
    ensures (ParseInteger(s).Some? && MinInt <= ParseInteger(s).value <= MaxInt) ==> ParseInteger(s) == Some(r)
  {
    match ParseInteger(s)
    case Some(v) => if MinInt <= v <= MaxInt then v else 0
    case None => 0
  }

  /** The decimal notation of a natural number, as QString::number writes it. */
  function DecimalString(n: nat): (r: string)
    decreases n
  {
    if n < 10 then [('0' as int + n) as char]
    else DecimalString(n / 10) + [('0' as int + n % 10) as char]
  }

  lemma {:induction false} DecimalStringDigits(n: nat)
    ensures DecimalString(n) != "" && AllDigits(DecimalString(n))
    ensures DigitsValue(DecimalString(n)) == n
    decreases n
  {
    if n >= 10 {
      DecimalStringDigits(n / 10);
      var s := DecimalString(n);
      assert s[..|s| - 1] == DecimalString(n / 10);
    }
  }

  /** toInt reads back every number that fits in a 32-bit int. */
  lemma {:induction false} ToIntDecimal(n: nat)
    requires n <= MaxInt
    ensures ToInt(DecimalString(n)) == n
  {
    DecimalStringDigits(n);
    var s := DecimalString(n);
    assert TrimStart(s) == s;
    assert TrimEnd(s) == s;
  }
}
