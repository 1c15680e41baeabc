/** What errorInLine promises about each kind of line, about the state it keeps,
    and about a stream of lines. */
module OutputFilterProperties {
  import opened Wrappers
  import opened QtText
  import opened OutputFilter

  /** Error, warning and progress lines are typed by their prefix alone, in that
      order of priority, whatever the state; they locate nothing and leave the file. */
  lemma PrefixedLines(line: string, st: FilterState)
    ensures var (item, st') := Classify(line, st);
      && (IsErrorHeader(line) ==> item.itemType == ErrorItem)
      && (!IsErrorHeader(line) && IsWarningHeader(line) ==> item.itemType == WarningItem)
      && (!IsErrorHeader(line) && !IsWarningHeader(line) && IsActionLine(line) ==> item.itemType == ActionItem)
      && (!Unprefixed(line) ==> !item.isActivatable && item.url == None && item.lineNo == None
                                && item.columnNo == None && st'.currentFile == st.currentFile)
  {
  }

  /** A line whose first token does not begin like one of the prefixes cannot carry one. */
  lemma UnprefixedByLeadingToken(line: string)
    requires |Tokens(line)| >= 1
    requires Tokens(line)[0][0] !in {'e', 'w', 'C', 'F'}
    ensures Unprefixed(line)
  {
    var t := Tokens(line)[0];
    var j := LeadingToken(line, ' ');
    assert line[j] == t[0] && t[0] != ' ';
    assert line[0] == ' ' || line[0] == t[0];
    NotStartsWithAt(line, "error:", 0);
    NotStartsWithAt(line, "error[", 0);
    NotStartsWithAt(line, "warning:", 0);
    NotStartsWithAt(line, "warning[", 0);
    var m3, m4 := if j < 3 then j else 3, if j < 4 then j else 4;
    NotStartsWithAt(line, "   Compiling", m3);
    NotStartsWithAt(line, "    Finished", m4);
  }

  lemma NotStartsWithAt(s: string, p: string, k: nat)
    requires k < |s| && k < |p| && s[k] != p[k]
    ensures !StartsWith(s, p)
  {
    assert |p| <= |s| ==> s[..|p|][k] == s[k];
  }

  /** A `-->` line takes the previous line's type, records the text before the
      first ':' as the current file and locates the item there, with 1-based line
      and column turned 0-based where the fields exist. */
  lemma {:induction false} LocationLine(line: string, st: FilterState)
    requires |Tokens(line)| > 1 && Tokens(line)[0] == "-->"
    ensures IsLocationLine(line)
    ensures var (item, st') := Classify(line, st);
            var location := Split(Tokens(line)[1], ':');
      && item.itemType == st.currentItemType
      && st'.currentItemType == st.currentItemType
      && st'.currentFile == location[0]
      && item.isActivatable && item.url == Some(FileUrl(st.buildDir, location[0]))
      && (item.lineNo.Some? <==> |location| > 1)
      && (|location| > 1 ==> item.lineNo == Some(ToInt(location[1]) - 1))
      && (item.columnNo.Some? <==> |location| > 2)
      && (|location| > 2 ==> item.columnNo == Some(ToInt(location[2]) - 1))
  {
    assert Tokens(line)[0][0] == '-';
    UnprefixedByLeadingToken(line);
  }

  /** `|` and `= note` lines are information, locate nothing and keep the file. */
  lemma {:induction false} NoteLine(line: string, st: FilterState)
    requires |Tokens(line)| >= 1 && (Tokens(line)[0] == "|" || Tokens(line)[0] == "=")
    ensures IsNoteLine(line)
    ensures var (item, st') := Classify(line, st);
      && item.itemType == InformationItem && !item.isActivatable && item.url == None
      && st' == FilterState(st.buildDir, st.currentFile, InformationItem)
  {
    assert Tokens(line)[0][0] == '|' || Tokens(line)[0][0] == '=';
    UnprefixedByLeadingToken(line);
  }

  /** A source-context line is information located in the current file, at the
      number before the bar made 0-based; its column is the offset, from the
      width of that number plus three, of the first non-space character (0 when
      there is none), so it is below the rest of the line's length when non-zero. */
  lemma {:induction false} ContextLine(line: string, st: FilterState)
    requires IsContextLine(line)
    ensures var (item, st') := Classify(line, st);
            var idx := |Tokens(line)[0]| + 3;
      && item.itemType == InformationItem && item.isActivatable
      && item.url == Some(FileUrl(st.buildDir, st.currentFile))
      && item.lineNo == Some(ToInt(Tokens(line)[0]) - 1)
      && item.columnNo.Some?
      && var c := item.columnNo.value;
      && 0 <= c
      && (c != 0 ==> c < |line| - idx && !IsSpace(line[idx + c])
                     && forall k :: idx <= k < idx + c ==> IsSpace(line[k]))
      && (c == 0 ==> (idx < |line| && !IsSpace(line[idx]))
                     || forall k :: idx <= k < |line| ==> IsSpace(line[k]))
      && st' == FilterState(st.buildDir, st.currentFile, InformationItem)
  {
    ContextLineClassified(line, st);
  }

  /** The item of a context line, with the column the scan finds. */
  lemma ContextLineClassified(line: string, st: FilterState)
    requires IsContextLine(line)
    ensures Classify(line, st) == (
      FilteredItem(line, InformationItem, true, Some(FileUrl(st.buildDir, st.currentFile)),
                   Some(ToInt(Tokens(line)[0]) - 1), Some(ContextColumn(line, |Tokens(line)[0]| + 3))),
      st.(currentItemType := InformationItem))
  {
  }

  /** Every call records the item's type and keeps the build directory; only a
      `-->` line moves the current file, and only it can carry the type it found. */
  lemma {:induction false} StateUpdate(line: string, st: FilterState)
    ensures var (item, st') := Classify(line, st);
      && item.originalLine == line
      && st'.currentItemType == item.itemType
      && st'.buildDir == st.buildDir
      && (st'.currentFile != st.currentFile ==> IsLocationLine(line))
      && (IsLocationLine(line) ==> item.itemType == st.currentItemType)
      && (!IsLocationLine(line) ==> IsAssigned(item.itemType))
  {
  }

  /** A line of no shape the classifier knows is a plain, unlocated StandardItem,
      and only the stored type changes. */
  lemma {:induction false} OtherLinesStandard(line: string, st: FilterState)
    requires Unprefixed(line) && !IsLocationLine(line) && !IsNoteLine(line) && !IsContextLine(line)
    ensures Classify(line, st) == (FilteredItem(line, StandardItem, false, None, None, None),
                                   st.(currentItemType := StandardItem))
  {
  }

  /** An item is located exactly when it is activatable, which only location and
      context lines are, and a column comes with a line number. */
  lemma {:induction false} LocatedItems(line: string, st: FilterState)
    ensures var item := Classify(line, st).0;
      && (item.isActivatable <==> item.url.Some?)
      && (item.isActivatable <==> IsLocationLine(line) || IsContextLine(line))
      && (item.columnNo.Some? ==> item.lineNo.Some?)
  {
  }

  // ---------------------------------------------------------------------------
  // rustc's own line shapes, with their numbers read back.

  /** `   --> src/main.rs:10:5` locates line 9, column 4 of src/main.rs. */
  lemma {:induction false} LocationLineNumbers(indent: nat, file: string, l: nat, c: nat, st: FilterState)
    requires ' ' !in file && ':' !in file
    requires l <= MaxInt && c <= MaxInt
    ensures var line := Spaces(indent) + "--> " + file + ":" + DecimalString(l) + ":" + DecimalString(c);
      && IsLocationLine(line)
      && Classify(line, st) == (
           FilteredItem(line, st.currentItemType, true, Some(FileUrl(st.buildDir, file)), Some(l - 1), Some(c - 1)),
           FilterState(st.buildDir, file, st.currentItemType))
  {
    var dl, dc := DecimalString(l), DecimalString(c);
    DecimalStringDigits(l);
    DecimalStringDigits(c);
    ToIntDecimal(l);
    ToIntDecimal(c);
    LocationLineOfDigits(indent, file, dl, dc, st);
    LocationLineRead(Spaces(indent) + "--> " + file + ":" + dl + ":" + dc, st, file, dl, dc, l, c);
  }

  lemma LocationLineRead(line: string, st: FilterState, file: string, dl: string, dc: string, l: int, c: int)
    requires ToInt(dl) == l && ToInt(dc) == c
    requires Classify(line, st) == (
           FilteredItem(line, st.currentItemType, true, Some(FileUrl(st.buildDir, file)),
                        Some(ToInt(dl) - 1), Some(ToInt(dc) - 1)),
           FilterState(st.buildDir, file, st.currentItemType))
    ensures Classify(line, st) == (
           FilteredItem(line, st.currentItemType, true, Some(FileUrl(st.buildDir, file)), Some(l - 1), Some(c - 1)),
           FilterState(st.buildDir, file, st.currentItemType))
  {
  }

  lemma {:induction false} LocationLineOfDigits(indent: nat, file: string, dl: string, dc: string, st: FilterState)
    requires ' ' !in file && ':' !in file && AllDigits(dl) && AllDigits(dc)
    ensures var line := Spaces(indent) + "--> " + file + ":" + dl + ":" + dc;
      && IsLocationLine(line)
      && Classify(line, st) == (
           FilteredItem(line, st.currentItemType, true, Some(FileUrl(st.buildDir, file)),
                        Some(ToInt(dl) - 1), Some(ToInt(dc) - 1)),
           FilterState(st.buildDir, file, st.currentItemType))
  {
    LocationTokens(indent, file, dl, dc);
    LocationFields(file, dl, dc);
    LocationLineOfFields(Spaces(indent) + "--> " + file + ":" + dl + ":" + dc, st, file + ":" + dl + ":" + dc, file, dl, dc);
  }

  lemma {:induction false} LocationTokens(indent: nat, file: string, dl: string, dc: string)
    requires ' ' !in file && AllDigits(dl) && AllDigits(dc)
    ensures Tokens(Spaces(indent) + "--> " + file + ":" + dl + ":" + dc) == ["-->", file + ":" + dl + ":" + dc]
  {
    var loc := file + ":" + dl + ":" + dc;
    assert ' ' !in loc;
    assert Spaces(indent) + "--> " + file + ":" + dl + ":" + dc == Spaces(indent) + ("-->" + [' '] + loc);
    SkipLeadingSeparators(indent, "-->" + [' '] + loc, ' ');
    WordThenSeparator("-->", loc, ' ');
    SingleWord(loc, ' ');
  }

  lemma {:induction false} LocationFields(file: string, dl: string, dc: string)
    requires ':' !in file && AllDigits(dl) && AllDigits(dc)
    ensures Split(file + ":" + dl + ":" + dc, ':') == [file, dl, dc]
  {
    var rest := dl + [':'] + dc;
    assert file + ":" + dl + ":" + dc == file + [':'] + rest;
    SplitAfterSeparator(file, rest, ':');
    NumberFields(dl, dc);
  }

  lemma NumberFields(dl: string, dc: string)
    requires AllDigits(dl) && AllDigits(dc)
    ensures Split(dl + [':'] + dc, ':') == [dl, dc]
  {
    assert ':' !in dl && ':' !in dc;
    SplitAfterSeparator(dl, dc, ':');
    SplitNoSeparator(dc, ':');
  }

  lemma {:induction false} LocationLineOfFields(line: string, st: FilterState, loc: string, file: string, dl: string, dc: string)
    requires Tokens(line) == ["-->", loc]
    requires Split(loc, ':') == [file, dl, dc]
    ensures IsLocationLine(line)
    ensures Classify(line, st) == (
              FilteredItem(line, st.currentItemType, true, Some(FileUrl(st.buildDir, file)),
                           Some(ToInt(dl) - 1), Some(ToInt(dc) - 1)),
              FilterState(st.buildDir, file, st.currentItemType))
  {
    LocationLine(line, st);
  }

  /** `  --> src/main.rs` locates the file but no line or column. */
  lemma {:induction false} LocationLinePathOnly(indent: nat, file: string, st: FilterState)
    requires file != "" && ' ' !in file && ':' !in file
    ensures var line := Spaces(indent) + "--> " + file;
            var (item, st') := Classify(line, st);
      && item.itemType == st.currentItemType && item.isActivatable
      && st'.currentFile == file && item.url == Some(FileUrl(st.buildDir, file))
      && item.lineNo == None && item.columnNo == None
  {
    var line := Spaces(indent) + "--> " + file;
    assert Tokens(line) == ["-->", file] by {
      assert line == Spaces(indent) + ("-->" + [' '] + file);
      SkipLeadingSeparators(indent, "-->" + [' '] + file, ' ');
      WordThenSeparator("-->", file, ' ');
      SingleWord(file, ' ');
    }
    SplitNoSeparator(file, ':');
    LocationLine(line, st);
  }

  /** `10 |     let x = 1;` locates line 9 of the current file, at the column of
      the first non-space character after `10 | `. */
  lemma {:induction false} ContextLineNumbers(n: nat, indent: nat, code: string, st: FilterState)
    requires n <= MaxInt
    requires code != "" && !IsSpace(code[0])
    ensures var line := DecimalString(n) + " | " + Spaces(indent) + code;
      && IsContextLine(line)
      && Classify(line, st) == (
           FilteredItem(line, InformationItem, true, Some(FileUrl(st.buildDir, st.currentFile)),
                        Some(n - 1), Some(indent)),
           st.(currentItemType := InformationItem))
  {
    var d := DecimalString(n);
    DecimalStringDigits(n);
    ToIntDecimal(n);
    var line := d + " | " + Spaces(indent) + code;
    assert d + Spaces(0) + " | " + Spaces(indent) + code == line;
    ContextLineOfDigits(d, 0, indent, code, st);
    ContextLineRead(line, st, d, n, indent);
  }

  /** rustc pads a short line number to the width of the longest: `9  |` where
      another line reads `10 |`. The offset then counts from the padding, and
      the column comes out one too large. */
  lemma {:induction false} PaddedContextLineColumn(n: nat, indent: nat, code: string, st: FilterState)
    requires n <= MaxInt
    requires code != "" && !IsSpace(code[0])
    ensures var line := DecimalString(n) + "  | " + Spaces(indent) + code;
      && IsContextLine(line)
      && Classify(line, st).0.lineNo == Some(n - 1)
      && Classify(line, st).0.columnNo == Some(indent + 1)
  {
    var d := DecimalString(n);
    DecimalStringDigits(n);
    ToIntDecimal(n);
    var line := d + "  | " + Spaces(indent) + code;
    assert d + Spaces(1) + " | " + Spaces(indent) + code == line;
    ContextLineOfDigits(d, 1, indent, code, st);
    ContextLineRead(line, st, d, n, indent + 1);
  }

  /** Two or more spaces of padding (`9   |` where another line reads `100 |`) put
      the bar at or after the place the scan starts: the scan stops at the bar, and
      the column is the padding minus two, whatever the code's indentation. */
  lemma {:induction false} WidePaddedContextLine(d: string, pad: nat, indent: nat, code: string, st: FilterState)
    requires pad >= 2
    requires d != "" && AllDigits(d)
    ensures var line := d + Spaces(pad) + " | " + Spaces(indent) + code;
      && IsContextLine(line)
      && Classify(line, st) == (
           FilteredItem(line, InformationItem, true, Some(FileUrl(st.buildDir, st.currentFile)),
                        Some(ToInt(d) - 1), Some(pad - 2)),
           st.(currentItemType := InformationItem))
  {
    ContextTokenList(d, pad, indent, code);
    WidePaddingCharacters(d, pad, indent, code);
    ContextLineOfFields(d + Spaces(pad) + " | " + Spaces(indent) + code, st, d, pad - 2);
  }

  lemma {:induction false} WidePaddingCharacters(d: string, pad: nat, indent: nat, code: string)
    requires pad >= 2
    ensures var line := d + Spaces(pad) + " | " + Spaces(indent) + code;
      && (forall k :: |d| + 3 <= k < |d| + 1 + pad ==> line[k] == ' ')
      && line[|d| + 1 + pad] == '|'
  {
    var line := d + Spaces(pad) + " | " + Spaces(indent) + code;
    var gap := Spaces(pad) + " | " + Spaces(indent);
    assert line == d + gap + code;
    assert forall k :: 0 <= k < pad ==> gap[k] == Spaces(pad)[k] == ' ';
    assert gap[pad + 1] == '|';
  }

  /** `<d><pad> | <indent><code>` is a context line at the number d spells, with the
      padding and the indentation as its column. */
  lemma {:induction false} ContextLineOfDigits(d: string, pad: nat, indent: nat, code: string, st: FilterState)
    requires pad <= 1
    requires d != "" && AllDigits(d)
    requires code != "" && !IsSpace(code[0])
    ensures var line := d + Spaces(pad) + " | " + Spaces(indent) + code;
      && IsContextLine(line)
      && Classify(line, st) == (
           FilteredItem(line, InformationItem, true, Some(FileUrl(st.buildDir, st.currentFile)),
                        Some(ToInt(d) - 1), Some(pad + indent)),
           st.(currentItemType := InformationItem))
  {
    ContextTokens(d, pad, indent, code);
    ContextLineOfFields(d + Spaces(pad) + " | " + Spaces(indent) + code, st, d, pad + indent);
  }

  lemma ContextLineRead(line: string, st: FilterState, d: string, n: int, column: int)
    requires ToInt(d) == n
    requires Classify(line, st) == (
           FilteredItem(line, InformationItem, true, Some(FileUrl(st.buildDir, st.currentFile)),
                        Some(ToInt(d) - 1), Some(column)),
           st.(currentItemType := InformationItem))
    ensures Classify(line, st) == (
           FilteredItem(line, InformationItem, true, Some(FileUrl(st.buildDir, st.currentFile)),
                        Some(n - 1), Some(column)),
           st.(currentItemType := InformationItem))
  {
  }

  /** The tokens and the characters after the bar of `<d><pad> | <indent><code>`. */
  lemma {:induction false} ContextTokens(d: string, pad: nat, indent: nat, code: string)
    requires pad <= 1
    requires d != "" && AllDigits(d)
    requires code != "" && !IsSpace(code[0])
    ensures var line := d + Spaces(pad) + " | " + Spaces(indent) + code;
      && |Tokens(line)| >= 2 && Tokens(line)[0] == d && Tokens(line)[1] == "|"
      && (forall k :: |d| + 3 <= k < |d| + 3 + pad + indent ==> line[k] == ' ')
      && line[|d| + 3 + pad + indent] == code[0]
  {
    ContextTokenList(d, pad, indent, code);
    ContextCharacters(d, pad, indent, code);
  }

  lemma {:induction false} ContextTokenList(d: string, pad: nat, indent: nat, code: string)
    requires d != "" && AllDigits(d)
    ensures var line := d + Spaces(pad) + " | " + Spaces(indent) + code;
      Tokens(line) == [d, "|"] + Tokens(Spaces(indent) + code)
  {
    var tail := Spaces(indent) + code;
    var line := d + Spaces(pad) + " | " + Spaces(indent) + code;
    assert ' ' !in d;
    assert line == d + [' '] + (Spaces(pad) + ("|" + [' '] + tail));
    WordThenSeparator(d, Spaces(pad) + ("|" + [' '] + tail), ' ');
    SkipLeadingSeparators(pad, "|" + [' '] + tail, ' ');
    WordThenSeparator("|", tail, ' ');
  }

  lemma {:induction false} ContextCharacters(d: string, pad: nat, indent: nat, code: string)
    requires pad <= 1
    requires code != ""
    ensures var line := d + Spaces(pad) + " | " + Spaces(indent) + code;
      && (forall k :: |d| + 3 <= k < |d| + 3 + pad + indent ==> line[k] == ' ')
      && line[|d| + 3 + pad + indent] == code[0]
  {
    var line := d + Spaces(pad) + " | " + Spaces(indent) + code;
    var gap := Spaces(pad) + " | " + Spaces(indent);
    assert line == d + gap + code;
    assert gap == Spaces(pad) + " | " + Spaces(indent);
    assert |gap| == pad + 3 + indent;
    assert forall k :: pad + 3 <= k < |gap| ==> gap[k] == Spaces(indent)[k - pad - 3] == ' ';
    assert pad == 1 ==> gap[3] == ' ';
  }

  lemma {:induction false} ContextLineOfFields(line: string, st: FilterState, d: string, column: nat)
    requires d != "" && AllDigits(d)
    requires |Tokens(line)| >= 2 && Tokens(line)[0] == d && Tokens(line)[1] == "|"
    requires |d| + 3 + column < |line| && !IsSpace(line[|d| + 3 + column])
    requires forall k :: |d| + 3 <= k < |d| + 3 + column ==> IsSpace(line[k])
    ensures IsContextLine(line)
    ensures Classify(line, st) == (
              FilteredItem(line, InformationItem, true, Some(FileUrl(st.buildDir, st.currentFile)),
                           Some(ToInt(d) - 1), Some(column)),
              st.(currentItemType := InformationItem))
  {
    assert Tokens(line)[0][0] == d[0];
    UnprefixedByLeadingToken(line);
    assert d != "-->" && d != "|" && d != "=" by {
      assert IsDigit(d[0]);
    }
    ContextColumnAt(line, |d| + 3, column);
  }

  /** The column is the offset of the first non-space character from idx. */
  lemma ContextColumnAt(line: string, idx: nat, column: nat)
    requires idx + column < |line| && !IsSpace(line[idx + column])
    requires forall k :: idx <= k < idx + column ==> IsSpace(line[k])
    ensures ContextColumn(line, idx) == column
  {
    var j := FirstNonSpaceFrom(line, idx);
    assert j == idx + column;
  }

  // ---------------------------------------------------------------------------
  // Streams of lines.

  /** Output arrives in chunks: classifying two chunks one after the other gives
      the same items as classifying them together. */
  lemma {:induction false} ClassifyInChunks(a: seq<string>, b: seq<string>, st: FilterState)
    ensures var (itemsA, stA) := ClassifyAll(a, st);
            var (itemsB, stB) := ClassifyAll(b, stA);
            ClassifyAll(a + b, st) == (itemsA + itemsB, stB)
    decreases |a|
  {
    if a == [] {
      assert a + b == b;
      assert ClassifyAll(a, st) == ([], st);
      assert [] + ClassifyAll(b, st).0 == ClassifyAll(b, st).0;
    } else {
      var first := Classify(a[0], st);
      assert (a + b)[0] == a[0] && (a + b)[1..] == a[1..] + b;
      ClassifyInChunks(a[1..], b, first.1);
      var restA := ClassifyAll(a[1..], first.1);
      assert ClassifyAll(a, st) == ([first.0] + restA.0, restA.1);
      var restAB := ClassifyAll(a[1..] + b, first.1);
      assert ClassifyAll(a + b, st) == ([first.0] + restAB.0, restAB.1);
      assert [first.0] + restA.0 + ClassifyAll(b, restA.1).0 == [first.0] + (restA.0 + ClassifyAll(b, restA.1).0);
    }
  }

  /** One item per line, each keeping its line's text. */
  lemma {:induction false} OneItemPerLine(lines: seq<string>, st: FilterState)
    ensures |ClassifyAll(lines, st).0| == |lines|
    ensures forall k :: 0 <= k < |lines| ==> ClassifyAll(lines, st).0[k].originalLine == lines[k]
    decreases |lines|
  {
    if lines != [] {
      OneItemPerLine(lines[1..], Classify(lines[0], st).1);
    }
  }

  /** The type left in the uninitialised field shows only on location lines at
      the very start of a stream: every other item has one of the five types the
      classifier assigns. */
  lemma {:induction false} UnassignedTypeOnlyAtStart(lines: seq<string>, st: FilterState)
    ensures |ClassifyAll(lines, st).0| == |lines|
    ensures forall k :: 0 <= k < |lines| && !IsAssigned(ClassifyAll(lines, st).0[k].itemType) ==>
              forall m :: 0 <= m <= k ==> IsLocationLine(lines[m])
    decreases |lines|
  {
    OneItemPerLine(lines, st);
    if lines != [] {
      var st1 := Classify(lines[0], st).1;
      StateUpdate(lines[0], st);
      if IsLocationLine(lines[0]) {
        UnassignedTypeOnlyAtStart(lines[1..], st1);
        var items := ClassifyAll(lines, st).0;
        assert items[1..] == ClassifyAll(lines[1..], st1).0;
        forall k | 1 <= k < |lines| && !IsAssigned(items[k].itemType)
          ensures forall m :: 0 <= m <= k ==> IsLocationLine(lines[m])
        {
          assert items[k] == ClassifyAll(lines[1..], st1).0[k - 1];
          assert forall m :: 0 <= m <= k - 1 ==> IsLocationLine(lines[1..][m]);
        }
      } else {
        AssignedFrom(lines[1..], st1);
      }
    }
  }

  lemma {:induction false} AssignedFrom(lines: seq<string>, st: FilterState)
    requires IsAssigned(st.currentItemType)
    ensures forall k :: 0 <= k < |ClassifyAll(lines, st).0| ==> IsAssigned(ClassifyAll(lines, st).0[k].itemType)
    ensures IsAssigned(ClassifyAll(lines, st).1.currentItemType)
    decreases |lines|
  {
    if lines != [] {
      StateUpdate(lines[0], st);
      AssignedFrom(lines[1..], Classify(lines[0], st).1);
    }
  }

  /** A `-->` line right after a diagnostic header is typed like the header. */
  lemma HeaderThenLocation(header: string, location: string, st: FilterState)
    requires |Tokens(location)| > 1 && Tokens(location)[0] == "-->"
    ensures var items := ClassifyAll([header, location], st).0;
      |items| == 2 && items[1].itemType == items[0].itemType && items[1].isActivatable
  {
    var st1 := Classify(header, st).1;
    StateUpdate(header, st);
    LocationLine(location, st1);
    assert [header, location][1..] == [location];
    assert [location][1..] == [];
    var second := Classify(location, st1);
    assert ClassifyAll([], second.1) == ([], second.1);
    assert [second.0] + [] == [second.0];
    assert ClassifyAll([location], st1) == ([second.0], second.1);
    assert ClassifyAll([header, location], st).0 == [Classify(header, st).0, second.0];
  }
}
