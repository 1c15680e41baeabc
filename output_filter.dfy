/** CargoFilterStrategy: the classifier that turns each line cargo and rustc print
    into a typed output item, remembering the last file named by a `-->` line and
    the type it gave the previous line. */
module OutputFilter {
  import opened Wrappers
  import opened QtText

  /** FilteredItem::FilteredOutputItemType. */
  datatype ItemType = InvalidItem | ErrorItem | WarningItem | ActionItem | CustomItem | StandardItem | InformationItem

  /** The five types the classifier itself assigns. */
  predicate IsAssigned(t: ItemType) {
    t in {ErrorItem, WarningItem, ActionItem, StandardItem, InformationItem}
  }

  /** Path(buildDir, file).toUrl(): a file name resolved against the build directory. */
  datatype FileUrl = FileUrl(buildDir: string, file: string)

  /** FilteredItem. `None` in lineNo, columnNo or url: the classifier did not assign it. */
  datatype FilteredItem = FilteredItem(
    originalLine: string,
    itemType: ItemType,
    isActivatable: bool,
    url: Option<FileUrl>,
    lineNo: Option<int>,
    columnNo: Option<int>)

  /** The classifier's fields: the build directory it was made for, the file of the
      last `-->` line and the type of the previous line. */
  datatype FilterState = FilterState(buildDir: string, currentFile: string, currentItemType: ItemType)

  // ---------------------------------------------------------------------------
  // The shapes of line the classifier tells apart, in its order of priority.

  predicate IsErrorHeader(line: string) {
    StartsWith(line, "error:") || StartsWith(line, "error[")
  }

  predicate IsWarningHeader(line: string) {
    StartsWith(line, "warning:") || StartsWith(line, "warning[")
  }

  /** Exactly three spaces before Compiling and four before Finished. */
  predicate IsActionLine(line: string) {
    StartsWith(line, "   Compiling") || StartsWith(line, "    Finished")
  }

  predicate Unprefixed(line: string) {
    !IsErrorHeader(line) && !IsWarningHeader(line) && !IsActionLine(line)
  }

  /** The line split on the space character, empty parts dropped. */
  function Tokens(line: string): seq<string> {
    SplitSkipEmpty(line, ' ')
  }

  /** `--> file:line:column` */
  predicate IsLocationLine(line: string) {
    Unprefixed(line) && |Tokens(line)| > 1 && Tokens(line)[0] == "-->"
  }

  /** `|` or `= note: ...` */
  predicate IsNoteLine(line: string) {
    Unprefixed(line) && !IsLocationLine(line)
    && |Tokens(line)| >= 1 && (Tokens(line)[0] == "|" || Tokens(line)[0] == "=")
  }

  /** `<number> | <source text>` */
  predicate IsContextLine(line: string) {
    Unprefixed(line) && !IsLocationLine(line) && !IsNoteLine(line)
    && |Tokens(line)| >= 2 && Tokens(line)[1] == "|"
  }

  // ---------------------------------------------------------------------------
  // The column of a source-context line.

  /** The first index at or after `i` that holds a non-space character, or |line|. */
  function FirstNonSpaceFrom(line: string, i: nat): (j: nat)
    ensures j <= |line|
    ensures j == |line| || (i <= j && !IsSpace(line[j]))
    ensures forall k :: i <= k < j ==> IsSpace(line[k])
    decreases |line| - i
  {
    if i >= |line| then |line|
    else if !IsSpace(line[i]) then i
    else FirstNonSpaceFrom(line, i + 1)
  }

  /** The offset from `idx` of the first non-space character at or after `idx`;
      0 when there is none. */
  function ContextColumn(line: string, idx: nat): (c: int)
    ensures 0 <= c
    ensures c != 0 ==> c < |line| - idx && !IsSpace(line[idx + c])
                       && forall k :: idx <= k < idx + c ==> IsSpace(line[k])
    ensures c == 0 ==> (idx < |line| && !IsSpace(line[idx]))
                       || forall k :: idx <= k < |line| ==> IsSpace(line[k])
  {
    var j := FirstNonSpaceFrom(line, idx);
    if j < |line| then j - idx else 0
  }

  // ---------------------------------------------------------------------------
  // One call of errorInLine, as a function of the line and the fields before it.

  function Typed(line: string, st: FilterState, t: ItemType): (FilteredItem, FilterState) {
    (FilteredItem(line, t, false, None, None, None), st.(currentItemType := t))
  }

  function Classify(line: string, st: FilterState): (FilteredItem, FilterState) {
    if IsErrorHeader(line) then Typed(line, st, ErrorItem)
    else if IsWarningHeader(line) then Typed(line, st, WarningItem)
    else if IsActionLine(line) then Typed(line, st, ActionItem)
    else
      var elements := Tokens(line);
      if |elements| > 1 && elements[0] == "-->" then
        var location := Split(elements[1], ':');
        var file := location[0];
        var item := FilteredItem(
          line, st.currentItemType, true, Some(FileUrl(st.buildDir, file)),
          if |location| > 1 then Some(ToInt(location[1]) - 1) else None,
          if |location| > 2 then Some(ToInt(location[2]) - 1) else None);
        (item, FilterState(st.buildDir, file, item.itemType))
      else if |elements| >= 1 && (elements[0] == "|" || elements[0] == "=") then
        Typed(line, st, InformationItem)
      else if |elements| >= 2 && elements[1] == "|" then
        var idx := |elements[0]| + 3;
        var item := FilteredItem(
          line, InformationItem, true, Some(FileUrl(st.buildDir, st.currentFile)),
          Some(ToInt(elements[0]) - 1), Some(ContextColumn(line, idx)));
        (item, st.(currentItemType := InformationItem))
      else
        Typed(line, st, StandardItem)
  }

  /** The items for a stream of lines, each classified with the state the previous left. */
  function ClassifyAll(lines: seq<string>, st: FilterState): (seq<FilteredItem>, FilterState)
    decreases |lines|
  {
    if lines == [] then ([], st)
    else
      var first := Classify(lines[0], st);
      var rest := ClassifyAll(lines[1..], first.1);
      ([first.0] + rest.0, rest.1)
  }

  // ---------------------------------------------------------------------------
  // The classifier object.

  class CargoFilterStrategy {
    const buildDir: string
    var currentFile: string
    var currentItemType: ItemType

    function State(): FilterState
      reads this
    {
      FilterState(buildDir, currentFile, currentItemType)
    }

    /** The source leaves currentItemType uninitialised; `initialType` stands for
        whatever value it happens to hold. */
    constructor (buildDir: string, initialType: ItemType)
      ensures State() == FilterState(buildDir, "", initialType)
    {
      this.buildDir := buildDir;
      currentFile := "";
      currentItemType := initialType;
    }

    method ErrorInLine(line: string) returns (item: FilteredItem)
      modifies this
      ensures (item, State()) == Classify(line, old(State()))
    {
      if IsErrorHeader(line) {
        item := FilteredItem(line, ErrorItem, false, None, None, None);
      } else if IsWarningHeader(line) {
        item := FilteredItem(line, WarningItem, false, None, None, None);
      } else if IsActionLine(line) {
        item := FilteredItem(line, ActionItem, false, None, None, None);
      } else {
        var elements := Tokens(line);
        if |elements| > 1 && elements[0] == "-->" {
          item := FilteredItem(line, currentItemType, false, None, None, None);
          var location := Split(elements[1], ':');
          currentFile := location[0];
          item := item.(isActivatable := true, url := Some(FileUrl(buildDir, currentFile)));
          if |location| > 1 {
            item := item.(lineNo := Some(ToInt(location[1]) - 1));
          }
          if |location| > 2 {
            item := item.(columnNo := Some(ToInt(location[2]) - 1));
          }
        } else if |elements| >= 1 && (elements[0] == "|" || elements[0] == "=") {
          item := FilteredItem(line, InformationItem, false, None, None, None);
        } else if |elements| >= 2 && elements[1] == "|" {
          item := FilteredItem(line, InformationItem, true, Some(FileUrl(buildDir, currentFile)),
                               Some(ToInt(elements[0]) - 1), None);
          var idx := |elements[0]| + 3;
          var length := |line|;
          var column := 0;
          var i := idx;
          while i < length
            invariant idx <= i
            invariant column == 0
            invariant FirstNonSpaceFrom(line, i) == FirstNonSpaceFrom(line, idx)
            decreases length - i
          {
            if !IsSpace(line[i]) {
              column := i - idx;
              break;
            }
            i := i + 1;
          }
          assert column == ContextColumn(line, idx);
          item := item.(columnNo := Some(column));
        } else {
          item := FilteredItem(line, StandardItem, false, None, None, None);
        }
      }
      currentItemType := item.itemType;
    }

    /** actionInLine: every line is handed back unclassified. */
    method ActionInLine(line: string) returns (item: FilteredItem)
      ensures item == FilteredItem(line, InvalidItem, false, None, None, None)
    {
      item := FilteredItem(line, InvalidItem, false, None, None, None);
    }
  }
}
