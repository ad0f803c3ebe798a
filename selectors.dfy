/**
 * Derived views over the editor's UI state (browser/src/UI/Selectors.ts):
 * completion popup visibility, the listed buffers, the active window, and the
 * errors and hover information that belong to the cursor position. Each
 * selector is a pure function of the state; memoisation is not modelled.
 */
module Selectors {
  import opened Wrappers
  import opened LanguageTypes

  datatype CompletionEntry = CompletionEntry(labelText: string, insertText: Option<string>)

  /** An absent entry list reads the same as an empty one. */
  datatype AutoCompletionState = AutoCompletionState(base: string, entries: seq<CompletionEntry>, selectedIndex: int)

  datatype Buffer = Buffer(id: int, file: string, hidden: bool, listed: bool)

  datatype BufferState = BufferState(allIds: seq<int>, byId: map<int, Buffer>)

  datatype Rectangle = Rectangle(x: int, y: int, width: int, height: int)

  /** `file` is the empty string when the window shows no file. */
  datatype Window = Window(file: string, line: int, column: int, dimensions: Option<Rectangle>)

  datatype WindowState = WindowState(activeWindow: Option<int>, windows: map<int, Window>)

  datatype QuickInfo = QuickInfo(title: string, description: string)

  datatype QuickInfoState = QuickInfoState(filePath: string, line: int, column: int, data: QuickInfo)

  /** The error lists reported for one file, one per reporting source, in the order the sources were added. */
  type ErrorsByKey = seq<(string, seq<Diagnostic>)>

  datatype State = State(
    autoCompletion: Option<AutoCompletionState>,
    buffers: BufferState,
    windowState: WindowState,
    errors: map<string, ErrorsByKey>,
    quickInfo: Option<QuickInfoState>)

  const EmptyRectangle: Rectangle := Rectangle(0, 0, 0, 0)

  // ---------------------------------------------------------------- completions

  function EntryCount(state: State): nat {
    if state.autoCompletion.None? then 0 else |state.autoCompletion.value.entries|
  }

  /** The text an entry inserts: its insert text when that is non-empty, its label otherwise. */
  function EntryText(entry: CompletionEntry): string {
    if entry.insertText.Some? && entry.insertText.value != "" then entry.insertText.value else entry.labelText
  }

  /** The selected index must point into the entry list (the source reads past it otherwise). */
  predicate SelectionInRange(state: State) {
    state.autoCompletion.Some? ==>
      0 <= state.autoCompletion.value.selectedIndex < |state.autoCompletion.value.entries|
  }

  function GetSelectedCompletion(state: State): (r: Option<string>)
    requires SelectionInRange(state)
    ensures r.None? <==> state.autoCompletion.None?
    ensures r.Some? ==>
              var ac := state.autoCompletion.value;
              var entry := ac.entries[ac.selectedIndex];
              (r.value == entry.labelText && (entry.insertText.None? || entry.insertText.value == "")) ||
              (entry.insertText == Some(r.value) && r.value != "")
  {
    match state.autoCompletion
    case None => None
    case Some(ac) =>
      var completion := ac.entries[ac.selectedIndex];
      if completion.insertText.Some? && completion.insertText.value != "" then Some(completion.insertText.value)
      else Some(completion.labelText)
  }

  function AreCompletionsVisible(state: State): (r: bool)
    // With a single entry the source reads the selected entry, which must then be that entry.
    requires EntryCount(state) == 1 ==> SelectionInRange(state)
    ensures EntryCount(state) == 0 ==> !r
    ensures EntryCount(state) > 1 ==> r
    ensures EntryCount(state) == 1 ==> (r <==> Some(state.autoCompletion.value.base) != GetSelectedCompletion(state))
    ensures EntryCount(state) == 1 ==>
              (r <==> state.autoCompletion.value.base != EntryText(state.autoCompletion.value.entries[0]))
  {
    var entryCount := EntryCount(state);
    if entryCount == 0 then false
    else if entryCount > 1 then true
    else state.autoCompletion.Some? && Some(state.autoCompletion.value.base) != GetSelectedCompletion(state)
  }

  // ---------------------------------------------------------------- buffers

  predicate IsVisible(buffer: Buffer) {
    !buffer.hidden && buffer.listed
  }

  /** Every id in the id list names a buffer (the source fails on a dangling id). */
  predicate IdsResolve(ids: seq<int>, byId: map<int, Buffer>) {
    forall id :: id in ids ==> id in byId
  }

  /** The buffers named by `ids`, in that order, that are listed and not hidden. */
  function VisibleBuffers(ids: seq<int>, byId: map<int, Buffer>): (r: seq<Buffer>)
    requires IdsResolve(ids, byId)
    ensures |r| <= |ids|
    ensures forall b :: b in r <==> IsVisible(b) && exists id :: id in ids && byId[id] == b
    decreases |ids|
  {
    if ids == [] then []
    else
      var first := ids[0];
      assert first in ids;
      assert first in byId;
      var buffer := byId[first];
      var rest := VisibleBuffers(ids[1..], byId);
      assert forall id :: id in ids <==> id == ids[0] || id in ids[1..];
      if IsVisible(buffer) then [buffer] + rest else rest
  }

  /** Filtering visible buffers distributes over concatenation of the id list: the order of ids is kept. */
  lemma {:induction false} VisibleBuffersAppend(a: seq<int>, b: seq<int>, byId: map<int, Buffer>)
    requires IdsResolve(a, byId) && IdsResolve(b, byId)
    ensures IdsResolve(a + b, byId)
    ensures VisibleBuffers(a + b, byId) == VisibleBuffers(a, byId) + VisibleBuffers(b, byId)
    decreases |a|
  {
    if a == [] {
      assert a + b == b;
    } else {
      assert (a + b)[1..] == a[1..] + b;
      VisibleBuffersAppend(a[1..], b, byId);
    }
  }

  function GetAllBuffers(buffers: BufferState): (r: seq<Buffer>)
    requires IdsResolve(buffers.allIds, buffers.byId)
    ensures |r| <= |buffers.allIds|
    ensures forall b :: b in r <==> IsVisible(b) && exists id :: id in buffers.allIds && buffers.byId[id] == b
  {
    VisibleBuffers(buffers.allIds, buffers.byId)
  }

  /** The buffers of `buffers` showing `fileName`, in order. */
  function BuffersForFile(buffers: seq<Buffer>, fileName: string): (r: seq<Buffer>)
    ensures forall b :: b in r <==> b in buffers && b.file == fileName
    ensures r != [] ==>
              exists i :: 0 <= i < |buffers| && buffers[i] == r[0] && forall j :: 0 <= j < i ==> buffers[j].file != fileName
    decreases |buffers|
  {
    if buffers == [] then []
    else
      var rest := BuffersForFile(buffers[1..], fileName);
      if buffers[0].file == fileName then
        [buffers[0]] + rest
      else
        assert rest != [] ==> exists i :: 0 <= i < |buffers| && buffers[i] == rest[0] && forall j :: 0 <= j < i ==> buffers[j].file != fileName by {
          if rest != [] {
            var i :| 0 <= i < |buffers[1..]| && buffers[1..][i] == rest[0] && forall j :: 0 <= j < i ==> buffers[1..][j].file != fileName;
            assert buffers[i + 1] == rest[0];
            forall j | 0 <= j < i + 1 ensures buffers[j].file != fileName {
              if j > 0 { assert buffers[j] == buffers[1..][j - 1]; }
            }
          }
        }
        rest
  }

  function GetBufferByFilename(fileName: string, buffers: BufferState): (r: Option<Buffer>)
    requires IdsResolve(buffers.allIds, buffers.byId)
    ensures r.None? <==> forall b :: b in GetAllBuffers(buffers) ==> b.file != fileName
    ensures r.Some? ==>
              var all := GetAllBuffers(buffers);
              r.value.file == fileName &&
              exists i :: 0 <= i < |all| && all[i] == r.value && forall j :: 0 <= j < i ==> all[j].file != fileName
  {
    var matchingBuffers := BuffersForFile(GetAllBuffers(buffers), fileName);
    if |matchingBuffers| > 0 then Some(matchingBuffers[0]) else None
  }

  // ---------------------------------------------------------------- errors

  /** The total number of diagnostics over all sources. */
  function TotalCount(lists: ErrorsByKey): nat
    decreases |lists|
  {
    if lists == [] then 0 else |lists[0].1| + TotalCount(lists[1..])
  }

  /** The lists concatenated in source order. */
  function Flatten(lists: ErrorsByKey): (r: seq<Diagnostic>)
    ensures |r| == TotalCount(lists)
    ensures forall d :: d in r <==> exists source :: source in lists && d in source.1
    decreases |lists|
  {
    if lists == [] then []
    else
      var rest := Flatten(lists[1..]);
      assert forall source :: source in lists <==> source == lists[0] || source in lists[1..];
      lists[0].1 + rest
  }

  /** Flattening keeps the order of the sources: it distributes over concatenation. */
  lemma {:induction false} FlattenAppend(a: ErrorsByKey, b: ErrorsByKey)
    ensures Flatten(a + b) == Flatten(a) + Flatten(b)
    decreases |a|
  {
    if a == [] {
      assert a + b == b;
    } else {
      assert (a + b)[1..] == a[1..] + b;
      FlattenAppend(a[1..], b);
    }
  }

  /** One source contributes its own list, unchanged: same order, same repetitions. */
  lemma FlattenSingleton(source: (string, seq<Diagnostic>))
    ensures Flatten([source]) == source.1
  {
  }

  function GetAllErrorsForFile(fileName: string, errors: map<string, ErrorsByKey>): (r: seq<Diagnostic>)
    ensures fileName == "" || fileName !in errors ==> r == []
    ensures fileName != "" && fileName in errors ==>
              r == Flatten(errors[fileName]) &&
              |r| == TotalCount(errors[fileName]) &&
              forall d :: d in r <==> exists source :: source in errors[fileName] && d in source.1
  {
    if fileName == "" then []
    else if fileName !in errors then []
    else Flatten(errors[fileName])
  }

  /** Two sources reporting for one file: the first source's list, then the second's, each as reported. */
  lemma TwoSourcesFlattenInOrder(xs: seq<Diagnostic>, ys: seq<Diagnostic>)
    ensures GetAllErrorsForFile("/a.ts", map["/a.ts" := [("tsserver", xs), ("linter", ys)]]) == xs + ys
  {
    var lists: ErrorsByKey := [("tsserver", xs), ("linter", ys)];
    FlattenAppend([lists[0]], [lists[1]]);
    FlattenSingleton(lists[0]);
    FlattenSingleton(lists[1]);
    assert lists == [lists[0]] + [lists[1]];
  }

  // ---------------------------------------------------------------- windows

  function GetActiveWindow(state: State): (r: Option<Window>)
    ensures state.windowState.activeWindow.None? ==> r.None?
    ensures r.Some? ==>
              state.windowState.activeWindow.Some? &&
              state.windowState.activeWindow.value in state.windowState.windows &&
              r.value == state.windowState.windows[state.windowState.activeWindow.value]
    ensures state.windowState.activeWindow.Some? && state.windowState.activeWindow.value in state.windowState.windows ==> r.Some?
  {
    match state.windowState.activeWindow
    case None => None
    case Some(id) =>
      // An id with no window reads as `undefined`, which callers treat like `null`.
      if id in state.windowState.windows then Some(state.windowState.windows[id]) else None
  }

  function GetQuickInfo(state: State): (r: Option<QuickInfo>)
    ensures r.Some? <==>
              GetActiveWindow(state).Some? && state.quickInfo.Some? &&
              state.quickInfo.value.filePath == GetActiveWindow(state).value.file &&
              state.quickInfo.value.line == GetActiveWindow(state).value.line &&
              state.quickInfo.value.column == GetActiveWindow(state).value.column
    ensures r.Some? ==> r.value == state.quickInfo.value.data
  {
    var win := GetActiveWindow(state);
    if win.None? then None
    else if state.quickInfo.None? then None
    else
      var quickInfo := state.quickInfo.value;
      if quickInfo.filePath != win.value.file || quickInfo.line != win.value.line || quickInfo.column != win.value.column then None
      else Some(quickInfo.data)
  }

  function GetActiveWindowScreenDimensions(state: State): (r: Rectangle)
    ensures GetActiveWindow(state).None? ==> r == EmptyRectangle
    ensures GetActiveWindow(state).Some? && GetActiveWindow(state).value.dimensions.None? ==> r == EmptyRectangle
    ensures GetActiveWindow(state).Some? && GetActiveWindow(state).value.dimensions.Some? ==>
              r == GetActiveWindow(state).value.dimensions.value
  {
    var win := GetActiveWindow(state);
    if win.None? || win.value.dimensions.None? then EmptyRectangle else win.value.dimensions.value
  }

  function GetErrorsForActiveFile(state: State): (r: seq<Diagnostic>)
    ensures GetActiveWindow(state).None? ==> r == []
    ensures GetActiveWindow(state).Some? && GetActiveWindow(state).value.file == "" ==> r == []
    ensures GetActiveWindow(state).Some? && GetActiveWindow(state).value.file !in state.errors ==> r == []
    ensures GetActiveWindow(state).Some? ==> r == GetAllErrorsForFile(GetActiveWindow(state).value.file, state.errors)
  {
    var win := GetActiveWindow(state);
    if win.Some? && win.value.file != "" then GetAllErrorsForFile(win.value.file, state.errors) else []
  }

  /** The diagnostics of `errors`, in order, whose range contains the zero-based position (line, column). */
  function ErrorsInRange(errors: seq<Diagnostic>, line: int, column: int, isInRange: (int, int, Range) -> bool): (r: seq<Diagnostic>)
    ensures |r| <= |errors|
    ensures forall d :: d in r <==> d in errors && isInRange(line, column, d.range)
    decreases |errors|
  {
    if errors == [] then []
    else
      var rest := ErrorsInRange(errors[1..], line, column, isInRange);
      if isInRange(line, column, errors[0].range) then [errors[0]] + rest else rest
  }

  /** Filtering by position keeps the order of the diagnostics: it distributes over concatenation. */
  lemma {:induction false} ErrorsInRangeAppend(a: seq<Diagnostic>, b: seq<Diagnostic>, line: int, column: int, isInRange: (int, int, Range) -> bool)
    ensures ErrorsInRange(a + b, line, column, isInRange) == ErrorsInRange(a, line, column, isInRange) + ErrorsInRange(b, line, column, isInRange)
    decreases |a|
  {
    if a == [] {
      assert a + b == b;
    } else {
      assert (a + b)[1..] == a[1..] + b;
      ErrorsInRangeAppend(a[1..], b, line, column, isInRange);
    }
  }

  /**
   * The errors of the active file whose range holds the cursor. Windows count
   * lines and columns from one, ranges from zero. `isInRange` stands for the
   * editor's range test, whose definition is not part of this model.
   */
  function GetErrorsForPosition(state: State, isInRange: (int, int, Range) -> bool): (r: seq<Diagnostic>)
    ensures GetActiveWindow(state).None? ==> r == []
    ensures |r| <= |GetErrorsForActiveFile(state)|
    ensures GetActiveWindow(state).Some? ==>
              var win := GetActiveWindow(state).value;
              forall d :: d in r <==> d in GetErrorsForActiveFile(state) && isInRange(win.line - 1, win.column - 1, d.range)
  {
    var win := GetActiveWindow(state);
    if win.None? then []
    else ErrorsInRange(GetErrorsForActiveFile(state), win.value.line - 1, win.value.column - 1, isInRange)
  }
}
