# Plugin host core of the editor, in Dafny

This project models three pieces of the editor's host-side plugin layer and
proves what they promise.

- **Diagnostics reporter** (`DiagnosticsApi`). A plugin reports the errors of a
  file through `setErrors(key, fileName, errors)`. The reporter keeps a per-file
  "has errors" flag. It forwards a `set-errors` message unless the list is
  missing, or is empty for a file that is not flagged. The class `Diagnostics`
  holds the flags and the channel, recorded as the list of messages sent. Its
  invariant says that each flag equals what the channel last heard about that
  file, so no clear is ever sent twice in a row for one file. `Report` is the
  pure specification of one call. `ReportAll` replays a sequence of calls.
- **Plugin manager** (`PluginProtocol`, `PluginDiscovery`, `PluginManager`).
  - The class `PluginManager` keeps the plugin roots, the discovered plugins and
    the current event context. It also records the messages sent to plugins,
    the application events emitted and the UI actions triggered.
  - Every outbound message carries a `Filetype(ft)` plugin filter.
  - Payloads are JSON-like values, so `{name, context, ...additionalArgs}` is a
    map union in which the additional arguments win.
  - `Respond` is the pure specification of the response switch.
    `HandlePluginResponse` runs the switch step by step and is proved equal to
    it.
  - Discovery scans the roots in order. It keeps only the directory children of
    each root, and a missing root contributes nothing.
- **Selectors** (`Selectors`): pure functions over the UI state. They cover
  completion visibility, the visible buffers, the active window, quick info at
  the cursor, and the errors of the active file and of the cursor position.

Two behaviours of the code are easy to miss:

- A `completion-provider-item-selected` response is not checked for staleness.
- The capability argument of a language-service request is computed but never
  used. Only the file type reaches the plugin filter.

In the plugin manager, a TypeError thrown by the source is modelled as an
outcome in which nothing is sent or recorded. Examples are a request or
staleness check made before any event, and a property read on a `null` or
`undefined` payload. The selectors do not model their TypeErrors: the inputs
that would throw are excluded by preconditions, listed under "Left out".

## Model

| member | source | states |
|---|---|---|
| DiagnosticsApi.Report | browser/src/Plugins/Api/Diagnostics.ts:20-36 | A missing list changes nothing and sends nothing. An empty list for an unflagged file does the same. An empty list for a flagged file is sent once and clears the flag. Every report that is not ignored sends its message and sets the file's flag to whether the list is non-empty. A non-empty list always sends and leaves the file flagged. Anything sent is one `set-errors` message with the call's key, file name and errors. The file ends up flagged exactly when it got errors, or when it was flagged and nothing was sent. No other file's entry changes. |
| DiagnosticsApi.FlagsIgnoreKey | browser/src/Plugins/Api/Diagnostics.ts:29 | The flags, and whether a message is sent, do not depend on the reporting key. |
| DiagnosticsApi.ClearsOfUnflaggedFileSendNothing | browser/src/Plugins/Api/Diagnostics.ts:25-27 | Any number of empty reports for an unflagged file send nothing, and the file stays unflagged. |
| DiagnosticsApi.RepeatedClearsSendAtMostOnce | browser/src/Plugins/Api/Diagnostics.ts:25-35 | A run of empty reports for one file sends one clearing message if the file was flagged, and none otherwise. Afterwards the file is unflagged. |
| DiagnosticsApi.SetThenClearTwice | browser/src/Plugins/Api/Diagnostics.ts:25-35 | Errors, then an empty report, then another empty report for the same file send exactly two messages: the errors and one clear. |
| DiagnosticsApi.ReportPreservesInvariant | browser/src/Plugins/Api/Diagnostics.ts:25-35 | One report keeps every flag equal to "the channel's last message about this file carried errors". It never sends a clear for a file whose last message was already a clear. |
| DiagnosticsApi.Diagnostics.constructor | browser/src/Plugins/Api/Diagnostics.ts:15-18 | The reporter starts with no flags, nothing sent and its invariant holding. |
| DiagnosticsApi.Diagnostics.SetErrors | browser/src/Plugins/Api/Diagnostics.ts:20-36 | The new flags and the appended messages are exactly those of `Report` on the old flags. The invariant is kept. |
| Selectors.GetSelectedCompletion | browser/src/UI/Selectors.ts:34-42 | Null exactly when there is no completion state. Otherwise it is the selected entry's insert text when that is non-empty, or else its label. |
| Selectors.AreCompletionsVisible | browser/src/UI/Selectors.ts:18-32 | False with no entries and true with more than one. With one entry it is true exactly when the base differs from the selected completion, which is that entry's text. |
| Selectors.VisibleBuffers | browser/src/UI/Selectors.ts:45 | Keeps exactly the buffers named by the ids that are listed and not hidden. The result is no longer than the id list. |
| Selectors.VisibleBuffersAppend | browser/src/UI/Selectors.ts:45 | The filter distributes over concatenation of the id list, so the id order is preserved. |
| Selectors.GetAllBuffers | browser/src/UI/Selectors.ts:44-46 | The result holds exactly the visible buffers named in `allIds`. |
| Selectors.BuffersForFile | browser/src/UI/Selectors.ts:50 | Keeps exactly the buffers showing the file. Its head is the first such buffer of the input. |
| Selectors.GetBufferByFilename | browser/src/UI/Selectors.ts:48-57 | Null exactly when no visible buffer shows the file. Otherwise it is the first visible buffer, in id order, that shows it. |
| Selectors.Flatten | browser/src/UI/Selectors.ts:72-73 | The length is the sum of the per-source lengths. A diagnostic is in the result exactly when some source reported it. |
| Selectors.FlattenAppend | browser/src/UI/Selectors.ts:72-73 | Flattening distributes over concatenation, so the source order is kept. |
| Selectors.FlattenSingleton | browser/src/UI/Selectors.ts:72-73 | One source contributes its own list unchanged, in its order and with its repetitions. With `FlattenAppend` this makes the result the in-order concatenation of the per-source lists. |
| Selectors.GetAllErrorsForFile | browser/src/UI/Selectors.ts:61-74 | Empty for an empty file name or a file with no entry. Otherwise it is the flattening of the file's per-source lists: each source's list as reported, concatenated in source order, with the summed length and exactly the reported diagnostics. |
| Selectors.TwoSourcesFlattenInOrder | browser/src/UI/Selectors.ts:61-74 | With `{tsserver: xs, linter: ys}` for `/a.ts`, for any lists `xs` and `ys`, the errors of `/a.ts` are `xs + ys`. |
| Selectors.GetActiveWindow | browser/src/UI/Selectors.ts:76-83 | Null when no window is active. Otherwise it is the active id's window; an id with no window reads as null. |
| Selectors.GetQuickInfo | browser/src/UI/Selectors.ts:85-107 | Returns the cached data exactly when a window is active, a quick-info entry exists, and the entry's file, line and column all equal the window's. Otherwise it returns null. |
| Selectors.GetActiveWindowScreenDimensions | browser/src/UI/Selectors.ts:121-129 | The zero rectangle when there is no active window or it has no dimensions. Otherwise it is the window's dimensions. |
| Selectors.GetErrorsForActiveFile | browser/src/UI/Selectors.ts:144-149 | Empty with no window, no file, or no entry for the file. Otherwise it is all the errors of the window's file. |
| Selectors.ErrorsInRange | browser/src/UI/Selectors.ts:159 | Keeps exactly the diagnostics whose range contains the position. The result is never longer than the input. |
| Selectors.ErrorsInRangeAppend | browser/src/UI/Selectors.ts:159 | The position filter distributes over concatenation, so the result is an order-preserving selection. |
| Selectors.GetErrorsForPosition | browser/src/UI/Selectors.ts:151-160 | Empty with no active window. Otherwise it holds exactly the active file's errors whose range contains the zero-based cursor `(line - 1, column - 1)`. |
| PluginProtocol.ContextRoundTrip | browser/src/Plugins/PluginManager.ts:16-22 | Decoding the JSON form of an event context gives back that context. |
| PluginProtocol.EventMessage | browser/src/Plugins/PluginManager.ts:198-204 | An `event` message whose payload has exactly `name` and `context`. They decode to the given name and context, and the filter is the context's file type. |
| PluginProtocol.RequestMessage | browser/src/Plugins/PluginManager.ts:208-220 | A `request` message filtered by the context's file type. Its payload keys are `name`, `context` and the additional arguments. Every additional argument is kept as given. `name` and `context` are the request name and context unless an argument overrides them. |
| PluginProtocol.BufferUpdateMessage | browser/src/Plugins/PluginManager.ts:97-105 | A `buffer-update` message filtered by file type. It carries the context and every buffer line, in order. |
| PluginProtocol.BufferUpdateIncrementalMessage | browser/src/Plugins/PluginManager.ts:107-115 | A `buffer-update-incremental` message filtered by file type. It carries the context, the line number and the line. |
| PluginProtocol.OriginMatchesCurrent | browser/src/Plugins/PluginManager.ts:226-238 | True exactly when the two contexts are equal once byte offset and file type are ignored. |
| PluginProtocol.MovedColumnIsStale | browser/src/Plugins/PluginManager.ts:230-232 | An origin at column 4 does not match a current context at column 3 on the same file and line. |
| PluginProtocol.CheckCurrent | browser/src/Plugins/PluginManager.ts:151-153 | With no current context the check throws. A stale origin is dropped with no effect. A matching origin proceeds. |
| PluginProtocol.Respond | browser/src/Plugins/PluginManager.ts:136-193 | At most one action or event, and none unless handling completes. Go-to-definition and completion lists act only for a current origin; stale ones are dropped, neither type emits an event, a falsy completion payload for a current origin yields nothing, and a nullish definition payload for a current origin is a TypeError. Quick info with a truthy error yields nothing. Go-to-definition opens the payload's `filePath`, `line` and `column`. Quick info is shown at the origin position, with the payload's `info` and `documentation`, exactly when there is no error and the payload is not nullish. Item details are shown with no check. `set-errors` emits the payload's `key`, `fileName` and `errors`, and `find-all-references` its `references`; a nullish payload for either is a TypeError. `format` and the two highlight types relay the payload whole. A nullish quick-info payload without an error, and a nullish item-selected payload, are TypeErrors. The five relayed types emit one event of their own name, always for a non-nullish payload. Any other type yields one `logWarning` "Unexpected plugin type: " + type. |
| PluginProtocol.StaleDefinitionIsDropped | browser/src/Plugins/PluginManager.ts:150-153 | A go-to-definition response for column 4 is dropped, with no action and no event, when the cursor is at column 3. |
| PluginProtocol.UncheckedTypesIgnoreCurrentContext | browser/src/Plugins/PluginManager.ts:141-174 | The reaction to quick-info and item-selected responses does not depend on the current context. |
| PluginProtocol.CheckedTypesIgnoreByteAndFiletype | browser/src/Plugins/PluginManager.ts:226-238 | Changing the current context's byte offset or file type never changes the reaction to a response. |
| PluginDiscovery.DirectoryPaths | browser/src/Plugins/PluginManager.ts:246-248 | The joined paths of exactly the directory entries. There are no more of them than entries. |
| PluginDiscovery.DirectoryPathsAppend | browser/src/Plugins/PluginManager.ts:246-248 | Directories keep their listing order: a concatenated listing yields the paths of the first part, then those of the second. |
| PluginDiscovery.DirectoryPathsSingleton | browser/src/Plugins/PluginManager.ts:246-248 | One entry yields its joined path when `stat` says it is a directory, and nothing otherwise. |
| PluginDiscovery.DirectoryPathsLength | browser/src/Plugins/PluginManager.ts:246-248 | There is exactly one path per directory entry. |
| PluginDiscovery.GetDirectories | browser/src/Plugins/PluginManager.ts:241-249 | A missing root gives nothing. An existing root gives exactly the joined paths of its directory children. |
| PluginDiscovery.AllPluginPaths | browser/src/Plugins/PluginManager.ts:126-134 | A path is found exactly when it is a directory child of one of the roots. |
| PluginDiscovery.AllPluginPathsAppend | browser/src/Plugins/PluginManager.ts:126-134 | Discovery over `a + b` is discovery over `a` followed by discovery over `b`. |
| PluginDiscovery.AllPluginPathsSingleton | browser/src/Plugins/PluginManager.ts:128-131 | Discovery over one root is that root's directory listing. |
| PluginDiscovery.AllPluginPathsSnoc | browser/src/Plugins/PluginManager.ts:128-131 | Adding a root at the end appends its directories after all earlier ones. |
| PluginDiscovery.MissingRootsContributeNothing | browser/src/Plugins/PluginManager.ts:242-244 | A root that does not exist, added at either end, changes nothing. |
| PluginDiscovery.AllPluginPathsLength | browser/src/Plugins/PluginManager.ts:126-134 | The number of plugins found is the sum of the roots' directory counts. |
| PluginManager.RootPluginPaths | browser/src/Plugins/PluginManager.ts:13-44 | The root list is core (`CorePluginsRoot`, the install directory's `vim/core`), then default and default/bundle only with `useDefaultConfig`, then the user's plugin folder last. |
| PluginManager.PluginsFoundInRootOrder | browser/src/Plugins/PluginManager.ts:37-44 | The plugins are the core root's directories, then the default and bundle roots' (when enabled), then the user's. |
| PluginManager.PluginManager.constructor | browser/src/Plugins/PluginManager.ts:34-47 | The roots are pushed in the configured order. The manager starts with no context, no plugins and nothing sent, emitted or shown. |
| PluginManager.PluginManager.OnEvent | browser/src/Plugins/PluginManager.ts:195-205 | The current context becomes exactly the given one. Exactly one `event` message is appended. |
| PluginManager.PluginManager.SendLanguageServiceRequest | browser/src/Plugins/PluginManager.ts:207-221 | With a context, exactly one request message is appended, and it does not depend on the capability. Without one, nothing is sent and the call fails. |
| PluginManager.PluginManager.CheckHover | browser/src/Plugins/PluginManager.ts:52-54 | Sends one `quick-info` request for the given context. |
| PluginManager.PluginManager.CheckSignatureHelp | browser/src/Plugins/PluginManager.ts:56-58 | Sends one `signature-help` request for the given context. |
| PluginManager.PluginManager.GotoDefinition | browser/src/Plugins/PluginManager.ts:60-62 | Sends one `goto-definition` request for the current context. It fails with nothing sent when no event has been seen. |
| PluginManager.PluginManager.FindAllReferences | browser/src/Plugins/PluginManager.ts:64-66 | Sends one `find-all-references` request for the current context, or fails with nothing sent. |
| PluginManager.PluginManager.RequestFormat | browser/src/Plugins/PluginManager.ts:68-70 | Sends one `format` request for the current context, or fails with nothing sent. |
| PluginManager.PluginManager.NotifyCompletionItemSelected | browser/src/Plugins/PluginManager.ts:72-74 | Sends one `completion-provider-item-selected` request carrying `item` for the current context, or fails with nothing sent. |
| PluginManager.PluginManager.NotifyBufferUpdate | browser/src/Plugins/PluginManager.ts:97-105 | Appends exactly one `buffer-update` message. |
| PluginManager.PluginManager.NotifyBufferUpdateIncremental | browser/src/Plugins/PluginManager.ts:107-120 | Appends `buffer-update-incremental`, followed by a `completion-provider` request exactly when completions are enabled. |
| PluginManager.PluginManager.GetAllPluginPaths | browser/src/Plugins/PluginManager.ts:126-134 | The loop over the roots yields exactly `AllPluginPaths` of the roots. |
| PluginManager.PluginManager.GetAllRuntimePaths | browser/src/Plugins/PluginManager.ts:91-95 | The plugin paths followed by the roots. |
| PluginManager.PluginManager.StartPlugins | browser/src/Plugins/PluginManager.ts:76-89 | One plugin for each discovered directory, in discovery order. |
| PluginManager.PluginManager.HandlePluginResponse | browser/src/Plugins/PluginManager.ts:136-193 | The actions, events and outcome are exactly those of `Respond` for the current context. The current context and the messages sent are unchanged. |
| PluginManager.PluginManager.ValidateOriginEventMatchesCurrentEvent | browser/src/Plugins/PluginManager.ts:226-238 | Fails with a TypeError when there is no current context. Otherwise it succeeds when buffer, line and column match, and reports the response as stale when they do not. |

## Left out

- The channel transport is not modelled: sends are appended to a recorded sequence.
- The capability filter is not modelled either. Each message records an opaque `Filetype(ft)` filter, so which plugins receive a message is left out.
- Plugin and anonymous-plugin construction are left out, and so is the API object that `startPlugins` returns. A plugin is recorded by its root directory.
- The subscription to the editor's event stream is left out. `OnEvent` is the handler itself.
- `setTimeout` and the quick-info delay are not modelled. Delayed UI actions are recorded at once, so their interleaving with later events is not captured.
- PluginManager.HandlePluginResponse: for `show-quick-info` and `completion-provider-item-selected`, the source reads the payload inside the timer callback, so its TypeError on a nullish payload is thrown later, from the callback. The model reports that TypeError from the handler itself.
- Selectors.VisibleBuffers, Selectors.GetAllBuffers and Selectors.GetBufferByFilename require every id in `allIds` to be a key of `byId` (`IdsResolve`). In the source a dangling id yields `undefined`, and reading `hidden` on it throws (browser/src/UI/Selectors.ts:45).
- Selectors.GetSelectedCompletion and Selectors.AreCompletionsVisible require the selected index to be within the entry list (`SelectionInRange`) when an entry is read. In the source an out-of-range index yields `undefined`, and reading `insertText` on it throws (browser/src/UI/Selectors.ts:40-41).
- The editor commands behind go-to-definition are abstracted to one `GotoDefinition` action.
- The console log of a stale response is left out. It appears only as the `Stale` outcome.
- The file system is a snapshot map, so real I/O is left out. A `stat` that throws on a listed entry is not modelled.
- Path joining is `dir + "/" + name`, without normalisation.
- The editor's range test `isInRange` is not part of this model. It is a parameter of `GetErrorsForPosition`.
- Memoisation by the selector library is left out, and so is the identity of the shared empty array.
- The pixel-dimension, font-size and colour selectors are not modelled. They are float arithmetic and plain projections.
- The trivial `getErrors` projection is not modelled.
- A state whose `errors` is null is not modelled.
- Object key order follows insertion order. The integer-like keys that JavaScript orders first are not modelled.
- An absent completion entry list is modelled as an empty list.
- Malformed responses are not modelled: a missing `meta` or origin event, or a non-string `type`.
- A property read on a string or number reads as `undefined`. JavaScript's built-in properties such as `length` are not modelled.
- Numbers are unbounded integers, so fractional values and NaN are not modelled.
- Configuration is read through parameters. The plugin roots use the values at construction, and completions use the value at call time.
- A file name that collides with a built-in property of the flag dictionary, such as `__proto__`, is not modelled.
