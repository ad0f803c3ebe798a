/**
 * The messages the plugin manager exchanges with plugins
 * (browser/src/Plugins/PluginManager.ts): the event context that drives a
 * request, the outbound messages and their plugin filter, the staleness check
 * on responses, and the reaction the manager has to each inbound response.
 * Payloads are JSON-like values so that object spreading and property reads
 * behave as they do in the editor.
 */
module PluginProtocol {
  import opened Wrappers

  /** A JSON-like value as carried on the plugin channel; an absent property reads as `JUndefined`. */
  datatype Json =
    | JUndefined
    | JNull
    | JBool(b: bool)
    | JNumber(n: int)
    | JString(s: string)
    | JArray(items: seq<Json>)
    | JObject(fields: map<string, Json>)

  /** `null` and `undefined`: reading a property of either throws a TypeError. */
  predicate IsNullish(j: Json) {
    j.JUndefined? || j.JNull?
  }

  /** JavaScript truthiness. */
  predicate Truthy(j: Json) {
    match j
    case JUndefined => false
    case JNull => false
    case JBool(b) => b
    case JNumber(n) => n != 0
    case JString(s) => s != ""
    case JArray(_) => true
    case JObject(_) => true
  }

  /** Reading property `key` of a value that is not `null` or `undefined`. */
  function Get(j: Json, key: string): (r: Json)
    requires !IsNullish(j)
    ensures j.JObject? && key in j.fields ==> r == j.fields[key]
    ensures !(j.JObject? && key in j.fields) ==> r.JUndefined?
  {
    if j.JObject? && key in j.fields then j.fields[key] else JUndefined
  }

  /** A snapshot of the cursor and buffer at the moment an editor event fired. */
  datatype EventContext = EventContext(bufferFullPath: string, line: int, column: int, byte: int, filetype: string)

  function ContextJson(ctx: EventContext): Json {
    JObject(map[
      "bufferFullPath" := JString(ctx.bufferFullPath),
      "line" := JNumber(ctx.line),
      "column" := JNumber(ctx.column),
      "byte" := JNumber(ctx.byte),
      "filetype" := JString(ctx.filetype)])
  }

  /** Reads an event context back from its JSON form; fails on anything else. */
  function ContextOf(j: Json): (r: Option<EventContext>)
    ensures r.Some? ==> j.JObject?
  {
    if !j.JObject? then None
    else
      var f := j.fields;
      if "bufferFullPath" in f && f["bufferFullPath"].JString?
         && "line" in f && f["line"].JNumber?
         && "column" in f && f["column"].JNumber?
         && "byte" in f && f["byte"].JNumber?
         && "filetype" in f && f["filetype"].JString?
      then Some(EventContext(f["bufferFullPath"].s, f["line"].n, f["column"].n, f["byte"].n, f["filetype"].s))
      else None
  }

  /** The context a plugin receives is exactly the context that was sent. */
  lemma ContextRoundTrip(ctx: EventContext)
    ensures ContextOf(ContextJson(ctx)) == Some(ctx)
  {
  }

  /** Which plugins receive a message: those the capability filter admits for the file type. */
  datatype PluginFilter = Filetype(filetype: string)

  datatype OutboundMessage = OutboundMessage(messageType: string, payload: Json, filter: PluginFilter)

  /** The `event` message broadcast for an editor event. */
  function EventMessage(eventName: string, ctx: EventContext): (m: OutboundMessage)
    ensures m.messageType == "event" && m.filter == Filetype(ctx.filetype)
    ensures m.payload.JObject? && m.payload.fields.Keys == {"name", "context"}
    ensures Get(m.payload, "name") == JString(eventName)
    ensures ContextOf(Get(m.payload, "context")) == Some(ctx)
  {
    ContextRoundTrip(ctx);
    OutboundMessage("event", JObject(map["name" := JString(eventName), "context" := ContextJson(ctx)]), Filetype(ctx.filetype))
  }

  /**
   * The `request` message for a language-service request: `{name, context}`
   * spread with the additional arguments, which win on a clash. The filter
   * depends on the context's file type only.
   */
  function RequestMessage(requestName: string, ctx: EventContext, additionalArgs: map<string, Json>): (m: OutboundMessage)
    ensures m.messageType == "request" && m.filter == Filetype(ctx.filetype)
    ensures m.payload.JObject? && m.payload.fields.Keys == {"name", "context"} + additionalArgs.Keys
    ensures forall k :: k in additionalArgs ==> Get(m.payload, k) == additionalArgs[k]
    ensures "name" !in additionalArgs ==> Get(m.payload, "name") == JString(requestName)
    ensures "context" !in additionalArgs ==> ContextOf(Get(m.payload, "context")) == Some(ctx)
  {
    ContextRoundTrip(ctx);
    var payload := map["name" := JString(requestName), "context" := ContextJson(ctx)] + additionalArgs;
    OutboundMessage("request", JObject(payload), Filetype(ctx.filetype))
  }

  /** The `buffer-update` message carrying the whole buffer. */
  function BufferUpdateMessage(ctx: EventContext, bufferLines: seq<string>): (m: OutboundMessage)
    ensures m.messageType == "buffer-update" && m.filter == Filetype(ctx.filetype)
    ensures m.payload.JObject? && m.payload.fields.Keys == {"eventContext", "bufferLines"}
    ensures ContextOf(Get(m.payload, "eventContext")) == Some(ctx)
    ensures Get(m.payload, "bufferLines").JArray? && |Get(m.payload, "bufferLines").items| == |bufferLines|
    ensures forall i :: 0 <= i < |bufferLines| ==> Get(m.payload, "bufferLines").items[i] == JString(bufferLines[i])
  {
    ContextRoundTrip(ctx);
    var lines := seq(|bufferLines|, i requires 0 <= i < |bufferLines| => JString(bufferLines[i]));
    OutboundMessage("buffer-update", JObject(map["eventContext" := ContextJson(ctx), "bufferLines" := JArray(lines)]), Filetype(ctx.filetype))
  }

  /** The `buffer-update-incremental` message carrying one changed line. */
  function BufferUpdateIncrementalMessage(ctx: EventContext, lineNumber: int, bufferLine: string): (m: OutboundMessage)
    ensures m.messageType == "buffer-update-incremental" && m.filter == Filetype(ctx.filetype)
    ensures m.payload.JObject? && m.payload.fields.Keys == {"eventContext", "lineNumber", "bufferLine"}
    ensures ContextOf(Get(m.payload, "eventContext")) == Some(ctx)
    ensures Get(m.payload, "lineNumber") == JNumber(lineNumber) && Get(m.payload, "bufferLine") == JString(bufferLine)
  {
    ContextRoundTrip(ctx);
    OutboundMessage("buffer-update-incremental",
      JObject(map["eventContext" := ContextJson(ctx), "lineNumber" := JNumber(lineNumber), "bufferLine" := JString(bufferLine)]),
      Filetype(ctx.filetype))
  }

  /**
   * The staleness check: a response still applies when its originating context
   * and the current one agree on buffer, line and column. Byte offset and file
   * type play no part.
   */
  function OriginMatchesCurrent(origin: EventContext, current: EventContext): (r: bool)
    ensures r <==> origin.(byte := current.byte, filetype := current.filetype) == current
  {
    origin.bufferFullPath == current.bufferFullPath && origin.line == current.line && origin.column == current.column
  }

  /** The cursor moved by one column since the request: the response is stale. */
  lemma MovedColumnIsStale()
    ensures !OriginMatchesCurrent(EventContext("/a.ts", 5, 4, 0, "typescript"), EventContext("/a.ts", 5, 3, 0, "typescript"))
  {
  }

  /** An inbound response; `error` and `payload` read as `JUndefined` when absent. */
  datatype PluginResponse = PluginResponse(responseType: string, error: Json, payload: Json, originEvent: EventContext)

  /** A UI action the manager triggers. */
  datatype UIAction =
    | ShowQuickInfo(filePath: string, line: int, column: int, info: Json, documentation: Json)
    /** Open the file and put the cursor on the position (done through editor commands). */
    | GotoDefinition(targetFile: Json, targetLine: Json, targetColumn: Json)
    | ShowCompletions(completions: Json)
    | SetDetailedCompletionEntry(details: Json)

  /** An event the manager emits to the rest of the application. */
  datatype AppEvent =
    | SetErrors(key: Json, fileName: Json, errors: Json)
    | FindAllReferences(references: Json)
    | Format(formatPayload: Json)
    | SetSyntaxHighlights(highlights: Json)
    | ClearSyntaxHighlights(clearPayload: Json)
    | LogWarning(message: string)
  {
    /** The name the event is emitted under. */
    function Name(): string {
      match this
      case SetErrors(_, _, _) => "set-errors"
      case FindAllReferences(_) => "find-all-references"
      case Format(_) => "format"
      case SetSyntaxHighlights(_) => "set-syntax-highlights"
      case ClearSyntaxHighlights(_) => "clear-syntax-highlights"
      case LogWarning(_) => "logWarning"
    }
  }

  /**
   * How handling a response ended: normally, dropped as stale (only logged), or
   * with a TypeError from reading a property of `null`/`undefined`.
   */
  datatype Outcome = Completed | Stale | TypeError

  datatype Reaction = Reaction(actions: seq<UIAction>, events: seq<AppEvent>, outcome: Outcome)

  const NoReaction: Reaction := Reaction([], [], Completed)

  /** The response types relayed as an application event of the same name. */
  predicate IsRelayedType(t: string) {
    t == "set-errors" || t == "find-all-references" || t == "format" ||
    t == "set-syntax-highlights" || t == "clear-syntax-highlights"
  }

  predicate IsKnownType(t: string) {
    t == "show-quick-info" || t == "goto-definition" || t == "completion-provider" ||
    t == "completion-provider-item-selected" || IsRelayedType(t)
  }

  /** The staleness-checked part shared by the two checked response types. */
  function CheckCurrent(current: Option<EventContext>, resp: PluginResponse, onCurrent: Reaction): (r: Reaction)
    ensures current.None? ==> r == Reaction([], [], TypeError)
    ensures current.Some? && !OriginMatchesCurrent(resp.originEvent, current.value) ==> r == Reaction([], [], Stale)
    ensures current.Some? && OriginMatchesCurrent(resp.originEvent, current.value) ==> r == onCurrent
  {
    if current.None? then Reaction([], [], TypeError)
    else if !OriginMatchesCurrent(resp.originEvent, current.value) then Reaction([], [], Stale)
    else onCurrent
  }

  /** What the manager does with one inbound response, given the current event context. */
  function Respond(current: Option<EventContext>, resp: PluginResponse): (r: Reaction)
    // Nothing happens unless handling completes, and at most one thing happens.
    ensures r.outcome != Completed ==> r.actions == [] && r.events == []
    ensures |r.actions| + |r.events| <= 1
    ensures r.actions != [] ==> r.events == []
    // Go-to-definition and completion lists are dropped when stale, and need a current context.
    ensures (resp.responseType == "goto-definition" || resp.responseType == "completion-provider") ==>
              (current.None? ==> r.outcome == TypeError) &&
              (current.Some? && !OriginMatchesCurrent(resp.originEvent, current.value) ==> r.outcome == Stale)
    // Neither checked type ever emits an event.
    ensures (resp.responseType == "goto-definition" || resp.responseType == "completion-provider") ==> r.events == []
    // For a current origin, a falsy completion payload has no effect, and a nullish definition payload is a TypeError.
    ensures resp.responseType == "completion-provider" && current.Some? &&
            OriginMatchesCurrent(resp.originEvent, current.value) && !Truthy(resp.payload) ==>
              r == NoReaction
    ensures resp.responseType == "goto-definition" && current.Some? &&
            OriginMatchesCurrent(resp.originEvent, current.value) && IsNullish(resp.payload) ==>
              r.outcome == TypeError
    ensures resp.responseType == "goto-definition" ==>
              (r.actions != [] <==> current.Some? && OriginMatchesCurrent(resp.originEvent, current.value) && !IsNullish(resp.payload)) &&
              (r.actions != [] ==>
                 r.actions == [UIAction.GotoDefinition(Get(resp.payload, "filePath"), Get(resp.payload, "line"), Get(resp.payload, "column"))])
    ensures resp.responseType == "completion-provider" ==>
              (r.actions != [] <==> current.Some? && OriginMatchesCurrent(resp.originEvent, current.value) && Truthy(resp.payload)) &&
              (r.actions != [] ==> r.actions == [ShowCompletions(resp.payload)])
    // Quick info is shown at the position it was asked for, unless the plugin reported an error.
    ensures resp.responseType == "show-quick-info" && Truthy(resp.error) ==> r == NoReaction
    ensures resp.responseType == "show-quick-info" ==>
              r.outcome != Stale && r.events == [] &&
              (r.actions != [] <==> !Truthy(resp.error) && !IsNullish(resp.payload)) &&
              (r.actions != [] ==>
                 r.actions[0].ShowQuickInfo? &&
                 r.actions[0].filePath == resp.originEvent.bufferFullPath &&
                 r.actions[0].line == resp.originEvent.line && r.actions[0].column == resp.originEvent.column &&
                 r.actions[0].info == Get(resp.payload, "info") &&
                 r.actions[0].documentation == Get(resp.payload, "documentation"))
    // The detail of a selected completion is never checked for staleness.
    ensures resp.responseType == "completion-provider-item-selected" ==>
              r.outcome != Stale && r.events == [] &&
              (r.actions != [] <==> !IsNullish(resp.payload)) &&
              (r.actions != [] ==> r.actions == [SetDetailedCompletionEntry(Get(resp.payload, "details"))])
    // Relayed types emit one event of the same name.
    ensures IsRelayedType(resp.responseType) ==>
              r.actions == [] && (r.outcome == Completed <==> |r.events| == 1) &&
              (r.events != [] ==> r.events[0].Name() == resp.responseType)
    // Errors and references are read from the payload's fields and always relayed; a nullish payload is a TypeError.
    ensures resp.responseType == "set-errors" && !IsNullish(resp.payload) ==>
              r == Reaction([], [SetErrors(Get(resp.payload, "key"), Get(resp.payload, "fileName"), Get(resp.payload, "errors"))], Completed)
    ensures resp.responseType == "find-all-references" && !IsNullish(resp.payload) ==>
              r == Reaction([], [FindAllReferences(Get(resp.payload, "references"))], Completed)
    // Reading the fields of a nullish quick-info or item-selected payload is a TypeError.
    ensures resp.responseType == "show-quick-info" && !Truthy(resp.error) && IsNullish(resp.payload) ==>
              r == Reaction([], [], TypeError)
    ensures resp.responseType == "completion-provider-item-selected" && IsNullish(resp.payload) ==>
              r == Reaction([], [], TypeError)
    ensures resp.responseType == "set-errors" ==>
              (r.outcome == TypeError <==> IsNullish(resp.payload)) &&
              (r.events != [] ==>
                 r.events == [SetErrors(Get(resp.payload, "key"), Get(resp.payload, "fileName"), Get(resp.payload, "errors"))])
    ensures resp.responseType == "find-all-references" ==>
              (r.outcome == TypeError <==> IsNullish(resp.payload)) &&
              (r.events != [] ==> r.events == [FindAllReferences(Get(resp.payload, "references"))])
    // Formatting and highlighting payloads are passed on whole, whatever they are.
    ensures resp.responseType == "format" ==> r == Reaction([], [Format(resp.payload)], Completed)
    ensures resp.responseType == "set-syntax-highlights" ==> r == Reaction([], [SetSyntaxHighlights(resp.payload)], Completed)
    ensures resp.responseType == "clear-syntax-highlights" ==> r == Reaction([], [ClearSyntaxHighlights(resp.payload)], Completed)
    // Any other type yields one warning.
    ensures !IsKnownType(resp.responseType) ==>
              r == Reaction([], [LogWarning("Unexpected plugin type: " + resp.responseType)], Completed)
  {
    var t := resp.responseType;
    var p := resp.payload;
    if t == "show-quick-info" then
      if Truthy(resp.error) then NoReaction
      else if IsNullish(p) then Reaction([], [], TypeError)
      else
        var origin := resp.originEvent;
        Reaction([ShowQuickInfo(origin.bufferFullPath, origin.line, origin.column, Get(p, "info"), Get(p, "documentation"))], [], Completed)
    else if t == "goto-definition" then
      CheckCurrent(current, resp,
        if IsNullish(p) then Reaction([], [], TypeError)
        else Reaction([GotoDefinition(Get(p, "filePath"), Get(p, "line"), Get(p, "column"))], [], Completed))
    else if t == "completion-provider" then
      CheckCurrent(current, resp,
        if !Truthy(p) then NoReaction
        else Reaction([ShowCompletions(p)], [], Completed))
    else if t == "completion-provider-item-selected" then
      if IsNullish(p) then Reaction([], [], TypeError)
      else Reaction([SetDetailedCompletionEntry(Get(p, "details"))], [], Completed)
    else if t == "set-errors" then
      if IsNullish(p) then Reaction([], [], TypeError)
      else Reaction([], [SetErrors(Get(p, "key"), Get(p, "fileName"), Get(p, "errors"))], Completed)
    else if t == "find-all-references" then
      if IsNullish(p) then Reaction([], [], TypeError)
      else Reaction([], [FindAllReferences(Get(p, "references"))], Completed)
    else if t == "format" then
      Reaction([], [Format(p)], Completed)
    else if t == "set-syntax-highlights" then
      Reaction([], [SetSyntaxHighlights(p)], Completed)
    else if t == "clear-syntax-highlights" then
      Reaction([], [ClearSyntaxHighlights(p)], Completed)
    else
      Reaction([], [LogWarning("Unexpected plugin type: " + t)], Completed)
  }

  /** A definition answered for column 4 after the cursor moved to column 3 is dropped without any effect. */
  lemma StaleDefinitionIsDropped(payload: Json)
    ensures Respond(Some(EventContext("/a.ts", 5, 3, 0, "typescript")),
                    PluginResponse("goto-definition", JUndefined, payload, EventContext("/a.ts", 5, 4, 0, "typescript")))
            == Reaction([], [], Stale)
  {
  }

  /** Quick info and selected-completion details do not depend on the current context. */
  lemma UncheckedTypesIgnoreCurrentContext(c1: Option<EventContext>, c2: Option<EventContext>, resp: PluginResponse)
    requires resp.responseType == "show-quick-info" || resp.responseType == "completion-provider-item-selected"
    ensures Respond(c1, resp) == Respond(c2, resp)
  {
  }

  /** The staleness check of the two checked types looks at buffer, line and column only. */
  lemma CheckedTypesIgnoreByteAndFiletype(current: EventContext, resp: PluginResponse, byte: int, filetype: string)
    ensures Respond(Some(current), resp) == Respond(Some(current.(byte := byte, filetype := filetype)), resp)
  {
  }
}
