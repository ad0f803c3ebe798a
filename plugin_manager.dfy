/**
 * The plugin manager (browser/src/Plugins/PluginManager.ts): it keeps the
 * plugin roots, the discovered plugins and the current event context, sends
 * events and requests to plugins, and reacts to their responses. The channel,
 * the application's event emitter and the UI are modelled as the sequences of
 * messages sent, events emitted and UI actions triggered.
 */
module PluginManager {
  import opened Wrappers
  import opened PluginProtocol
  import opened PluginDiscovery

  function CorePluginsRoot(installDir: string): string {
    Join(Join(installDir, "vim"), "core")
  }

  function DefaultPluginsRoot(installDir: string): string {
    Join(Join(installDir, "vim"), "default")
  }

  /** The configured roots: core plugins, then (optionally) the default plugins and their bundle, then the user's. */
  function RootPluginPaths(installDir: string, useDefaultConfig: bool, userFolder: string): (r: seq<string>)
    ensures |r| == if useDefaultConfig then 4 else 2
    ensures r[0] == CorePluginsRoot(installDir)
    ensures r[|r| - 1] == Join(userFolder, "plugins")
    ensures useDefaultConfig ==> r[1] == DefaultPluginsRoot(installDir) && r[2] == Join(DefaultPluginsRoot(installDir), "bundle")
  {
    [CorePluginsRoot(installDir)]
    + (if useDefaultConfig then [DefaultPluginsRoot(installDir), Join(DefaultPluginsRoot(installDir), "bundle")] else [])
    + [Join(userFolder, "plugins")]
  }

  /** Core plugins are found before default plugins, which are found before the user's. */
  lemma PluginsFoundInRootOrder(fs: FileSystem, installDir: string, useDefaultConfig: bool, userFolder: string)
    ensures AllPluginPaths(fs, RootPluginPaths(installDir, useDefaultConfig, userFolder)) ==
              GetDirectories(fs, CorePluginsRoot(installDir))
              + (if useDefaultConfig
                 then GetDirectories(fs, DefaultPluginsRoot(installDir)) + GetDirectories(fs, Join(DefaultPluginsRoot(installDir), "bundle"))
                 else [])
              + GetDirectories(fs, Join(userFolder, "plugins"))
  {
    var core := [CorePluginsRoot(installDir)];
    var defaults := if useDefaultConfig then [DefaultPluginsRoot(installDir), Join(DefaultPluginsRoot(installDir), "bundle")] else [];
    var user := [Join(userFolder, "plugins")];
    assert RootPluginPaths(installDir, useDefaultConfig, userFolder) == core + defaults + user;
    AllPluginPathsAppend(fs, core + defaults, user);
    AllPluginPathsAppend(fs, core, defaults);
    AllPluginPathsSingleton(fs, core[0]);
    AllPluginPathsSingleton(fs, user[0]);
    if useDefaultConfig {
      assert defaults == [defaults[0]] + [defaults[1]];
      AllPluginPathsAppend(fs, [defaults[0]], [defaults[1]]);
      AllPluginPathsSingleton(fs, defaults[0]);
      AllPluginPathsSingleton(fs, defaults[1]);
    }
  }

  class PluginManager {
    var rootPluginPaths: seq<string>
    /** The discovered plugins, each given by its root directory. */
    var plugins: seq<string>
    var lastEventContext: Option<EventContext>
    /** Messages sent to plugins through the channel, oldest first. */
    var sent: seq<OutboundMessage>
    /** Events emitted to the rest of the application, oldest first. */
    var emitted: seq<AppEvent>
    /** UI actions triggered, oldest first. */
    var uiActions: seq<UIAction>

    constructor(installDir: string, useDefaultConfig: bool, userFolder: string)
      ensures rootPluginPaths == RootPluginPaths(installDir, useDefaultConfig, userFolder)
      ensures plugins == [] && lastEventContext == None
      ensures sent == [] && emitted == [] && uiActions == []
    {
      var roots := [];
      roots := roots + [CorePluginsRoot(installDir)];
      if useDefaultConfig {
        roots := roots + [DefaultPluginsRoot(installDir)];
        roots := roots + [Join(DefaultPluginsRoot(installDir), "bundle")];
      }
      roots := roots + [Join(userFolder, "plugins")];
      rootPluginPaths := roots;
      plugins := [];
      lastEventContext := None;
      sent, emitted, uiActions := [], [], [];
    }

    /** An editor event: it becomes the current context and is broadcast to the plugins for its file type. */
    method OnEvent(eventName: string, eventContext: EventContext)
      modifies this`lastEventContext, this`sent
      ensures lastEventContext == Some(eventContext)
      ensures sent == old(sent) + [EventMessage(eventName, eventContext)]
    {
      lastEventContext := Some(eventContext);
      sent := sent + [EventMessage(eventName, eventContext)];
    }

    /**
     * Sends one language-service request. Without a context the source throws
     * a TypeError while building the filter: `ok` is false and nothing is sent.
     * The capability is worked out but plays no part in what is sent.
     */
    method SendLanguageServiceRequest(requestName: string, eventContext: Option<EventContext>,
                                      languageServiceCapability: Option<string>, additionalArgs: map<string, Json>)
      returns (ok: bool)
      modifies this`sent
      ensures ok <==> eventContext.Some?
      ensures sent == old(sent) + if ok then [RequestMessage(requestName, eventContext.value, additionalArgs)] else []
    {
      var capability := if languageServiceCapability.Some? && languageServiceCapability.value != ""
                        then languageServiceCapability.value else requestName;
      if eventContext.None? {
        return false;
      }
      sent := sent + [RequestMessage(requestName, eventContext.value, additionalArgs)];
      ok := true;
    }

    method CheckHover(eventContext: EventContext)
      modifies this`sent
      ensures sent == old(sent) + [RequestMessage("quick-info", eventContext, map[])]
    {
      var _ := SendLanguageServiceRequest("quick-info", Some(eventContext), None, map[]);
    }

    method CheckSignatureHelp(eventContext: EventContext)
      modifies this`sent
      ensures sent == old(sent) + [RequestMessage("signature-help", eventContext, map[])]
    {
      var _ := SendLanguageServiceRequest("signature-help", Some(eventContext), None, map[]);
    }

    /** Requests the definition at the current context; fails when there is none yet. */
    method GotoDefinition() returns (ok: bool)
      modifies this`sent
      ensures ok <==> lastEventContext.Some?
      ensures sent == old(sent) + if ok then [RequestMessage("goto-definition", lastEventContext.value, map[])] else []
    {
      ok := SendLanguageServiceRequest("goto-definition", lastEventContext, None, map[]);
    }

    method FindAllReferences() returns (ok: bool)
      modifies this`sent
      ensures ok <==> lastEventContext.Some?
      ensures sent == old(sent) + if ok then [RequestMessage("find-all-references", lastEventContext.value, map[])] else []
    {
      ok := SendLanguageServiceRequest("find-all-references", lastEventContext, None, map[]);
    }

    method RequestFormat() returns (ok: bool)
      modifies this`sent
      ensures ok <==> lastEventContext.Some?
      ensures sent == old(sent) + if ok then [RequestMessage("format", lastEventContext.value, map[])] else []
    {
      ok := SendLanguageServiceRequest("format", lastEventContext, Some("formatting"), map[]);
    }

    method NotifyCompletionItemSelected(completionItem: Json) returns (ok: bool)
      modifies this`sent
      ensures ok <==> lastEventContext.Some?
      ensures sent == old(sent) +
                if ok then [RequestMessage("completion-provider-item-selected", lastEventContext.value, map["item" := completionItem])] else []
    {
      ok := SendLanguageServiceRequest("completion-provider-item-selected", lastEventContext,
                                       Some("completion-provider"), map["item" := completionItem]);
    }

    method NotifyBufferUpdate(eventContext: EventContext, bufferLines: seq<string>)
      modifies this`sent
      ensures sent == old(sent) + [BufferUpdateMessage(eventContext, bufferLines)]
    {
      sent := sent + [BufferUpdateMessage(eventContext, bufferLines)];
    }

    /** `completionsEnabled` is the editor's "completions enabled" setting at the time of the call. */
    method NotifyBufferUpdateIncremental(eventContext: EventContext, lineNumber: int, bufferLine: string, completionsEnabled: bool)
      modifies this`sent
      ensures sent == old(sent) + [BufferUpdateIncrementalMessage(eventContext, lineNumber, bufferLine)]
                      + if completionsEnabled then [RequestMessage("completion-provider", eventContext, map[])] else []
    {
      sent := sent + [BufferUpdateIncrementalMessage(eventContext, lineNumber, bufferLine)];
      if completionsEnabled {
        var _ := SendLanguageServiceRequest("completion-provider", Some(eventContext), None, map[]);
      }
    }

    /** The plugin directories under every root, root by root. */
    method GetAllPluginPaths(fs: FileSystem) returns (paths: seq<string>)
      ensures paths == AllPluginPaths(fs, rootPluginPaths)
    {
      paths := [];
      for i := 0 to |rootPluginPaths|
        invariant paths == AllPluginPaths(fs, rootPluginPaths[..i])
      {
        var subPaths := GetDirectories(fs, rootPluginPaths[i]);
        AllPluginPathsSnoc(fs, rootPluginPaths[..i], rootPluginPaths[i]);
        assert rootPluginPaths[..i + 1] == rootPluginPaths[..i] + [rootPluginPaths[i]];
        paths := paths + subPaths;
      }
      assert rootPluginPaths[..|rootPluginPaths|] == rootPluginPaths;
    }

    /** The plugin directories followed by the roots themselves. */
    method GetAllRuntimePaths(fs: FileSystem) returns (paths: seq<string>)
      ensures paths == AllPluginPaths(fs, rootPluginPaths) + rootPluginPaths
    {
      var pluginPaths := GetAllPluginPaths(fs);
      paths := pluginPaths + rootPluginPaths;
    }

    /** Discovers the plugins; subscribing to editor events and building plugin handles are not modelled. */
    method StartPlugins(fs: FileSystem)
      modifies this`plugins
      ensures plugins == AllPluginPaths(fs, rootPluginPaths)
    {
      var allPlugins := GetAllPluginPaths(fs);
      plugins := allPlugins;
    }

    /** Reacts to one plugin response; the current context is never changed by it. */
    method HandlePluginResponse(pluginResponse: PluginResponse) returns (outcome: Outcome)
      modifies this`uiActions, this`emitted
      ensures outcome == Respond(lastEventContext, pluginResponse).outcome
      ensures uiActions == old(uiActions) + Respond(lastEventContext, pluginResponse).actions
      ensures emitted == old(emitted) + Respond(lastEventContext, pluginResponse).events
    {
      var t := pluginResponse.responseType;
      var payload := pluginResponse.payload;
      outcome := Completed;
      if t == "show-quick-info" {
        if !Truthy(pluginResponse.error) {
          // Shown after the configured delay in the source; recorded at once here.
          if IsNullish(payload) {
            return TypeError;
          }
          var originEvent := pluginResponse.originEvent;
          uiActions := uiActions + [ShowQuickInfo(originEvent.bufferFullPath, originEvent.line, originEvent.column,
                                                  Get(payload, "info"), Get(payload, "documentation"))];
        }
      } else if t == "goto-definition" {
        outcome := ValidateOriginEventMatchesCurrentEvent(pluginResponse);
        if outcome != Completed {
          return;
        }
        if IsNullish(payload) {
          return TypeError;
        }
        uiActions := uiActions + [UIAction.GotoDefinition(Get(payload, "filePath"), Get(payload, "line"), Get(payload, "column"))];
      } else if t == "completion-provider" {
        outcome := ValidateOriginEventMatchesCurrentEvent(pluginResponse);
        if outcome != Completed {
          return;
        }
        if !Truthy(payload) {
          return;
        }
        uiActions := uiActions + [ShowCompletions(payload)];
      } else if t == "completion-provider-item-selected" {
        if IsNullish(payload) {
          return TypeError;
        }
        uiActions := uiActions + [SetDetailedCompletionEntry(Get(payload, "details"))];
      } else if t == "set-errors" {
        if IsNullish(payload) {
          return TypeError;
        }
        emitted := emitted + [SetErrors(Get(payload, "key"), Get(payload, "fileName"), Get(payload, "errors"))];
      } else if t == "find-all-references" {
        if IsNullish(payload) {
          return TypeError;
        }
        emitted := emitted + [AppEvent.FindAllReferences(Get(payload, "references"))];
      } else if t == "format" {
        emitted := emitted + [Format(payload)];
      } else if t == "set-syntax-highlights" {
        emitted := emitted + [SetSyntaxHighlights(payload)];
      } else if t == "clear-syntax-highlights" {
        emitted := emitted + [ClearSyntaxHighlights(payload)];
      } else {
        emitted := emitted + [LogWarning("Unexpected plugin type: " + t)];
      }
    }

    /**
     * The staleness check against the current context: `Completed` when the
     * response still applies, `Stale` when the cursor has moved, and
     * `TypeError` when no event has been seen yet.
     */
    method ValidateOriginEventMatchesCurrentEvent(pluginResponse: PluginResponse) returns (outcome: Outcome)
      ensures lastEventContext.None? ==> outcome == TypeError
      ensures lastEventContext.Some? ==>
                outcome == if OriginMatchesCurrent(pluginResponse.originEvent, lastEventContext.value) then Completed else Stale
    {
      if lastEventContext.None? {
        return TypeError;
      }
      var currentEvent := lastEventContext.value;
      var originEvent := pluginResponse.originEvent;
      if originEvent.bufferFullPath == currentEvent.bufferFullPath
         && originEvent.line == currentEvent.line
         && originEvent.column == currentEvent.column {
        return Completed;
      } else {
        return Stale;
      }
    }
  }
}
