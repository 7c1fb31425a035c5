# omnisharp-atom core, modelled in Dafny

This project models the core of the omnisharp-atom package, which gives the Atom editor C#
support by talking to an OmniSharp server. It covers four parts:

- **The client adapter** (`OmniSharpClient`, `client.dfy`). This is the per-project client
  over the server transport. It covers:
  - the connect gate and the connect/disconnect log lines;
  - `toggle`;
  - building the editor context and the request for a call, including the abort marker for
    an editor that has been closed;
  - merging a request into caller data;
  - the request policy: an aborted request is dropped and a `.json` file's buffer is cleared;
  - the log-record mapping of raw server events;
  - the branch watcher that restarts the server when the git branch changes;
  - disposal.
- **The dock window** (`Dock`, `dock_window.dfy`). This is the bottom panel: visibility and
  selection, the show/hide/toggle operations, the panel calls they make, and the element tree
  it renders.
- **The package object** (`Plugin`, `omnisharp_atom.dfy`). It covers:
  - the toggle command with its dependency gate and menu;
  - the auto-start grammar rules (C#, C# script files, and `project.json`);
  - routing opened editors to the editor streams;
  - the active-editor signal;
  - picking feature modules from a directory listing.
- **The code-action feature** (`CodeActions`, `code_action.dfy`). It wraps the server's
  code-action names with fake ids and builds the run request.

Two helper modules support these:

- `Js` (`js.dfy`) models JavaScript values:
  - truthiness;
  - `||` and `&&`, which return one of their operands;
  - `String(v)`, and lodash's coercion of null and undefined to "".
- `Text` (`text.dfy`) models `join`, `split`, `_.endsWith` and POSIX `path.basename`.

Some parts of the system are inputs to the model rather than modelled:

- The transport (`OmnisharpClientV2`) is an input. Its state, pid and paths after a connect
  are given as a parameter. The calls made into it are recorded as a sequence.
- Atom is also an input: the workspace, the panel, the client manager, the dependency
  checker, the configuration and the file system. The model records what the code asks of
  them and takes their answers as parameters.
- Observable streams are modelled as the sequences of values pushed into them.

## Model

| member | source | states |
|---|---|---|
| OmniSharpClient.Client.constructor | lib/omni-sharp-server/client.ts:21-31 | Path, index and temporary come from the options. The subscriptions are the error reporter and response tracer, then (only with a repository) the branch watcher's three, then the view model. The branch filter starts empty. |
| OmniSharpClient.Client.Connect | lib/omni-sharp-server/client.ts:44-52 | Connected, Connecting and Error leave everything unchanged. Otherwise the transport is asked to connect once and the four status lines are logged with the reported pid, location and path. |
| OmniSharpClient.Client.Disconnect | lib/omni-sharp-server/client.ts:54-58 | The transport is disconnected once and exactly the "stopped" line is logged. |
| OmniSharpClient.Client.Toggle | lib/omni-sharp-server/client.ts:33-42 | Disconnected connects with the first project root as the project path, and the client takes the reported state, pid, location and path. Every other state, Error included, disconnects. |
| OmniSharpClient.Client.Dispose | lib/omni-sharp-server/client.ts:60-63 | The transport is disposed. Every held subscription is released once, in order, and none remain. |
| OmniSharpClient.GetEditorContext | lib/omni-sharp-server/client.ts:65-78 | No context exactly when there is neither an explicit nor an active editor. Otherwise the result has exactly the four keys: the cursor row and column, the URI, and the lines joined by newlines, from the explicit editor first. |
| OmniSharpClient.MakeRequest | lib/omni-sharp-server/client.ts:80-97 | Throws exactly when no editor is available. The result is the abort marker exactly when the editor reports itself not alive. Otherwise it is the context, with the text taken from the explicit buffer when one is given. |
| OmniSharpClient.MakeRequestIsContext | lib/omni-sharp-server/client.ts:65-97 | Without an explicit buffer, the request from a live editor equals its editor context. |
| OmniSharpClient.RequestBufferRoundTrip | lib/omni-sharp-server/client.ts:71 | The Buffer field of the context splits back on newlines into exactly the editor's lines. |
| Text.SplitJoin | lib/omni-sharp-server/client.ts:88 | Splitting a join gives back the parts when no part holds the separator. |
| Text.JoinSplit | lib/omni-sharp-server/client.ts:88 | The other half of the `join` round trip: joining the pieces of a split gives back the string. The source itself never splits; this only shows that `Split` inverts `Join`. |
| OmniSharpClient.Extend | lib/omni-sharp-server/client.ts:99-101 | The merged keys are the union. The request's values overwrite the data's, and the data's other values are kept. |
| OmniSharpClient.Client.MakeDataRequest | lib/omni-sharp-server/client.ts:99-101 | Without an editor it throws and the data object is unchanged. Otherwise the data object itself is updated with the request merged over it and is returned. |
| OmniSharpClient.ToOutputMessage | lib/omni-sharp-server/client.ts:104-107 | The message falls back from the body's message to the event name to "". The level falls back from the body's level to "ERROR" for error events and "INFORMATION" otherwise. The level is never falsy. |
| OmniSharpClient.Logs | lib/omni-sharp-server/client.ts:104-107 | Output element i is the log record of event i. |
| OmniSharpClient.LogsAppend | lib/omni-sharp-server/client.ts:104 | Log mapping distributes over concatenation of event streams. |
| OmniSharpClient.RequestPolicy | lib/omni-sharp-server/client.ts:120-131 | A request is dropped exactly when its abort property is truthy. A request whose file name ends in ".json" is forwarded with Buffer null. Every other property is unchanged, and a missing request is forwarded as missing. |
| OmniSharpClient.TargetsJsonOnlyForStrings | lib/omni-sharp-server/client.ts:127 | Only a string file name can make a request count as a ".json" request, since null and undefined coerce to "". |
| Text.EndsWith | lib/omni-sharp-server/client.ts:127 | True exactly when the string is some prefix followed by the suffix. |
| OmniSharpClient.RequestPolicyIdempotent | lib/omni-sharp-server/client.ts:126-129 | A forwarded request passes the policy a second time unchanged. |
| OmniSharpClient.DeadEditorNeverSent | lib/omni-sharp-server/client.ts:83-85 | A request built from a dead editor is always dropped by the request policy. |
| OmniSharpClient.RequestPolicyAsWritten | lib/omni-sharp-server/client.ts:120-131 | The code as written: it throws exactly when no request is given. A request with a truthy abort property is dropped, and any other request is forwarded, with Buffer null when it targets a ".json" file. |
| OmniSharpClient.RequestPolicyAsWrittenDiffers | lib/omni-sharp-server/client.ts:122-127 | The code as written throws on a missing request where the guarded policy forwards it. On every given request the two agree. |
| OmniSharpClient.Client.Request | lib/omni-sharp-server/client.ts:120-131 | The outcome is the request policy applied to the request object. A ".json" request object itself loses its buffer. Only forwarded requests reach the transport, and a dropped request object is untouched. A missing request follows the corrected policy (see Findings). |
| OmniSharpClient.DistinctSnoc | lib/omni-sharp-server/client.ts:137-139 | One more branch value adds an output exactly when it differs from the last value seen. |
| OmniSharpClient.DistinctHasNoRepeats | lib/omni-sharp-server/client.ts:137-139 | No two consecutive outputs of the branch filter are equal. |
| OmniSharpClient.DistinctIgnoresRepeats | lib/omni-sharp-server/client.ts:137-139 | Re-publishing the branch already seen produces no restart. |
| OmniSharpClient.DistinctPassesFirst | lib/omni-sharp-server/client.ts:137-139 | The first branch value ever published is passed on. |
| OmniSharpClient.Client.OnDidChangeStatuses | lib/omni-sharp-server/client.ts:133-146 | Without a repository nothing happens. With one, the current branch is published into the filter. The restart command is dispatched exactly when the branch differs from the previous one. The invariant ties the dispatches to the filter of all published branches. |
| Dock.FindPane | lib/omnisharp-atom/views/dock-window.ts:193 | The index of the first pane with the id, or none when no pane has it. |
| Dock.ButtonClassNames | lib/omnisharp-atom/views/dock-window.ts:73 | The button class lists "selected" exactly for the selected pane and "closeable" exactly for a closeable pane. |
| Dock.Button | lib/omnisharp-atom/views/dock-window.ts:58-80 | The button is keyed by the pane id and holds its title. It has a close icon exactly when the pane is closeable, and carries the selected/closeable classes exactly when they apply. |
| Dock.DockWindow.constructor | lib/omnisharp-atom/views/dock-window.ts:107-115 | A new dock is hidden with the output pane "omni" selected. |
| Dock.DockWindow.UpdateAtom | lib/omnisharp-atom/views/dock-window.ts:125-133 | The panel ends with the dock's visibility. Show or hide is called only when the two differed; the callback runs in every case. |
| Dock.DockWindow.ShowView | lib/omnisharp-atom/views/dock-window.ts:135-138 | The dock and the panel are visible, and the panel is shown only if it was hidden. |
| Dock.DockWindow.DoShowView | lib/omnisharp-atom/views/dock-window.ts:140-142 | The dock is visible. |
| Dock.DockWindow.HideView | lib/omnisharp-atom/views/dock-window.ts:144-147 | The dock and the panel are hidden, and the workspace pane is re-activated once. |
| Dock.DockWindow.DoHideView | lib/omnisharp-atom/views/dock-window.ts:149-153 | The dock is hidden and the workspace's active pane is re-activated. |
| Dock.DockWindow.ToggleView | lib/omnisharp-atom/views/dock-window.ts:155-162 | Visibility flips, the panel follows, and the pane is re-activated only when hiding. |
| Dock.DockWindow.ToggleWindow | lib/omnisharp-atom/views/dock-window.ts:164-171 | The dock hides when it already shows that pane. Otherwise it shows that pane and asks for focus. The panel follows in both cases. |
| Dock.DockWindow.IsSelected | lib/omnisharp-atom/views/dock-window.ts:173-178 | The class is empty exactly when nothing is selected, whatever the key. Otherwise it lists "omnisharp-atom-output" and "selected". |
| Dock.SelectedClassNames | lib/omnisharp-atom/views/dock-window.ts:175 | The selected-pane class holds both classes of the focus query. |
| Dock.DockWindow.SelectWindow | lib/omnisharp-atom/views/dock-window.ts:180-190 | The dock is visible on the given pane, the panel is shown if it was hidden, and focus is requested once. |
| Dock.FocusFindsRenderedPane | lib/omnisharp-atom/views/dock-window.ts:186-188 | When a selected pane exists and the dock is visible, the rendered view's class holds both classes the focus query looks for. |
| Dock.DockWindow.GetWindows | lib/omnisharp-atom/views/dock-window.ts:192-201 | With no matching pane the result is an empty span. Otherwise it is the first matching pane's view with its properties, plus key and the selection class joined with its own class. |
| Dock.DockWindow.Render | lib/omnisharp-atom/views/dock-window.ts:203-212 | A hidden placeholder exactly when the dock is not visible. Otherwise the toolbar over the selected pane's view. |
| Plugin.OmniSharpAtom.constructor | lib/omnisharp-atom/omnisharp-atom.ts:16-26 | No features, no menu, and the active-editor signal holding null. |
| Plugin.OmniSharpAtom.OnTextEditorOpened | lib/omnisharp-atom/omnisharp-atom.ts:61-72 | C# editors go to the editor stream and JSON editors to the configuration stream. A C# editor without a file throws after being pushed, and nothing else changes. Otherwise the new state is the grammar-detection effect plus one grammar watch. |
| Plugin.LoadedFeatures | lib/omnisharp-atom/omnisharp-atom.ts:95-110 | A feature is loaded exactly when some non-directory ".js" entry exports it. With no such entry, nothing is loaded. |
| Plugin.OmniSharpAtom.LoadFeatures | lib/omnisharp-atom/omnisharp-atom.ts:91-113 | The loaded features are appended to those already held. |
| Plugin.OmniSharpAtom.OnActivePaneItem | lib/omnisharp-atom/omnisharp-atom.ts:139-152 | Exactly one value is pushed per change of active item: the item if it is a C# editor, else null. |
| Plugin.ActiveEditorFor | lib/omnisharp-atom/omnisharp-atom.ts:140-151 | The pushed value is the item exactly when it has a C# or C# script grammar. |
| Plugin.StartsServer | lib/omnisharp-atom/omnisharp-atom.ts:160-184 | True exactly for C# and C# script grammars, and for JSON files whose basename is project.json. |
| Plugin.ProjectJsonStartsServer | lib/omnisharp-atom/omnisharp-atom.ts:174 | A project.json in any directory starts the server. |
| Text.BasenameOfChild | lib/omnisharp-atom/omnisharp-atom.ts:174 | The basename of dir/name is name. |
| Plugin.DetectGrammarEffect | lib/omnisharp-atom/omnisharp-atom.ts:160-184 | Without auto-start there is no effect. With it, the manager is asked to connect exactly when the client is off, the editor starts the server and there are no dependency errors. The dependency errors are alerted exactly when such a start is blocked. One menu is added when the client is on without one, and one more with each connect. |
| Plugin.MenuEntriesRange | lib/omnisharp-atom/omnisharp-atom.ts:189-190 | The disposable entries of k added menus are exactly the menus numbered from the first new one up to k past it. |
| Plugin.OmniSharpAtom.DetectGrammar | lib/omnisharp-atom/omnisharp-atom.ts:160-184 | The whole new state is the detection effect: the menu counter, the new menu entries, the current menu, the manager calls and the alerts. Disposed menus never change. Nothing at all changes when no menu is added and `toggle` is not reached; a start blocked by dependency errors changes only the alerts. |
| Plugin.OmniSharpAtom.ToggleMenu | lib/omnisharp-atom/omnisharp-atom.ts:186-191 | A new menu, not yet in the disposable set, becomes the current menu and is registered for disposal. |
| Plugin.OmniSharpAtom.Toggle | lib/omnisharp-atom/omnisharp-atom.ts:193-211 | With dependency errors, one alert per error and nothing else. Otherwise: connect and add the menu when off; disconnect and dispose the menu when on; nothing when neither. |
| CodeActions.CodeAction.OnGetCodeActions | lib/omnisharp-atom/features/code-action.ts:22-26 | The triggering editor is stored, and the request is the one built for the active editor. |
| CodeActions.RunCodeActionRequest | lib/omnisharp-atom/features/code-action.ts:34-39 | The run request keeps the action's id and the text-changes flag. A live editor adds its context and the request is forwarded. A dead editor makes the policy drop it. |
| CodeActions.CodeAction.WrapCodeActionWithFakeIdGeneration | lib/omnisharp-atom/features/code-action.ts:52-58 | One entry per action: entry i pairs name i with id i, so ids are strictly increasing. |

## Left out

- Observable scheduling, `share`/`replay` and the rx operators' internals are not modelled. Each stream is the sequence of values pushed into it, and `distinctUntilChanged` uses structural equality.
- The transport (`OmnisharpClientV2`) is not part of this model. Its connect result is a parameter, and its calls are recorded, not executed.
- Transport options are not recorded. The `options` argument of `request` (client.ts:120, passed on at :130) is left out of `BaseRequest`. `ConnectOptions` keeps only the `projectPath` that `toggle` passes, not any other options a caller gives `connect` (client.ts:44-46).
- The error and response subscriptions (client.ts:109-117) only write to the console. They are recorded as subscriptions without their output.
- `log` writes into the transport's event stream. The model keeps the logged lines as a sequence and does not feed them back into `Logs`.
- The `ViewModel`, the code-actions selection view and `applyAllChanges` are not part of this model.
- Of the package's `activate`, only the `observeTextEditors` callback (omnisharp-atom.ts:61-72) is modelled. The rest of it is not: the dependency check, feature loading order, command registration, and feature activation and `attach`. Neither are `deactivate`, the status bar, autocomplete, Yeoman or the configuration schema.
- The menu JSON file, `fs.readdirSync`, `fs.stat` and `require` of feature modules are not modelled. A directory listing is an input whose entries carry what each module exports.
- Plugin.LoadedFeatures: listing order is used. The source's asynchronous `stat` inside `flatMap` may complete in another order.
- OmniSharpClient.Client.Request: follows the corrected request policy. A missing request is forwarded, where the code as written throws at client.ts:122 (see Findings).
- Plugin.StartsServer: editor paths are strings. The undefined path of an unsaved editor and Windows separators in `path.basename` are not modelled.
- React rendering is not modelled. The model keeps the element tree, and `setState` is applied at once with its callback run after it. DOM focus and pane activation are recorded as effects.
- Numbers are integers. The adapter only stores rows, columns, ids and pids, so floating point is not modelled.
- OmniSharpClient.MakeRequest: `_.has(editor, 'alive')` is modelled as an optional boolean. A non-boolean `alive` value is not modelled.
- `atom.project.getPaths()` is a parameter of Toggle, and a missing first root becomes undefined.
- `_.extend(data, request)` copies the request's fields over same-named fields of the caller's data. Deep copies and prototype properties are not modelled.

## Findings

| source | as written | input that shows it | evidently intended | confidence | as-written member | corrected member |
|---|---|---|---|---|---|---|
| lib/omni-sharp-server/client.ts:122-127 | `request['abort']` is read before the `tempR &&` guard on a missing request | `request(action)` with no request object: reading a property of undefined throws | a missing request is forwarded unchanged, as the later guard expects | not executed; medium | OmniSharpClient.RequestPolicyAsWritten, OmniSharpClient.RequestPolicyAsWrittenDiffers | OmniSharpClient.RequestPolicy, OmniSharpClient.Client.Request |
