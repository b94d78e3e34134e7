# Tentacle Preview — a verified model of its core

Tentacle Preview runs one preview server (a "tentacle") per branch of a
GitHub repository. This project models four parts of it:

- The branch filter decides which branches get a tentacle.
- A tentacle builds its working copy, then starts, stops and describes its server process.
- The dashboard page's client reconciles the worker table, the build and start log panes, the system log and the refresh button. It does this from HTTP pulls and Socket.IO pushes.
- The page's `WebSocketManager` keeps a registry of callbacks and shows a connection badge.

Modules, one per concern:

- `JsValue` holds the dynamic values the browser code handles (`Json`). It covers property reads, truthiness, `String(v)`, `Array.prototype.join`, and how a loop stops at the first `null`/`undefined` element.
- `Html` covers `escapeHtml` and the status badges.
- `StatusTable` covers the worker table and its rows.
- `BuildLogs` covers the build-command tabs.
- `LogPanes` covers the start-log pane and the system log.
- `RefreshButton` covers the refresh button's busy state under overlapping pulls.
- `Dashboard` holds the client as one class. Every button, timer tick, push event and settled pull is a method.
- `WebSocketManagerModel` covers `websocket.js`.
- `GitUtils` covers the branch filter.
- `CommandTemplate` covers `str.format` as the worker's commands use it.
- `Tentacles` covers the worker itself.
- `Wrappers` holds the `Option` and `Result` types.

Inputs stand in for the outside world:

- How an HTTP pull settled (`HttpOutcome`).
- How each build step's subprocess ended (`StepOutcome`).
- Whether `Popen` launched (`LaunchOutcome`).
- The commit checked out locally.
- The port a worker was given.

A request the client sends is appended to `outbox`. Its answer arrives later as the argument of a response method, in any order.

Where the code does something its comments suggest otherwise, the model follows the code. The one exception is the refresh button: its bug is logged under "## Findings", and the client runs the corrected button (see "## Left out"). The other cases:

- The "preserve selection" branch of the build-tab rule (`main.js:343-347`) always selects the last tab. After the guard, `Math.min(currentActiveIndex, logs.length - 1)` can only be `logs.length - 1`. `BuildLogs.IsActiveTab` proves this.
- Logs pulled over HTTP are shown whichever worker is current when they arrive. Only pushed `logs_update` events are filtered by `currentTentacle`.
- `update()` fetches but never moves the checked-out commit. So `update_required` has the same value after `update()` as before (`Tentacles.Tentacle.Update`).
- The start command gets a context without `branch`. A `{branch}` placeholder there raises `KeyError`, although it renders in a build step (`Tentacles.StartContextWithinBuildContext`).
- `__str__` prefers `STARTED` over `BUILT`. `stop()` does not reset either flag, so a stopped worker still reads `STARTED`.

## Model

| member | source | states |
|---|---|---|
| JsValue.LeadingValues | tentacle_preview_static/js/main.js:137-166 | the records a `for…of` over server data handles before one that is `null`/`undefined` makes the next property read throw: all are values, and the one after them is nullish |
| JsValue.NatToDecimal | TentaclePreview/tentacle.py:150 | `str(port)`: at least one digit, digits only, no leading zero |
| JsValue.DecimalRoundTrip | TentaclePreview/tentacle.py:277 | the digits written for the port in `__str__` (and for `idx` in `cmd-${idx}`) denote that very number |
| JsValue.NatToDecimalInjective | TentaclePreview/tentacle.py:277 | different ports are written differently |
| Html.EscapeHtml | tentacle_preview_static/js/main.js:505-513 | `null`/`undefined` give `""`; otherwise the result has none of `< > " '` and no bare markup, and unescaping it gives back `String(v)` exactly |
| Html.ChainIsPerCharacter | tentacle_preview_static/js/main.js:507-512 | the five chained global replaces, `&` first, equal escaping each character on its own (no character is escaped twice) |
| Html.EscapedHasNoMarkup | tentacle_preview_static/js/main.js:505-513 | an escaped text contains no `<`, `>`, `"` or `'` |
| Html.UnescapeEscaped | tentacle_preview_static/js/main.js:505-513 | decoding the entities of an escaped text gives the text back: escaping is injective |
| Html.StatusBadge | tentacle_preview_static/js/main.js:181-185 | OK exactly for `true`, FAIL exactly for `false`, WAIT for every value that is not a boolean |
| StatusTable.NameCellDecodesToKey | tentacle_preview_static/js/main.js:139-160 | the escaped name in a row's buttons decodes to the row's key `String(t.name)`; a missing name gives an empty cell and the key `"undefined"` or `"null"` |
| StatusTable.RenderRows | tentacle_preview_static/js/main.js:133-166 | one row per record, in record order, up to the first `null` record; each row holds that record's name, url, last commit and both badges |
| StatusTable.RenderedKeys | tentacle_preview_static/js/main.js:137-139 | for a list of objects every record gets a row, keyed by `String(name)` |
| StatusTable.FindRow | tentacle_preview_static/js/main.js:187-189 | the first row whose key is the name; `None` exactly when no row has it |
| StatusTable.PatchStatus | tentacle_preview_static/js/main.js:187-192 | only the two badges of the first matching row change; names, urls and commits of all rows are kept; no match leaves the table as it was |
| StatusTable.FindRowSameKeys | tentacle_preview_static/js/main.js:187-192 | tables with the same names find the same row, so a patch never changes which row a later update reaches |
| StatusTable.LastPatchWins | tentacle_preview_static/js/main.js:187-192 | two status updates for one worker leave what the second alone would leave |
| BuildLogs.FirstActive | tentacle_preview_static/js/main.js:330-333 | the first active tab, `None` exactly when no tab is active |
| BuildLogs.IsActiveTab | tentacle_preview_static/js/main.js:343-347 | whatever the previous selection, the tab marked active is exactly the last command's |
| BuildLogs.RenderedFacts | tentacle_preview_static/js/main.js:338-383 | each tab carries `cmd.command` or `cmd-<idx>` and its pane `cmd.output` or `(No output)`; pane `idx` has the id `build-command-<idx>`; a tab and its pane are active together; only the last one is active, and only when every command rendered |
| BuildLogs.UpdateBuildLogs | tentacle_preview_static/js/main.js:313-398 | a missing, non-array or empty list gives the "No build commands" placeholders; otherwise tabs and panes for the commands before the first `null` one, which throws the TypeError reported; at most one tab is ever active |
| LogPanes.StartLogsPane | tentacle_preview_static/js/main.js:400-411 | no lines give "No start logs available"; otherwise the elements joined by newlines |
| LogPanes.AppendStartLine | tentacle_preview_static/js/main.js:413-426 | the pane keeps its text (after a spinner, none) and gains the line, after a newline only if it had text |
| LogPanes.StreamAgreesWithReplace | tentacle_preview_static/js/main.js:400-426 | streaming one more line onto a non-empty pane shows what a full reload including that line shows |
| LogPanes.SplitJoinedLines | tentacle_preview_static/js/main.js:407 | lines without newlines joined by newlines split back into the same lines |
| LogPanes.ClassFor | tentacle_preview_static/js/main.js:281-300 | each of the five known statuses gets its own class, exactly when the status is that string; anything else is `info` |
| LogPanes.AddSystemLogLine | tentacle_preview_static/js/main.js:272-306 | an empty message adds nothing; a truthy one appends exactly one line, its text and class, and keeps the earlier lines |
| LogPanes.ReplayAppendsShown | tentacle_preview_static/js/main.js:256-264 | reloading appends exactly the lines of the entries' own messages to what the pane held |
| LogPanes.ReplaySnoc | tentacle_preview_static/js/main.js:497-500 | a pushed entry adds to the pane what the same entry adds during a reload |
| RefreshButton.OverlappingCallsStayBusy | tentacle_preview_static/js/main.js:109-131 | as written, one pull restores the button, but two overlapping pulls that settle in order leave it disabled for good |
| RefreshButton.BeginRefresh | tentacle_preview_static/js/main.js:114-117 | a pull marks the button busy and counts one more pull in flight, remembering the idle look |
| RefreshButton.SettleRefresh | tentacle_preview_static/js/main.js:125-130 | a settled pull counts one fewer in flight and keeps the button invariant |
| RefreshButton.GuardedRestores | tentacle_preview_static/js/main.js:109-131 | over any sequence of pulls and settlements the button is busy while one is in flight and is restored to its idle look when none is |
| RefreshButton.OverlappingCallsRestored | tentacle_preview_static/js/main.js:109-131 | the same overlapping pulls as above now leave the button idle |
| Dashboard.Payload | tentacle_preview_static/js/main.js:87-99 | a pull yields `json[field]` exactly when the fetch resolved with a 2xx status and a non-null body; otherwise the message of the error thrown (`HTTP <status>` or the rejection) |
| Dashboard.Iterated | tentacle_preview_static/js/main.js:137 | what `for…of` walks: an array's elements or a string's characters, nothing otherwise |
| Dashboard.Entries | tentacle_preview_static/js/main.js:260-263 | the system-log entries `forEach` applies, message and type, up to the first null entry |
| Dashboard.StreamedStartLine | tentacle_preview_static/js/main.js:478-481 | a streamed update carries a line only for `start` logs with a truthy `output` |
| Dashboard.Client.constructor | tentacle_preview_static/js/main.js:11-19 | the first pull is sent with the button busy, then the first socket is opened, not yet connected; nothing is shown yet and no worker is current |
| Dashboard.Client.RefreshData | tentacle_preview_static/js/main.js:109-120 | the button goes busy and the tentacle list is requested; nothing else changes |
| Dashboard.Client.PollTick | tentacle_preview_static/js/main.js:21-25 | the timer pulls exactly when the push channel is not connected |
| Dashboard.Client.RenderTentacleTable | tentacle_preview_static/js/main.js:133-179 | the table becomes `RenderRows(ts)`; the row buttons get their listeners exactly when no record was null, since the loop throws before they are attached; every other part of the page is kept |
| Dashboard.Client.TentaclesResponse | tentacle_preview_static/js/main.js:109-131 | on success the table is rebuilt from `tentacles \|\| []` (with live row buttons exactly when no record was null), on failure it is kept; in both cases the button is handed back, as the corrected counter of the finding does |
| Dashboard.Client.UpdateTentacleStatus | tentacle_preview_static/js/main.js:187-192 | the table becomes `PatchStatus` for `String(name)`; nothing else changes |
| Dashboard.Client.OnStatusUpdate | tentacle_preview_static/js/main.js:463-470 | a falsy payload is ignored; an array `tentacles` replaces the table; otherwise a truthy `tentacle` patches its row; anything else changes nothing |
| Dashboard.Client.ViewLogs | tentacle_preview_static/js/main.js:196-242 | the worker becomes current, both panes show loading, both logs are pulled, and both are requested over the socket exactly when it is connected |
| Dashboard.Client.LogsButtonOnClick | tentacle_preview_static/js/main.js:168-172 | without listeners (the last render threw) nothing happens; otherwise the whole `viewLogs` post-state for the name decoded from the row's escaped cell, which is the row's key: current worker, loading panes, both pulls, and both socket requests when connected |
| Dashboard.Client.ShowRestartModal | tentacle_preview_static/js/main.js:428-434 | only the current worker changes |
| Dashboard.Client.RestartRowButtonOnClick | tentacle_preview_static/js/main.js:174-178 | without listeners (the last render threw) nothing happens; otherwise the row's own key becomes current for the restart dialog and nothing else changes |
| Dashboard.Client.RestartButtonOnClick | tentacle_preview_static/js/main.js:58-63 | no request without a non-empty current worker; otherwise exactly one restart request for it |
| Dashboard.Client.RefreshLogsButtonOnClick | tentacle_preview_static/js/main.js:51-56 | without a non-empty current worker nothing; otherwise its build and start logs are pulled, in that order |
| Dashboard.Client.UpdateBuildLogs | tentacle_preview_static/js/main.js:313-398 | the tabs, the panes and the thrown error are those of `BuildLogs.UpdateBuildLogs` on the previous tabs; nothing else changes |
| Dashboard.Client.RebuildTabs | tentacle_preview_static/js/main.js:335-383 | the loop leaves exactly the rendered tabs and panes for the commands before the first null one, and reports where it stopped |
| Dashboard.Client.UpdateLogsContent | tentacle_preview_static/js/main.js:308-311 | `build` goes to the build tabs, `start` to the start pane, any other type changes nothing |
| Dashboard.Client.ShowLoadError | tentacle_preview_static/js/main.js:248-253 | the error alert replaces the build panes or the start pane; another type changes nothing |
| Dashboard.Client.LogsResponse | tentacle_preview_static/js/main.js:244-254 | a successful pull updates the pane of its log type; a failed one shows its message there |
| Dashboard.Client.AppendStartLogLine | tentacle_preview_static/js/main.js:413-426 | the start pane becomes `AppendStartLine` of itself; nothing else changes |
| Dashboard.Client.OnLogsUpdate | tentacle_preview_static/js/main.js:472-486 | an update not addressed to the current worker changes nothing; a streamed one appends only a start line; otherwise it replaces the pane of its type |
| Dashboard.Client.OnConnect | tentacle_preview_static/js/main.js:452-456 | connected, and the status is requested once |
| Dashboard.Client.OnDisconnect | tentacle_preview_static/js/main.js:458-461 | not connected, so the timer pulls again; nothing else changes |
| Dashboard.Client.InitWebSocket | tentacle_preview_static/js/main.js:438-450 | nothing while connected unless forced; otherwise the old socket, if any, is closed, then exactly one new socket is opened, not yet connected |
| Dashboard.Client.RefreshTableButtonOnClick | tentacle_preview_static/js/main.js:46-49 | one pull, then a forced reconnect |
| Dashboard.Client.ReloadSystemLogs | tentacle_preview_static/js/main.js:256-259 | the system log is cleared and one pull sent |
| Dashboard.Client.SystemLogsResponse | tentacle_preview_static/js/main.js:256-264 | a successful array appends the lines of its entries, in order, up to the first null one; otherwise the pane is kept |
| Dashboard.Client.OnSystemLogsUpdate | tentacle_preview_static/js/main.js:497-500 | a pushed entry adds at most one line, as `AddSystemLogLine` says |
| WebSocketManagerModel.Dispatch | tentacle_preview_static/js/websocket.js:58-62 | a trigger calls every callback of the event once, in registration order, with the data; an unknown event calls nothing |
| WebSocketManagerModel.RegisterKeepsKeys | tentacle_preview_static/js/websocket.js:52-56 | registering never adds or removes an event name |
| WebSocketManagerModel.RegisterThenDispatch | tentacle_preview_static/js/websocket.js:52-62 | after `on(e, cb)` triggering `e` calls what it called before and then `cb`; other events are unaffected; an unknown event stays silent |
| WebSocketManagerModel.IndicatorFor | tentacle_preview_static/js/websocket.js:64-75 | the online class exactly when connected, the offline class exactly when not |
| WebSocketManagerModel.WebSocketManager.constructor | tentacle_preview_static/js/websocket.js:2-10 | no socket, not connected, the three events with no callbacks |
| WebSocketManagerModel.WebSocketManager.Connect | tentacle_preview_static/js/websocket.js:12-44 | one socket is opened; the connected flag and the registry are kept |
| WebSocketManagerModel.WebSocketManager.Send | tentacle_preview_static/js/websocket.js:46-50 | the event is emitted exactly when connected with a socket |
| WebSocketManagerModel.WebSocketManager.On | tentacle_preview_static/js/websocket.js:52-56 | the callback joins the end of a known event's list and no other list changes; an inherited property name throws |
| WebSocketManagerModel.WebSocketManager.Trigger | tentacle_preview_static/js/websocket.js:58-62 | the calls made are exactly `Dispatch`; an inherited property name throws |
| WebSocketManagerModel.WebSocketManager.UpdateConnectionStatus | tentacle_preview_static/js/websocket.js:64-75 | with the badge on the page it shows the given state; without it nothing is written |
| WebSocketManagerModel.WebSocketManager.OnConnect | tentacle_preview_static/js/websocket.js:16-21 | connected, `connection_change` with `connected: true` dispatched, green badge |
| WebSocketManagerModel.WebSocketManager.OnDisconnect | tentacle_preview_static/js/websocket.js:23-28 | not connected, `connection_change` with `connected: false` dispatched, grey badge |
| WebSocketManagerModel.WebSocketManager.OnStatusUpdate | tentacle_preview_static/js/websocket.js:30-32 | the pushed data is dispatched to the `status_update` callbacks |
| WebSocketManagerModel.WebSocketManager.OnLogsUpdate | tentacle_preview_static/js/websocket.js:34-36 | the pushed data is dispatched to the `logs_update` callbacks |
| WebSocketManagerModel.WebSocketManager.OnConnectError | tentacle_preview_static/js/websocket.js:38-40 | a connection error changes no field: the flag keeps its value |
| WebSocketManagerModel.WebSocketManager.Disconnect | tentacle_preview_static/js/websocket.js:77-81 | the socket, if any, is asked to close; nothing else changes |
| GitUtils.ParseMode | TentaclePreview/git_utils.py:11-17 | exactly `"exclude"` and `"include"` are modes |
| GitUtils.Select | TentaclePreview/git_utils.py:23-24 | the kept branches are exactly the input's branches the mode's rule accepts |
| GitUtils.FilterBranches | TentaclePreview/git_utils.py:7-26 | with no filter list, `None` or empty, every branch whatever the mode; with one, `ValueError` exactly for an unknown mode |
| GitUtils.SelectIsSubsequence | TentaclePreview/git_utils.py:23-24 | filtering keeps the repository's order |
| GitUtils.FilteredBranches | TentaclePreview/git_utils.py:7-26 | "exclude" keeps exactly the branches not named, "include" exactly those named, both in order |
| GitUtils.ModesPartition | TentaclePreview/git_utils.py:11-15 | for the same list the two modes split the branches: each lands in exactly one result, as often as it occurs |
| CommandTemplate.Render | TentaclePreview/tentacle.py:88-93 | the command is rendered left to right, and the first bad field decides the error; a `KeyError` always names a keyword field that the context lacks |
| CommandTemplate.RenderLiteralPrefix | TentaclePreview/tentacle.py:88-93 | text without braces is copied as it stands, and what follows it renders on its own |
| CommandTemplate.RenderFieldThen | TentaclePreview/tentacle.py:88-93 | a leading named field gives its value followed by the rest rendered; a missing name raises `KeyError(name)`, whatever follows |
| CommandTemplate.FirstMissingKeyDecides | TentaclePreview/tentacle.py:88-93 | the first field that names a missing key decides the result; nothing after it is looked at |
| CommandTemplate.RenderPlain | TentaclePreview/tentacle.py:88-93 | a command without braces runs as written, whatever the context |
| CommandTemplate.RenderWider | TentaclePreview/tentacle.py:147-153 | a command that renders in a context renders the same in any larger one |
| CommandTemplate.RenderField | TentaclePreview/tentacle.py:88-93 | a named field `{name}` (not empty, not all digits, no access, conversion or spec) renders to the context's value of `name`, and raises `KeyError(name)` when the name is absent |
| CommandTemplate.RenderPositional | TentaclePreview/tentacle.py:88-93 | `{}` and `{0}`, `{1}`, … raise `IndexError`, because `format(**context)` passes no positional argument |
| Tentacles.CheckCommands | TentaclePreview/tentacle.py:34-35 | no error exactly when both `start` and `build` are configured |
| Tentacles.BuildSteps | TentaclePreview/tentacle.py:98-100 | a single command is one step; a list is its steps in order |
| Tentacles.StartContextWithinBuildContext | TentaclePreview/tentacle.py:147-153 | the start context is part of the build context with the same values; `{branch}` renders in a build step and raises `KeyError('branch')` in the start command |
| Tentacles.RunSteps | TentaclePreview/tentacle.py:95-132 | the build succeeds exactly when no error is recorded, and a failed step never also escapes |
| Tentacles.RunStepsAt | TentaclePreview/tentacle.py:105-129 | a blank step is skipped, a step that fails to render escapes, a rendered step runs and its outcome decides whether the loop goes on |
| Tentacles.StopAt | TentaclePreview/tentacle.py:105-129 | every step before the stop passes, and the step at the stop does not |
| Tentacles.BuildRunsUpToStop | TentaclePreview/tentacle.py:105-129 | the commands run are the rendered non-blank steps up to and including the one the build stops at |
| Tentacles.BuildOutcomeAtStop | TentaclePreview/tentacle.py:105-129 | the build fails exactly when the step it stops at ran and exited non-zero, recording that step's stderr; it escapes exactly on a render failure or another exception |
| Tentacles.CleanBuild | TentaclePreview/tentacle.py:95-132 | when every step renders and exits zero the build succeeds, with no error, after running every non-blank step |
| Tentacles.RunBuildSteps | TentaclePreview/tentacle.py:105-129 | the loop's report is `RunSteps` |
| Tentacles.StatusLabel | TentaclePreview/tentacle.py:269-277 | `STARTED` exactly when started, `BUILT` exactly when built and not started, `OFF` otherwise |
| Tentacles.StatusEnding | TentaclePreview/tentacle.py:269-277 | text that closes on the status word closes on exactly one of `, STARTED)`, `, BUILT)`, `, OFF)`: the one the flags decide |
| Tentacles.UpdateRequired | TentaclePreview/tentacle.py:232-237 | no update is needed exactly when a local head exists and equals the remote commit |
| Tentacles.Tentacle.constructor | TentaclePreview/tentacle.py:18-50 | name, path, commands, host `127.0.0.1` and port are set; no process, no flags, no errors |
| Tentacles.Tentacle.Create | TentaclePreview/tentacle.py:18-50 | a `ValueError` exactly when `start` or `build` is missing; otherwise a fresh worker in its initial state |
| Tentacles.Tentacle.Build | TentaclePreview/tentacle.py:95-132 | flag, error and commands run are those of `RunSteps` over the build steps with the worker's context; an escaping exception is returned; nothing else changes |
| Tentacles.Tentacle.Start | TentaclePreview/tentacle.py:134-174 | a running process or no start command changes nothing; a start command that fails to render escapes; otherwise it is launched and the flag records whether `Popen` succeeded |
| Tentacles.Tentacle.Stop | TentaclePreview/tentacle.py:176-200 | afterwards there is no process, every other field is kept, and `__str__` reads as before |
| Tentacles.Tentacle.ProcessExits | TentaclePreview/tentacle.py:137 | the server exits on its own: `poll()` now gives its code, so `start` may launch again |
| Tentacles.Tentacle.Update | TentaclePreview/tentacle.py:78-86 | the whole new state: stop; a failed fetch raises with no build and no start; otherwise build, then start only if the build did not raise, with each start case as `start` gives it; `update_required` is unchanged |
| Tentacles.Tentacle.Describe | TentaclePreview/tentacle.py:269-277 | `__str__` starts with `BranchServer(`, the name and `, on port:`; it ends with `, STARTED)` exactly when started, `, BUILT)` exactly when built and not started, and `, OFF)` otherwise |

## Left out

- Transport is not modelled: `fetch`, Socket.IO and JSON parsing. Responses and pushes arrive as method arguments.
- Bootstrap is not modelled: modals, tab instances and notifications. Neither is scrolling or console output, because none of them holds state the client reads back.
- `encodeURIComponent` in request paths and links is not modelled, because a request names the worker by its name.
- `CSS.escape` in the row lookup is not modelled. The lookup compares the row key with the name directly.
- JavaScript numbers are modelled as integers, with no floating point and no `NaN`.
- `connection_status` and `connect_error` in `main.js` are not modelled apart from their effect on `wsConnected`. They only log.
- The system-log buttons (`main.js:65-74`) are modelled only through `ReloadSystemLogs`. The modal's `show` is not part of the model.
- The restart pull's response is not modelled, because the page only logs it.
- `Dashboard.Client.InitWebSocket` does not model `socket.disconnect()` firing the old socket's `disconnect` handler synchronously. The model ends in the same state: not connected, with a new socket.
- The callbacks a `WebSocketManager` calls are opaque identities, so their own effects are not modelled.
- output.py, tentacle_preview.py, app.py and branch_server.py are not part of this model.
- Cloning and loading the working copy are not modelled. `repo_url` and `get_branch` by name are not modelled either. The commit checked out is an input.
- `_find_free_port` is not modelled. The port is an input (a `nat`), so `self.port or 0` is the port itself.
- The type checks of `__init__` are not modelled, because the model's types rule those cases out.
- The `host` and `port` setters are not modelled. The host is the constant `127.0.0.1`.
- CommandTemplate.Render: a field with attribute or index access (`{a.b}`, `{a[0]}`), a conversion (`{a!r}`), a format spec (`{a:>5}`) or a nested brace gives the error `Unsupported`. Python would render it or raise another error, because `format` evaluates those parts. Numeric fields count only ASCII digits.
- Paths are modelled as strings joined with `/`.
- The signal, timeout and kill paths of `stop()` are not modelled. Every one of them ends with no process, which is what the model keeps.
- Dashboard.Client.RefreshData, Dashboard.Client.TentaclesResponse, Dashboard.Client.PollTick, Dashboard.Client.RefreshTableButtonOnClick and Dashboard.Client.constructor run the corrected refresh button of the finding below: a shared count of pulls in flight, with the idle look restored when it reaches zero. They do not carry each call's own saved `disabled`/HTML copy. So after overlapping pulls they show the idle button, where the page as written stays disabled. `RefreshButton.RunAsWritten` and `RefreshButton.OverlappingCallsStayBusy` model the as-written behaviour.
- Subprocess internals are not modelled. The fetch in `update()` is an input (`FetchOutcome`) as well. Each build step's result and the `Popen` outcome are inputs. A start command that is a list is handed to `Popen` unchanged.
- Log output is not modelled: `log(...)` and its status colours.

## Findings

| source | as written | input that shows it | evidently intended | confidence | as-written member | corrected member |
|---|---|---|---|---|---|---|
| tentacle_preview_static/js/main.js:109-131 | each call saves the button's current `disabled` and HTML before disabling it, and restores the saved copy when its pull settles | two pulls started before the first settles (a timer tick during a slow refresh): Begin, Begin, Settle(0), Settle(1). The second call saves the busy look, so the button stays disabled | the button returns to its idle look once no pull is outstanding | not executed, medium | RefreshButton.OverlappingCallsStayBusy | RefreshButton.GuardedRestores |
