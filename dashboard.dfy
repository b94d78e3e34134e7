/**
 * The dashboard client of tentacle_preview_static/js/main.js as one object:
 * its globals (`currentTentacle`, `socket`, `wsConnected`), the parts of the
 * page it rewrites, and the requests it has sent. Every button, timer tick,
 * pushed event and settled pull is a method. A pull's request goes to
 * `outbox` when it is made; how it settled comes back later as the argument
 * of a response method, in whatever order the network delivers.
 */
module Dashboard {
  import opened Wrappers
  import opened JsValue
  import opened Html
  import opened StatusTable
  import opened BuildLogs
  import opened LogPanes
  import opened RefreshButton

  /** What the client sends: HTTP pulls and push-channel messages. */
  datatype Request =
    | GetTentacles                                       // GET /api/tentacles
    | GetLogs(tentacle: string, logType: string)         // GET /api/tentacles/<name>/logs/<type>
    | GetSystemLogs                                      // GET /api/tentacles/system-logs
    | RestartTentacle(tentacle: string, clean: bool)     // GET /api/tentacles/<name>/restart/<clean>
    | OpenChannel                                        // a new Socket.IO connection
    | CloseChannel                                       // `socket.disconnect()` of the previous one
    | EmitRequestStatus                                  // `request_status`
    | EmitRequestLogs(tentacle: string, logType: string) // `request_logs`

  /** How a pull settled: a response with its status and parsed body, or a rejected fetch. */
  datatype HttpOutcome = Response(status: int, body: Json) | Rejected(message: string)

  /** `resp.ok` */
  predicate Ok(status: int) {
    200 <= status <= 299
  }

  /**
   * `json[field]` of a pull answered with an ok status and a body that is
   * not null; otherwise the message of the Error the helper throws.
   */
  function Payload(outcome: HttpOutcome, field: string): (r: Result<Json, string>)
    ensures r.Success? <==> outcome.Response? && Ok(outcome.status) && !outcome.body.IsNullish()
    ensures r.Success? ==> r.value == Field(outcome.body, field)
    ensures outcome.Rejected? ==> r == Failure(outcome.message)
    ensures outcome.Response? && !Ok(outcome.status) ==> r == Failure("HTTP " + IntToDecimal(outcome.status))
  {
    match outcome
    case Rejected(m) => Failure(m)
    case Response(status, body) =>
      if !Ok(status) then Failure("HTTP " + IntToDecimal(status)) else Get(body, field)
  }

  /**
   * What `for (const t of list)` walks: an array's elements or a string's
   * characters. Any other value is not iterable: the loop throws before its
   * first step, after the table was emptied.
   */
  function Iterated(list: Json): (ts: seq<Json>)
    ensures list.Arr? ==> ts == list.elems
    ensures list.Str? ==> |ts| == |list.s| && forall i :: 0 <= i < |ts| ==> ts[i] == Str([list.s[i]])
    ensures !list.Arr? && !list.Str? ==> ts == []
  {
    match list
    case Arr(es) => es
    case Str(s) => seq(|s|, i requires 0 <= i < |s| => Str([s[i]]))
    case _ => []
  }

  /** The system-log entries a `forEach` over `es` applies before a null entry stops it. */
  function Entries(es: seq<Json>): (r: seq<Entry>)
    ensures |r| == LeadingValues(es)
    ensures forall i :: 0 <= i < |r| ==> r[i] == Entry(Field(es[i], "message"), Field(es[i], "log_type"))
  {
    seq(LeadingValues(es), i requires 0 <= i < LeadingValues(es) => Entry(Field(es[i], "message"), Field(es[i], "log_type")))
  }

  /** `currentTentacle` as a JavaScript value: `null` until a worker is chosen. */
  function CurrentAsJson(current: Option<string>): Json {
    match current
    case None => Null
    case Some(name) => Str(name)
  }

  /**
   * A pushed `logs_update` is for the worker on screen: the payload is
   * truthy and its `tentacle` is `===` to `currentTentacle`, so a payload
   * naming any other worker, or no worker once one is chosen, is dropped.
   */
  predicate AddressedTo(data: Json, current: Option<string>) {
    data.Truthy() && StrictEquals(Field(data, "tentacle"), CurrentAsJson(current))
  }

  /** The line a streamed start-log update carries, when it carries one. */
  function StreamedStartLine(data: Json): (line: Option<Json>)
    requires !data.IsNullish()
    ensures line.Some? <==>
      Field(data, "log_type") == Str("start") && Field(data, "logs").Truthy() && Field(Field(data, "logs"), "output").Truthy()
    ensures line.Some? ==> line.value == Field(Field(data, "logs"), "output") && line.value.Truthy()
  {
    var payload := Field(data, "logs");
    if Field(data, "log_type") == Str("start") && payload.Truthy() && Field(payload, "output").Truthy()
    then Some(Field(payload, "output"))
    else None
  }

  /** Every field of the client at one moment. */
  datatype ClientState = ClientState(
    rows: seq<Row>,
    rowButtonsLive: bool,
    currentTentacle: Option<string>,
    hasSocket: bool,
    wsConnected: bool,
    buildTabs: seq<TabHead>,
    buildContent: BuildContent,
    startPane: StartPane,
    systemLog: seq<SystemLine>,
    refreshButton: Guarded,
    outbox: seq<Request>)

  class Client {
    var rows: seq<Row>                  // `#tentacles-tbody`
    var rowButtonsLive: bool            // the rows' Logs and Restart buttons have their click listeners
    var currentTentacle: Option<string> // `currentTentacle`
    var hasSocket: bool                 // `socket !== null`
    var wsConnected: bool               // `wsConnected`
    var buildTabs: seq<TabHead>         // `#buildCommandTabs`
    var buildContent: BuildContent      // `#buildCommandTabContent`
    var startPane: StartPane            // `#start-logs-content`
    var systemLog: seq<SystemLine>      // `#tentaclePreview-logs-container`
    var refreshButton: Guarded          // `#refreshButton` and its outstanding pulls
    var outbox: seq<Request>            // every request sent, oldest first

    function State(): ClientState
      reads this
    {
      ClientState(rows, rowButtonsLive, currentTentacle, hasSocket, wsConnected, buildTabs, buildContent,
                  startPane, systemLog, refreshButton, outbox)
    }

    /**
     * Kept by every handler: the connected flag implies a socket, at most
     * one build tab is active, and the
     * refresh button is busy while a pull is outstanding.
     */
    ghost predicate Valid()
      reads this
    {
      (wsConnected ==> hasSocket) && AtMostOneActive(buildTabs) && Inv(refreshButton)
    }

    /** `DOMContentLoaded`: the first pull and the first socket; the button starts as `idle`. */
    constructor(idle: Button)
      ensures Valid()
      ensures State() == ClientState([], true, None, true, false, [], Panes([]), Text(""), [],
                                     BeginRefresh(Guarded(idle, 0, idle)), [GetTentacles, OpenChannel])
    {
      rows := [];
      rowButtonsLive := true;
      currentTentacle := None;
      buildTabs := [];
      buildContent := Panes([]);
      startPane := Text("");
      systemLog := [];
      refreshButton := BeginRefresh(Guarded(idle, 0, idle));
      outbox := [GetTentacles];
      hasSocket := true;
      wsConnected := false;
      outbox := outbox + [OpenChannel];
    }

    /** `refreshData`, up to its `await`: the button goes busy and the pull is sent. */
    method RefreshData()
      requires Valid()
      modifies this
      ensures Valid()
      ensures State() == old(State()).(refreshButton := BeginRefresh(old(refreshButton)), outbox := old(outbox) + [GetTentacles])
    {
      refreshButton := BeginRefresh(refreshButton);
      outbox := outbox + [GetTentacles];
    }

    /** The fallback timer: a pull only while the push channel is down. */
    method PollTick()
      requires Valid()
      modifies this
      ensures Valid()
      ensures old(wsConnected) ==> State() == old(State())
      ensures !old(wsConnected) ==>
        State() == old(State()).(refreshButton := BeginRefresh(old(refreshButton)), outbox := old(outbox) + [GetTentacles])
    {
      if !wsConnected {
        RefreshData();
      }
    }

    /**
     * `renderTentacleTable(ts)`: the table is emptied and refilled in
     * record order; a null record stops the refill there, before the
     * buttons' click listeners are attached.
     */
    method RenderTentacleTable(ts: seq<Json>)
      requires Valid()
      modifies this
      ensures Valid()
      ensures State() == old(State()).(rows := RenderRows(ts), rowButtonsLive := LeadingValues(ts) == |ts|)
    {
      ghost var spec := RenderRows(ts);
      rows := [];
      var i := 0;
      while i < |ts| && !ts[i].IsNullish()
        invariant i <= |spec| == LeadingValues(ts)
        invariant rows == spec[..i] && rowButtonsLive == old(rowButtonsLive)
        invariant currentTentacle == old(currentTentacle) && hasSocket == old(hasSocket) && wsConnected == old(wsConnected)
        invariant buildTabs == old(buildTabs) && buildContent == old(buildContent) && startPane == old(startPane)
        invariant systemLog == old(systemLog) && refreshButton == old(refreshButton) && outbox == old(outbox)
      {
        var row := RowOf(ts[i]);
        assert spec[..i + 1] == spec[..i] + [row];
        rows := rows + [row];
        i := i + 1;
      }
      assert spec[..i] == spec;
      rowButtonsLive := i == |ts|;
    }

    /**
     * The pull of `refreshData` settled. On success the table is re-rendered
     * from `json.tentacles || []`; on any failure it is left as it was. In
     * both cases the button is handed back.
     */
    method TentaclesResponse(outcome: HttpOutcome)
      requires Valid()
      requires refreshButton.inFlight > 0
      modifies this
      ensures Valid()
      ensures Payload(outcome, "tentacles").Failure? ==>
        State() == old(State()).(refreshButton := SettleRefresh(old(refreshButton)))
      ensures Payload(outcome, "tentacles").Success? ==>
        var ts := Iterated(Or(Payload(outcome, "tentacles").value, Arr([])));
        State() == old(State()).(rows := RenderRows(ts), rowButtonsLive := LeadingValues(ts) == |ts|,
                                 refreshButton := SettleRefresh(old(refreshButton)))
    {
      var payload := Payload(outcome, "tentacles");
      if payload.Success? {
        RenderTentacleTable(Iterated(Or(payload.value, Arr([]))));
      }
      refreshButton := SettleRefresh(refreshButton);
    }

    /** `updateTentacleStatus(name, build, start)`: the two badges of the first row keyed `String(name)`. */
    method UpdateTentacleStatus(name: Json, build: Json, start: Json)
      requires Valid()
      modifies this
      ensures Valid()
      ensures State() == old(State()).(rows := PatchStatus(old(rows), ToString(name), build, start))
    {
      rows := PatchStatus(rows, ToString(name), build, start);
    }

    /**
     * A pushed `status_update`: a full list replaces the table, a delta for
     * one worker patches its row, anything else is ignored.
     */
    method OnStatusUpdate(data: Json)
      requires Valid()
      modifies this
      ensures Valid()
      ensures !data.Truthy() ==> State() == old(State())
      ensures data.Truthy() && Field(data, "tentacles").Arr? ==>
        var ts := Field(data, "tentacles").elems;
        State() == old(State()).(rows := RenderRows(ts), rowButtonsLive := LeadingValues(ts) == |ts|)
      ensures data.Truthy() && !Field(data, "tentacles").Arr? && Field(data, "tentacle").Truthy() ==>
        State() == old(State()).(rows := PatchStatus(old(rows), ToString(Field(data, "tentacle")),
                                                    Field(data, "build_status"), Field(data, "start_status")))
      ensures data.Truthy() && !Field(data, "tentacles").Arr? && !Field(data, "tentacle").Truthy() ==>
        State() == old(State())
    {
      if !data.Truthy() {
        return;
      }
      var list := Field(data, "tentacles");
      if list.Arr? {
        RenderTentacleTable(list.elems);
      } else if Field(data, "tentacle").Truthy() {
        UpdateTentacleStatus(Field(data, "tentacle"), Field(data, "build_status"), Field(data, "start_status"));
      }
    }

    /**
     * `viewLogs(name)`: the worker becomes current, both log panes show
     * their loading state, both logs are pulled, and both are requested over
     * the push channel when it is up.
     */
    method ViewLogs(name: string)
      requires Valid()
      modifies this
      ensures Valid()
      ensures State() == old(State()).(
        currentTentacle := Some(name), buildTabs := LoadingTabs, buildContent := Panes([]), startPane := Spinner,
        outbox := old(outbox) + [GetLogs(name, "build"), GetLogs(name, "start")] +
                  (if old(hasSocket && wsConnected) then [EmitRequestLogs(name, "start"), EmitRequestLogs(name, "build")] else []))
    {
      currentTentacle := Some(name);
      buildTabs := LoadingTabs;
      buildContent := Panes([]);
      startPane := Spinner;
      outbox := outbox + [GetLogs(name, "build"), GetLogs(name, "start")];
      if hasSocket && wsConnected {
        outbox := outbox + [EmitRequestLogs(name, "start"), EmitRequestLogs(name, "build")];
      }
    }

    /**
     * The Logs button of row `i`: once the listeners are attached, its
     * `data-tentacle` attribute decodes to the record's name, and
     * `viewLogs` runs for it. Without a listener the click does nothing.
     */
    method LogsButtonOnClick(i: nat)
      requires Valid()
      requires i < |rows|
      modifies this
      ensures Valid()
      ensures !old(rowButtonsLive) ==> State() == old(State())
      ensures old(rowButtonsLive) ==>
        var name := UnescapeText(old(rows[i].NameHtml()));
        State() == old(State()).(
          currentTentacle := Some(name), buildTabs := LoadingTabs, buildContent := Panes([]), startPane := Spinner,
          outbox := old(outbox) + [GetLogs(name, "build"), GetLogs(name, "start")] +
                    (if old(hasSocket && wsConnected) then [EmitRequestLogs(name, "start"), EmitRequestLogs(name, "build")] else []))
      ensures old(rowButtonsLive) && !old(rows[i].name).IsNullish() ==> currentTentacle == Some(old(rows[i].Key()))
    {
      if !rowButtonsLive {
        return;
      }
      NameCellDecodesToKey(rows[i]);
      ViewLogs(UnescapeText(rows[i].NameHtml()));
    }

    /** `showRestartModal(name)`: the worker becomes current for the restart dialog. */
    method ShowRestartModal(name: string)
      requires Valid()
      modifies this
      ensures Valid()
      ensures State() == old(State()).(currentTentacle := Some(name))
    {
      currentTentacle := Some(name);
    }

    /**
     * The Restart button of row `i`: once the listeners are attached, the
     * dialog is for the record's name. Without a listener the click does
     * nothing.
     */
    method RestartRowButtonOnClick(i: nat)
      requires Valid()
      requires i < |rows|
      modifies this
      ensures Valid()
      ensures !old(rowButtonsLive) ==> State() == old(State())
      ensures old(rowButtonsLive) ==> State() == old(State()).(currentTentacle := Some(UnescapeText(old(rows[i].NameHtml()))))
      ensures old(rowButtonsLive) && !old(rows[i].name).IsNullish() ==> currentTentacle == Some(old(rows[i].Key()))
    {
      if !rowButtonsLive {
        return;
      }
      NameCellDecodesToKey(rows[i]);
      ShowRestartModal(UnescapeText(rows[i].NameHtml()));
    }

    /** The dialog's two restart buttons: a restart of the current worker, if one is chosen. */
    method RestartButtonOnClick(clean: bool)
      requires Valid()
      modifies this
      ensures Valid()
      ensures (currentTentacle.None? || currentTentacle == Some("")) ==> State() == old(State())
      ensures currentTentacle.Some? && currentTentacle.value != "" ==>
        State() == old(State()).(outbox := old(outbox) + [RestartTentacle(currentTentacle.value, clean)])
    {
      if currentTentacle.None? || currentTentacle.value == "" {
        return;
      }
      outbox := outbox + [RestartTentacle(currentTentacle.value, clean)];
    }

    /** The Refresh button of the log dialog: both logs of the current worker are pulled again. */
    method RefreshLogsButtonOnClick()
      requires Valid()
      modifies this
      ensures Valid()
      ensures (currentTentacle.None? || currentTentacle == Some("")) ==> State() == old(State())
      ensures currentTentacle.Some? && currentTentacle.value != "" ==>
        State() == old(State()).(outbox := old(outbox) + [GetLogs(currentTentacle.value, "build"), GetLogs(currentTentacle.value, "start")])
    {
      if currentTentacle.None? || currentTentacle.value == "" {
        return;
      }
      outbox := outbox + [GetLogs(currentTentacle.value, "build"), GetLogs(currentTentacle.value, "start")];
    }

    /**
     * `updateBuildLogs(logs)`, rebuilding the tab links and panes one
     * command at a time. The result is the TypeError a null command throws.
     */
    method UpdateBuildLogs(logs: Json) returns (thrown: Option<string>)
      requires Valid()
      modifies this
      ensures Valid()
      ensures BuildView(buildTabs, buildContent, thrown) == BuildLogs.UpdateBuildLogs(old(buildTabs), logs)
      ensures State() == old(State()).(buildTabs := buildTabs, buildContent := buildContent)
    {
      if !HasCommands(logs) {
        buildTabs := NoCommandsTabs;
        buildContent := NoLogsNotice;
        return None;
      }
      var cmds := logs.elems;
      var previous := PreviousActiveIndex(buildTabs);
      var idx := RebuildTabs(cmds, previous);
      thrown := if idx < |cmds| then Some(NullReadMessage(cmds[idx], "command")) else None;
    }

    /**
     * The `forEach` over the commands in `updateBuildLogs`: both containers
     * are emptied, then one tab link and one pane are appended per command
     * until the first null one. Returns the index it stopped at.
     */
    method RebuildTabs(cmds: seq<Json>, previous: nat) returns (idx: nat)
      modifies this
      ensures idx == LeadingValues(cmds)
      ensures buildTabs == RenderedTabs(cmds, previous) && buildContent == Panes(RenderedPanes(cmds, previous))
      ensures State() == old(State()).(buildTabs := buildTabs, buildContent := buildContent)
    {
      buildTabs := [];
      buildContent := Panes([]);
      idx := 0;
      while idx < |cmds| && !cmds[idx].IsNullish()
        invariant idx <= LeadingValues(cmds)
        invariant buildTabs == RenderedTabs(cmds, previous)[..idx]
        invariant buildContent == Panes(RenderedPanes(cmds, previous)[..idx])
        invariant State() == old(State()).(buildTabs := buildTabs, buildContent := buildContent)
      {
        RenderedGrow(cmds, previous, idx);
        buildTabs := buildTabs + [TabFor(cmds, idx, previous)];
        buildContent := Panes(buildContent.panes + [PaneFor(cmds, idx, previous)]);
        idx := idx + 1;
      }
      assert RenderedTabs(cmds, previous)[..idx] == RenderedTabs(cmds, previous);
      assert RenderedPanes(cmds, previous)[..idx] == RenderedPanes(cmds, previous);
    }

    /** `updateLogsContent(logType, logs)`: the pane the type names is replaced; other types change nothing. */
    method UpdateLogsContent(logType: Json, logs: Json) returns (thrown: Option<string>)
      requires Valid()
      modifies this
      ensures Valid()
      ensures logType == Str("build") ==>
        var v := BuildLogs.UpdateBuildLogs(old(buildTabs), logs);
        thrown == v.thrown && State() == old(State()).(buildTabs := v.tabs, buildContent := v.content)
      ensures logType == Str("start") ==> thrown.None? && State() == old(State()).(startPane := StartLogsPane(logs))
      ensures logType != Str("build") && logType != Str("start") ==> thrown.None? && State() == old(State())
    {
      thrown := None;
      if logType == Str("build") {
        thrown := UpdateBuildLogs(logs);
      } else if logType == Str("start") {
        startPane := StartLogsPane(logs);
      }
    }

    /** The catch of `loadLogs`: an alert in the pane of that log type. */
    method ShowLoadError(logType: string, message: string)
      requires Valid()
      modifies this
      ensures Valid()
      ensures logType == "build" ==> State() == old(State()).(buildContent := ErrorAlert(message))
      ensures logType == "start" ==> State() == old(State()).(startPane := StartError(message))
      ensures logType != "build" && logType != "start" ==> State() == old(State())
    {
      if logType == "build" {
        buildContent := ErrorAlert(message);
      } else if logType == "start" {
        startPane := StartError(message);
      }
    }

    /**
     * The pull of `loadLogs(tentacle, logType)` settled. Whatever worker is
     * current now, the payload replaces that log type's pane; a failed pull,
     * or a null build command, puts an alert in the pane instead.
     */
    method LogsResponse(tentacle: string, logType: string, outcome: HttpOutcome)
      requires Valid()
      modifies this
      ensures Valid()
      ensures Payload(outcome, "logs").Failure? ==>
        var m := Payload(outcome, "logs").error;
        State() == old(State()).(buildContent := if logType == "build" then ErrorAlert(m) else old(buildContent),
                                 startPane := if logType == "start" then StartError(m) else old(startPane))
      ensures Payload(outcome, "logs").Success? && logType == "build" ==>
        var v := BuildLogs.UpdateBuildLogs(old(buildTabs), Payload(outcome, "logs").value);
        State() == old(State()).(buildTabs := v.tabs,
                                 buildContent := if v.thrown.Some? then ErrorAlert(v.thrown.value) else v.content)
      ensures Payload(outcome, "logs").Success? && logType == "start" ==>
        State() == old(State()).(startPane := StartLogsPane(Payload(outcome, "logs").value))
      ensures Payload(outcome, "logs").Success? && logType != "build" && logType != "start" ==>
        State() == old(State())
    {
      var payload := Payload(outcome, "logs");
      if payload.Failure? {
        ShowLoadError(logType, payload.error);
        return;
      }
      var thrown := UpdateLogsContent(Str(logType), payload.value);
      if thrown.Some? {
        ShowLoadError(logType, thrown.value);
      }
    }

    /** `appendStartLogLine(line)` */
    method AppendStartLogLine(line: Json)
      requires Valid()
      modifies this
      ensures Valid()
      ensures State() == old(State()).(startPane := AppendStartLine(old(startPane), line))
    {
      startPane := AppendStartLine(startPane, line);
    }

    /**
     * A pushed `logs_update`. A payload for another worker changes nothing;
     * a streamed start line is appended; a full payload replaces the pane of
     * its log type.
     */
    method OnLogsUpdate(data: Json)
      requires Valid()
      modifies this
      ensures Valid()
      ensures !AddressedTo(data, old(currentTentacle)) ==> State() == old(State())
      ensures AddressedTo(data, old(currentTentacle)) && Field(data, "stream") == Bool(true) ==>
        State() == old(State()).(startPane := match StreamedStartLine(data)
                                               case Some(line) => AppendStartLine(old(startPane), line)
                                               case None => old(startPane))
      ensures AddressedTo(data, old(currentTentacle)) && Field(data, "stream") != Bool(true) &&
              Field(data, "log_type") == Str("build") ==>
        var v := BuildLogs.UpdateBuildLogs(old(buildTabs), Field(data, "logs"));
        State() == old(State()).(buildTabs := v.tabs, buildContent := v.content)
      ensures AddressedTo(data, old(currentTentacle)) && Field(data, "stream") != Bool(true) &&
              Field(data, "log_type") == Str("start") ==>
        State() == old(State()).(startPane := StartLogsPane(Field(data, "logs")))
      ensures AddressedTo(data, old(currentTentacle)) && Field(data, "stream") != Bool(true) &&
              Field(data, "log_type") != Str("build") && Field(data, "log_type") != Str("start") ==>
        State() == old(State())
    {
      if !AddressedTo(data, currentTentacle) {
        return;
      }
      if Field(data, "stream") == Bool(true) {
        var line := StreamedStartLine(data);
        if line.Some? {
          AppendStartLogLine(line.value);
        }
        return;
      }
      var _ := UpdateLogsContent(Field(data, "log_type"), Field(data, "logs"));
    }

    /** The socket's `connect` event: the channel is up and the full status is requested. */
    method OnConnect()
      requires Valid()
      requires hasSocket
      modifies this
      ensures Valid()
      ensures State() == old(State()).(wsConnected := true, outbox := old(outbox) + [EmitRequestStatus])
    {
      wsConnected := true;
      outbox := outbox + [EmitRequestStatus];
    }

    /** The socket's `disconnect` and `connect_error` events: the channel is down, so the timer pulls again. */
    method OnDisconnect()
      requires Valid()
      modifies this
      ensures Valid()
      ensures State() == old(State()).(wsConnected := false)
    {
      wsConnected := false;
    }

    /**
     * `initWebSocket(force)`: nothing while connected unless forced;
     * otherwise the previous socket, if any, is closed before exactly one new
     * one is opened, not yet connected.
     */
    method InitWebSocket(force: bool)
      requires Valid()
      modifies this
      ensures Valid()
      ensures old(hasSocket && wsConnected) && !force ==> State() == old(State())
      ensures !(old(hasSocket && wsConnected) && !force) ==>
        State() == old(State()).(hasSocket := true, wsConnected := false,
                                 outbox := old(outbox) + (if old(hasSocket) then [CloseChannel] else []) + [OpenChannel])
    {
      if hasSocket && wsConnected && !force {
        return;
      }
      if hasSocket {
        outbox := outbox + [CloseChannel];
        hasSocket := false;
        wsConnected := false;
      }
      hasSocket := true;
      outbox := outbox + [OpenChannel];
    }

    /**
     * The table's Refresh button: a pull and a forced reconnect. A disabled
     * button delivers no click, so on the page this runs only while the
     * button is enabled; the contract holds in every state, because the
     * interval poll overlaps pulls in any case.
     */
    method RefreshTableButtonOnClick()
      requires Valid()
      modifies this
      ensures Valid()
      ensures State() == old(State()).(
        hasSocket := true, wsConnected := false, refreshButton := BeginRefresh(old(refreshButton)),
        outbox := old(outbox) + [GetTentacles] + (if old(hasSocket) then [CloseChannel] else []) + [OpenChannel])
    {
      RefreshData();
      InitWebSocket(true);
    }

    /** `reloadSystemLogs`, up to its `await`: the pane is cleared and the pull sent. */
    method ReloadSystemLogs()
      requires Valid()
      modifies this
      ensures Valid()
      ensures State() == old(State()).(systemLog := [], outbox := old(outbox) + [GetSystemLogs])
    {
      systemLog := [];
      outbox := outbox + [GetSystemLogs];
    }

    /**
     * The system-log pull settled: on success with an array of entries, the
     * entries up to the first null one are appended in order; otherwise the
     * pane keeps what it has.
     */
    method SystemLogsResponse(outcome: HttpOutcome)
      requires Valid()
      modifies this
      ensures Valid()
      ensures Payload(outcome, "logs").Success? && Payload(outcome, "logs").value.Arr? ==>
        State() == old(State()).(systemLog := Replay(old(systemLog), Entries(Payload(outcome, "logs").value.elems)))
      ensures !(Payload(outcome, "logs").Success? && Payload(outcome, "logs").value.Arr?) ==> State() == old(State())
    {
      var payload := Payload(outcome, "logs");
      if !(payload.Success? && payload.value.Arr?) {
        return;
      }
      var es := payload.value.elems;
      var i := 0;
      while i < |es| && !es[i].IsNullish()
        invariant i <= LeadingValues(es)
        invariant systemLog == Replay(old(systemLog), Entries(es)[..i])
        invariant State() == old(State()).(systemLog := systemLog)
      {
        ReplaySnoc(old(systemLog), Entries(es)[..i], Entries(es)[i]);
        assert Entries(es)[..i + 1] == Entries(es)[..i] + [Entries(es)[i]];
        systemLog := AddSystemLogLine(systemLog, Field(es[i], "message"), Field(es[i], "log_type"));
        i := i + 1;
      }
      assert Entries(es)[..i] == Entries(es);
    }

    /** A pushed `system_logs_update`: one line for an entry with a message. */
    method OnSystemLogsUpdate(entry: Json)
      requires Valid()
      modifies this
      ensures Valid()
      ensures entry.IsNullish() ==> State() == old(State())
      ensures !entry.IsNullish() ==>
        State() == old(State()).(systemLog := AddSystemLogLine(old(systemLog), Field(entry, "message"), Field(entry, "log_type")))
    {
      if entry.IsNullish() {
        return;
      }
      systemLog := AddSystemLogLine(systemLog, Field(entry, "message"), Field(entry, "log_type"));
    }
  }
}
