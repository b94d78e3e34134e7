/**
 * The build-log tabs of the log modal (`#buildCommandTabs` and
 * `#buildCommandTabContent` in tentacle_preview_static/js/main.js).
 */
module BuildLogs {
  import opened Wrappers
  import opened JsValue

  /** A `.nav-link` in the tabs container, in document order. */
  datatype TabHead = TabHead(text: string, active: bool)

  /** A `.tab-pane` in the content container. */
  datatype Pane = Pane(tabId: string, output: string, active: bool)

  /** What the content container shows. */
  datatype BuildContent = Panes(panes: seq<Pane>) | NoLogsNotice | ErrorAlert(message: string)

  /** The spinner link `viewLogs` puts up while the logs load. */
  const LoadingTabs: seq<TabHead> := [TabHead("Loading...", true)]

  /** The single link shown for an absent or empty command list. */
  const NoCommandsTabs: seq<TabHead> := [TabHead("No build commands", true)]

  /** At most one link is active, which every rendering below keeps. */
  predicate AtMostOneActive(tabs: seq<TabHead>) {
    forall i, j :: 0 <= i < j < |tabs| ==> !(tabs[i].active && tabs[j].active)
  }

  /** `tabs.querySelector(".nav-link.active")`: the first active link. */
  function FirstActive(tabs: seq<TabHead>): (r: Option<nat>)
    ensures r.None? <==> forall j :: 0 <= j < |tabs| ==> !tabs[j].active
    ensures r.Some? ==> r.value < |tabs| && tabs[r.value].active
    ensures r.Some? ==> forall j :: 0 <= j < r.value ==> !tabs[j].active
  {
    if tabs == [] then None
    else if tabs[0].active then Some(0)
    else match FirstActive(tabs[1..])
      case None => None
      case Some(k) => Some(k + 1)
  }

  /** `currentActiveIndex`: the position of the active link, 0 when there is none. */
  function PreviousActiveIndex(tabs: seq<TabHead>): nat {
    match FirstActive(tabs)
    case None => 0
    case Some(k) => k
  }

  function Min(a: int, b: int): int {
    if a <= b then a else b
  }

  /**
   * The `isActive` rule: the last tab when the list is longer than the
   * previous index + 1, otherwise the previous index clamped to the list.
   * The second branch is reached only when `count - 1 <= previous`, where
   * the clamp is `count - 1` again: the last tab is active whatever the
   * previous selection was.
   */
  function IsActiveTab(idx: nat, count: nat, previous: nat): (active: bool)
    requires idx < count
    ensures active <==> idx == count - 1
  {
    if count > previous + 1 then idx == count - 1 else idx == Min(previous, count - 1)
  }

  /** `cmd.command || `cmd-${idx}``, as the tab's text. */
  function CommandLabel(cmd: Json, idx: nat): string
    requires !cmd.IsNullish()
  {
    ToString(Or(Field(cmd, "command"), Str("cmd-" + NatToDecimal(idx))))
  }

  /** `cmd.output || "(No output)"`, as the pane's text. */
  function CommandOutput(cmd: Json): string
    requires !cmd.IsNullish()
  {
    ToString(Or(Field(cmd, "output"), Str("(No output)")))
  }

  function TabId(idx: nat): string {
    "build-command-" + NatToDecimal(idx)
  }

  function TabFor(cmds: seq<Json>, idx: nat, previous: nat): TabHead
    requires idx < |cmds| && !cmds[idx].IsNullish()
  {
    TabHead(CommandLabel(cmds[idx], idx), IsActiveTab(idx, |cmds|, previous))
  }

  function PaneFor(cmds: seq<Json>, idx: nat, previous: nat): Pane
    requires idx < |cmds| && !cmds[idx].IsNullish()
  {
    Pane(TabId(idx), CommandOutput(cmds[idx]), IsActiveTab(idx, |cmds|, previous))
  }

  /** The `forEach` output: one tab and one pane per command up to the first null one. */
  function RenderedTabs(cmds: seq<Json>, previous: nat): (tabs: seq<TabHead>)
    ensures |tabs| == LeadingValues(cmds)
  {
    seq(LeadingValues(cmds), i requires 0 <= i < LeadingValues(cmds) => TabFor(cmds, i, previous))
  }

  function RenderedPanes(cmds: seq<Json>, previous: nat): (panes: seq<Pane>)
    ensures |panes| == LeadingValues(cmds)
  {
    seq(LeadingValues(cmds), i requires 0 <= i < LeadingValues(cmds) => PaneFor(cmds, i, previous))
  }

  /** The rendered tabs and panes grow by one command at a time. */
  lemma RenderedGrow(cmds: seq<Json>, previous: nat, idx: nat)
    requires idx < LeadingValues(cmds)
    ensures RenderedTabs(cmds, previous)[..idx + 1] == RenderedTabs(cmds, previous)[..idx] + [TabFor(cmds, idx, previous)]
    ensures RenderedPanes(cmds, previous)[..idx + 1] == RenderedPanes(cmds, previous)[..idx] + [PaneFor(cmds, idx, previous)]
  {
    var tabs, panes := RenderedTabs(cmds, previous), RenderedPanes(cmds, previous);
    assert tabs[idx] == TabFor(cmds, idx, previous);
    assert panes[idx] == PaneFor(cmds, idx, previous);
    assert tabs[..idx + 1] == tabs[..idx] + [tabs[idx]];
    assert panes[..idx + 1] == panes[..idx] + [panes[idx]];
  }

  /**
   * Tab `i` and pane `i` show command `i`, pane `i` carries the id
   * `build-command-i`, and the two are active together; a tab
   * is active exactly when it is the last one and no command was null.
   */
  lemma RenderedFacts(cmds: seq<Json>, previous: nat)
    ensures var tabs, panes := RenderedTabs(cmds, previous), RenderedPanes(cmds, previous);
      forall i :: 0 <= i < |tabs| ==>
        tabs[i].text == CommandLabel(cmds[i], i) && panes[i].output == CommandOutput(cmds[i]) &&
        panes[i].tabId == TabId(i) && tabs[i].active == panes[i].active &&
        (tabs[i].active <==> LeadingValues(cmds) == |cmds| && i == |cmds| - 1)
    ensures AtMostOneActive(RenderedTabs(cmds, previous))
  {
    var tabs, panes := RenderedTabs(cmds, previous), RenderedPanes(cmds, previous);
    forall i | 0 <= i < |tabs|
      ensures tabs[i].text == CommandLabel(cmds[i], i) && panes[i].output == CommandOutput(cmds[i])
      ensures panes[i].tabId == TabId(i)
      ensures tabs[i].active == panes[i].active
      ensures tabs[i].active <==> LeadingValues(cmds) == |cmds| && i == |cmds| - 1
    {
      assert tabs[i] == TabFor(cmds, i, previous) && panes[i] == PaneFor(cmds, i, previous);
    }
  }

  /** The logs value counts as a command list (`!logs || !Array.isArray(logs) || logs.length === 0` is false). */
  predicate HasCommands(logs: Json) {
    logs.Truthy() && logs.Arr? && |logs.elems| > 0
  }

  /** The containers after `updateBuildLogs`, and the TypeError it threw part-way, if any. */
  datatype BuildView = BuildView(tabs: seq<TabHead>, content: BuildContent, thrown: Option<string>)

  /**
   * `updateBuildLogs(logs)` on tab links `tabs`. No command list gives the
   * placeholder. Otherwise the tabs and panes are rebuilt in command order;
   * when no command is null exactly one tab and its pane are active, the
   * last one, whichever link was active before; a null command stops the
   * rebuild there with a TypeError and leaves no tab active.
   */
  function UpdateBuildLogs(tabs: seq<TabHead>, logs: Json): (v: BuildView)
    ensures !HasCommands(logs) ==> v == BuildView(NoCommandsTabs, NoLogsNotice, None)
    ensures HasCommands(logs) ==> v.content.Panes? && |v.tabs| == |v.content.panes| == LeadingValues(logs.elems)
    ensures HasCommands(logs) ==> forall i :: 0 <= i < |v.tabs| ==>
      v.tabs[i].text == CommandLabel(logs.elems[i], i) && v.content.panes[i].output == CommandOutput(logs.elems[i]) &&
      v.tabs[i].active == v.content.panes[i].active
    ensures HasCommands(logs) && LeadingValues(logs.elems) == |logs.elems| ==>
      v.thrown.None? && |v.tabs| == |logs.elems| &&
      v.tabs[|v.tabs| - 1].active && forall i :: 0 <= i < |v.tabs| - 1 ==> !v.tabs[i].active
    ensures HasCommands(logs) && LeadingValues(logs.elems) < |logs.elems| ==>
      v.thrown == Some(NullReadMessage(logs.elems[LeadingValues(logs.elems)], "command")) &&
      forall i :: 0 <= i < |v.tabs| ==> !v.tabs[i].active
    ensures AtMostOneActive(v.tabs)
  {
    if !HasCommands(logs) then BuildView(NoCommandsTabs, NoLogsNotice, None)
    else
      var cmds, previous := logs.elems, PreviousActiveIndex(tabs);
      var n := LeadingValues(cmds);
      var thrown := if n < |cmds| then Some(NullReadMessage(cmds[n], "command")) else None;
      RenderedFacts(cmds, previous);
      BuildView(RenderedTabs(cmds, previous), Panes(RenderedPanes(cmds, previous)), thrown)
  }
}
