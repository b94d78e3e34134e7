/**
 * The start-log pane (`#start-logs-content`) and the system-log pane
 * (`#tentaclePreview-logs-container`) of tentacle_preview_static/js/main.js.
 */
module LogPanes {
  import opened JsValue

  /** What the start-log pane holds. */
  datatype StartPane =
    | Spinner                    // the loading placeholder `viewLogs` puts up
    | Text(text: string)         // plain text set through `textContent`
    | StartError(message: string) // the inline alert of a failed load

  const NoStartLogs := "No start logs available"

  /** The alert's text: the escaped message decodes back to the message. */
  const ErrorPrefix := "Ошибка: "

  /**
   * The text `appendStartLogLine` finds before it appends: the spinner is
   * cleared first, so it contributes nothing.
   */
  function TextBefore(p: StartPane): string {
    match p
    case Spinner => ""
    case Text(t) => t
    case StartError(m) => ErrorPrefix + m
  }

  /**
   * `appendStartLogLine(line)`: the earlier text stays a prefix, a newline
   * separates it from the line only when it is non-empty, and the line comes
   * last.
   */
  function AppendStartLine(p: StartPane, line: Json): (r: StartPane)
    ensures r.Text?
    ensures TextBefore(p) <= r.text
    ensures TextBefore(p) == "" ==> r.text == ToString(line)
    ensures TextBefore(p) != "" ==> r.text == TextBefore(p) + "\n" + ToString(line)
  {
    var before := TextBefore(p);
    Text(before + (if before != "" then "\n" else "") + ToString(line))
  }

  /** `logs` is a non-empty array (`!logs || !Array.isArray(logs) || logs.length === 0` is false). */
  predicate HasLines(logs: Json) {
    logs.Truthy() && logs.Arr? && |logs.elems| > 0
  }

  /** `updateStartLogs(logs)`: a full replace of the pane by the lines joined with newlines. */
  function StartLogsPane(logs: Json): (r: StartPane)
    ensures r.Text?
    ensures !HasLines(logs) ==> r.text == NoStartLogs
    ensures HasLines(logs) ==> r.text == JoinElements(logs.elems, "\n")
  {
    if !HasLines(logs) then Text(NoStartLogs) else Text(JoinElements(logs.elems, "\n"))
  }

  /** A server payload of plain text lines. */
  function LinesPayload(lines: seq<string>): (v: Json)
    ensures v.Arr? && |v.elems| == |lines|
  {
    Arr(seq(|lines|, i requires 0 <= i < |lines| => Str(lines[i])))
  }

  lemma JoinOfLines(lines: seq<string>)
    ensures JoinElements(LinesPayload(lines).elems, "\n") == JoinStrings(lines, "\n")
  {
    var es := LinesPayload(lines).elems;
    forall i | 0 <= i < |es| ensures JoinPiece(es[i]) == lines[i] {
      assert es[i] == Str(lines[i]);
    }
    assert seq(|es|, i requires 0 <= i < |es| => JoinPiece(es[i])) == lines;
  }

  /**
   * Stream and replace agree: appending a streamed line to a pane that a
   * full replace filled with non-empty text gives what a full replace with
   * the longer list gives.
   */
  lemma {:induction false} StreamAgreesWithReplace(lines: seq<string>, line: string)
    requires |lines| > 0
    requires JoinStrings(lines, "\n") != ""
    ensures AppendStartLine(StartLogsPane(LinesPayload(lines)), Str(line)) == StartLogsPane(LinesPayload(lines + [line]))
  {
    JoinOfLines(lines);
    JoinOfLines(lines + [line]);
    JoinAppend(lines, line, "\n");
  }

  lemma {:induction false} JoinAppend(ss: seq<string>, s: string, sep: string)
    requires |ss| > 0
    ensures JoinStrings(ss + [s], sep) == JoinStrings(ss, sep) + sep + s
  {
    if |ss| == 1 {
      assert (ss + [s])[1..] == [s];
    } else {
      assert (ss + [s])[1..] == ss[1..] + [s];
      JoinAppend(ss[1..], s, sep);
    }
  }

  /** Position of the first newline, or |s| when there is none. */
  function NewlineAt(s: string): (k: nat)
    ensures k <= |s|
    ensures forall i :: 0 <= i < k ==> s[i] != '\n'
    ensures k < |s| ==> s[k] == '\n'
  {
    if s == [] || s[0] == '\n' then 0 else 1 + NewlineAt(s[1..])
  }

  /** The pane's text cut at its newlines: the lines the operator reads. */
  function SplitLines(s: string): (r: seq<string>)
    ensures |r| >= 1
    decreases |s|
  {
    var k := NewlineAt(s);
    if k == |s| then [s] else [s[..k]] + SplitLines(s[k + 1..])
  }

  /** A full replace shows every line, none merged or lost, as long as no line holds a newline. */
  lemma {:induction false} SplitJoinedLines(lines: seq<string>)
    requires |lines| > 0
    requires forall i :: 0 <= i < |lines| ==> '\n' !in lines[i]
    ensures SplitLines(JoinStrings(lines, "\n")) == lines
  {
    var first := lines[0];
    if |lines| == 1 {
    } else {
      var rest := JoinStrings(lines[1..], "\n");
      var s := first + "\n" + rest;
      var j := NewlineAt(s);
      assert s[|first|] == '\n';
      assert j == |first|;
      assert s[..j] == first;
      assert s[j + 1..] == rest;
      SplitJoinedLines(lines[1..]);
    }
  }

  /** The category classes of `addSystemLogLine`. */
  datatype LineClass = ErrorLine | GreyLine | HeaderLine | SuccessLine | WarningLine | InfoLine {
    function CssClass(): string {
      match this
      case ErrorLine => "system-logs-error"
      case GreyLine => "system-logs-grey"
      case HeaderLine => "system-logs-header"
      case SuccessLine => "system-logs-success"
      case WarningLine => "system-logs-warning"
      case InfoLine => "system-logs-info"
    }
  }

  /** One `<pre>` line of the system-log pane. */
  datatype SystemLine = SystemLine(text: string, cls: LineClass)

  /** The `switch (status)`: strict comparison with five tags, "info" for anything else. */
  function ClassFor(status: Json): (c: LineClass)
    ensures c == ErrorLine <==> status == Str("error")
    ensures c == GreyLine <==> status == Str("grey")
    ensures c == HeaderLine <==> status == Str("header")
    ensures c == SuccessLine <==> status == Str("success")
    ensures c == WarningLine <==> status == Str("warning")
  {
    if status == Str("error") then ErrorLine
    else if status == Str("grey") then GreyLine
    else if status == Str("header") then HeaderLine
    else if status == Str("success") then SuccessLine
    else if status == Str("warning") then WarningLine
    else InfoLine
  }

  /**
   * `addSystemLogLine(message, status)`: append-only; one line is added at
   * the end exactly when the message is truthy, and nothing else changes.
   */
  function AddSystemLogLine(lines: seq<SystemLine>, message: Json, status: Json): (r: seq<SystemLine>)
    ensures lines <= r
    ensures |r| == |lines| + (if message.Truthy() then 1 else 0)
    ensures message.Truthy() ==> r[|lines|] == SystemLine(ToString(message), ClassFor(status))
  {
    if !message.Truthy() then lines else lines + [SystemLine(ToString(message), ClassFor(status))]
  }

  /** A system-log entry `{message, log_type}` as it arrives. */
  datatype Entry = Entry(message: Json, logType: Json)

  /** The entries applied one after the other, as the pane receives them. */
  function Replay(lines: seq<SystemLine>, entries: seq<Entry>): seq<SystemLine>
    decreases |entries|
  {
    if entries == [] then lines
    else Replay(AddSystemLogLine(lines, entries[0].message, entries[0].logType), entries[1..])
  }

  /** Reference definition: the lines the entries with a message stand for, in entry order. */
  function Shown(entries: seq<Entry>): seq<SystemLine> {
    if entries == [] then []
    else (if entries[0].message.Truthy() then [SystemLine(ToString(entries[0].message), ClassFor(entries[0].logType))] else [])
         + Shown(entries[1..])
  }

  /**
   * The pane shows the earlier lines followed by one line per entry with a
   * message, in arrival order: nothing is reordered, merged or deduplicated.
   */
  lemma {:induction false} ReplayAppendsShown(lines: seq<SystemLine>, entries: seq<Entry>)
    ensures Replay(lines, entries) == lines + Shown(entries)
    decreases |entries|
  {
    if entries != [] {
      var next := AddSystemLogLine(lines, entries[0].message, entries[0].logType);
      ReplayAppendsShown(next, entries[1..]);
      if entries[0].message.Truthy() {
        assert next == lines + [SystemLine(ToString(entries[0].message), ClassFor(entries[0].logType))];
      } else {
        assert next == lines;
      }
    }
  }

  /** Applying one more entry after a replay is the replay of the longer list. */
  lemma {:induction false} ReplaySnoc(lines: seq<SystemLine>, entries: seq<Entry>, e: Entry)
    ensures Replay(lines, entries + [e]) == AddSystemLogLine(Replay(lines, entries), e.message, e.logType)
    decreases |entries|
  {
    if entries == [] {
      assert entries + [e] == [e];
      assert [e][1..] == [];
    } else {
      assert (entries + [e])[1..] == entries[1..] + [e];
      ReplaySnoc(AddSystemLogLine(lines, entries[0].message, entries[0].logType), entries[1..], e);
    }
  }
}
