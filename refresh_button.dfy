/**
 * The table's refresh button around `refreshData`
 * (tentacle_preview_static/js/main.js:109-131). Each call saves the
 * button's `disabled` flag and markup, disables it with a spinner while its
 * pull is outstanding, and puts back what it saved when the pull settles.
 * Calls overlap when a poll tick fires while an earlier pull is still out.
 */
module RefreshButton {

  datatype Button = Button(disabled: bool, html: string)

  const RefreshingHtml := "<i class=\"bi bi-arrow-clockwise spin\"></i> Refreshing..."

  /** The button while a pull is outstanding. */
  const Busy := Button(true, RefreshingHtml)

  /** A `refreshData` call starts, or the pull of the call numbered `call` (0, 1, ... in start order) settles. */
  datatype Event = Begin | Settle(call: nat)

  /** Every settle names a call that started before it and has not settled yet. */
  predicate WellFormed(trace: seq<Event>, begun: nat, settled: set<nat>)
    decreases |trace|
  {
    trace == [] ||
    match trace[0]
    case Begin => WellFormed(trace[1..], begun + 1, settled)
    case Settle(i) => i < begun && i !in settled && WellFormed(trace[1..], begun, settled + {i})
  }

  // ---- As written: each call restores its own snapshot ----

  /** The button and the snapshot (`origDisabled`, `origHTML`) each call took. */
  datatype AsWritten = AsWritten(button: Button, saved: seq<Button>)

  function StepAsWritten(s: AsWritten, e: Event): AsWritten {
    match e
    case Begin => AsWritten(Busy, s.saved + [s.button])
    case Settle(i) => if i < |s.saved| then s.(button := s.saved[i]) else s
  }

  function RunAsWritten(s: AsWritten, trace: seq<Event>): AsWritten
    decreases |trace|
  {
    if trace == [] then s else RunAsWritten(StepAsWritten(s, trace[0]), trace[1..])
  }

  /**
   * One call at a time restores the idle button; but when a second call
   * starts before the first settles, it saves the busy button, and if it
   * settles last it leaves the button disabled with the spinner for good.
   */
  lemma OverlappingCallsStayBusy(idle: Button)
    requires !idle.disabled
    ensures RunAsWritten(AsWritten(idle, []), [Begin, Settle(0)]).button == idle
    ensures WellFormed([Begin, Begin, Settle(0), Settle(1)], 0, {})
    ensures RunAsWritten(AsWritten(idle, []), [Begin, Begin, Settle(0), Settle(1)]).button == Busy
  {
    var t := [Begin, Begin, Settle(0), Settle(1)];
    assert t[1..] == [Begin, Settle(0), Settle(1)];
    assert t[2..] == [Settle(0), Settle(1)];
    assert t[3..] == [Settle(1)];
  }

  // ---- Corrected: one snapshot for all outstanding calls ----

  /** The button, how many pulls are outstanding, and the button to put back when none is. */
  datatype Guarded = Guarded(button: Button, inFlight: nat, restore: Button)

  /** While any pull is outstanding the button is busy. */
  predicate Inv(s: Guarded) {
    s.inFlight > 0 ==> s.button == Busy
  }

  /** The button that will be shown once nothing is outstanding. */
  function Idle(s: Guarded): Button {
    if s.inFlight == 0 then s.button else s.restore
  }

  /** A call starts: the first outstanding one takes the snapshot. */
  function BeginRefresh(s: Guarded): (r: Guarded)
    ensures Inv(r) && r.inFlight == s.inFlight + 1 && Idle(r) == Idle(s)
  {
    Guarded(Busy, s.inFlight + 1, Idle(s))
  }

  /** A pull settles: the last outstanding one restores the snapshot. */
  function SettleRefresh(s: Guarded): (r: Guarded)
    requires s.inFlight > 0
    ensures Inv(s) ==> Inv(r)
    ensures r.inFlight == s.inFlight - 1 && Idle(r) == Idle(s)
  {
    if s.inFlight == 1 then Guarded(s.restore, 0, s.restore) else s.(inFlight := s.inFlight - 1)
  }

  function StepGuarded(s: Guarded, e: Event): Guarded {
    match e
    case Begin => BeginRefresh(s)
    case Settle(_) => if s.inFlight > 0 then SettleRefresh(s) else s
  }

  function RunGuarded(s: Guarded, trace: seq<Event>): Guarded
    decreases |trace|
  {
    if trace == [] then s else RunGuarded(StepGuarded(s, trace[0]), trace[1..])
  }

  function Begins(trace: seq<Event>): nat {
    if trace == [] then 0 else (if trace[0].Begin? then 1 else 0) + Begins(trace[1..])
  }

  function Settles(trace: seq<Event>): nat {
    if trace == [] then 0 else (if trace[0].Settle? then 1 else 0) + Settles(trace[1..])
  }

  /** No settle arrives while nothing is outstanding; `open` pulls are outstanding before the trace. */
  predicate SettlesMatched(trace: seq<Event>, open: nat)
    decreases |trace|
  {
    trace == [] ||
    match trace[0]
    case Begin => SettlesMatched(trace[1..], open + 1)
    case Settle(_) => open > 0 && SettlesMatched(trace[1..], open - 1)
  }

  /**
   * For any interleaving of calls, the count of outstanding pulls is exact,
   * the button is busy while it is positive, and once every started pull
   * has settled the button is the one shown before the first of them.
   */
  lemma {:induction false} GuardedRestores(s: Guarded, trace: seq<Event>)
    requires Inv(s)
    requires SettlesMatched(trace, s.inFlight)
    ensures Inv(RunGuarded(s, trace))
    ensures RunGuarded(s, trace).inFlight == s.inFlight + Begins(trace) - Settles(trace)
    ensures Idle(RunGuarded(s, trace)) == Idle(s)
    ensures RunGuarded(s, trace).inFlight == 0 ==> RunGuarded(s, trace).button == Idle(s)
    decreases |trace|
  {
    if trace != [] {
      match trace[0]
      case Begin =>
        GuardedRestores(BeginRefresh(s), trace[1..]);
      case Settle(i) =>
        GuardedRestores(SettleRefresh(s), trace[1..]);
    }
  }

  /** The overlapping trace that strands the as-written button leaves the corrected one idle. */
  lemma OverlappingCallsRestored(idle: Button)
    requires !idle.disabled
    ensures RunGuarded(Guarded(idle, 0, idle), [Begin, Begin, Settle(0), Settle(1)]).button == idle
  {
    var t := [Begin, Begin, Settle(0), Settle(1)];
    assert t[1..] == [Begin, Settle(0), Settle(1)];
    assert t[2..] == [Settle(0), Settle(1)];
    assert t[3..] == [Settle(1)];
  }
}
