/**
 * The boot screen: every 600 ms one more line of a fixed five-line log is
 * appended; once all lines show, `onComplete` is called 800 ms later. Each
 * run of the effect clears the timeout the previous run set.
 */
module BootSequence {
  import opened Anim

  const BootLogs: seq<string> := [
    "INITIALIZING REALITY ENGINE...",
    "LOADING MEMORY FRAGMENTS...",
    "CALIBRATING NANDINI'S DIMENSION...",
    "ESTABLISHING NEURAL LINK...",
    "ACCESS GRANTED."
  ]

  const LineDelayMs: nat := 600
  const CompleteDelayMs: nat := 800

  /** The one pending timeout: append the line the effect captured, or call `onComplete`. */
  datatype Timer = AppendLine(line: string, delayMs: nat) | Complete(delayMs: nat)

  datatype State = State(lines: seq<string>, index: nat, timer: Option<Timer>)

  /**
   * The pending timeout firing, the effect re-running because `onComplete`
   * changed identity, or the component unmounting.
   */
  datatype Event = Fire | Rerun | Unmount

  datatype Output = Output(state: State, calledComplete: bool)

  /** The timeout one run of the effect sets for a given index (source lines 15-28). */
  function Schedule(index: nat): (t: Timer)
    ensures t.Complete? <==> index >= |BootLogs|
    ensures t.Complete? ==> t.delayMs == 800
    ensures t.AppendLine? ==> t.delayMs == 600 && t.line == BootLogs[index]
  {
    if index >= |BootLogs| then Complete(CompleteDelayMs) else AppendLine(BootLogs[index], LineDelayMs)
  }

  /** State after mount: no lines, index 0, the first line due in 600 ms. */
  const Initial: State := State([], 0, Some(Schedule(0)))

  /** The shown lines are exactly the first `index` log lines, and any pending timeout is the one for `index`. */
  ghost predicate Inv(s: State) {
    && s.index <= |BootLogs|
    && s.lines == BootLogs[..s.index]
    && (s.timer.Some? ==> s.timer.value == Schedule(s.index))
  }

  function Step(s: State, e: Event): (o: Output)
    ensures Inv(s) ==> Inv(o.state)
    // the index grows by exactly one, and only when an append timeout fires
    ensures o.state.index == s.index || o.state.index == s.index + 1
    ensures o.state.index == s.index + 1 <==> e.Fire? && s.timer.Some? && s.timer.value.AppendLine?
    ensures Inv(s) && s.index == |BootLogs| ==> o.state.lines == s.lines
    // onComplete runs only when its 800 ms timeout fires
    ensures o.calledComplete <==> e.Fire? && s.timer.Some? && s.timer.value.Complete?
    // reaching the last line schedules onComplete 800 ms later
    ensures Inv(s) && o.state.index == |BootLogs| && s.index < |BootLogs| ==> o.state.timer == Some(Complete(800))
    // a re-run replaces the pending timeout; unmounting clears it
    ensures e.Rerun? ==> o.state == s.(timer := Some(Schedule(s.index)))
    ensures e.Unmount? ==> o.state.timer.None?
  {
    match e
    case Fire =>
      if s.timer.None? then Output(s, false)
      else (
        match s.timer.value
        case AppendLine(line, _) =>
          Output(State(s.lines + [line], s.index + 1, Some(Schedule(s.index + 1))), false)
        case Complete(_) => Output(s.(timer := None), true))
    case Rerun => Output(s.(timer := Some(Schedule(s.index))), false)
    case Unmount => Output(s.(timer := None), false)
  }

  function Run(s: State, evs: seq<Event>): State
    decreases |evs|
  {
    if evs == [] then s else Run(Step(s, evs[0]).state, evs[1..])
  }

  /** The progress bar width in percent: `index / 5 * 100`. */
  function Progress(index: nat): real {
    (index as real) / (|BootLogs| as real) * 100.0
  }

  /** The bar stays within [0, 100], never shrinks along a run, and is full exactly when every line shows. */
  lemma ProgressBounds(s: State, e: Event)
    requires Inv(s)
    ensures 0.0 <= Progress(s.index) <= 100.0
    ensures Progress(s.index) <= Progress(Step(s, e).state.index)
    ensures Progress(s.index) == 100.0 <==> s.index == |BootLogs|
  {
  }

  /** Any run from the mounted state keeps the prefix invariant. */
  lemma {:induction false} RunKeepsInv(s: State, evs: seq<Event>)
    requires Inv(s)
    ensures Inv(Run(s, evs))
    decreases |evs|
  {
    if evs != [] {
      RunKeepsInv(Step(s, evs[0]).state, evs[1..]);
    }
  }

  /** Five undisturbed firings show the whole log and leave onComplete due in 800 ms. */
  lemma FullBoot()
    ensures Inv(Initial)
    ensures Run(Initial, [Fire, Fire, Fire, Fire, Fire]).lines == BootLogs
    ensures Run(Initial, [Fire, Fire, Fire, Fire, Fire]).timer == Some(Complete(800))
  {
    var s := Initial;
    var i := 0;
    assert [Fire, Fire, Fire, Fire, Fire] == seq(5, _ => Fire);
    while i < 5
      invariant 0 <= i <= 5
      invariant Run(Initial, [Fire, Fire, Fire, Fire, Fire]) == Run(s, seq(5 - i, _ => Fire))
      invariant s == State(BootLogs[..i], i, Some(Schedule(i)))
    {
      assert seq(5 - i, _ => Fire)[1..] == seq(5 - (i + 1), _ => Fire);
      s := Step(s, Fire).state;
      assert BootLogs[..i] + [BootLogs[i]] == BootLogs[..i + 1];
      i := i + 1;
    }
    assert BootLogs[..5] == BootLogs;
  }

  /** How one shown line is rendered: `> ` followed by the log text. */
  function RenderLine(line: string): (r: string)
    ensures |r| == |line| + 2 && r[..2] == "> " && r[2..] == line
  {
    "> " + line
  }

  function RenderLines(lines: seq<string>): (r: seq<string>)
    ensures |r| == |lines|
    ensures forall i :: 0 <= i < |lines| ==> r[i] == RenderLine(lines[i])
  {
    seq(|lines|, i requires 0 <= i < |lines| => RenderLine(lines[i]))
  }
}
