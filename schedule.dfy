/** `schedule_day` and `prompt_for_integer` (schedule.py): the daily triage
    loop driven by the lines the user types. `Step` and `Run` say what one
    line and a whole script do; `ScheduleDay` is the loop itself, written the
    way the program runs it, and is proved to follow `Run`. Timers appear
    only as the events that start and cancel them. */
module Schedule {
  import opened Wrappers
  import opened Issues
  import opened Analysis
  import opened IntText

  // ---- Systems, thresholds and timer delays ----

  /** The entries of the `systems` table. */
  datatype System = Calendar | Gmail | Outlook | Keep | Unfinished | Scheduler

  /** `systems.get(key)`: each system sits under a one-letter key. */
  function SystemOf(key: string): Option<System>
  {
    if |key| != 1 then None
    else match key[0]
      case 'c' => Some(Calendar)
      case 'g' => Some(Gmail)
      case 'o' => Some(Outlook)
      case 'k' => Some(Keep)
      case 'u' => Some(Unfinished)
      case 's' => Some(Scheduler)
      case _ => None
  }

  /** The keys of the table are exactly "c", "g", "o", "k", "u" and "s",
      one per system. */
  lemma SystemKeys(key: string)
    ensures SystemOf(key).Some? <==> key in {"c", "g", "o", "k", "u", "s"}
    ensures SystemOf(key) == Some(Calendar) <==> key == "c"
    ensures SystemOf(key) == Some(Scheduler) <==> key == "s"
  {
    if |key| == 1 {
      assert key == [key[0]];
    }
  }

  /** Columns of the analysed frame: summary, estimate, weight, url, age,
      Timebox and calendar_distance_hours. */
  const ColumnCount: nat := 7

  /** `full.size`: the number of cells, rows times columns. */
  function FrameSize(rows: nat): (size: nat)
    ensures rows > 0 ==> size > rows
    ensures size == 0 <==> rows == 0
  {
    rows * ColumnCount
  }

  /** The three boosts that scale the weight of the top of the backlog. */
  datatype Boosts = Boosts(focal: real, gamification: real, learn: real)

  const WeightTopOfBacklog: real := 5.0
  const SmallBoosts := Boosts(0.1, 0.05, 0.4)
  const MediumBoosts := Boosts(0.2, 0.1, 0.6)

  /** `weight_top_of_backlog * (1 + focal) * (1 + gamification) * (1 + learn)`. */
  function Threshold(b: Boosts): real
  {
    WeightTopOfBacklog * (1.0 + b.focal) * (1.0 + b.gamification) * (1.0 + b.learn)
  }

  /** Larger boosts never lower the threshold, and with no boost at all it
      is the weight of the top of the backlog. */
  lemma ThresholdMonotone(b: Boosts, c: Boosts)
    requires 0.0 <= b.focal <= c.focal
    requires 0.0 <= b.gamification <= c.gamification
    requires 0.0 <= b.learn <= c.learn
    ensures WeightTopOfBacklog <= Threshold(b) <= Threshold(c)
  {
    var x := WeightTopOfBacklog * (1.0 + b.focal);
    var y := WeightTopOfBacklog * (1.0 + c.focal);
    assert WeightTopOfBacklog <= x <= y;
    var xg := x * (1.0 + b.gamification);
    var yg := y * (1.0 + c.gamification);
    assert x <= xg <= yg by {
      assert x * (1.0 + b.gamification) <= y * (1.0 + b.gamification) <= y * (1.0 + c.gamification);
    }
    assert xg <= xg * (1.0 + b.learn) <= yg * (1.0 + c.learn) by {
      assert xg * (1.0 + b.learn) <= yg * (1.0 + b.learn) <= yg * (1.0 + c.learn);
    }
  }

  const WeightSmall: real := Threshold(SmallBoosts)
  const WeightMedium: real := Threshold(MediumBoosts)

  /** The two thresholds are 8.085 and 10.56, the small one below the medium
      one. */
  lemma ThresholdValues()
    ensures WeightSmall == 8.085 && WeightMedium == 10.56
    ensures WeightSmall < WeightMedium
  {
    ThresholdMonotone(SmallBoosts, MediumBoosts);
  }

  /** An integer weight is declined exactly when it is at most 10. */
  lemma DeclinedWeights(w: int)
    ensures (w as real) < WeightMedium <==> w <= 10
  {
    ThresholdValues();
  }

  const SecondsPerDay: int := 86400
  const TwoWeeksDays: int := 14

  /** `timedelta.seconds` of a duration of `total` whole seconds: the
      seconds left over after the whole days, always in 0..86399, also for
      a negative duration. */
  function DaySeconds(total: int): (s: int)
    ensures 0 <= s < SecondsPerDay
    ensures (total - s) % SecondsPerDay == 0
  {
    total % SecondsPerDay
  }

  /** A duration shorter than a day keeps all its seconds. */
  lemma ShortDurationKept(total: int)
    requires 0 <= total < SecondsPerDay
    ensures DaySeconds(total) == total
  {
  }

  /** The delay of `timedelta(minutes=2*n)`. */
  function CountSeconds(n: int): int
  {
    DaySeconds(120 * n)
  }

  /** Two minutes per unsorted task while the total stays under a day; 720
      tasks make a timer that fires at once; a negative count wraps round
      the day. */
  lemma CountDelays(n: int)
    ensures 0 <= n < 720 ==> CountSeconds(n) == 120 * n
    ensures CountSeconds(720) == 0
    ensures CountSeconds(-1) == 86280
    ensures CountSeconds(n + 720) == CountSeconds(n)
  {
    if 0 <= n < 720 {
      ShortDurationKept(120 * n);
    }
    DayRemainder(120 * 720, 1, 0);
    DayRemainder(-120, -1, 86280);
    var r := DaySeconds(120 * n);
    var q := (120 * n) / SecondsPerDay;
    assert 120 * n == q * SecondsPerDay + r;
    assert 120 * (n + 720) == (q + 1) * SecondsPerDay + r;
    DayRemainder(120 * (n + 720), q + 1, r);
  }

  /** A duration of q whole days and r more seconds has r seconds past the
      days. */
  lemma DayRemainder(total: int, q: int, r: int)
    requires 0 <= r < SecondsPerDay && total == q * SecondsPerDay + r
    ensures DaySeconds(total) == r
  {
  }

  /** The delay of `timedelta(hours=h)`: the whole seconds of h hours,
      reduced to within a day. */
  function TimeboxSeconds(hours: real): int
  {
    DaySeconds((hours * 3600.0).Floor)
  }

  /** A timebox under a day keeps its whole seconds; one of 25 hours waits
      only one hour. */
  lemma TimeboxDelays(hours: real)
    ensures 0.0 <= hours < 24.0 ==> TimeboxSeconds(hours) == (hours * 3600.0).Floor
    ensures TimeboxSeconds(25.0) == 3600
  {
    assert (25.0 * 3600.0).Floor == 90000;
  }

  /** The delay of `timedelta(minutes=8)`. */
  const EightMinutes: int := 480

  // ---- Warnings on a scheduled row ----

  /** The four notes shown on a selected row, in display order. */
  datatype Warning = ReportPlan | BreakDown | AvoidRecent | PossiblyFocal

  /** The notes a row triggers, each by its own test. */
  function Warnings(row: Row): seq<Warning>
  {
    (if row.estimate.nominal > 1.0 && row.url == "" then [ReportPlan] else [])
    + (if row.estimate.nominal > 4.0 then [BreakDown] else [])
    + (if row.age < 3 then [AvoidRecent] else [])
    + (if row.age < TwoWeeksDays then [PossiblyFocal] else [])
  }

  /** Each note is shown exactly when its own test holds: a plan to report
      for a task over an hour with no url, a break-down for one over four
      hours, and the two age notes for a PBI under three days and under two
      weeks old. */
  lemma WarningTests(row: Row)
    ensures ReportPlan in Warnings(row) <==> row.estimate.nominal > 1.0 && row.url == ""
    ensures BreakDown in Warnings(row) <==> row.estimate.nominal > 4.0
    ensures AvoidRecent in Warnings(row) <==> row.age < 3
    ensures PossiblyFocal in Warnings(row) <==> row.age < TwoWeeksDays
  {
  }

  /** The notes come in display order without repeats, and several can
      fire together: a new, large task without a url gets all four. */
  lemma WarningsCombine(row: Row)
    ensures forall i, j :: 0 <= i < j < |Warnings(row)| ==> Warnings(row)[i] != Warnings(row)[j]
    ensures row.age < 3 ==> AvoidRecent in Warnings(row) && PossiblyFocal in Warnings(row)
    ensures row.estimate.nominal > 4.0 && row.url == "" && row.age < 3 ==>
              Warnings(row) == [ReportPlan, BreakDown, AvoidRecent, PossiblyFocal]
  {
    var ws := Warnings(row);
    forall i, j | 0 <= i < j < |ws|
      ensures ws[i] != ws[j]
    {
      assert WarningRank(ws[i]) < WarningRank(ws[j]) by { WarningsRanked(row, i, j); }
    }
  }

  function WarningRank(w: Warning): nat
  {
    match w
    case ReportPlan => 0
    case BreakDown => 1
    case AvoidRecent => 2
    case PossiblyFocal => 3
  }

  lemma WarningsRanked(row: Row, i: int, j: int)
    requires 0 <= i < j < |Warnings(row)|
    ensures WarningRank(Warnings(row)[i]) < WarningRank(Warnings(row)[j])
  {
    var a := if row.estimate.nominal > 1.0 && row.url == "" then [ReportPlan] else [];
    var b := if row.estimate.nominal > 4.0 then [BreakDown] else [];
    var c := if row.age < 3 then [AvoidRecent] else [];
    var d := if row.age < TwoWeeksDays then [PossiblyFocal] else [];
    var ws := a + b + c + d;
    assert Warnings(row) == ws;
    assert forall k :: 0 <= k < |ws| ==>
      (k < |a| ==> ws[k] == ReportPlan)
      && (|a| <= k < |a| + |b| ==> ws[k] == BreakDown)
      && (|a| + |b| <= k < |a| + |b| + |c| ==> ws[k] == AvoidRecent)
      && (|a| + |b| + |c| <= k ==> ws[k] == PossiblyFocal);
  }

  // ---- What the loop does ----

  /** What a started timer shows when it fires. */
  datatype Expiry = AskForHelp | ComeBackToSystem | ComeBackToTask

  /** What the loop does besides reading lines: starting or cancelling the
      current timer, showing a note on a row, and declining a medium task. */
  datatype Event = Start(seconds: int, expiry: Expiry) | Cancel | Note(warning: Warning) | Decline(weight: int)

  /** The notes shown for the warnings ws, one event each, in order. */
  function Notes(ws: seq<Warning>): seq<Event>
  {
    if ws == [] then [] else [Note(ws[0])] + Notes(ws[1..])
  }

  lemma {:induction false} NotesShowWarnings(ws: seq<Warning>)
    ensures |Notes(ws)| == |ws|
    ensures forall i :: 0 <= i < |ws| ==> Notes(ws)[i] == Note(ws[i])
    decreases |ws|
  {
    if ws != [] {
      NotesShowWarnings(ws[1..]);
    }
  }

  /** Why the loop ended with an exception: the analysis raised, or the
      index passed the size check but labels no row. */
  datatype Fault = AnalysisFailed(error: AnalysisError) | KeyError(key: int)

  /** The prompt the loop is waiting at. `AwaitTaskIndex` holds the rows of
      the analysis in encounter order. `Stopped` is the `break` out of the
      selection loop; `Crashed` an exception out of `schedule_day`. */
  datatype Mode =
    | SelectSystem
    | AwaitContinue
    | AwaitTaskIndex(rows: seq<Row>)
    | AwaitScheduleDone
    | AwaitCount
    | AwaitMedium
    | AwaitWeight
    | AwaitMediumDone
    | Stopped
    | Crashed(fault: Fault)

  predicate Terminal(m: Mode)
  {
    m.Stopped? || m.Crashed?
  }

  /** Modes that read their line with `prompt_for_integer`. */
  predicate AwaitsInteger(m: Mode)
  {
    m.AwaitTaskIndex? || m.AwaitCount? || m.AwaitWeight?
  }

  /** Whether a started timer is still uncancelled while waiting in m. */
  predicate TimerPending(m: Mode)
  {
    m.AwaitScheduleDone? || m.AwaitMedium? || m.AwaitMediumDone?
  }

  datatype Effect = Effect(next: Mode, events: seq<Event>)

  /** What `perform_analysis` yields for the day's backlog: the rows in
      encounter order, or the exception it raises. It depends only on the
      backlog and the date, which stay fixed for the whole session. */
  type Analyzed = Result<seq<Row>, AnalysisError>

  /** The system selection prompt. */
  function Select(key: string, analysis: Analyzed): Effect
  {
    match SystemOf(key)
    case None => Effect(Stopped, [])
    case Some(Calendar) => Effect(AwaitContinue, [])
    case Some(Scheduler) => (
      match analysis
      case Failure(e) => Effect(Crashed(AnalysisFailed(e)), [])
      case Success(rows) => Effect(AwaitTaskIndex(rows), []))
    case Some(_) => Effect(AwaitCount, [])
  }

  /** The integer a prompt finally accepted, in the mode that asked for it. */
  function OnInteger(m: Mode, n: int): Effect
    requires AwaitsInteger(m)
  {
    match m
    case AwaitTaskIndex(rows) =>
      if n < 0 || n >= FrameSize(|rows|) then Effect(Stopped, [])
      else (
        match RowAt(rows, n)
        case None => Effect(Crashed(KeyError(n)), [])
        case Some(row) =>
          Effect(AwaitScheduleDone, [Start(TimeboxSeconds(row.timebox), AskForHelp)] + Notes(Warnings(row))))
    case AwaitCount =>
      if n == 0 then Effect(SelectSystem, [])
      else Effect(AwaitMedium, [Start(CountSeconds(n), ComeBackToSystem)])
    case AwaitWeight =>
      Effect(AwaitMediumDone,
             (if (n as real) < WeightMedium then [Decline(n)] else []) + [Start(EightMinutes, ComeBackToTask)])
  }

  /** One line typed at the prompt of mode m. */
  function Step(m: Mode, line: string, analysis: Analyzed): Effect
    requires !Terminal(m)
  {
    match m
    case SelectSystem => Select(line, analysis)
    case AwaitContinue => Effect(SelectSystem, [])
    case AwaitScheduleDone => Effect(SelectSystem, [Cancel])
    case AwaitMedium => Effect(if line == "" then SelectSystem else AwaitWeight, [Cancel])
    case AwaitMediumDone => Effect(AwaitMedium, [])
    case AwaitTaskIndex(_) | AwaitCount | AwaitWeight =>
      match ParseInt(line)
      case None => Effect(m, [])
      case Some(n) => OnInteger(m, n)
  }

  /** Where a script leaves the loop and what happened on the way. A script
      that runs out leaves the loop waiting at its last prompt. */
  datatype Trace = Trace(final: Mode, log: seq<Event>)

  function Then(events: seq<Event>, t: Trace): Trace
  {
    Trace(t.final, events + t.log)
  }

  function Run(m: Mode, lines: seq<string>, analysis: Analyzed): Trace
    decreases |lines|
  {
    if Terminal(m) || lines == [] then Trace(m, [])
    else
      var e := Step(m, lines[0], analysis);
      Then(e.events, Run(e.next, lines[1..], analysis))
  }

  // ---- The timer slot ----

  /** Replays the timer events of a log on the single timer slot, full or
      empty at the start: the slot at the end, or `None` if a timer starts
      while another is pending or a cancel finds none. */
  function Slot(log: seq<Event>, pending: bool): Option<bool>
  {
    if log == [] then Some(pending)
    else match log[0]
      case Start(_, _) => if pending then None else Slot(log[1..], true)
      case Cancel => if pending then Slot(log[1..], false) else None
      case _ => Slot(log[1..], pending)
  }

  lemma {:induction false} SlotAppend(a: seq<Event>, b: seq<Event>, pending: bool)
    ensures Slot(a + b, pending) == (match Slot(a, pending) case None => None case Some(q) => Slot(b, q))
    decreases |a|
  {
    if a == [] {
      assert a + b == b;
    } else {
      assert (a + b)[0] == a[0] && (a + b)[1..] == a[1..] + b;
      match a[0]
      case Start(_, _) => SlotAppend(a[1..], b, true);
      case Cancel => SlotAppend(a[1..], b, false);
      case _ => SlotAppend(a[1..], b, pending);
    }
  }

  lemma {:induction false} SlotIgnoresNotes(es: seq<Event>, pending: bool)
    requires forall i :: 0 <= i < |es| ==> es[i].Note?
    ensures Slot(es, pending) == Some(pending)
    decreases |es|
  {
    if es != [] {
      SlotIgnoresNotes(es[1..], pending);
    }
  }

  /** Every line moves the slot from what its prompt had pending to what the
      next prompt has pending, without a start on a full slot or a cancel on
      an empty one. */
  lemma StepKeepsSlot(m: Mode, line: string, analysis: Analyzed)
    requires !Terminal(m)
    ensures var e := Step(m, line, analysis);
            Slot(e.events, TimerPending(m)) == Some(TimerPending(e.next))
  {
    var e := Step(m, line, analysis);
    if m.AwaitTaskIndex? && e.next.AwaitScheduleDone? {
      var row := RowAt(m.rows, ParseInt(line).value).value;
      var notes := Notes(Warnings(row));
      NotesShowWarnings(Warnings(row));
      SlotIgnoresNotes(notes, true);
      SlotAppend([Start(TimeboxSeconds(row.timebox), AskForHelp)], notes, false);
    } else if m.AwaitWeight? && e.events != [] {
      var w := ParseInt(line).value;
      var decline: seq<Event> := if (w as real) < WeightMedium then [Decline(w)] else [];
      SlotAppend(decline, [Start(EightMinutes, ComeBackToTask)], false);
    }
  }

  /** Over a whole script the slot never holds two timers, and it is pending
      at the end exactly when the prompt reached has a timer running. */
  lemma {:induction false} RunKeepsSlot(m: Mode, lines: seq<string>, analysis: Analyzed)
    ensures var t := Run(m, lines, analysis);
            Slot(t.log, TimerPending(m)) == Some(TimerPending(t.final))
    decreases |lines|
  {
    if !Terminal(m) && lines != [] {
      var e := Step(m, lines[0], analysis);
      StepKeepsSlot(m, lines[0], analysis);
      RunKeepsSlot(e.next, lines[1..], analysis);
      SlotAppend(e.events, Run(e.next, lines[1..], analysis).log, TimerPending(m));
    }
  }

  /** From the start of `schedule_day`, every timer is cancelled before the
      next one starts, and none is left running when the loop is back at
      system selection, has stopped, or has raised. */
  lemma NoTimerLeftPending(script: seq<string>, analysis: Analyzed)
    ensures Slot(Run(SelectSystem, script, analysis).log, false).Some?
    ensures var t := Run(SelectSystem, script, analysis);
            t.final.SelectSystem? || t.final.Stopped? || t.final.Crashed? ==> Slot(t.log, false) == Some(false)
  {
    RunKeepsSlot(SelectSystem, script, analysis);
  }

  // ---- prompt_for_integer ----

  /** The first line that reads as an integer: its value and the lines
      after it. */
  function ScanInteger(lines: seq<string>): (r: Option<(int, seq<string>)>)
    ensures r.Some? ==> |r.value.1| < |lines|
  {
    if lines == [] then None
    else match ParseInt(lines[0])
      case Some(n) => Some((n, lines[1..]))
      case None => ScanInteger(lines[1..])
  }

  /** The scan finds nothing exactly when no line is an integer. */
  lemma {:induction false} ScanFindsNothing(lines: seq<string>)
    ensures ScanInteger(lines).None? <==> forall i :: 0 <= i < |lines| ==> ParseInt(lines[i]).None?
    decreases |lines|
  {
    if lines != [] && ParseInt(lines[0]).None? {
      ScanFindsNothing(lines[1..]);
      assert forall i :: 1 <= i < |lines| ==> lines[i] == lines[1..][i - 1];
    }
  }

  /** The scan stops at the first integer line: the lines before it are not
      integers, and what it returns is that line's value and the lines
      after it. */
  lemma {:induction false} ScanFindsFirst(lines: seq<string>)
    requires ScanInteger(lines).Some?
    ensures var (n, rest) := ScanInteger(lines).value;
            var at := |lines| - |rest| - 1;
            && ParseInt(lines[at]) == Some(n)
            && rest == lines[at + 1..]
            && forall i :: 0 <= i < at ==> ParseInt(lines[i]).None?
    decreases |lines|
  {
    if ParseInt(lines[0]).None? {
      ScanFindsFirst(lines[1..]);
      assert forall i :: 1 <= i < |lines| ==> lines[i] == lines[1..][i - 1];
    }
  }

  /** `prompt_for_integer`: reads lines until one is an integer and returns
      it with the lines not yet read; `None` when the lines run out first. */
  method PromptForInteger(input: seq<string>) returns (n: Option<int>, rest: seq<string>)
    ensures n.None? ==> ScanInteger(input).None? && rest == []
    ensures n.Some? ==> ScanInteger(input) == Some((n.value, rest))
  {
    n := None;
    var i := 0;
    while n.None? && i < |input|
      invariant 0 <= i <= |input|
      invariant n.None? ==> ScanInteger(input) == ScanInteger(input[i..])
      invariant n.Some? ==> ScanInteger(input) == Some((n.value, input[i..]))
      decreases |input| - i
    {
      assert input[i..][0] == input[i] && input[i..][1..] == input[i + 1..];
      n := ParseInt(input[i]);
      i := i + 1;
    }
    rest := input[i..];
  }

  /** In a mode that asks for an integer, every line that is not one is
      skipped with nothing happening, and the first one that is decides. */
  lemma {:induction false} RunSkipsNonIntegers(m: Mode, lines: seq<string>, analysis: Analyzed)
    requires AwaitsInteger(m)
    ensures ScanInteger(lines).None? ==> Run(m, lines, analysis) == Trace(m, [])
    ensures ScanInteger(lines).Some? ==>
              var (n, rest) := ScanInteger(lines).value;
              var e := OnInteger(m, n);
              Run(m, lines, analysis) == Then(e.events, Run(e.next, rest, analysis))
    decreases |lines|
  {
    if lines != [] && ParseInt(lines[0]).None? {
      RunSkipsNonIntegers(m, lines[1..], analysis);
      ThenEmpty(Run(m, lines[1..], analysis));
    }
  }

  /** One line read at a prompt: what `Step` does with it, then the rest. */
  lemma RunStep(m: Mode, lines: seq<string>, analysis: Analyzed)
    requires !Terminal(m) && lines != []
    ensures var e := Step(m, lines[0], analysis);
            Run(m, lines, analysis) == Then(e.events, Run(e.next, lines[1..], analysis))
  {
  }

  // ---- Transitions of the selection loop ----

  /** A key that names no system ends the loop at once. */
  lemma UnknownKeyStops(key: string, rest: seq<string>, analysis: Analyzed)
    requires SystemOf(key).None?
    ensures Run(SelectSystem, [key] + rest, analysis) == Trace(Stopped, [])
  {
  }

  /** Calendar waits for one line and is back at selection with no timer. */
  lemma CalendarContinues(line: string, rest: seq<string>, analysis: Analyzed)
    ensures Run(SelectSystem, ["c", line] + rest, analysis) == Run(SelectSystem, rest, analysis)
  {
    var lines := ["c", line] + rest;
    assert lines[1..] == [line] + rest && lines[1..][1..] == rest;
    assert [] + ([] + Run(SelectSystem, rest, analysis).log) == Run(SelectSystem, rest, analysis).log;
  }

  /** An index below zero or at least `full.size` ends the loop before any
      timer starts. */
  lemma IndexOutOfRangeStops(rows: seq<Row>, line: string, rest: seq<string>)
    requires ParseInt(line).Some?
    requires var k := ParseInt(line).value; k < 0 || k >= FrameSize(|rows|)
    ensures Run(SelectSystem, ["s", line] + rest, Success(rows)) == Trace(Stopped, [])
  {
    var lines := ["s", line] + rest;
    assert lines[1..] == [line] + rest && lines[1..][1..] == rest;
    assert Run(AwaitTaskIndex(rows), [line] + rest, Success(rows)) == Trace(Stopped, []) by {
      assert Run(Stopped, rest, Success(rows)) == Trace(Stopped, []);
    }
  }

  /** The size check lets through indices from the row count up to seven
      times it; those label no row, and the lookup raises KeyError before a
      timer starts. */
  lemma SizeCheckAdmitsMissingLabels(rows: seq<Row>, line: string, rest: seq<string>)
    requires Labelled(rows) && ParseInt(line).Some?
    requires |rows| <= ParseInt(line).value < FrameSize(|rows|)
    ensures Run(SelectSystem, ["s", line] + rest, Success(rows)) == Trace(Crashed(KeyError(ParseInt(line).value)), [])
  {
    var lines := ["s", line] + rest;
    assert lines[1..] == [line] + rest && lines[1..][1..] == rest;
    var k := ParseInt(line).value;
    RankingKeepsLabels(rows, rows, k);
    assert Run(AwaitTaskIndex(rows), [line] + rest, Success(rows)) == Trace(Crashed(KeyError(k)), []) by {
      assert Run(Crashed(KeyError(k)), rest, Success(rows)) == Trace(Crashed(KeyError(k)), []);
    }
  }

  /** An index k of a row starts the timer for that row's timebox, shows its
      notes, and the next line cancels the timer and returns to selection. */
  lemma ScheduledRow(rows: seq<Row>, lines: seq<string>)
    requires |lines| >= 3 && lines[0] == "s" && ParseInt(lines[1]).Some?
    requires Labelled(rows) && 0 <= ParseInt(lines[1]).value < |rows|
    ensures var row := rows[ParseInt(lines[1]).value];
            Run(SelectSystem, lines, Success(rows))
            == Then([Start(TimeboxSeconds(row.timebox), AskForHelp)] + Notes(Warnings(row)) + [Cancel],
                    Run(SelectSystem, lines[3..], Success(rows)))
  {
    var k := ParseInt(lines[1]).value;
    var started := [Start(TimeboxSeconds(rows[k].timebox), AskForHelp)] + Notes(Warnings(rows[k]));
    var after := Run(SelectSystem, lines[3..], Success(rows));
    SchedulerOpens(rows, lines);
    LabelledLineStarts(rows, lines[1..]);
    assert lines[1..][1..] == lines[2..] && lines[2..][1..] == lines[3..];
    RunScheduleDone(lines[2..], Success(rows));
    ThenThen(started, [Cancel], after);
  }

  /** The Schedule key on a successful analysis opens the task-index
      prompt on its rows, with no event. */
  lemma SchedulerOpens(rows: seq<Row>, lines: seq<string>)
    requires lines != [] && lines[0] == "s"
    ensures Run(SelectSystem, lines, Success(rows)) == Run(AwaitTaskIndex(rows), lines[1..], Success(rows))
  {
    SystemKeys(lines[0]);
    assert Select(lines[0], Success(rows)) == Effect(AwaitTaskIndex(rows), []);
    RunStep(SelectSystem, lines, Success(rows));
    ThenEmpty(Run(AwaitTaskIndex(rows), lines[1..], Success(rows)));
  }

  /** An index line that labels a row starts its timer and shows its notes. */
  lemma LabelledLineStarts(rows: seq<Row>, lines: seq<string>)
    requires lines != [] && ParseInt(lines[0]).Some?
    requires Labelled(rows) && 0 <= ParseInt(lines[0]).value < |rows|
    ensures var row := rows[ParseInt(lines[0]).value];
            Run(AwaitTaskIndex(rows), lines, Success(rows))
            == Then([Start(TimeboxSeconds(row.timebox), AskForHelp)] + Notes(Warnings(row)),
                    Run(AwaitScheduleDone, lines[1..], Success(rows)))
  {
    RunStep(AwaitTaskIndex(rows), lines, Success(rows));
    LabelledRowStarts(rows, ParseInt(lines[0]).value);
  }

  /** An index that labels a row starts that row's timebox timer and shows
      its notes. */
  lemma LabelledRowStarts(rows: seq<Row>, k: int)
    requires Labelled(rows) && 0 <= k < |rows|
    ensures OnInteger(AwaitTaskIndex(rows), k)
         == Effect(AwaitScheduleDone, [Start(TimeboxSeconds(rows[k].timebox), AskForHelp)] + Notes(Warnings(rows[k])))
  {
    RankingKeepsLabels(rows, rows, k);
  }

  /** At any other system, a count of zero goes back to selection with no
      timer; any other count, negative ones included, starts the timer of
      two minutes per task and enters the medium-task loop. */
  lemma CountDecides(key: string, line: string, rest: seq<string>, analysis: Analyzed)
    requires SystemOf(key).Some? && SystemOf(key).value !in {Calendar, Scheduler}
    requires ParseInt(line).Some?
    ensures ParseInt(line).value == 0 ==>
              Run(SelectSystem, [key, line] + rest, analysis) == Run(SelectSystem, rest, analysis)
    ensures ParseInt(line).value != 0 ==>
              Run(SelectSystem, [key, line] + rest, analysis)
              == Then([Start(CountSeconds(ParseInt(line).value), ComeBackToSystem)], Run(AwaitMedium, rest, analysis))
  {
    var lines := [key, line] + rest;
    assert lines[1..] == [line] + rest && lines[1..][1..] == rest;
    assert [] + ([] + Run(SelectSystem, rest, analysis).log) == Run(SelectSystem, rest, analysis).log;
    assert [] + Run(AwaitMedium, rest, analysis).log == Run(AwaitMedium, rest, analysis).log;
  }

  /** A medium task: the line cancels the timer, a weight of 10 or less is
      declined, and either way the eight-minute timer starts; the line after
      it leads back to the medium-task prompt. */
  lemma MediumTaskDecision(medium: string, line: string, done: string, rest: seq<string>, analysis: Analyzed)
    requires medium != "" && ParseInt(line).Some?
    ensures var w := ParseInt(line).value;
            Run(AwaitMedium, [medium, line, done] + rest, analysis)
            == Then([Cancel] + (if w <= 10 then [Decline(w)] else []) + [Start(EightMinutes, ComeBackToTask)],
                    Run(AwaitMedium, rest, analysis))
  {
    var w := ParseInt(line).value;
    DeclinedWeights(w);
    var lines := [medium, line, done] + rest;
    assert lines[1..] == [line, done] + rest && lines[1..][1..] == [done] + rest && lines[1..][1..][1..] == rest;
    var after := Run(AwaitMedium, rest, analysis);
    assert Run(AwaitMediumDone, [done] + rest, analysis) == after by {
      assert [] + after.log == after.log;
    }
    var decided := (if w <= 10 then [Decline(w)] else []) + [Start(EightMinutes, ComeBackToTask)];
    assert Step(AwaitWeight, line, analysis) == Effect(AwaitMediumDone, decided);
    assert Run(AwaitWeight, [line, done] + rest, analysis) == Then(decided, after);
    RunMediumStep(lines, analysis);
    assert Run(AwaitMedium, lines, analysis) == Then([Cancel], Then(decided, after));
    ThenThen([Cancel], decided, after);
    var x := if w <= 10 then [Decline(w)] else [];
    assert [Cancel] + decided == [Cancel] + x + [Start(EightMinutes, ComeBackToTask)];
  }

  // ---- schedule_day ----

  /** How a branch of the selection loop ends: back at the selection prompt
      with the lines still to read, or out of the loop (a `break`, an
      exception, or a prompt that is still waiting when the lines run out). */
  datatype Outcome = Continue(rest: seq<string>) | Exit(final: Mode)

  function Resume(o: Outcome, analysis: Analyzed): Trace
  {
    match o
    case Continue(rest) => Run(SelectSystem, rest, analysis)
    case Exit(m) => Trace(m, [])
  }

  /** The Schedule branch: rank the backlog, read a task index, start the
      timebox timer with the row's notes, and cancel it when the task is
      done. */
  method ScheduleTask(key: string, backlog: seq<PBI>, today: Date, input: seq<string>) returns (o: Outcome, events: seq<Event>)
    requires SystemOf(key) == Some(Scheduler)
    ensures var analysis := Flatten(backlog, today);
            Run(SelectSystem, [key] + input, analysis) == Then(events, Resume(o, analysis))
    ensures o.Continue? ==> |o.rest| < |input|
  {
    ghost var analysis := Flatten(backlog, today);
    RunSelect(key, input, analysis);
    var full := FrameRows(backlog, today);
    if full.Failure? {
      RunTerminal(Crashed(AnalysisFailed(full.error)), input, analysis);
      return Exit(Crashed(AnalysisFailed(full.error))), [];
    }
    var flat := Flatten(backlog, today).value;
    ThenEmpty(Run(AwaitTaskIndex(flat), input, analysis));
    o, events := PickTask(full.value, flat, input);
  }

  /** The rows of the frame `perform_analysis` returns, which is all of it
      the Schedule branch looks at: the rows of the analysis in some order,
      or the exception the analysis raises. */
  method FrameRows(backlog: seq<PBI>, today: Date) returns (r: Result<seq<Row>, AnalysisError>)
    ensures Flatten(backlog, today).Failure? ==> r == Failure(Flatten(backlog, today).error)
    ensures Flatten(backlog, today).Success? ==>
              r.Success? && |r.value| == |Flatten(backlog, today).value|
              && SameLabels(r.value, Flatten(backlog, today).value)
  {
    var full := PerformAnalysis(backlog, today);
    if full.Failure? {
      return Failure(full.error);
    }
    var flat := Flatten(backlog, today).value;
    assert |full.value.rows| == |flat| by {
      assert |multiset(full.value.rows)| == |multiset(flat)|;
    }
    forall k: int
      ensures RowAt(full.value.rows, k) == RowAt(flat, k)
    {
      RankingKeepsLabels(full.value.rows, flat, k);
      RankingKeepsLabels(flat, flat, k);
    }
    return Success(full.value.rows);
  }

  /** Two tables address the same row under every label. */
  ghost predicate SameLabels(a: seq<Row>, b: seq<Row>)
  {
    forall k: int :: RowAt(a, k) == RowAt(b, k)
  }

  /** The task-index prompt of the Schedule branch, on the ranked rows of
      the analysis: an index outside `full.size` breaks out of the loop, one
      that labels no row raises KeyError, and one that labels a row starts
      its timebox timer, shows its notes, and the next line cancels it. */
  method PickTask(ranked: seq<Row>, flat: seq<Row>, input: seq<string>) returns (o: Outcome, events: seq<Event>)
    requires |ranked| == |flat| && SameLabels(ranked, flat) && Labelled(flat)
    ensures Run(AwaitTaskIndex(flat), input, Success(flat)) == Then(events, Resume(o, Success(flat)))
    ensures o.Continue? ==> |o.rest| < |input|
  {
    ghost var analysis: Analyzed := Success(flat);
    var task, rest := PromptForInteger(input);
    RunSkipsNonIntegers(AwaitTaskIndex(flat), input, analysis);
    if task.None? {
      return Exit(AwaitTaskIndex(flat)), [];
    }
    var k := task.value;
    if k < 0 || k >= FrameSize(|ranked|) {
      RunTerminal(Stopped, rest, analysis);
      return Exit(Stopped), [];
    }
    var row := RowAt(ranked, k);
    if row.None? {
      RunTerminal(Crashed(KeyError(k)), rest, analysis);
      return Exit(Crashed(KeyError(k))), [];
    }
    events := [Start(TimeboxSeconds(row.value.timebox), AskForHelp)] + Notes(Warnings(row.value));
    if rest == [] {
      return Exit(AwaitScheduleDone), events;
    }
    RunScheduleDone(rest, analysis);
    ThenThen(events, [Cancel], Run(SelectSystem, rest[1..], analysis));
    events := events + [Cancel];
    o := Continue(rest[1..]);
  }

  /** Once the loop has broken out or raised, no further line is read. */
  lemma RunTerminal(m: Mode, lines: seq<string>, analysis: Analyzed)
    requires Terminal(m)
    ensures Run(m, lines, analysis) == Trace(m, [])
  {
  }

  /** The line after a scheduled task cancels its timer and returns to
      selection. */
  lemma RunScheduleDone(lines: seq<string>, analysis: Analyzed)
    requires lines != []
    ensures Run(AwaitScheduleDone, lines, analysis) == Then([Cancel], Run(SelectSystem, lines[1..], analysis))
  {
  }

  /** The selection prompt reads one line and does what `Select` says. */
  lemma RunSelect(key: string, input: seq<string>, analysis: Analyzed)
    ensures var e := Select(key, analysis);
            Run(SelectSystem, [key] + input, analysis) == Then(e.events, Run(e.next, input, analysis))
  {
    assert ([key] + input)[0] == key && ([key] + input)[1..] == input;
  }

  lemma ThenEmpty(t: Trace)
    ensures Then([], t) == t
  {
    assert [] + t.log == t.log;
  }

  lemma ThenThen(a: seq<Event>, b: seq<Event>, t: Trace)
    ensures Then(a, Then(b, t)) == Then(a + b, t)
  {
    assert a + (b + t.log) == (a + b) + t.log;
  }

  /** A line at the medium-task prompt cancels the timer, and an empty one
      goes back to selection. */
  lemma RunMediumStep(lines: seq<string>, analysis: Analyzed)
    requires lines != []
    ensures Run(AwaitMedium, lines, analysis)
         == Then([Cancel], Run(if lines[0] == "" then SelectSystem else AwaitWeight, lines[1..], analysis))
  {
  }

  /** `while True` over medium tasks: each line cancels the running timer;
      an empty one ends the loop, any other asks for the task's weight. */
  method MediumTasks(input: seq<string>, ghost analysis: Analyzed) returns (o: Outcome, events: seq<Event>)
    ensures Run(AwaitMedium, input, analysis) == Then(events, Resume(o, analysis))
    ensures o.Continue? ==> |o.rest| < |input|
  {
    var lines := input;
    events := [];
    var focal, gamification, learn := 0.2, 0.1, 0.6;
    var weightMedium := WeightTopOfBacklog * (1.0 + focal) * (1.0 + gamification) * (1.0 + learn);
    assert weightMedium == WeightMedium;
    while true
      invariant |lines| <= |input|
      invariant Run(AwaitMedium, input, analysis) == Then(events, Run(AwaitMedium, lines, analysis))
      decreases |lines|
    {
      if lines == [] {
        return Exit(AwaitMedium), events;
      }
      var medium := lines[0];
      RunMediumStep(lines, analysis);
      ThenThen(events, [Cancel], Run(if medium == "" then SelectSystem else AwaitWeight, lines[1..], analysis));
      lines := lines[1..];
      events := events + [Cancel];
      if medium == "" {
        break;
      }
      var round, decided := WeighTask(lines, weightMedium, analysis);
      match round
      case Exit(m) =>
        ThenThen(events, decided, Trace(m, []));
        return Exit(m), events + decided;
      case Continue(rest) =>
        ThenThen(events, decided, Run(AwaitMedium, rest, analysis));
        events := events + decided;
        lines := rest;
    }
    o := Continue(lines);
  }

  /** One medium task after its line: read its weight, decline it below
      `weight_medium`, start the eight-minute timer and wait for the line
      that completes it; then the medium-task prompt comes back. */
  method WeighTask(input: seq<string>, weightMedium: real, ghost analysis: Analyzed) returns (o: Outcome, events: seq<Event>)
    requires weightMedium == WeightMedium
    ensures o.Exit? ==> Run(AwaitWeight, input, analysis) == Then(events, Trace(o.final, []))
    ensures o.Continue? ==>
              && Run(AwaitWeight, input, analysis) == Then(events, Run(AwaitMedium, o.rest, analysis))
              && |o.rest| < |input|
  {
    var weight, rest := PromptForInteger(input);
    RunSkipsNonIntegers(AwaitWeight, input, analysis);
    if weight.None? {
      return Exit(AwaitWeight), [];
    }
    events := [];
    if (weight.value as real) < weightMedium {
      events := [Decline(weight.value)];
    }
    events := events + [Start(EightMinutes, ComeBackToTask)];
    if rest == [] {
      return Exit(AwaitMediumDone), events;
    }
    RunMediumDone(rest, analysis);
    o := Continue(rest[1..]);
  }

  /** The line that completes a medium task brings back the medium-task
      prompt. */
  lemma RunMediumDone(lines: seq<string>, analysis: Analyzed)
    requires lines != []
    ensures Run(AwaitMediumDone, lines, analysis) == Run(AwaitMedium, lines[1..], analysis)
  {
    ThenEmpty(Run(AwaitMedium, lines[1..], analysis));
  }

  /** Any other system: read how many unsorted tasks it holds; none sends
      the loop back to selection, any other count starts the two-minutes-
      per-task timer and runs the medium-task loop. */
  method SkimSystem(key: string, ghost analysis: Analyzed, input: seq<string>) returns (o: Outcome, events: seq<Event>)
    requires SystemOf(key).Some? && SystemOf(key).value !in {Calendar, Scheduler}
    ensures Run(SelectSystem, [key] + input, analysis) == Then(events, Resume(o, analysis))
    ensures o.Continue? ==> |o.rest| < |input|
  {
    RunSelect(key, input, analysis);
    ghost var start := Run(AwaitCount, input, analysis);
    ThenEmpty(start);
    var tasks, rest := PromptForInteger(input);
    RunSkipsNonIntegers(AwaitCount, input, analysis);
    if tasks.None? {
      return Exit(AwaitCount), [];
    }
    ghost var e := OnInteger(AwaitCount, tasks.value);
    assert start == Then(e.events, Run(e.next, rest, analysis));
    if tasks.value == 0 {
      assert e == Effect(SelectSystem, []);
      ThenEmpty(Run(SelectSystem, rest, analysis));
      return Continue(rest), [];
    }
    var started := [Start(CountSeconds(tasks.value), ComeBackToSystem)];
    assert e == Effect(AwaitMedium, started);
    var focal, gamification, learn := 0.1, 0.05, 0.4;
    var weightSmall := WeightTopOfBacklog * (1.0 + focal) * (1.0 + gamification) * (1.0 + learn);
    assert weightSmall == WeightSmall;
    var more;
    o, more := MediumTasks(rest, analysis);
    ThenThen(started, more, Resume(o, analysis));
    events := started + more;
  }

  /** `schedule_day` on a fixed backlog, a fixed date and a script of typed
      lines: the selection loop, which follows `Run` line by line. */
  method ScheduleDay(backlog: seq<PBI>, today: Date, script: seq<string>) returns (final: Mode, log: seq<Event>)
    ensures Trace(final, log) == Run(SelectSystem, script, Flatten(backlog, today))
  {
    ghost var analysis := Flatten(backlog, today);
    var input := script;
    log := [];
    while input != []
      invariant Run(SelectSystem, script, analysis) == Then(log, Run(SelectSystem, input, analysis))
      decreases |input|
    {
      var key := input[0];
      assert input == [key] + input[1..];
      RunSelect(key, input[1..], analysis);
      input := input[1..];
      var system := SystemOf(key);
      if system.None? {
        assert Run(Stopped, input, analysis) == Trace(Stopped, []);
        return Stopped, log;
      }
      if system.value == Calendar {
        if input == [] {
          return AwaitContinue, log;
        }
        assert Run(AwaitContinue, input, analysis) == Then([], Run(SelectSystem, input[1..], analysis));
        ThenEmpty(Run(SelectSystem, input[1..], analysis));
        input := input[1..];
        continue;
      }
      var o, events;
      if system.value == Scheduler {
        o, events := ScheduleTask(key, backlog, today, input);
      } else {
        o, events := SkimSystem(key, analysis, input);
      }
      ThenThen(log, events, Resume(o, analysis));
      log := log + events;
      match o
      case Exit(m) => return m, log;
      case Continue(rest) => input := rest;
    }
    return SelectSystem, log;
  }
}
