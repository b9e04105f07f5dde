# task-backlog in Dafny

A model of the core of task-backlog, a personal tool that ranks a backlog of
product backlog items (PBIs) by value per hour and walks its user through a
daily triage of their inboxes and their schedule.

- `wrappers.dfy` — `Option` and `Result`.
- `units.dfy` (module `Units`) — a quantity with an uncertainty is its
  nominal value and its standard deviation; the three time units minute,
  hour and day, and the conversion to hours.
- `issues.dfy` (module `Issues`) — `Issue`, `PBI` and `Task` of issues.py:
  the url default, the rule that a PBI gets its tasks from exactly one of a
  task list or a single estimate, `PBI.E`, `PBI.W` and `Task.Timebox`.
- `setup.dfy` (module `Setup`) — the `Task` of setup.py with `W` and `S`.
- `analysis.dfy` (module `Analysis`) — `perform_analysis`: the row
  comprehension as a function (`Flatten`), the in-place sort by descending
  weight as a selection sort on an array (`SortByWeight`), and the running
  total of estimates as a loop (`CalendarDistance`). Rows keep their
  encounter-order label through the sort, and `RowAt` looks a row up by
  label as `full.loc` does.
- `int_text.dfy` (module `IntText`) — Python's `int()` on a typed line:
  surrounding whitespace, a sign, digits grouped by single underscores.
- `schedule.dfy` (module `Schedule`) — `prompt_for_integer` and
  `schedule_day`. `Step` says what one typed line does at each prompt and
  `Run` what a whole script of lines does; timers exist only as `Start` and
  `Cancel` events in the log. `ScheduleDay` is the selection loop written
  as the program runs it (with `ScheduleTask`, `SkimSystem`, `MediumTasks`
  and `PromptForInteger` as its branches and loops) and is proved to
  produce exactly the trace `Run` gives.

The backlog `fetch_ideas` returns and today's date are parameters: the
backlog is one fixed snapshot for the session. The program calls
`perform_analysis(fetch_ideas)` afresh at every Schedule selection, which
fetches the backlog and reads `date.today()` again; the model uses one
`Flatten(backlog, today)` for all of them. The console is a script of
lines; when it runs out, the loop is left waiting at the prompt it reached.

The model keeps these behaviours as the code has them:
- the task index is checked against `full.size`, the number of cells
  (rows times seven columns), not the number of rows, so an index from the
  row count up to seven times it passes the check and the lookup by label
  then raises KeyError (`SizeCheckAdmitsMissingLabels`);
- after the sort the row is found by its label, its position in encounter
  order, not by its ranked position (`RankingKeepsLabels`);
- the sort promises no order among ties;
- an empty backlog raises instead of giving an empty table (`NoRows`);
- a zero estimate is not rejected when a task is built; it makes the
  weight divide by zero (`ZeroDivision`);
- the Calendar system asks for no count: one line and it is back at
  selection;
- a timer's delay is `timedelta.seconds`, the seconds within the last day
  of the duration.

## Model

| member | source | states |
|---|---|---|
| Units.ToHours | issues.py:79-80 | converting to hours scales nominal value and deviation by the unit's positive number of hours; an hour stays as written; the sign is kept |
| Units.ToHoursRoundTrip | setup.py:36-39 | converting to hours and back to the written unit gives the written measurement |
| Units.UnitsAgree | issues.py:47 | 90 minutes is 1.5 hours; one day and 24 hours convert to the same hours |
| Issues.NewIssue | issues.py:16-30 | title and learning ratio are kept; a missing url becomes "" and a given one is kept unchanged |
| Issues.NewTask | issues.py:70-80 | the header is the issue built from title, ratio and url; estimate and learned value are converted to hours; the default learned value is exactly zero |
| Issues.Timebox | issues.py:82-84 | the timebox is at least the nominal estimate, and equal to it exactly when the deviation is zero |
| Issues.NewPBI | issues.py:33-61 | fails with BothTaskSources exactly when both a task list and an estimate are given, with MissingConstructorParameter exactly when neither is; otherwise header, value in hours and date are set, a given task list is kept as is, and an estimate alone gives the one implicit task |
| Issues.ImplicitTaskMirrorsPbi | issues.py:54-59 | a PBI built from an estimate has one task with the PBI's title and url, zero learned value and ratio, and its E() is that task's estimate |
| Issues.SumEstimatesAppend | issues.py:66-67 | the sum of estimates over two runs of tasks is the sum of their sums |
| Issues.SingleTaskEstimate | issues.py:66-67 | E() of a one-task PBI is that task's estimate; E() of a PBI with no tasks is 0 |
| Issues.E | issues.py:66-67 | the sum of the task estimates: see SingleTaskEstimate (one task gives its estimate, none gives 0) and SumEstimatesAppend (the sum splits over runs of tasks) |
| Issues.W | issues.py:63-64 | W() is defined exactly when E() is not zero, and then W()·E() is the value |
| Setup.NewTask | setup.py:26-39 | title kept; E and V stored in hours, unchanged when written in hours |
| Setup.W | setup.py:41-42 | W() is defined exactly when the nominal estimate is not zero, and then W()·E is V |
| Setup.S | setup.py:45-46 | the small-enough test: see SmallDependsOnlyOnNominalEstimate (holds exactly when the nominal estimate is under 8, whatever V and the deviation) |
| Setup.SmallDependsOnlyOnNominalEstimate | setup.py:45-46 | S() holds exactly when the nominal estimate is under 8, whatever the value and the deviation |
| Setup.WeightLinearInValue | setup.py:41-42 | scaling V by k with E fixed scales W() by k |
| Analysis.Pairs | analysis.py:21 | one (pbi, task) pair per task of the backlog |
| Analysis.PairIndex | analysis.py:21 | task j of PBI p is pair number (tasks of the PBIs before p) + j: PBI order, then task order |
| Analysis.RowWeight | analysis.py:14-15 | the weight is defined exactly when E() and the task's estimate are non-zero, and then it is W() + V_learn/E + V_lr |
| Analysis.WeightFormula | analysis.py:14-15 | (V·E/ΣE + V_learn + V_lr·E)/E equals V/ΣE + V_learn/E + V_lr |
| Analysis.PlainTaskHasPbiWeight | analysis.py:14-15 | a task with no learned value and no learning ratio has its PBI's weight: 10 h over 2 h gives 5, 1 h over 4 h gives 0.25 |
| Analysis.Age | analysis.py:18 | whole days since the PBI was created: see FlattenedRowOfTask (every task of one PBI gets today − creation date) |
| Analysis.MakeRow | analysis.py:9-20 | the row carries its label and the pair's weight, and its timebox is at least its nominal estimate |
| Analysis.Flatten | analysis.py:8-21 | raises ZeroDivision exactly when some pair's weight divides by zero, NoRows exactly when there are no tasks; otherwise one row per task, each labelled by its position |
| Analysis.FlattenedRowOfTask | analysis.py:8-21 | the row at the task's pair number holds its title, estimate, weight, url, timebox and its PBI's age today − creation date, the same for every task of the PBI |
| Analysis.IndexOfHeaviest | analysis.py:74 | the position returned holds a heaviest row of the suffix |
| Analysis.SortByWeight | analysis.py:74 | the array ends up a permutation of its old contents with weights non-increasing |
| Analysis.PrefixHours | analysis.py:75 | the running total of the nominal estimates: see CalendarDistance (the cumsum loop computes it), FirstDistanceIsOwnEstimate and PrefixHoursMonotone |
| Analysis.CalendarDistance | analysis.py:75-77 | entry k is the sum of the nominal estimates of rows 0..k |
| Analysis.FirstDistanceIsOwnEstimate | analysis.py:75-77 | the first row's calendar distance is its own estimate |
| Analysis.PrefixHoursMonotone | analysis.py:75-77 | with no negative estimate the calendar distance never decreases |
| Analysis.PerformAnalysis | analysis.py:6-98 | passes the analysis error through; otherwise the rows are a ranking of the flattened rows and the distance column is their running total |
| Analysis.RowAt | schedule.py:111 | a row found under a label is in the table and carries that label; none is found only when no row carries it |
| Analysis.RankingKeepsLabels | schedule.py:109-111 | in any ranking of a labelled table, label k finds the k-th row in encounter order and a label outside 0..n-1 finds nothing |
| Analysis.RankingOfTwo | analysis.py:74 | a ranking of two rows of different weights puts the heavier first |
| Analysis.TwoItemTable | analysis.py:8-21 | PBIs of 10 h over a 2 h task and 1 h over a 4 h task flatten to rows of weight 5 and 0.25 |
| Analysis.TwoItemRanking | analysis.py:74-77 | in every ranking of that table the weight-5 task comes first, with calendar distances 2 h and 6 h |
| IntText.ParseInt | schedule.py:63 | `int()` on a typed line: see ParseShow (reads back every printed integer), ParsePadded, ParseSigned, ParseGrouped, ParseRejectsBlank, ParseRejectsDoubleUnderscore and ParseRejectsSeparator |
| IntText.NatDigits | schedule.py:63 | the decimal rendering of a natural number is non-empty and all digits |
| IntText.NatDigitsValue | schedule.py:63 | the digits of n denote n |
| IntText.ParseShow | schedule.py:63 | every integer typed as Python prints it is read back as itself |
| IntText.PlainDigits | schedule.py:63 | digits without underscores are read as their decimal value |
| IntText.ParseRejectsBlank | schedule.py:63-65 | an empty or all-whitespace line is not an integer |
| IntText.ParsePadded | schedule.py:63 | whitespace around the text does not change what is read |
| IntText.ParseRejectsSeparator | schedule.py:63-65 | a line starting with one of the ASCII separators 0x1C to 0x1F is no integer, so the prompt asks again |
| IntText.ParseSigned | schedule.py:63 | a leading "-" negates the digits and a leading "+" changes nothing |
| IntText.ParseGrouped | schedule.py:63 | one underscore between two runs of digits reads as the digits joined |
| IntText.ParseRejectsDoubleUnderscore | schedule.py:63-65 | two underscores in a row make the line no integer |
| Schedule.SystemKeys | schedule.py:14-54 | a key names a system exactly when it is one of "c", "g", "o", "k", "u", "s"; "c" is Calendar and "s" Schedule |
| Schedule.FrameSize | schedule.py:107 | the size of a non-empty frame exceeds its row count; it is zero only for no rows |
| Schedule.ThresholdMonotone | schedule.py:187 | larger boosts never lower the threshold, which is at least the weight of the top of the backlog |
| Schedule.ThresholdValues | schedule.py:186-208 | weight_small is 8.085, weight_medium is 10.56, and weight_small < weight_medium |
| Schedule.DeclinedWeights | schedule.py:242-243 | an entered integer weight is below weight_medium exactly when it is at most 10 |
| Schedule.DaySeconds | schedule.py:81 | the timer delay lies in 0..86399 and differs from the duration by whole days |
| Schedule.ShortDurationKept | schedule.py:81 | a duration under a day keeps all its seconds |
| Schedule.CountSeconds | schedule.py:156 | the delay of the count timer: see CountDelays (120·n seconds under a day, 0 at 720 tasks, wrap-around for negative counts) |
| Schedule.CountDelays | schedule.py:156 | the count timer waits 120·n seconds for 0 ≤ n < 720, fires at once for 720, waits 86280 s for −1, and repeats every 720 |
| Schedule.TimeboxSeconds | schedule.py:109 | the delay of the timebox timer: see TimeboxDelays (the whole seconds of a timebox under a day; 25 hours waits one hour) |
| Schedule.TimeboxDelays | schedule.py:109 | a timebox under a day waits its whole seconds; a 25-hour one waits one hour |
| Schedule.Warnings | schedule.py:113-147 | the notes on a selected row: see WarningTests (each note exactly when its test holds) and WarningsCombine (display order, no repeats, several together) |
| Schedule.WarningTests | schedule.py:113-147 | each note shows exactly when its own test holds: over an hour with no url, over four hours, under three days old, under two weeks old |
| Schedule.WarningsCombine | schedule.py:113-147 | notes come in display order without repeats; a new row shows both age notes; a new, large row with no url shows all four |
| Schedule.NotesShowWarnings | schedule.py:113-147 | one note event per warning, in order |
| Schedule.Select | schedule.py:93-105 | the system selection: see SystemKeys, UnknownKeyStops (an unknown key stops), CalendarContinues and CountDecides |
| Schedule.OnInteger | schedule.py:106-156 | what an accepted integer does at the index, count and weight prompts: see IndexOutOfRangeStops, SizeCheckAdmitsMissingLabels, LabelledRowStarts, CountDecides and MediumTaskDecision |
| Schedule.Step | schedule.py:91-250 | one typed line at each prompt: see StepKeepsSlot (the timer slot stays consistent), RunMediumStep and RunSkipsNonIntegers |
| Schedule.Run | schedule.py:89-250 | a whole script: see RunKeepsSlot and NoTimerLeftPending (no timer starts on a pending one, none is left pending at selection), ScheduledRow, and ScheduleDay (the loop follows it) |
| Schedule.StepKeepsSlot | schedule.py:109-156 | every line moves the timer slot from what its prompt had pending to what the next prompt has pending, never starting on a full slot or cancelling an empty one |
| Schedule.RunKeepsSlot | schedule.py:91-250 | over a whole script the same holds from the first prompt to the last |
| Schedule.NoTimerLeftPending | schedule.py:149 | from the start of schedule_day no timer starts while another is pending, and none is pending when the loop is back at selection, has stopped, or has raised |
| Schedule.ScanInteger | schedule.py:59-66 | what the scan finds leaves fewer lines than it was given |
| Schedule.ScanFindsNothing | schedule.py:61-65 | the scan finds nothing exactly when no line reads as an integer |
| Schedule.ScanFindsFirst | schedule.py:61-66 | the scan returns the value of the first integer line and the lines after it; every line before it is not an integer |
| Schedule.PromptForInteger | schedule.py:59-66 | the loop returns what the scan finds: the first integer and the unread lines, or nothing once the lines run out |
| Schedule.RunSkipsNonIntegers | schedule.py:59-66 | at an integer prompt every non-integer line passes with no event and the first integer decides |
| Schedule.UnknownKeyStops | schedule.py:93-95 | a key naming no system ends the loop with no event |
| Schedule.CalendarContinues | schedule.py:100-102 | Calendar reads one line and is back at selection with no timer |
| Schedule.IndexOutOfRangeStops | schedule.py:106-108 | an index below 0 or at least full.size stops the loop before any timer starts |
| Schedule.SizeCheckAdmitsMissingLabels | schedule.py:107-111 | an index from the row count up to full.size passes the check and raises KeyError before any timer starts |
| Schedule.ScheduledRow | schedule.py:104-150 | an index labelling a row starts the timer for that row's timebox, shows its notes, and the next line cancels it and returns to selection |
| Schedule.LabelledRowStarts | schedule.py:109-111 | the index of a row starts its timebox timer and shows its notes |
| Schedule.CountDecides | schedule.py:152-156 | a count of 0 returns to selection with no timer; any other count, negative included, starts the two-minutes-per-task timer and enters the medium-task loop |
| Schedule.MediumTaskDecision | schedule.py:232-249 | a medium task cancels the timer, is declined exactly when its weight is at most 10, and starts the eight-minute timer either way |
| Schedule.RunMediumStep | schedule.py:233-236 | a line at the medium-task prompt cancels the timer; an empty one ends the medium loop |
| Schedule.ScheduleTask | schedule.py:104-150 | the Schedule branch produces the events `Run` gives for the key and the lines after it, and reads at least one line when it continues |
| Schedule.FrameRows | analysis.py:74 | the frame returned has as many rows as the flattened table and addresses the same row under every label |
| Schedule.PickTask | schedule.py:106-150 | reading the index on the ranked rows produces the events `Run` gives on the unsorted rows |
| Schedule.MediumTasks | schedule.py:232-250 | the medium-task loop produces the events `Run` gives from the medium prompt |
| Schedule.WeighTask | schedule.py:242-249 | one medium task produces the events `Run` gives from the weight prompt |
| Schedule.SkimSystem | schedule.py:152-250 | a system other than Calendar and Schedule produces the events `Run` gives for its key and the lines after it |
| Schedule.ScheduleDay | schedule.py:89-250 | the whole loop ends in the mode and with the events `Run` gives for the script on the day's analysis |

## Left out

- Display: `display`, `Markdown`, the systems' tips, `option_table`, the plot, the styler bars, `make_clickable`, `highlight_empty` and the console prints (`print("Please enter an integer.")` on a rejected line, the blank `print("")` lines) only render output, and the model has no event for them.
- Timers: `threading.Timer` never fires in the model; a timer is its `Start` event (delay and message) and its `Cancel` event, and the cutoff string from `datetime.now()` and the time-zone setting are not modelled.
- `fetch_ideas` and the issue tracker behind it are not part of this model: the backlog is a parameter, and the model reads it once for the whole session, where the program fetches it again (and reads today's date again) at every Schedule selection.
- Python's `date.today()` is the parameter `today`; a date is a day number.
- The console: an exhausted script leaves the loop waiting at its prompt rather than raising EOFError.
- IntText.ParseInt: accepts only ASCII whitespace and ASCII digits, so Unicode digits and spaces are not modelled; it also accepts decimal strings of any length, where current CPython's `int()` raises ValueError beyond 4300 digits, so such a line is re-prompted by the program and accepted by the model.
- Units: pint is replaced by minutes, hours and days; other units and dimension errors are not modelled.
- Uncertainties: only nominal values enter sums and weights, and only the input deviation of a task's estimate is used (by `Timebox`); propagated deviations are only plotted and are not modelled.
- Numbers are exact reals and unbounded integers: IEEE rounding of the thresholds and weights, and OverflowError of a huge `timedelta`, are not modelled.
- Schedule.TimeboxSeconds: truncates the timebox to whole seconds where `timedelta` rounds to microseconds first.
- `task.summary`: analysis.py reads a `summary` attribute that the task classes of issues.py do not define; the model uses the task's title.
- Analysis.SortByWeight: ties may come out in any order, as with the default `sort_values`; no particular order among ties is proved.
- Analysis.PerformAnalysis: the nominal frame, the plot and the styling steps between the comprehension and the sort are not modelled, only the table it returns.
- Schedule.FrameRows: states only the rows of the returned frame as seen through their labels, which is all the Schedule branch uses; the full ranking is the contract of Analysis.PerformAnalysis.
