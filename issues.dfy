/** Backlog items of issues.py: the common issue header, product backlog
    items (PBIs) and the tasks a PBI is split into. Every constructor sets
    fields once and nothing is mutated afterwards, so all three are values. */
module Issues {
  import opened Wrappers
  import opened Units

  /** A calendar date, as a day number. */
  type Date = int

  /** The fields shared by PBIs and tasks: a short title, the learning ratio
      (long-term time regained per hour spent) and a link, empty when absent. */
  datatype Issue = Issue(title: string, learningRatio: real, url: string)

  /** `Issue.__init__`: a missing url is stored as the empty string. */
  function NewIssue(title: string, learningRatio: real := 0.0, url: Option<string> := None): (i: Issue)
    ensures i.title == title && i.learningRatio == learningRatio
    ensures url.None? ==> i.url == ""
    ensures url.Some? ==> i.url == url.value
  {
    Issue(title, learningRatio, if url.Some? then url.value else "")
  }

  /** A task: estimate E and learned value V_learn, both in hours. */
  datatype Task = Task(header: Issue, estimate: Uncertain, learnedValue: Uncertain)

  const ZeroHours: Measurement := Measurement(Exact(0.0), Hour)

  /** `Task.__init__`: both measurements are converted to hours. */
  function NewTask(title: string, estimateUnits: Measurement, learnedValueUnits: Measurement := ZeroHours,
                   learningRatio: real := 0.0, url: Option<string> := None): (t: Task)
    ensures t.header == NewIssue(title, learningRatio, url)
    ensures t.estimate == ToHours(estimateUnits)
    ensures t.learnedValue == ToHours(learnedValueUnits)
    ensures learnedValueUnits == ZeroHours ==> t.learnedValue == Exact(0.0)
  {
    Task(NewIssue(title, learningRatio, url), ToHours(estimateUnits), ToHours(learnedValueUnits))
  }

  /** `Task.Timebox`: the nominal estimate plus two standard deviations, a
      bound the task finishes within with about 95% probability. */
  function Timebox(t: Task): (r: real)
    ensures r >= t.estimate.nominal
    ensures r == t.estimate.nominal <==> t.estimate.std == 0.0
  {
    t.estimate.nominal + 2.0 * t.estimate.std
  }

  /** A PBI: value V in hours, the date it was created and its tasks. */
  datatype PBI = PBI(header: Issue, value: Uncertain, creationDate: Date, tasks: seq<Task>)

  /** Why `PBI.__init__` refuses its arguments: the failed `assert` when both
      task sources are given, the raised exception when neither is. */
  datatype PbiError = BothTaskSources | MissingConstructorParameter

  /** `PBI.__init__`: the tasks come from exactly one of an explicit task
      list or a single estimate, from which one implicit task is built. */
  function NewPBI(title: string, valueUnits: Measurement, creationDate: Date, learningRatio: real := 0.0,
                  url: Option<string> := None, tasks: Option<seq<Task>> := None,
                  estimateUnits: Option<Measurement> := None): (r: Result<PBI, PbiError>)
    ensures r == Failure(BothTaskSources) <==> tasks.Some? && estimateUnits.Some?
    ensures r == Failure(MissingConstructorParameter) <==> tasks.None? && estimateUnits.None?
    ensures r.Success? ==>
              && r.value.header == NewIssue(title, learningRatio, url)
              && r.value.value == ToHours(valueUnits)
              && r.value.creationDate == creationDate
    ensures r.Success? && tasks.Some? ==> r.value.tasks == tasks.value
    ensures r.Success? && estimateUnits.Some? ==>
              r.value.tasks == [NewTask(title, estimateUnits.value, url := Some(r.value.header.url))]
  {
    var header := NewIssue(title, learningRatio, url);
    if tasks.Some? then
      if estimateUnits.Some? then Failure(BothTaskSources)
      else Success(PBI(header, ToHours(valueUnits), creationDate, tasks.value))
    else if estimateUnits.Some? then
      Success(PBI(header, ToHours(valueUnits), creationDate,
                  [NewTask(title, estimateUnits.value, url := Some(header.url))]))
    else Failure(MissingConstructorParameter)
  }

  /** A PBI built from an estimate alone has one task that carries the PBI's
      title and url, the converted estimate, and no learning value or ratio. */
  lemma ImplicitTaskMirrorsPbi(title: string, valueUnits: Measurement, creationDate: Date,
                               learningRatio: real, url: Option<string>, estimateUnits: Measurement)
    ensures var r := NewPBI(title, valueUnits, creationDate, learningRatio, url, None, Some(estimateUnits));
            && r.Success?
            && |r.value.tasks| == 1
            && r.value.tasks[0].header.title == r.value.header.title
            && r.value.tasks[0].header.url == r.value.header.url
            && r.value.tasks[0].header.learningRatio == 0.0
            && r.value.tasks[0].learnedValue == Exact(0.0)
            && r.value.tasks[0].estimate == ToHours(estimateUnits)
            && E(r.value) == ToHours(estimateUnits).nominal
  {
    var r := NewPBI(title, valueUnits, creationDate, learningRatio, url, None, Some(estimateUnits));
    SingleTaskEstimate(r.value);
  }

  /** Sum of the nominal estimates, added left to right as Python's `sum`. */
  function SumEstimates(tasks: seq<Task>): real
  {
    if tasks == [] then 0.0
    else SumEstimates(tasks[..|tasks| - 1]) + tasks[|tasks| - 1].estimate.nominal
  }

  /** `PBI.E`: the PBI's total estimate. */
  function E(p: PBI): real
  {
    SumEstimates(p.tasks)
  }

  /** Summing over two consecutive runs of tasks adds their sums. */
  lemma {:induction false} SumEstimatesAppend(a: seq<Task>, b: seq<Task>)
    ensures SumEstimates(a + b) == SumEstimates(a) + SumEstimates(b)
    decreases |b|
  {
    if b == [] {
      assert a + b == a;
    } else {
      assert (a + b)[..|a + b| - 1] == a + b[..|b| - 1];
      SumEstimatesAppend(a, b[..|b| - 1]);
    }
  }

  /** A PBI with a single task has exactly that task's estimate; one with no
      tasks has a total estimate of zero. */
  lemma SingleTaskEstimate(p: PBI)
    ensures |p.tasks| == 1 ==> E(p) == p.tasks[0].estimate.nominal
    ensures p.tasks == [] ==> E(p) == 0.0
  {
    if |p.tasks| == 1 {
      assert p.tasks[..0] == [];
      assert SumEstimates(p.tasks) == SumEstimates([]) + p.tasks[0].estimate.nominal;
    }
  }

  /** `PBI.W`: value per hour of estimate. Dividing by a zero total estimate
      raises, which is the `None` case. */
  function W(p: PBI): (r: Option<real>)
    ensures r.Some? <==> E(p) != 0.0
    ensures r.Some? ==> r.value * E(p) == p.value.nominal
  {
    if E(p) == 0.0 then None else Some(p.value.nominal / E(p))
  }
}
