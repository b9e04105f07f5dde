/** The backlog task of setup.py: a title with an estimate E and a value V,
    both converted to hours when the task is built. */
module Setup {
  import opened Wrappers
  import opened Units

  datatype Task = Task(title: string, estimate: Uncertain, value: Uncertain)

  /** `Task.__init__`: E and V are stored in hours. */
  function NewTask(title: string, valueUnits: Measurement, estimateUnits: Measurement): (t: Task)
    ensures t.title == title
    ensures t.estimate == ToHours(estimateUnits) && t.value == ToHours(valueUnits)
    ensures estimateUnits.unit == Hour ==> t.estimate == estimateUnits.magnitude
    ensures valueUnits.unit == Hour ==> t.value == valueUnits.magnitude
  {
    Task(title, ToHours(estimateUnits), ToHours(valueUnits))
  }

  /** `Task.W`: value per hour of estimate; `None` where dividing by a zero
      estimate raises. */
  function W(t: Task): (r: Option<real>)
    ensures r.Some? <==> t.estimate.nominal != 0.0
    ensures r.Some? ==> r.value * t.estimate.nominal == t.value.nominal
  {
    if t.estimate.nominal == 0.0 then None else Some(t.value.nominal / t.estimate.nominal)
  }

  /** `Task.S`: the task is small enough to start on. */
  predicate S(t: Task)
  {
    t.estimate.nominal < 8.0
  }

  /** S looks only at the nominal estimate: a task's value and the spread
      of its estimate never change whether it is small enough. */
  lemma SmallDependsOnlyOnNominalEstimate(t: Task, value: Uncertain, std: NonNegReal)
    ensures S(t) <==> t.estimate.nominal < 8.0
    ensures S(t) == S(t.(value := value, estimate := Uncertain(t.estimate.nominal, std)))
  {
  }

  /** Scaling the value by k with the estimate fixed scales the weight by k. */
  lemma WeightLinearInValue(t: Task, k: real)
    requires t.estimate.nominal != 0.0
    ensures var scaled := t.(value := Uncertain(k * t.value.nominal, t.value.std));
            W(scaled).Some? && W(scaled).value == k * W(t).value
  {
    var e := t.estimate.nominal;
    assert (k * t.value.nominal) / e == k * (t.value.nominal / e);
  }
}
