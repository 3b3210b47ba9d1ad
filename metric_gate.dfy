/** The deployment gate of deployment/deploy_register.py: choose the metric to
    judge the trained model by, and decide whether it clears the threshold. */
module MetricGate {
  import opened Wrappers

  /** The loaded `metrics.json`: an optional task tag and the numeric metrics. */
  datatype Metrics = Metrics(task: Option<string>, values: map<string, real>)

  /** The outcome of the gate: which metric was chosen, its value if the record
      has it, and whether to deploy. */
  datatype Decision = Decision(metric: Option<string>, value: Option<real>, deploy: bool)

  const Auto: string := "auto"

  /** The record's task kind, "classification" when it carries none. */
  function TaskOf(m: Metrics): string {
    m.task.GetOr("classification")
  }

  /** The metric the gate judges by. A name other than "auto" is used as given;
      "auto" prefers r2, then mse for a regression task, and accuracy for any
      other task, and selects nothing when the preferred metrics are absent. */
  function SelectMetric(requested: string, m: Metrics): (r: Option<string>)
    ensures requested != Auto ==> r == Some(requested)
    ensures requested == Auto && r.Some? ==> r.value in m.values
    ensures requested == Auto && TaskOf(m) == "regression" ==>
      (r == Some("r2") <==> "r2" in m.values) &&
      (r == Some("mse") <==> "r2" !in m.values && "mse" in m.values) &&
      (r.None? <==> "r2" !in m.values && "mse" !in m.values)
    ensures requested == Auto && TaskOf(m) != "regression" ==>
      (r == Some("accuracy") <==> "accuracy" in m.values) &&
      (r.None? <==> "accuracy" !in m.values)
  {
    if requested != Auto then Some(requested)
    else if TaskOf(m) == "regression" then
      if "r2" in m.values then Some("r2")
      else if "mse" in m.values then Some("mse")
      else None
    else
      if "accuracy" in m.values then Some("accuracy") else None
  }

  /** mse is the one lower-is-better metric; every other name is higher-is-better. */
  predicate LowerIsBetter(metric: string) {
    metric == "mse"
  }

  /** Whether a metric value clears the threshold; equality clears it either way. */
  predicate Clears(metric: string, value: real, threshold: real) {
    if LowerIsBetter(metric) then value <= threshold else value >= threshold
  }

  /** The gate: a metric that is not selected or not in the record never
      deploys and raises no error; otherwise the value is compared in the
      metric's direction. */
  function Decide(m: Metrics, requested: string, threshold: real): (d: Decision)
    ensures d.metric == SelectMetric(requested, m)
    ensures d.value.Some? <==> d.metric.Some? && d.metric.value in m.values
    ensures d.value.Some? ==> d.value.value == m.values[d.metric.value]
    ensures d.deploy <==> d.value.Some? && Clears(d.metric.value, d.value.value, threshold)
  {
    match SelectMetric(requested, m)
    case None => Decision(None, None, false)
    case Some(name) =>
      if name !in m.values then Decision(Some(name), None, false)
      else
        var v := m.values[name];
        Decision(Some(name), Some(v), if name == "mse" then v <= threshold else v >= threshold)
  }

  /** A record without the selected metric (or with none selected) never deploys. */
  lemma MissingMetricSkips(m: Metrics, requested: string, threshold: real)
    requires SelectMetric(requested, m).None? || SelectMetric(requested, m).value !in m.values
    ensures !Decide(m, requested, threshold).deploy
  {
  }

  /** For mse, a value at the threshold deploys and any larger value does not. */
  lemma MseBoundary(m: Metrics, requested: string, threshold: real)
    requires SelectMetric(requested, m) == Some("mse") && "mse" in m.values
    ensures m.values["mse"] == threshold ==> Decide(m, requested, threshold).deploy
    ensures m.values["mse"] > threshold ==> !Decide(m, requested, threshold).deploy
  {
  }

  /** For every other metric, a value at the threshold deploys and any smaller
      value does not. */
  lemma HigherIsBetterBoundary(m: Metrics, requested: string, threshold: real)
    requires SelectMetric(requested, m).Some? && SelectMetric(requested, m).value != "mse"
    requires SelectMetric(requested, m).value in m.values
    ensures var v := m.values[SelectMetric(requested, m).value];
      (v == threshold ==> Decide(m, requested, threshold).deploy) &&
      (v < threshold ==> !Decide(m, requested, threshold).deploy)
  {
  }

  /** Improving the metric in its own direction never turns a deploy into a skip. */
  lemma DecisionMonotone(m: Metrics, requested: string, threshold: real, better: real)
    requires Decide(m, requested, threshold).deploy
    requires var name := SelectMetric(requested, m).value;
      if LowerIsBetter(name) then better <= m.values[name] else better >= m.values[name]
    ensures var name := SelectMetric(requested, m).value;
      Decide(m.(values := m.values[name := better]), requested, threshold).deploy
  {
    var name := SelectMetric(requested, m).value;
    var m' := m.(values := m.values[name := better]);
    assert TaskOf(m') == TaskOf(m);
    assert forall k :: k in m'.values <==> k in m.values;
    assert SelectMetric(requested, m') == SelectMetric(requested, m);
  }

  /** A regression record with only mse = 1.2 and threshold 1.5 selects mse
      automatically and deploys. */
  lemma RegressionAutoSelectsMse()
    ensures Decide(Metrics(Some("regression"), map["mse" := 1.2]), Auto, 1.5)
      == Decision(Some("mse"), Some(1.2), true)
  {
  }

  /** A classification record with accuracy 0.62 and threshold 0.8 does not deploy. */
  lemma LowAccuracySkips()
    ensures Decide(Metrics(Some("classification"), map["accuracy" := 0.62]), Auto, 0.8)
      == Decision(Some("accuracy"), Some(0.62), false)
  {
  }
}
