/** The pipeline plumbing of pipeline/pipeline.py and pipeline/pipeline_builder.py:
    a builder turns step names into steps, skipping names it does not know, and
    a pipeline runs the data through its steps in the order they were added. */
module Pipelines {
  import opened Wrappers
  import opened Tables
  import opened Cleaning

  /** The four step classes the builder can load. */
  datatype StepKind = CleanData | FeatureEngineering | CategoricalEncode | Normalisation

  /** The class name a step is loaded by. */
  function ClassName(k: StepKind): string {
    match k
    case CleanData => "CleanDataStep"
    case FeatureEngineering => "FeatureEngineeringStep"
    case CategoricalEncode => "CategoricalEncodeStep"
    case Normalisation => "NormalisationStep"
  }

  /** `load_step`: the step whose class name is `name`, or nothing (Python's
      implicit `None`) for any other name. */
  function LoadStep(name: string): (r: Option<StepKind>)
    ensures forall k :: r == Some(k) <==> ClassName(k) == name
  {
    if name == "CleanDataStep" then Some(CleanData)
    else if name == "FeatureEngineeringStep" then Some(FeatureEngineering)
    else if name == "CategoricalEncodeStep" then Some(CategoricalEncode)
    else if name == "NormalisationStep" then Some(Normalisation)
    else None
  }

  predicate IsKnownStep(name: string) {
    LoadStep(name).Some?
  }

  /** The steps `build_pipeline` adds for `names`: the known names, loaded, in
      the order given, with unknown names skipped. */
  function KnownSteps(names: seq<string>): (ks: seq<StepKind>)
    ensures |ks| <= |names|
    ensures forall i :: 0 <= i < |ks| ==> ClassName(ks[i]) in names
  {
    if names == [] then []
    else
      var init := KnownSteps(names[..|names| - 1]);
      match LoadStep(names[|names| - 1])
      case Some(k) => init + [k]
      case None => init
  }

  /** The class names of a list of steps. */
  function Names(ks: seq<StepKind>): (ns: seq<string>)
    ensures |ns| == |ks|
    ensures forall i :: 0 <= i < |ks| ==> ns[i] == ClassName(ks[i])
  {
    if ks == [] then [] else [ClassName(ks[0])] + Names(ks[1..])
  }

  lemma NamesAppend(a: seq<StepKind>, b: seq<StepKind>)
    ensures Names(a + b) == Names(a) + Names(b)
  {
    var l, r := Names(a + b), Names(a) + Names(b);
    forall i | 0 <= i < |l|
      ensures l[i] == r[i]
    {
      if i < |a| {
        assert (a + b)[i] == a[i];
      } else {
        assert (a + b)[i] == b[i - |a|];
      }
    }
  }

  /** The built steps are exactly the known names of the list, in their order
      and with their duplicates: loading them back by class name gives the
      list with its unknown names removed. */
  lemma {:induction false} KnownStepsAreKnownNames(names: seq<string>)
    ensures Names(KnownSteps(names)) == Filter(names, IsKnownStep)
    ensures |KnownSteps(names)| == Count(names, IsKnownStep)
  {
    if names != [] {
      var init, last := names[..|names| - 1], names[|names| - 1];
      assert names == init + [last];
      KnownStepsAreKnownNames(init);
      FilterAppend(init, [last], IsKnownStep);
      assert Filter([last], IsKnownStep) == if IsKnownStep(last) then [last] else [] by {
        assert [last][1..] == [];
      }
      match LoadStep(last)
      case Some(k) =>
        NamesAppend(KnownSteps(init), [k]);
      case None =>
    }
  }

  /** One step applied to a table. The cleaning step is modelled; the other
      three are given as `other`. */
  function Apply(k: StepKind, t: Table, other: (StepKind, Table) -> Table): Table {
    if k == CleanData then Clean(t) else other(k, t)
  }

  /** The left fold of the steps over the data, first step first. */
  function Run(steps: seq<StepKind>, t: Table, other: (StepKind, Table) -> Table): Table
  {
    if steps == [] then t else Run(steps[1..], Apply(steps[0], t, other), other)
  }

  /** Running a pipeline with one more step applies that step to what the
      earlier steps produce. */
  lemma {:induction false} RunSnoc(steps: seq<StepKind>, k: StepKind, t: Table, other: (StepKind, Table) -> Table)
    ensures Run(steps + [k], t, other) == Apply(k, Run(steps, t, other), other)
  {
    if steps == [] {
      assert steps + [k] == [k];
      assert [k][1..] == [];
    } else {
      assert (steps + [k])[1..] == steps[1..] + [k];
      RunSnoc(steps[1..], k, Apply(steps[0], t, other), other);
    }
  }

  /** Running the concatenation of two step lists runs the second on the
      output of the first. */
  lemma {:induction false} RunAppend(a: seq<StepKind>, b: seq<StepKind>, t: Table, other: (StepKind, Table) -> Table)
    ensures Run(a + b, t, other) == Run(b, Run(a, t, other), other)
  {
    if b != [] {
      var init, last := b[..|b| - 1], b[|b| - 1];
      assert b == init + [last];
      assert a + b == (a + init) + [last];
      RunAppend(a, init, t, other);
      RunSnoc(a + init, last, t, other);
      RunSnoc(init, last, Run(a, t, other), other);
    } else {
      assert a + b == a;
    }
  }

  /** `Pipeline`: an append-only list of steps. */
  class Pipeline {
    var steps: seq<StepKind>

    constructor ()
      ensures steps == []
    {
      steps := [];
    }

    method AddStep(k: StepKind)
      modifies this
      ensures steps == old(steps) + [k]
    {
      steps := steps + [k];
    }

    /** `execute`: each step in turn replaces the data with its output. The
        step list is left as it is. */
    method Execute(data: Table, other: (StepKind, Table) -> Table) returns (r: Table)
      ensures r == Run(steps, data, other)
      ensures steps == [] ==> r == data
    {
      r := data;
      for i := 0 to |steps|
        invariant r == Run(steps[..i], data, other)
      {
        var step := steps[i];
        RunSnoc(steps[..i], step, data, other);
        PrefixSnoc(steps, i);
        r := ApplyStep(step, r, other);
      }
      assert steps[..|steps|] == steps;
    }
  }

  /** `step.process(data)`: the cleaning step runs as written; the others are `other`. */
  method ApplyStep(k: StepKind, t: Table, other: (StepKind, Table) -> Table) returns (r: Table)
    ensures r == Apply(k, t, other)
  {
    if k == CleanData {
      r := Process(t);
    } else {
      r := other(k, t);
    }
  }

  /** `PipelineBuilder`: holds the step names it was given. */
  class PipelineBuilder {
    var pipelineSteps: seq<string>

    constructor (stepsList: seq<string>)
      ensures pipelineSteps == stepsList
    {
      pipelineSteps := stepsList;
    }

    /** `build_pipeline`: a new pipeline with one step per known name, in
        order; unknown names are skipped. */
    method BuildPipeline() returns (p: Pipeline)
      ensures fresh(p)
      ensures p.steps == KnownSteps(pipelineSteps)
    {
      p := new Pipeline();
      for i := 0 to |pipelineSteps|
        invariant p.steps == KnownSteps(pipelineSteps[..i])
      {
        var name := pipelineSteps[i];
        assert pipelineSteps[..i + 1][..i] == pipelineSteps[..i];
        var step := LoadStep(name);
        if step.None? {
          continue;
        }
        p.AddStep(step.value);
      }
      assert pipelineSteps[..|pipelineSteps|] == pipelineSteps;
    }
  }

  /** With no names the builder makes no steps; an unknown name between two
      known ones is skipped and the known ones keep their order. */
  lemma BuildExamples()
    ensures KnownSteps([]) == []
    ensures KnownSteps(["CleanDataStep", "Unknown", "NormalisationStep"]) == [CleanData, Normalisation]
  {
    var names := ["CleanDataStep", "Unknown", "NormalisationStep"];
    assert names[..2][..1] == ["CleanDataStep"];
    assert names[..2] == ["CleanDataStep", "Unknown"];
    assert names[..3][..2] == names[..2];
  }
}
