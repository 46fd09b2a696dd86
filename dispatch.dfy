/** Which feature steps a run performs, in which order, and what each one
    adds to the list of installed features. */
module Dispatch {

  datatype Step = Base | EslintImporter | Commitlint | StyledComponents | Storybook | Plop | MaterialUi

  /** The order __auto_create_next_app runs its steps in. */
  const AutoSteps: seq<Step> := [Base, EslintImporter, Commitlint, StyledComponents, Storybook, Plop, MaterialUi]

  /** The steps the `options` string selects: always e, then s, then p. */
  function OptionSteps(options: string): seq<Step>
  {
    if |options| == 0 then []
    else
      (if 'e' in options then [EslintImporter] else [])
      + (if 's' in options then [StyledComponents] else [])
      + (if 'p' in options then [Plop] else [])
  }

  /** Every step a run performs when nothing fails: the auto sequence or the
      base project, and then the options, even after an auto run. */
  function Plan(auto: bool, options: string): seq<Step>
  {
    (if auto then AutoSteps else [Base]) + OptionSteps(options)
  }

  /** The name a step appends to `installed` when it completes. */
  function Label(step: Step): seq<string>
  {
    match step
    case Base => []
    case EslintImporter => ["Eslint"]
    case Commitlint => []
    case StyledComponents => ["Styled Components"]
    case Storybook => ["Storybook"]
    case Plop => ["Plop"]
    case MaterialUi => ["Material UI"]
  }

  /** The `installed` list after the given steps completed, from empty. */
  function Labels(steps: seq<Step>): seq<string>
  {
    if steps == [] then [] else Labels(steps[..|steps| - 1]) + Label(steps[|steps| - 1])
  }

  /** Position of an option step in the fixed e, s, p order. */
  function Rank(step: Step): nat
  {
    match step
    case EslintImporter => 0
    case StyledComponents => 1
    case _ => 2
  }

  /** A run starts with the base project: alone, or as the head of the auto sequence. */
  lemma PlanHead(auto: bool, options: string)
    ensures auto ==> Plan(auto, options)[..|AutoSteps|] == AutoSteps
    ensures !auto ==> Plan(auto, options)[..1] == [Base]
    ensures Plan(auto, options)[0] == Base
    ensures Plan(auto, options)[(if auto then |AutoSteps| else 1)..] == OptionSteps(options)
  {
  }

  /** Options run in the fixed order e, s, p, each at most once, and a step
      runs exactly when its letter occurs in the string. */
  lemma OptionStepsOrdered(options: string)
    ensures var steps := OptionSteps(options);
            && (forall i, j :: 0 <= i < j < |steps| ==> Rank(steps[i]) < Rank(steps[j]))
            && (forall i :: 0 <= i < |steps| && steps[i] == EslintImporter ==> i == 0)
            && (EslintImporter in steps <==> 'e' in options)
            && (StyledComponents in steps <==> 's' in options)
            && (Plop in steps <==> 'p' in options)
            && (forall step :: step in steps ==> step in {EslintImporter, StyledComponents, Plop})
  {
  }

  /** Only which letters occur matters, not their order or repetition. */
  lemma OptionStepsIgnoreOrder(options: string, other: string)
    requires forall c :: c in options <==> c in other
    ensures OptionSteps(options) == OptionSteps(other)
  {
    if |options| > 0 {
      assert options[0] in other;
    }
    if |other| > 0 {
      assert other[0] in options;
    }
  }

  /** An auto run with option e runs the importer twice. */
  lemma AutoWithEslintOption(options: string)
    requires 'e' in options
    ensures var plan := Plan(true, options);
            && plan[1] == EslintImporter && plan[|AutoSteps|] == EslintImporter
            && forall i :: 0 <= i < |plan| && plan[i] == EslintImporter ==> i == 1 || i == |AutoSteps|
  {
    var plan := Plan(true, options);
    var extra := OptionSteps(options);
    assert extra[0] == EslintImporter;
    forall i | 0 <= i < |plan| && plan[i] == EslintImporter
      ensures i == 1 || i == |AutoSteps|
    {
      if i >= |AutoSteps| {
        OptionStepsOrdered(options);
        assert extra[i - |AutoSteps|] == EslintImporter;
      }
    }
  }

  /** `installed` only grows by appends, one step at a time. */
  lemma {:induction false} LabelsAppend(steps: seq<Step>, more: seq<Step>)
    ensures Labels(steps + more) == Labels(steps) + Labels(more)
    decreases |more|
  {
    if more == [] {
      assert steps + more == steps;
    } else {
      var init, last := more[..|more| - 1], more[|more| - 1];
      SplitLast(steps, more);
      calc {
        Labels(steps + more);
      == { LabelsSnoc(steps + init, last); }
        Labels(steps + init) + Label(last);
      == { LabelsAppend(steps, init); }
        Labels(steps) + Labels(init) + Label(last);
      == { LabelsSnoc(init, last); }
        Labels(steps) + Labels(more);
      }
    }
  }

  /** A non-empty run of steps is its front followed by its last step. */
  lemma SplitLast(steps: seq<Step>, more: seq<Step>)
    requires more != []
    ensures more == more[..|more| - 1] + [more[|more| - 1]]
    ensures steps + more == (steps + more[..|more| - 1]) + [more[|more| - 1]]
  {
  }

  /** Completing one more step appends its name. */
  lemma LabelsSnoc(steps: seq<Step>, step: Step)
    ensures Labels(steps + [step]) == Labels(steps) + Label(step)
  {
    assert (steps + [step])[..|steps|] == steps;
  }

  /** The names the options append: Eslint, Styled Components and Plop,
      each when its letter is selected, in that order. */
  lemma OptionLabels(options: string)
    ensures Labels(OptionSteps(options))
            == (if 'e' in options then ["Eslint"] else [])
               + (if 's' in options then ["Styled Components"] else [])
               + (if 'p' in options then ["Plop"] else [])
  {
    var e: seq<Step> := if 'e' in options then [EslintImporter] else [];
    var s: seq<Step> := if 's' in options then [StyledComponents] else [];
    var p: seq<Step> := if 'p' in options then [Plop] else [];
    if |options| == 0 {
      return;
    }
    assert OptionSteps(options) == e + s + p;
    LabelsOfThree(e, s, p);
    LabelsSingle(e);
    LabelsSingle(s);
    LabelsSingle(p);
  }

  lemma LabelsOfThree(a: seq<Step>, b: seq<Step>, c: seq<Step>)
    ensures Labels(a + b + c) == Labels(a) + Labels(b) + Labels(c)
  {
    LabelsAppend(a + b, c);
    LabelsAppend(a, b);
  }

  /** At most one step: its own name, if it has one. */
  lemma LabelsSingle(steps: seq<Step>)
    requires |steps| <= 1
    ensures Labels(steps) == if steps == [] then [] else Label(steps[0])
  {
    if steps != [] {
      assert steps[..0] == [];
    }
  }

  /** The names a complete __auto_create_next_app appends to `installed`. */
  const AutoInstalled: seq<string> := ["Eslint", "Styled Components", "Storybook", "Plop", "Material UI"]

  /** `installed` only ever holds the names of the five features. */
  lemma {:induction false} LabelsAreFeatureNames(steps: seq<Step>)
    ensures forall name :: name in Labels(steps) ==> name in AutoInstalled
    decreases |steps|
  {
    if steps != [] {
      LabelsAreFeatureNames(steps[..|steps| - 1]);
    }
  }

  /** No step ever appends "Styled Component" (singular): the name
      add_material_ui tests for. */
  lemma NeverStyledComponent(steps: seq<Step>)
    ensures "Styled Component" !in Labels(steps)
  {
    LabelsAreFeatureNames(steps);
    assert "Styled Component" != "Styled Components";
  }

  /** The names a complete auto run records, in order. */
  lemma AutoLabels()
    ensures Labels(AutoSteps) == AutoInstalled
  {
    var s0: seq<Step> := [];
    var s1 := s0 + [Base];
    var s2 := s1 + [EslintImporter];
    var s3 := s2 + [Commitlint];
    var s4 := s3 + [StyledComponents];
    var s5 := s4 + [Storybook];
    var s6 := s5 + [Plop];
    LabelsSnoc(s0, Base);
    LabelsSnoc(s1, EslintImporter);
    LabelsSnoc(s2, Commitlint);
    LabelsSnoc(s3, StyledComponents);
    LabelsSnoc(s4, Storybook);
    LabelsSnoc(s5, Plop);
    LabelsSnoc(s6, MaterialUi);
    AutoStepsBuilt();
  }

  /** The auto sequence, one step at a time. */
  lemma AutoStepsBuilt()
    ensures [] + [Base] + [EslintImporter] + [Commitlint] + [StyledComponents] + [Storybook] + [Plop] + [MaterialUi] == AutoSteps
  {
  }
}
