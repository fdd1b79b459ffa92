/** The processing pipeline a job carries: an ordered list of named steps,
    each holding typed, keyed attributes; the compiled-in default pipeline;
    the (step, attribute) search behind the initial-pair queries; and the
    per-step part of the job descriptor. */
module Pipeline {
  import opened Json

  /** Attribute type codes used by the default pipeline. */
  const SLIDER: int := 1
  const COMBO: int := 2
  const PAIR_SELECTOR: int := 3

  datatype Range = Range(min: real, max: real, step: real)

  /** One parameter of a step: `key` is the lookup key, `name` the label shown
      to the user; the options are for a combo, the range for a slider. */
  datatype Attribute = Attribute(kind: int, key: string, name: string, value: Value,
                                 options: seq<string>, range: Option<Range>)

  datatype Step = Step(name: string, attributes: seq<Attribute>)

  predicate UniqueKeys(attrs: seq<Attribute>)
  {
    forall i, j | 0 <= i < j < |attrs| :: attrs[i].key != attrs[j].key
  }

  /** Step names are distinct and attribute keys are distinct within a step. */
  predicate WellFormed(steps: seq<Step>)
  {
    && (forall i, j | 0 <= i < j < |steps| :: steps[i].name != steps[j].name)
    && (forall i | 0 <= i < |steps| :: UniqueKeys(steps[i].attributes))
  }

  /** The fixed pipeline every job is created with. */
  function DefaultGraph(): (g: seq<Step>)
    ensures WellFormed(g)
    ensures |g| == 3 && g[0].name == "feature_detection" && g[1].name == "meshing" && g[2].name == "sfm"
    ensures forall i | 0 <= i < |g| :: |g[i].attributes| == 1
    ensures g[0].attributes[0].key == "describerPreset" && g[0].attributes[0].kind == COMBO
    ensures g[1].attributes[0].key == "scale" && g[1].attributes[0].kind == SLIDER
    ensures g[2].attributes[0].key == "initial_pair" && g[2].attributes[0].kind == PAIR_SELECTOR
    // the combo's default is one of its options
    ensures AsString(g[0].attributes[0].value) in g[0].attributes[0].options
    // the slider's default lies within its range
    ensures var a := g[1].attributes[0];
            a.range.Some? && a.value.Number? && a.range.value.min <= a.value.n <= a.range.value.max
  {
    [ Step("feature_detection",
           [Attribute(COMBO, "describerPreset", "quality", Text("Normal"),
                      ["Normal", "High", "Ultra"], None)]),
      Step("meshing",
           [Attribute(SLIDER, "scale", "meshing scale", Number(2.0),
                      [], Some(Range(1.0, 10.0, 1.0)))]),
      Step("sfm",
           [Attribute(PAIR_SELECTOR, "initial_pair", "initial pair",
                      Array([Text(""), Text("")]), [], None)]) ]
  }

  // ---------------------------------------------------------------------
  // Shape: everything but the attribute values. Only values ever change
  // once a job has been created.

  function Blank(a: Attribute): Attribute
  {
    a.(value := Null)
  }

  function StepShape(s: Step): Step
  {
    Step(s.name, seq(|s.attributes|, j requires 0 <= j < |s.attributes| => Blank(s.attributes[j])))
  }

  function ShapeOf(steps: seq<Step>): seq<Step>
  {
    seq(|steps|, i requires 0 <= i < |steps| => StepShape(steps[i]))
  }

  /** Two pipelines of the same shape agree, step by step, on everything but values. */
  lemma SameShapeAt(a: seq<Step>, b: seq<Step>, i: nat)
    requires ShapeOf(a) == ShapeOf(b) && i < |a|
    ensures |a| == |b| && a[i].name == b[i].name && |a[i].attributes| == |b[i].attributes|
    ensures forall j | 0 <= j < |a[i].attributes| ::
              a[i].attributes[j].key == b[i].attributes[j].key && Blank(a[i].attributes[j]) == Blank(b[i].attributes[j])
  {
    assert |ShapeOf(a)| == |ShapeOf(b)|;
    assert ShapeOf(a)[i] == ShapeOf(b)[i];
    forall j | 0 <= j < |a[i].attributes|
      ensures a[i].attributes[j].key == b[i].attributes[j].key && Blank(a[i].attributes[j]) == Blank(b[i].attributes[j])
    {
      assert StepShape(a[i]).attributes[j] == StepShape(b[i]).attributes[j];
    }
  }

  /** Well-formedness depends on names and keys only. */
  lemma WellFormedShape(a: seq<Step>, b: seq<Step>)
    requires ShapeOf(a) == ShapeOf(b) && WellFormed(a)
    ensures WellFormed(b)
  {
    assert |ShapeOf(a)| == |ShapeOf(b)|;
    forall i | 0 <= i < |b|
      ensures UniqueKeys(b[i].attributes)
    {
      SameShapeAt(a, b, i);
      assert UniqueKeys(a[i].attributes);
    }
    forall i, j | 0 <= i < j < |b|
      ensures b[i].name != b[j].name
    {
      SameShapeAt(a, b, i);
      SameShapeAt(a, b, j);
    }
  }

  // ---------------------------------------------------------------------
  // Search for an attribute by step name and attribute key.

  /** Where an attribute sits: index of its step, index within the step. */
  datatype Loc = Loc(step: nat, attr: nat)

  predicate IsMatch(steps: seq<Step>, stepName: string, key: string, i: int, j: int)
  {
    && 0 <= i < |steps| && steps[i].name == stepName
    && 0 <= j < |steps[i].attributes| && steps[i].attributes[j].key == key
  }

  /** `l` comes no later than (i, j) in step order, then attribute order. */
  predicate Precedes(l: Loc, i: int, j: int)
  {
    l.step < i || (l.step == i && l.attr <= j)
  }

  /** The first attribute at or after index `j` whose key is `key`. */
  function KeyIndexFrom(attrs: seq<Attribute>, key: string, j: nat): (r: Option<nat>)
    requires j <= |attrs|
    decreases |attrs| - j
    ensures r.Some? ==> j <= r.value < |attrs| && attrs[r.value].key == key
    ensures r.Some? ==> forall k | j <= k < r.value :: attrs[k].key != key
    ensures r.None? ==> forall k | j <= k < |attrs| :: attrs[k].key != key
  {
    if j == |attrs| then None
    else if attrs[j].key == key then Some(j)
    else KeyIndexFrom(attrs, key, j + 1)
  }

  /** The first matching (step, attribute) pair among the steps from index `i` on. */
  function FindAttributeFrom(steps: seq<Step>, stepName: string, key: string, i: nat): (r: Option<Loc>)
    requires i <= |steps|
    decreases |steps| - i
    ensures r.Some? ==> i <= r.value.step && IsMatch(steps, stepName, key, r.value.step, r.value.attr)
    ensures r.Some? ==> forall i', j' | i <= i' && IsMatch(steps, stepName, key, i', j') :: Precedes(r.value, i', j')
    ensures r.None? ==> forall i', j' | i <= i' :: !IsMatch(steps, stepName, key, i', j')
  {
    if i == |steps| then None
    else if steps[i].name == stepName && KeyIndexFrom(steps[i].attributes, key, 0).Some? then
      Some(Loc(i, KeyIndexFrom(steps[i].attributes, key, 0).value))
    else FindAttributeFrom(steps, stepName, key, i + 1)
  }

  /** The first (step, attribute) pair, in order, with this step name and
      this attribute key; none when no step of that name holds that key. */
  function FindAttribute(steps: seq<Step>, stepName: string, key: string): (r: Option<Loc>)
    ensures r.Some? ==> IsMatch(steps, stepName, key, r.value.step, r.value.attr)
    ensures r.Some? ==> forall i, j | IsMatch(steps, stepName, key, i, j) :: Precedes(r.value, i, j)
    ensures r.None? <==> forall i, j :: !IsMatch(steps, stepName, key, i, j)
  {
    FindAttributeFrom(steps, stepName, key, 0)
  }

  /** The search as the controller runs it: over steps, then over the
      attributes of each step with the wanted name, returning at the first hit. */
  method GetAttribute(steps: seq<Step>, stepName: string, key: string) returns (r: Option<Loc>)
    ensures r == FindAttribute(steps, stepName, key)
  {
    var i := 0;
    while i < |steps|
      invariant 0 <= i <= |steps|
      invariant FindAttribute(steps, stepName, key) == FindAttributeFrom(steps, stepName, key, i)
    {
      var step := steps[i];
      if step.name != stepName {
        i := i + 1;
        continue;
      }
      var j := 0;
      while j < |step.attributes|
        invariant 0 <= j <= |step.attributes|
        invariant KeyIndexFrom(step.attributes, key, 0) == KeyIndexFrom(step.attributes, key, j)
      {
        if step.attributes[j].key != key {
          j := j + 1;
          continue;
        }
        return Some(Loc(i, j));
      }
      i := i + 1;
    }
    return None;
  }

  /** The value of the structure-from-motion step's initial pair, read as a
      list; none when the lookup fails. */
  function InitialPair(steps: seq<Step>): Option<seq<Value>>
  {
    match FindAttribute(steps, "sfm", "initial_pair")
    case None => None
    case Some(l) => Some(AsArray(steps[l.step].attributes[l.attr].value))
  }

  /** In any pipeline shaped like the default one the lookup always finds the
      third step's only attribute. */
  lemma InitialPairOfTemplate(steps: seq<Step>)
    requires ShapeOf(steps) == ShapeOf(DefaultGraph())
    ensures FindAttribute(steps, "sfm", "initial_pair") == Some(Loc(2, 0))
    ensures InitialPair(steps) == Some(AsArray(steps[2].attributes[0].value))
  {
    var g := DefaultGraph();
    assert |ShapeOf(g)| == 3;
    SameShapeAt(g, steps, 0);
    SameShapeAt(g, steps, 1);
    SameShapeAt(g, steps, 2);
    assert IsMatch(steps, "sfm", "initial_pair", 2, 0);
    var r := FindAttribute(steps, "sfm", "initial_pair");
    assert r.Some?;
    assert Precedes(r.value, 2, 0);
  }

  /** A new job's initial pair is two empty paths. */
  lemma DefaultInitialPair()
    ensures InitialPair(DefaultGraph()) == Some([Text(""), Text("")])
  {
    InitialPairOfTemplate(DefaultGraph());
  }

  // ---------------------------------------------------------------------
  // The steps part of the job descriptor: an object keyed by step name whose
  // values map attribute keys to attribute values. Later entries overwrite
  // earlier ones with the same name or key, as inserting into a JSON object does.

  function AttributeValues(attrs: seq<Attribute>): JsonObject
  {
    if attrs == [] then map[]
    else AttributeValues(attrs[..|attrs| - 1])[attrs[|attrs| - 1].key := attrs[|attrs| - 1].value]
  }

  function StepsObject(steps: seq<Step>): JsonObject
  {
    if steps == [] then map[]
    else StepsObject(steps[..|steps| - 1])[steps[|steps| - 1].name := Object(AttributeValues(steps[|steps| - 1].attributes))]
  }

  lemma {:induction false} AttributeValuesAt(attrs: seq<Attribute>, j: nat)
    requires UniqueKeys(attrs) && j < |attrs|
    ensures attrs[j].key in AttributeValues(attrs)
    ensures AttributeValues(attrs)[attrs[j].key] == attrs[j].value
  {
    if j < |attrs| - 1 {
      var prefix := attrs[..|attrs| - 1];
      assert prefix[j] == attrs[j];
      AttributeValuesAt(prefix, j);
    }
  }

  lemma {:induction false} StepsObjectAt(steps: seq<Step>, i: nat)
    requires WellFormed(steps) && i < |steps|
    ensures steps[i].name in StepsObject(steps)
    ensures StepsObject(steps)[steps[i].name] == Object(AttributeValues(steps[i].attributes))
  {
    if i < |steps| - 1 {
      var prefix := steps[..|steps| - 1];
      assert prefix[i] == steps[i];
      assert WellFormed(prefix) by {
        forall k | 0 <= k < |prefix|
          ensures UniqueKeys(prefix[k].attributes)
        {
          assert prefix[k] == steps[k];
        }
      }
      StepsObjectAt(prefix, i);
    }
  }

  /** Reading one attribute back: its value is replaced when the object holds its key. */
  function LoadAttribute(a: Attribute, values: JsonObject): Attribute
  {
    if a.key in values then a.(value := values[a.key]) else a
  }

  /** Reading one step back from the steps object; a step the object does
      not name keeps its values. */
  function LoadStep(s: Step, stepsObject: JsonObject): Step
  {
    if s.name in stepsObject then
      var values := AsObject(stepsObject[s.name]);
      s.(attributes := seq(|s.attributes|, j requires 0 <= j < |s.attributes| => LoadAttribute(s.attributes[j], values)))
    else s
  }

  /** Reading every step of the pipeline back; names in the object that are
      not in the pipeline are ignored. */
  function LoadSteps(steps: seq<Step>, stepsObject: JsonObject): seq<Step>
  {
    seq(|steps|, i requires 0 <= i < |steps| => LoadStep(steps[i], stepsObject))
  }

  /** Loading changes values only. */
  lemma LoadStepsKeepsShape(steps: seq<Step>, stepsObject: JsonObject)
    ensures ShapeOf(LoadSteps(steps, stepsObject)) == ShapeOf(steps)
  {
    var loaded := LoadSteps(steps, stepsObject);
    forall i | 0 <= i < |steps|
      ensures StepShape(loaded[i]) == StepShape(steps[i])
    {
      var s := steps[i];
      if s.name in stepsObject {
        assert StepShape(loaded[i]).attributes == StepShape(s).attributes;
      }
    }
    assert ShapeOf(loaded) == ShapeOf(steps);
  }

  /** Changing one attribute's value keeps the shape. */
  lemma EditKeepsShape(steps: seq<Step>, i: nat, j: nat, v: Value)
    requires i < |steps| && j < |steps[i].attributes|
    ensures var attrs := steps[i].attributes;
            ShapeOf(steps[i := steps[i].(attributes := attrs[j := attrs[j].(value := v)])]) == ShapeOf(steps)
  {
    var attrs := steps[i].attributes;
    var edited := steps[i := steps[i].(attributes := attrs[j := attrs[j].(value := v)])];
    assert StepShape(edited[i]).attributes == StepShape(steps[i]).attributes;
    assert ShapeOf(edited) == ShapeOf(steps);
  }

  /** Round trip: loading the steps object of a well-formed pipeline into a
      pipeline of the same shape reproduces every attribute value. */
  lemma LoadStepsRoundTrip(template: seq<Step>, steps: seq<Step>)
    requires WellFormed(steps) && ShapeOf(template) == ShapeOf(steps)
    ensures LoadSteps(template, StepsObject(steps)) == steps
  {
    var so := StepsObject(steps);
    var loaded := LoadSteps(template, so);
    assert |ShapeOf(template)| == |ShapeOf(steps)|;
    forall i | 0 <= i < |steps|
      ensures loaded[i] == steps[i]
    {
      SameShapeAt(template, steps, i);
      StepsObjectAt(steps, i);
      var values := AttributeValues(steps[i].attributes);
      assert AsObject(so[template[i].name]) == values;
      forall j | 0 <= j < |steps[i].attributes|
        ensures LoadAttribute(template[i].attributes[j], values) == steps[i].attributes[j]
      {
        AttributeValuesAt(steps[i].attributes, j);
      }
      assert loaded[i].attributes == steps[i].attributes;
    }
  }
}
