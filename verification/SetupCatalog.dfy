/** environment_catalog: the server-owned tables, and normalizing a requested setup against them. */
module SetupCatalog {
  import opened Wrappers
  import opened CanonicalJson

  const MAX_OBJECTS := 6
  const FIELDS := ["x", "y", "z", "yaw_degrees", "width", "depth", "height"]

  datatype Parameter = Parameter(default: real, minimum: real, maximum: real)

  predicate KnownObject(kind: string) {
    kind == "box" || kind == "ramp" || kind == "hurdle" || kind == "step"
  }

  /** OBJECT_TYPES, one parameter at a time. */
  function Catalog(kind: string, field: string): Parameter
    requires KnownObject(kind) && field in FIELDS
  {
    match field
    case "x" => Parameter(2.0, -10.0, 10.0)
    case "y" => Parameter(0.0, -10.0, 10.0)
    case "z" => Parameter(0.0, 0.0, 5.0)
    case "yaw_degrees" => Parameter(0.0, -180.0, 180.0)
    case "width" =>
      if kind == "box" then Parameter(1.0, 0.1, 4.0)
      else if kind == "ramp" then Parameter(1.5, 0.5, 4.0)
      else if kind == "hurdle" then Parameter(2.0, 0.5, 4.0)
      else Parameter(2.0, 0.2, 4.0)
    case "depth" =>
      if kind == "box" then Parameter(1.0, 0.1, 4.0)
      else if kind == "ramp" then Parameter(3.0, 0.5, 6.0)
      else if kind == "hurdle" then Parameter(0.15, 0.05, 0.5)
      else Parameter(1.0, 0.2, 4.0)
    case _ =>
      if kind == "box" then Parameter(0.3, 0.05, 2.0)
      else if kind == "ramp" then Parameter(0.6, 0.1, 2.0)
      else if kind == "hurdle" then Parameter(0.35, 0.05, 1.5)
      else Parameter(0.2, 0.05, 0.75)
  }

  /** A requested object: its kind, and the parameters that were supplied. */
  datatype ObjectInput = ObjectInput(kind: string, supplied: map<string, Float>)

  datatype CatalogObject = CatalogObject(kind: string, values: map<string, real>, source: string)

  datatype BuilderError =
    | UnknownTask
    | IncompatibleRobot
    | UnknownScene
    | TooManyObjects
    | UnknownObject(index: nat)
    | OutOfBounds(index: nat, field: string)

  /** The number a field ends up with: the supplied one, else the default. */
  function Chosen(input: ObjectInput, field: string): Float
    requires KnownObject(input.kind) && field in FIELDS
  {
    if field in input.supplied then input.supplied[field] else Finite(Catalog(input.kind, field).default)
  }

  predicate FieldOk(input: ObjectInput, field: string)
    requires KnownObject(input.kind) && field in FIELDS
  {
    var p := Catalog(input.kind, field);
    Chosen(input, field).Finite? && p.minimum <= Chosen(input, field).value <= p.maximum
  }

  predicate ObjectOk(input: ObjectInput) {
    KnownObject(input.kind) && forall field :: field in FIELDS ==> FieldOk(input, field)
  }

  /** What an acceptable object is normalized to. */
  function Normalized(input: ObjectInput, source: string): CatalogObject
    requires ObjectOk(input)
  {
    CatalogObject(input.kind, map field | field in FIELDS :: Chosen(input, field).value, source)
  }

  /** normalize_object: fill in the fields one by one, refusing the first out of bounds. */
  method NormalizeObject(input: ObjectInput, source: string, index: nat) returns (r: Result<CatalogObject, BuilderError>)
    ensures r.Ok? <==> ObjectOk(input)
    ensures r.Ok? ==> r.value == Normalized(input, source)
    ensures r == Err(UnknownObject(index)) <==> !KnownObject(input.kind)
    ensures r.Err? && KnownObject(input.kind) ==> r.error.OutOfBounds? && r.error.index == index
    ensures r.Err? && KnownObject(input.kind) ==> r.error.field in FIELDS && !FieldOk(input, r.error.field)
  {
    if !KnownObject(input.kind) {
      return Err(UnknownObject(index));
    }
    var values: map<string, real> := map[];
    for n := 0 to |FIELDS|
      invariant forall k :: 0 <= k < n ==> FieldOk(input, FIELDS[k])
      invariant forall field :: field in values <==> field in FIELDS[..n]
      invariant forall k :: 0 <= k < n ==> values[FIELDS[k]] == Chosen(input, FIELDS[k]).value
    {
      var field := FIELDS[n];
      var number := Chosen(input, field);
      var p := Catalog(input.kind, field);
      if !(number.Finite? && p.minimum <= number.value <= p.maximum) {
        return Err(OutOfBounds(index, field));
      }
      values := values[field := number.value];
    }
    assert FIELDS[..|FIELDS|] == FIELDS;
    return Ok(CatalogObject(input.kind, values, source));
  }

  /** The field starts at its default and may go from `low` to `high`. */
  predicate Offers(kind: string, field: string, default: real, low: real, high: real) {
    KnownObject(kind) && field in FIELDS && Catalog(kind, field) == Parameter(default, low, high)
  }

  /** Places in the arena, whole turns, and the sizes of each kind. */
  lemma CatalogOffers(kind: string)
    requires KnownObject(kind)
    ensures Offers(kind, "x", 2.0, -10.0, 10.0) && Offers(kind, "y", 0.0, -10.0, 10.0) && Offers(kind, "z", 0.0, 0.0, 5.0)
    ensures Offers(kind, "yaw_degrees", 0.0, -180.0, 180.0)
    ensures kind == "box" ==>
      Offers(kind, "width", 1.0, 0.1, 4.0) && Offers(kind, "depth", 1.0, 0.1, 4.0) && Offers(kind, "height", 0.3, 0.05, 2.0)
    ensures kind == "ramp" ==>
      Offers(kind, "width", 1.5, 0.5, 4.0) && Offers(kind, "depth", 3.0, 0.5, 6.0) && Offers(kind, "height", 0.6, 0.1, 2.0)
    ensures kind == "hurdle" ==>
      Offers(kind, "width", 2.0, 0.5, 4.0) && Offers(kind, "depth", 0.15, 0.05, 0.5) && Offers(kind, "height", 0.35, 0.05, 1.5)
    ensures kind == "step" ==>
      Offers(kind, "width", 2.0, 0.2, 4.0) && Offers(kind, "depth", 1.0, 0.2, 4.0) && Offers(kind, "height", 0.2, 0.05, 0.75)
  {
  }

  /** What is said of one field alone is kept, if the field may go there; every other field is at its default. */
  lemma OneFieldGiven(kind: string, given: string, v: real, source: string)
    requires KnownObject(kind) && given in FIELDS
    ensures var input, p := ObjectInput(kind, map[given := Finite(v)]), Catalog(kind, given);
      && (ObjectOk(input) <==> p.minimum <= v <= p.maximum)
      && (ObjectOk(input) ==> forall field :: field in FIELDS ==>
            field in Normalized(input, source).values
            && Normalized(input, source).values[field] == if field == given then v else Catalog(kind, field).default)
  {
    var input := ObjectInput(kind, map[given := Finite(v)]);
    forall field | field in FIELDS ensures FieldOk(input, field) || field == given {}
    if ObjectOk(input) { assert FieldOk(input, given); }
  }

  // ----- tasks and scenes

  predicate KnownTask(task: string) {
    task == "stand-balance" || task == "walk-forward" || task == "recover-from-fall"
  }

  /** TASKS[task].compatible_robot_types. */
  predicate Compatible(task: string, robotType: string) {
    robotType == "quadruped" || (robotType == "biped" && task != "recover-from-fall")
  }

  predicate KnownScene(scene: string) {
    scene == "flat-arena" || scene == "ramp-course" || scene == "hurdle-course" || scene == "step-course"
  }

  /** The overrides each scene passes to _preset_object. */
  function PresetInputs(scene: string): seq<ObjectInput> {
    match scene
    case "ramp-course" => [ObjectInput("ramp", map["x" := Finite(3.0)])]
    case "hurdle-course" =>
      [ObjectInput("hurdle", map["x" := Finite(2.0)]), ObjectInput("hurdle", map["x" := Finite(4.0)]),
       ObjectInput("hurdle", map["x" := Finite(6.0)])]
    case "step-course" =>
      [ObjectInput("step", map["x" := Finite(2.0)]),
       ObjectInput("step", map["x" := Finite(4.0), "height" := Finite(0.3)]),
       ObjectInput("step", map["x" := Finite(6.0), "height" := Finite(0.4)])]
    case _ => []
  }

  predicate AllOk(inputs: seq<ObjectInput>) {
    forall i :: 0 <= i < |inputs| ==> ObjectOk(inputs[i])
  }

  function AllNormalized(inputs: seq<ObjectInput>, source: string): (r: seq<CatalogObject>)
    requires AllOk(inputs)
    ensures |r| == |inputs|
  {
    seq(|inputs|, i requires 0 <= i < |inputs| => Normalized(inputs[i], source))
  }

  /** The catalog's own presets normalize. */
  lemma PresetsOk(scene: string)
    ensures AllOk(PresetInputs(scene)) && |PresetInputs(scene)| <= 3
  {
    var inputs := PresetInputs(scene);
    forall i, field | 0 <= i < |inputs| && field in FIELDS ensures KnownObject(inputs[i].kind) && FieldOk(inputs[i], field) {
    }
  }

  function Presets(scene: string): (r: seq<CatalogObject>)
    ensures |r| == |PresetInputs(scene)|
  {
    PresetsOk(scene);
    AllNormalized(PresetInputs(scene), "preset")
  }

  /** CatalogObject.model_dump(mode="json"). */
  function Dump(o: CatalogObject): Json {
    Obj((map field | field in o.values :: Num(Finite(o.values[field])))["object_type" := Str(o.kind)]["source" := Str(o.source)])
  }

  function DumpAll(objects: seq<CatalogObject>): (r: seq<Json>)
    ensures |r| == |objects| && forall i :: 0 <= i < |r| ==> r[i] == Dump(objects[i])
  {
    seq(|objects|, i requires 0 <= i < |objects| => Dump(objects[i]))
  }

  /** The payload whose hash is the setup's digest. */
  function Payload(robotId: string, robotType: string, task: string, scene: string, objects: seq<CatalogObject>): Json {
    Obj(map["robot_id" := Str(robotId), "robot_type" := Str(robotType), "task_template_id" := Str(task),
            "scene_preset_id" := Str(scene), "objects" := List(DumpAll(objects))])
  }

  predicate Acceptable(robotType: string, task: string, scene: string, inputs: seq<ObjectInput>) {
    && KnownTask(task) && Compatible(task, robotType) && KnownScene(scene)
    && |PresetInputs(scene)| + |inputs| <= MAX_OBJECTS && AllOk(inputs)
  }

  /** normalize_setup: the scene's presets, then the requested objects, and the digest of the whole. */
  method NormalizeSetup(c: Codec, robotId: string, robotType: string, task: string, scene: string,
                        inputs: seq<ObjectInput>)
    returns (r: Result<(seq<CatalogObject>, string), BuilderError>)
    ensures r.Ok? <==> Acceptable(robotType, task, scene, inputs)
    ensures r.Ok? ==> r.value.0 == Presets(scene) + AllNormalized(inputs, "custom")
    ensures r.Ok? ==> r.value.1 == c.sha(c.ascii(Payload(robotId, robotType, task, scene, r.value.0)))
    ensures r.Err? && (r.error.UnknownObject? || r.error.OutOfBounds?) ==>
      r.error.index < |inputs| && !ObjectOk(inputs[r.error.index]) && AllOk(inputs[..r.error.index])
  {
    if !KnownTask(task) {
      return Err(UnknownTask);
    }
    if !Compatible(task, robotType) {
      return Err(IncompatibleRobot);
    }
    if !KnownScene(scene) {
      return Err(UnknownScene);
    }
    if |Presets(scene)| + |inputs| > MAX_OBJECTS {
      return Err(TooManyObjects);
    }
    var normalized := Presets(scene);
    for n := 0 to |inputs|
      invariant AllOk(inputs[..n]) && normalized == Presets(scene) + AllNormalized(inputs[..n], "custom")
    {
      var added := NormalizeObject(inputs[n], "custom", n);
      if added.Err? {
        return Err(added.error);
      }
      assert inputs[..n + 1] == inputs[..n] + [inputs[n]];
      assert AllNormalized(inputs[..n + 1], "custom") == AllNormalized(inputs[..n], "custom") + [added.value];
      normalized := normalized + [added.value];
    }
    assert inputs[..|inputs|] == inputs;
    return Ok((normalized, c.sha(c.ascii(Payload(robotId, robotType, task, scene, normalized)))));
  }

  /** Equal digests mean the same robot, task, scene and objects, unless they exhibit a hash collision. */
  lemma DigestIdentifies(c: Codec, robotId: string, robotType: string, task: string, scene: string,
                         objects: seq<CatalogObject>, robotId': string, robotType': string, task': string,
                         scene': string, objects': seq<CatalogObject>)
    requires Lawful(c) && FromCatalog(objects) && FromCatalog(objects')
    requires ValuesWritable(c, objects) && ValuesWritable(c, objects')
    ensures var a, b := c.ascii(Payload(robotId, robotType, task, scene, objects)),
                        c.ascii(Payload(robotId', robotType', task', scene', objects'));
      c.sha(a) == c.sha(b) && !Collision(c, a, b) ==>
        robotId == robotId' && robotType == robotType' && task == task' && scene == scene' && objects == objects'
  {
    var a, b := Payload(robotId, robotType, task, scene, objects), Payload(robotId', robotType', task', scene', objects');
    PayloadWritable(c, robotId, robotType, task, scene, objects);
    PayloadWritable(c, robotId', robotType', task', scene', objects');
    if c.ascii(a) == c.ascii(b) {
      assert Some(a) == c.decode(c.ascii(a)) == c.decode(c.ascii(b)) == Some(b);
      PayloadIsInjective(robotId, robotType, task, scene, objects, robotId', robotType', task', scene', objects');
    }
  }

  lemma PayloadIsInjective(robotId: string, robotType: string, task: string, scene: string,
                           objects: seq<CatalogObject>, robotId': string, robotType': string, task': string,
                           scene': string, objects': seq<CatalogObject>)
    requires FromCatalog(objects) && FromCatalog(objects')
    requires Payload(robotId, robotType, task, scene, objects) == Payload(robotId', robotType', task', scene', objects')
    ensures robotId == robotId' && robotType == robotType' && task == task' && scene == scene' && objects == objects'
  {
    var a, b := Payload(robotId, robotType, task, scene, objects), Payload(robotId', robotType', task', scene', objects');
    assert a.fields["robot_id"] == b.fields["robot_id"] && a.fields["robot_type"] == b.fields["robot_type"];
    assert a.fields["task_template_id"] == b.fields["task_template_id"];
    assert a.fields["scene_preset_id"] == b.fields["scene_preset_id"];
    assert a.fields["objects"] == b.fields["objects"];
    assert DumpAll(objects) == DumpAll(objects');
    forall i | 0 <= i < |objects| ensures objects[i] == objects'[i] {
      DumpIsInjective(objects[i], objects'[i]);
    }
  }

  /** The objects hold numbers that floats can be. */
  ghost predicate ValuesWritable(c: Codec, objects: seq<CatalogObject>) {
    forall i :: 0 <= i < |objects| ==> forall field :: field in objects[i].values ==> c.writable(objects[i].values[field])
  }

  lemma DumpWritable(c: Codec, objects: seq<CatalogObject>, depth: nat)
    requires ValuesWritable(c, objects) && depth >= 2
    ensures Writable(c, List(DumpAll(objects)), depth)
  {
    var items := DumpAll(objects);
    forall i | 0 <= i < |items| ensures Writable(c, items[i], depth - 1) {
      var fields := Dump(objects[i]).fields;
      forall k | k in fields ensures Writable(c, fields[k], depth - 2) {
        if k != "object_type" && k != "source" { assert fields[k] == Num(Finite(objects[i].values[k])); }
      }
    }
  }

  lemma PayloadWritable(c: Codec, robotId: string, robotType: string, task: string, scene: string,
                        objects: seq<CatalogObject>)
    requires ValuesWritable(c, objects)
    ensures Writable(c, Payload(robotId, robotType, task, scene, objects), MAX_DEPTH)
  {
    DumpWritable(c, objects, MAX_DEPTH - 1);
    var fields := Payload(robotId, robotType, task, scene, objects).fields;
    forall k | k in fields ensures Writable(c, fields[k], MAX_DEPTH - 1) {
    }
  }

  /** The supplied numbers are ones floats can be. */
  ghost predicate InputsWritable(c: Codec, inputs: seq<ObjectInput>) {
    forall i :: 0 <= i < |inputs| ==> forall field :: field in inputs[i].supplied && inputs[i].supplied[field].Finite? ==>
      c.writable(inputs[i].supplied[field].value)
  }

  /** Defaults and presets are two-digit constants, so a normalized world is writable when its inputs are. */
  lemma NormalizedWritable(c: Codec, inputs: seq<ObjectInput>, source: string)
    requires Lawful(c) && AllOk(inputs) && InputsWritable(c, inputs)
    ensures ValuesWritable(c, AllNormalized(inputs, source))
  {
    var objects := AllNormalized(inputs, source);
    forall i, field | 0 <= i < |objects| && field in objects[i].values ensures c.writable(objects[i].values[field]) {
      assert objects[i] == Normalized(inputs[i], source) && FieldOk(inputs[i], field);
      ChosenWritable(c, inputs[i], field);
    }
  }

  lemma ChosenWritable(c: Codec, input: ObjectInput, field: string)
    requires Lawful(c) && KnownObject(input.kind) && field in FIELDS && FieldOk(input, field)
    requires field in input.supplied && input.supplied[field].Finite? ==> c.writable(input.supplied[field].value)
    ensures c.writable(Chosen(input, field).value)
  {
    hide Writable;
    DefaultIsHundredth(input.kind, field);
  }

  lemma DefaultIsHundredth(kind: string, field: string)
    requires KnownObject(kind) && field in FIELDS
    ensures IsHundredth(Catalog(kind, field).default)
  {
  }

  lemma PresetsWritable(c: Codec, scene: string)
    requires Lawful(c)
    ensures ValuesWritable(c, Presets(scene))
  {
    hide Writable;
    var inputs := PresetInputs(scene);
    PresetsOk(scene);
    forall i, field | 0 <= i < |inputs| && field in inputs[i].supplied
      ensures inputs[i].supplied[field].Finite? && c.writable(inputs[i].supplied[field].value)
    {
      assert IsHundredth(inputs[i].supplied[field].value);
    }
    NormalizedWritable(c, inputs, "preset");
  }

  /** Objects as normalization makes them. */
  ghost predicate FromCatalog(objects: seq<CatalogObject>) {
    forall i :: 0 <= i < |objects| ==> forall field :: field in objects[i].values <==> field in FIELDS
  }

  lemma DumpIsInjective(a: CatalogObject, b: CatalogObject)
    requires Dump(a) == Dump(b) && FromCatalog([a, b])
    ensures a == b
  {
    assert [a, b][0] == a && [a, b][1] == b;
    var m, n := Dump(a).fields, Dump(b).fields;
    assert m["object_type"] == n["object_type"] && m["source"] == n["source"];
    forall field | field in FIELDS ensures a.values[field] == b.values[field] {
      assert m[field] == n[field];
    }
  }
}
