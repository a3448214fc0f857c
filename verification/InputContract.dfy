/**
 The documents one service writes and the other validates.

 The tables below are the training side's own (custom_robot_contract), written apart from the
 catalog's; MirrorAgrees and ScenesAgree are what keeps the two from drifting.
 */
module InputContract {
  import opened Wrappers
  import opened CanonicalJson
  import Saas = SetupCatalog

  const SCHEMA_VERSION := 2
  const ADAPTER_VERSION := "custom-robot-sb3-v2"
  const REWARD_VERSION := "locomotion-rewards-v20"
  const PROFILE_VERSION := "custom-prepare-v1"
  const MAX_OBJECTS := 6
  const MAX_INPUT := 1024 * 1024
  const MAX_MANIFEST := 64 * 1024

  // ----- the training side's tables

  datatype Bound = Bound(minimum: real, maximum: real)

  predicate Contracted(kind: string) {
    kind in ["box", "ramp", "hurdle", "step"]
  }

  /** OBJECT_CONTRACTS[kind][field]. */
  function Contract(kind: string, field: string): Bound
    requires Contracted(kind) && field in Saas.FIELDS
  {
    if field == "x" || field == "y" then Bound(-10.0, 10.0)
    else if field == "z" then Bound(0.0, 5.0)
    else if field == "yaw_degrees" then Bound(-180.0, 180.0)
    else
      match kind
      case "box" => if field == "height" then Bound(0.05, 2.0) else Bound(0.1, 4.0)
      case "ramp" =>
        if field == "width" then Bound(0.5, 4.0) else if field == "depth" then Bound(0.5, 6.0) else Bound(0.1, 2.0)
      case "hurdle" =>
        if field == "width" then Bound(0.5, 4.0) else if field == "depth" then Bound(0.05, 0.5) else Bound(0.05, 1.5)
      case _ => if field == "height" then Bound(0.05, 0.75) else Bound(0.2, 4.0)
  }

  const SUPPORTED_ROBOT_TYPES := ["biped", "quadruped"]
  const SUPPORTED_TASKS := ["stand-balance", "walk-forward", "recover-from-fall"]
  const SUPPORTED_SCENES := ["flat-arena", "ramp-course", "hurdle-course", "step-course"]

  function TaskRobotTypes(task: string): seq<string> {
    if task == "recover-from-fall" then ["quadruped"] else SUPPORTED_ROBOT_TYPES
  }

  /** One literal preset dictionary of SCENE_CONTRACTS. */
  function Preset(kind: string, x: real, width: real, depth: real, height: real): map<string, Json> {
    map["object_type" := Str(kind), "x" := Num(Finite(x)), "y" := Num(Finite(0.0)), "z" := Num(Finite(0.0)),
        "yaw_degrees" := Num(Finite(0.0)), "width" := Num(Finite(width)), "depth" := Num(Finite(depth)),
        "height" := Num(Finite(height)), "source" := Str("preset")]
  }

  /** SCENE_CONTRACTS[scene]["preset_objects"]. */
  function ExpectedPresets(scene: string): seq<map<string, Json>> {
    match scene
    case "ramp-course" => [Preset("ramp", 3.0, 1.5, 3.0, 0.6)]
    case "hurdle-course" =>
      [Preset("hurdle", 2.0, 2.0, 0.15, 0.35), Preset("hurdle", 4.0, 2.0, 0.15, 0.35),
       Preset("hurdle", 6.0, 2.0, 0.15, 0.35)]
    case "step-course" =>
      [Preset("step", 2.0, 2.0, 1.0, 0.2), Preset("step", 4.0, 2.0, 1.0, 0.3), Preset("step", 6.0, 2.0, 1.0, 0.4)]
    case _ => []
  }

  // ----- the two sides mirror each other

  /** Every bound of the catalog is the training side's, in both directions. */
  lemma MirrorAgrees(kind: string, field: string)
    requires field in Saas.FIELDS
    ensures Saas.KnownObject(kind) <==> Contracted(kind)
    ensures Contracted(kind) ==>
      Bound(Saas.Catalog(kind, field).minimum, Saas.Catalog(kind, field).maximum) == Contract(kind, field)
  {
  }

  lemma TasksAgree(task: string, robotType: string)
    ensures Saas.KnownTask(task) <==> task in SUPPORTED_TASKS
    ensures Saas.KnownTask(task) ==> (Saas.Compatible(task, robotType) <==> robotType in TaskRobotTypes(task))
  {
  }

  /** The presets the catalog builds are the dictionaries the training side expects, scene by scene. */
  lemma ScenesAgree(scene: string)
    ensures Saas.KnownScene(scene) <==> scene in SUPPORTED_SCENES
    ensures |Saas.Presets(scene)| == |ExpectedPresets(scene)|
    ensures forall k :: 0 <= k < |ExpectedPresets(scene)| ==>
      Saas.Dump(Saas.Presets(scene)[k]).fields == ExpectedPresets(scene)[k]
  {
    var built, expected := Saas.Presets(scene), ExpectedPresets(scene);
    forall k | 0 <= k < |expected| ensures Saas.Dump(built[k]).fields == expected[k] {
      PresetAgrees(scene, k);
    }
  }

  lemma PresetAgrees(scene: string, k: nat)
    requires k < |ExpectedPresets(scene)|
    ensures k < |Saas.Presets(scene)| && Saas.Dump(Saas.Presets(scene)[k]).fields == ExpectedPresets(scene)[k]
  {
    var input := Saas.PresetInputs(scene)[k];
    PresetIs(scene, k);
    hide Saas.Normalized, Saas.Presets, Saas.Dump, Saas.ObjectOk, Preset;
    if scene == "ramp-course" {
      RampBuilt(input);
    } else if scene == "hurdle-course" {
      HurdleBuilt(input, if k == 0 then 2.0 else if k == 1 then 4.0 else 6.0);
    } else if k == 0 {
      StepBuilt(input, 2.0, 0.2);
    } else if k == 1 {
      RaisedStepBuilt(input, 4.0, 0.3);
    } else {
      RaisedStepBuilt(input, 6.0, 0.4);
    }
  }

  lemma PresetIs(scene: string, k: nat)
    requires k < |Saas.PresetInputs(scene)|
    ensures Saas.ObjectOk(Saas.PresetInputs(scene)[k])
    ensures Saas.Presets(scene)[k] == Saas.Normalized(Saas.PresetInputs(scene)[k], "preset")
  {
    hide Saas.ObjectOk, Saas.PresetInputs;
    Saas.PresetsOk(scene);
  }

  lemma RampBuilt(input: Saas.ObjectInput)
    requires Saas.ObjectOk(input) && input == Saas.ObjectInput("ramp", map["x" := Finite(3.0)])
    ensures Saas.Dump(Saas.Normalized(input, "preset")).fields == Preset("ramp", 3.0, 1.5, 3.0, 0.6)
  {
    hide Saas.Normalized, Saas.Dump, Saas.ObjectOk, Preset;
    Built(input, "ramp", 3.0, 1.5, 3.0, 0.6);
  }

  lemma HurdleBuilt(input: Saas.ObjectInput, x: real)
    requires Saas.ObjectOk(input) && input == Saas.ObjectInput("hurdle", map["x" := Finite(x)])
    ensures Saas.Dump(Saas.Normalized(input, "preset")).fields == Preset("hurdle", x, 2.0, 0.15, 0.35)
  {
    hide Saas.Normalized, Saas.Dump, Saas.ObjectOk, Preset;
    Built(input, "hurdle", x, 2.0, 0.15, 0.35);
  }

  lemma StepBuilt(input: Saas.ObjectInput, x: real, height: real)
    requires Saas.ObjectOk(input) && input == Saas.ObjectInput("step", map["x" := Finite(x)]) && height == 0.2
    ensures Saas.Dump(Saas.Normalized(input, "preset")).fields == Preset("step", x, 2.0, 1.0, height)
  {
    hide Saas.Normalized, Saas.Dump, Saas.ObjectOk, Preset;
    Built(input, "step", x, 2.0, 1.0, height);
  }

  lemma RaisedStepBuilt(input: Saas.ObjectInput, x: real, height: real)
    requires Saas.ObjectOk(input)
    requires input == Saas.ObjectInput("step", map["x" := Finite(x), "height" := Finite(height)])
    ensures Saas.Dump(Saas.Normalized(input, "preset")).fields == Preset("step", x, 2.0, 1.0, height)
  {
    hide Saas.Normalized, Saas.Dump, Saas.ObjectOk, Preset;
    Built(input, "step", x, 2.0, 1.0, height);
  }

  /** An object whose chosen numbers are those of a preset dictionary dumps to it. */
  lemma Built(input: Saas.ObjectInput, kind: string, x: real, width: real, depth: real, height: real)
    requires Saas.ObjectOk(input) && input.kind == kind
    requires Saas.Chosen(input, "x") == Finite(x) && Saas.Chosen(input, "y") == Finite(0.0)
    requires Saas.Chosen(input, "z") == Finite(0.0) && Saas.Chosen(input, "yaw_degrees") == Finite(0.0)
    requires Saas.Chosen(input, "width") == Finite(width) && Saas.Chosen(input, "depth") == Finite(depth)
    requires Saas.Chosen(input, "height") == Finite(height)
    ensures Saas.Dump(Saas.Normalized(input, "preset")).fields == Preset(kind, x, width, depth, height)
  {
    hide Saas.Chosen, Saas.Catalog, Saas.FieldOk;
    var d, e := Saas.Dump(Saas.Normalized(input, "preset")).fields, Preset(kind, x, width, depth, height);
    forall key | key in e ensures key in d && d[key] == e[key] {
      if key in Saas.FIELDS { assert Saas.FieldOk(input, key); FieldIsFinite(input, key); }
    }
    assert d.Keys == e.Keys;
  }

  lemma FieldIsFinite(input: Saas.ObjectInput, field: string)
    requires Saas.KnownObject(input.kind) && field in Saas.FIELDS && Saas.FieldOk(input, field)
    ensures Saas.Chosen(input, field).Finite?
  {
  }

  // ----- validating objects

  datatype InputError =
    | ManifestTooLarge
    | NotJson
    | NotAnObject
    | FieldsInvalid
    | VersionUnsupported
    | UnsafeIdentity
    | DescriptorInvalid
    | RuntimeInvalid
    | SizeMismatch
    | DigestMismatch
    | NotCanonical
    | Unsupported
    | ObjectsInvalid
    | ObjectFieldsInvalid
    | ObjectIdentityInvalid
    | PresetOrderInvalid
    | BoundsInvalid
    | PresetsMismatch
    | FingerprintMismatch
    | RobotDigestMismatch
    | NotUtf8

  const OBJECT_FIELDS := {"object_type", "x", "y", "z", "yaw_degrees", "width", "depth", "height", "source"}

  /** A number, not a bool, finite and inside the bounds. */
  predicate NumberIn(j: Json, b: Bound) {
    !j.Bool? && Numeric(j).Some? && b.minimum <= Numeric(j).value <= b.maximum
  }

  predicate HasFields(fields: map<string, Json>) {
    fields.Keys == OBJECT_FIELDS
  }

  predicate FieldsOk(item: Json) {
    item.Obj? && HasFields(item.fields)
  }

  predicate IdentityOk(item: Json)
    requires FieldsOk(item)
  {
    && item.fields["object_type"].Str? && Contracted(item.fields["object_type"].text)
    && (item.fields["source"] == Str("preset") || item.fields["source"] == Str("custom"))
  }

  predicate BoundsOk(item: Json)
    requires FieldsOk(item) && IdentityOk(item)
  {
    forall field :: field in Saas.FIELDS ==> NumberIn(item.fields[field], Contract(item.fields["object_type"].text, field))
  }

  predicate ItemOk(item: Json) {
    FieldsOk(item) && IdentityOk(item) && BoundsOk(item)
  }

  predicate From(item: Json, source: string) {
    item.Obj? && "source" in item.fields && item.fields["source"] == Str(source)
  }

  /** Well-formed objects: exactly the scene's presets, in order, and then only custom ones. */
  predicate ObjectsAccepted(objects: seq<Json>, expected: seq<map<string, Json>>) {
    && |expected| <= |objects|
    && (forall k :: 0 <= k < |objects| ==> ItemOk(objects[k]))
    && (forall k :: 0 <= k < |expected| ==> From(objects[k], "preset") && FieldsSame(objects[k].fields, expected[k]))
    && (forall k :: |expected| <= k < |objects| ==> From(objects[k], "custom"))
  }

  /** The object loop of validate_documents. */
  method ValidateObjects(objects: seq<Json>, expected: seq<map<string, Json>>) returns (r: Option<InputError>)
    ensures r == None <==> ObjectsAccepted(objects, expected)
  {
    hide HasFields, IdentityOk, BoundsOk, FieldsSame;
    var presets: seq<map<string, Json>> := [];
    var customSeen := false;
    for n := 0 to |objects|
      invariant |presets| <= n && (customSeen <==> |presets| < n)
      invariant forall k :: 0 <= k < n ==> ItemOk(objects[k])
      invariant forall k :: 0 <= k < |presets| ==> From(objects[k], "preset") && presets[k] == objects[k].fields
      invariant forall k :: |presets| <= k < n ==> From(objects[k], "custom")
    {
      var item := objects[n];
      if !FieldsOk(item) {
        return Some(ObjectFieldsInvalid);
      }
      if !IdentityOk(item) {
        return Some(ObjectIdentityInvalid);
      }
      IdentityMeans(item);
      if item.fields["source"] == Str("custom") {
        customSeen := true;
      } else if customSeen {
        PresetAfterCustom(objects, expected, |presets|, n);
        return Some(PresetOrderInvalid);
      } else {
        presets := presets + [item.fields];
      }
      if !BoundsOk(item) {
        return Some(BoundsInvalid);
      }
    }
    if |presets| != |expected| || exists k :: 0 <= k < |presets| && !FieldsSame(presets[k], expected[k]) {
      if |presets| < |expected| { assert |presets| < |objects| ==> From(objects[|presets|], "custom"); }
      if |presets| > |expected| { assert From(objects[|expected|], "preset"); }
      return Some(PresetsMismatch);
    }
    return None;
  }

  lemma IdentityMeans(item: Json)
    requires FieldsOk(item) && IdentityOk(item)
    ensures From(item, "preset") || From(item, "custom")
  {
  }

  lemma PresetAfterCustom(objects: seq<Json>, expected: seq<map<string, Json>>, k: nat, n: nat)
    requires k < n < |objects| && From(objects[k], "custom") && From(objects[n], "preset")
    ensures !ObjectsAccepted(objects, expected)
  {
    if k < |expected| { assert !From(objects[k], "preset"); } else { assert !From(objects[n], "custom"); }
  }
}
