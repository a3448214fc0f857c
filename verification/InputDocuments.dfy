/**
 build_input_documents on one side, validate_documents on the other, and what it takes for
 the second to accept what the first wrote.
 */
module InputDocuments {
  import opened Wrappers
  import opened CanonicalJson
  import opened InputContract
  import Saas = SetupCatalog

  // ----- the producer

  datatype Robot = Robot(id: string, digest: string)

  datatype Setup = Setup(
    id: string, robotType: string, task: string, scene: string, objects: seq<Saas.CatalogObject>, digest: string)

  datatype BuildError = UnsafePreparation | DigestsInvalid | RuntimeUnbounded

  /** canonical_normalized_setup. */
  function SetupJson(setup: Setup): Json {
    Obj(map["schema_version" := Int(2), "robot_type" := Str(setup.robotType), "task_template_id" := Str(setup.task),
            "scene_preset_id" := Str(setup.scene), "objects" := List(Saas.DumpAll(setup.objects))])
  }

  /** custom_training.preparation_fingerprint. */
  function ProducerFingerprint(c: Codec, robot: Robot, setup: Setup, image: string): Result<string, BuildError> {
    if !IsDigest(robot.digest) || !IsDigest(setup.digest) then Err(DigestsInvalid)
    else if image == "" || |image| > 256 then Err(RuntimeUnbounded)
    else Ok(c.sha(c.encode(Obj(map[
      "adapter_version" := Str("custom-robot-sb3-v2"), "preparation_profile_version" := Str("custom-prepare-v1"),
      "reward_version" := Str("locomotion-rewards-v20"), "robot_digest" := Str(robot.digest),
      "runtime_image_digest" := Str(image), "schema_version" := Int(2), "setup_digest" := Str(setup.digest)]))))
  }

  function Descriptor(id: string, path: string, source: string, hash: string, size: int): Json {
    Obj(map["id" := Str(id), "path" := Str(path), "source_digest" := Str(source), "sha256" := Str(hash),
            "size_bytes" := Int(size)])
  }

  function Manifest(preparationId: string, fingerprint: string, robot: Json, setup: Json, image: string): Json {
    Obj(map["schema_version" := Int(2), "preparation_id" := Str(preparationId), "fingerprint" := Str(fingerprint),
            "robot" := robot, "setup" := setup, "runtime" := Obj(map["image_digest" := Str(image)]),
            "adapter_version" := Str("custom-robot-sb3-v2"), "reward_version" := Str("locomotion-rewards-v20"),
            "preparation_profile_version" := Str("custom-prepare-v1")])
  }

  datatype Documents = Documents(robot: seq<byte>, setup: seq<byte>, manifest: Json)

  function BuildInputDocuments(c: Codec, preparationId: string, robot: Robot, xml: string, setup: Setup, image: string)
    : Result<Documents, BuildError>
  {
    if !SafeId(preparationId) then Err(UnsafePreparation)
    else
      var robotBytes, setupBytes := c.utf8(xml), c.encode(SetupJson(setup));
      match ProducerFingerprint(c, robot, setup, image)
      case Err(e) => Err(e)
      case Ok(fingerprint) =>
        Ok(Documents(robotBytes, setupBytes, Manifest(
          preparationId, fingerprint,
          Descriptor(robot.id, "robot.xml", robot.digest, c.sha(robotBytes), |robotBytes|),
          Descriptor(setup.id, "normalized-setup.json", setup.digest, c.sha(setupBytes), |setupBytes|), image)))
  }

  // ----- the consumer

  /** The values a fingerprint hashes. */
  function FingerprintJson(r: string, s: string, image: string): Json {
    Obj(map["adapter_version" := Str(ADAPTER_VERSION), "preparation_profile_version" := Str(PROFILE_VERSION),
            "reward_version" := Str(REWARD_VERSION), "robot_digest" := Str(r), "runtime_image_digest" := Str(image),
            "schema_version" := Int(SCHEMA_VERSION), "setup_digest" := Str(s)])
  }

  /** custom_robot_contract.preparation_fingerprint; None where it raises. */
  function WorkerFingerprint(c: Codec, robotDigest: string, setupDigest: string, image: string): Option<string> {
    if !IsDigest(robotDigest) || !IsDigest(setupDigest) || image == "" || |image| > 256 then None
    else Some(c.sha(c.encode(FingerprintJson(robotDigest, setupDigest, image))))
  }

  /** Both sides derive the same fingerprint, and refuse the same inputs. */
  lemma FingerprintsAgree(c: Codec, robot: Robot, setup: Setup, image: string)
    ensures ProducerFingerprint(c, robot, setup, image).Ok?
      <==> WorkerFingerprint(c, robot.digest, setup.digest, image).Some?
    ensures ProducerFingerprint(c, robot, setup, image).Ok? ==>
      Some(ProducerFingerprint(c, robot, setup, image).value) == WorkerFingerprint(c, robot.digest, setup.digest, image)
  {
  }

  const MANIFEST_FIELDS := {
    "schema_version", "preparation_id", "fingerprint", "robot", "setup", "runtime", "adapter_version",
    "reward_version", "preparation_profile_version"}

  const DESCRIPTOR_FIELDS := {"id", "path", "source_digest", "sha256", "size_bytes"}

  const SETUP_FIELDS := {"schema_version", "robot_type", "task_template_id", "scene_preset_id", "objects"}

  /** _validate_input_descriptor; None when it is accepted. */
  function DescriptorError(c: Codec, d: Json, path: string): Option<InputError> {
    if !d.Obj? || d.fields.Keys != DESCRIPTOR_FIELDS then Some(DescriptorInvalid)
    else if !SafeId(c.str(d.fields["id"])) then Some(UnsafeIdentity)
    else if d.fields["path"] != Str(path) then Some(DescriptorInvalid)
    else if !IsDigest(c.str(d.fields["source_digest"])) || !IsDigest(c.str(d.fields["sha256"])) then
      Some(DescriptorInvalid)
    else if !d.fields["size_bytes"].Int? || !(1 <= d.fields["size_bytes"].number <= MAX_INPUT) then
      Some(DescriptorInvalid)
    else None
  }

  predicate DescribedOk(c: Codec, d: Json, path: string) {
    DescriptorError(c, d, path) == None
  }

  /** The manifest on its own, from its fields to the runtime identity. */
  function ManifestError(c: Codec, m: map<string, Json>): Option<InputError> {
    if m.Keys != MANIFEST_FIELDS then Some(FieldsInvalid)
    else if !ScalarSame(m["schema_version"], Int(SCHEMA_VERSION)) then Some(VersionUnsupported)
    else if !SafeId(c.str(m["preparation_id"])) then Some(UnsafeIdentity)
    else if m["adapter_version"] != Str(ADAPTER_VERSION) then Some(VersionUnsupported)
    else if m["reward_version"] != Str(REWARD_VERSION) then Some(VersionUnsupported)
    else if m["preparation_profile_version"] != Str(PROFILE_VERSION) then Some(VersionUnsupported)
    else if !DescribedOk(c, m["robot"], "robot.xml") then DescriptorError(c, m["robot"], "robot.xml")
    else if !DescribedOk(c, m["setup"], "normalized-setup.json") then
      DescriptorError(c, m["setup"], "normalized-setup.json")
    else if !m["runtime"].Obj? || m["runtime"].fields.Keys != {"image_digest"} then Some(RuntimeInvalid)
    else
      var image := m["runtime"].fields["image_digest"];
      if !image.Str? || image.text == "" || |image.text| > 256 then Some(RuntimeInvalid) else None
  }

  /** Bytes against their descriptor. */
  function ContentError(c: Codec, raw: seq<byte>, d: map<string, Json>): Option<InputError>
    requires d.Keys == DESCRIPTOR_FIELDS
  {
    if d["size_bytes"] != Int(|raw|) then Some(SizeMismatch)
    else if |raw| > MAX_INPUT then Some(SizeMismatch)
    else if d["sha256"] != Str(c.sha(raw)) then Some(DigestMismatch)
    else None
  }

  /** The setup on its own, up to its objects. */
  function SetupError(s: map<string, Json>): Option<InputError> {
    if s.Keys != SETUP_FIELDS then Some(FieldsInvalid)
    else if !ScalarSame(s["schema_version"], Int(SCHEMA_VERSION)) then Some(Unsupported)
    else if !s["robot_type"].Str? || s["robot_type"].text !in SUPPORTED_ROBOT_TYPES then Some(Unsupported)
    else if !s["task_template_id"].Str? || s["task_template_id"].text !in SUPPORTED_TASKS then Some(Unsupported)
    else if s["robot_type"].text !in TaskRobotTypes(s["task_template_id"].text) then Some(Unsupported)
    else if !s["scene_preset_id"].Str? || s["scene_preset_id"].text !in SUPPORTED_SCENES then Some(Unsupported)
    else if !s["objects"].List? || |s["objects"].items| > MAX_OBJECTS then Some(ObjectsInvalid)
    else None
  }

  /** A manifest that passes on its own, with contents that match it. */
  predicate ManifestAccepted(c: Codec, m: Json, robot: seq<byte>, setup: seq<byte>) {
    && m.Obj? && ManifestError(c, m.fields) == None
    && ContentError(c, robot, m.fields["robot"].fields) == None
    && ContentError(c, setup, m.fields["setup"].fields) == None
  }

  /** A canonical setup whose objects are the scene's presets and then custom ones. */
  predicate SetupAccepted(c: Codec, s: Json, setup: seq<byte>) {
    && s.Obj? && c.encode(s) == setup && SetupError(s.fields) == None
    && ObjectsAccepted(s.fields["objects"].items, ExpectedPresets(s.fields["scene_preset_id"].text))
  }

  /** The manifest's fingerprint is the one its digests give, and the robot is the one it names. */
  predicate FingerprintBinds(c: Codec, m: Json, robot: seq<byte>)
    requires m.Obj? && ManifestError(c, m.fields) == None
  {
    var r, s := m.fields["robot"].fields, m.fields["setup"].fields;
    var fingerprint := WorkerFingerprint(c, c.str(r["source_digest"]), c.str(s["source_digest"]),
                                         m.fields["runtime"].fields["image_digest"].text);
    && fingerprint.Some? && m.fields["fingerprint"] == Str(fingerprint.value)
    && r["source_digest"] == Str(c.sha(robot)) && c.fromUtf8(robot).Some?
  }

  /** Everything validate_documents requires. */
  predicate Accepts(c: Codec, manifest: seq<byte>, robot: seq<byte>, setup: seq<byte>) {
    && |manifest| <= MAX_MANIFEST
    && c.decode(manifest).Some? && ManifestAccepted(c, c.decode(manifest).value, robot, setup)
    && c.decode(setup).Some? && SetupAccepted(c, c.decode(setup).value, setup)
    && FingerprintBinds(c, c.decode(manifest).value, robot)
  }

  datatype Loaded = Loaded(manifest: Json, xml: string, setup: Json)

  /** validate_documents. */
  method ValidateDocuments(c: Codec, manifestBytes: seq<byte>, robotBytes: seq<byte>, setupBytes: seq<byte>)
    returns (r: Result<Loaded, InputError>)
    ensures r.Ok? <==> Accepts(c, manifestBytes, robotBytes, setupBytes)
    ensures r.Ok? ==> Some(r.value.manifest) == c.decode(manifestBytes) && Some(r.value.setup) == c.decode(setupBytes)
    ensures r.Ok? ==> Some(r.value.xml) == c.fromUtf8(robotBytes)
  {
    hide ManifestError, ContentError, SetupError, ObjectsAccepted;
    if |manifestBytes| > MAX_MANIFEST {
      return Err(ManifestTooLarge);
    }
    var decoded := c.decode(manifestBytes);
    if decoded == None {
      return Err(NotJson);
    }
    if !decoded.value.Obj? {
      return Err(NotAnObject);
    }
    var manifest := decoded.value.fields;
    var wrong := ManifestError(c, manifest);
    if wrong.Some? {
      return Err(wrong.value);
    }
    ManifestShape(c, manifest);
    var robot, setupDescriptor := manifest["robot"].fields, manifest["setup"].fields;
    wrong := ContentError(c, robotBytes, robot);
    if wrong.Some? {
      return Err(wrong.value);
    }
    wrong := ContentError(c, setupBytes, setupDescriptor);
    if wrong.Some? {
      return Err(wrong.value);
    }
    var decodedSetup := c.decode(setupBytes);
    if decodedSetup == None {
      return Err(NotJson);
    }
    if !decodedSetup.value.Obj? {
      return Err(NotAnObject);
    }
    if c.encode(decodedSetup.value) != setupBytes {
      return Err(NotCanonical);
    }
    var setup := decodedSetup.value.fields;
    wrong := SetupError(setup);
    if wrong.Some? {
      return Err(wrong.value);
    }
    SetupShape(setup);
    wrong := ValidateObjects(setup["objects"].items, ExpectedPresets(setup["scene_preset_id"].text));
    if wrong.Some? {
      return Err(wrong.value);
    }
    var expected := WorkerFingerprint(c, c.str(robot["source_digest"]), c.str(setupDescriptor["source_digest"]),
                                      manifest["runtime"].fields["image_digest"].text);
    if expected == None || manifest["fingerprint"] != Str(expected.value) {
      return Err(FingerprintMismatch);
    }
    if robot["source_digest"] != Str(c.sha(robotBytes)) {
      return Err(RobotDigestMismatch);
    }
    var xml := c.fromUtf8(robotBytes);
    if xml == None {
      return Err(NotUtf8);
    }
    return Ok(Loaded(decoded.value, xml.value, decodedSetup.value));
  }

  // ----- what acceptance binds

  /** Field `key` of a JSON object, or null. */
  function At(j: Json, key: string): Json {
    if j.Obj? && key in j.fields then j.fields[key] else Null
  }

  /** The descriptor is of these bytes, at this path. */
  predicate Describes(c: Codec, d: Json, raw: seq<byte>, path: string) {
    && At(d, "path") == Str(path) && At(d, "size_bytes") == Int(|raw|) && At(d, "sha256") == Str(c.sha(raw))
    && 1 <= |raw| <= 1048576 && IsDigest(c.str(At(d, "source_digest"))) && SafeId(c.str(At(d, "id")))
  }

  /** An accepted manifest is of the reviewed versions, describes its two contents, and is safely named. */
  lemma AcceptedManifestMeans(c: Codec, m: Json, robot: seq<byte>, setup: seq<byte>)
    requires ManifestAccepted(c, m, robot, setup)
    ensures ScalarSame(At(m, "schema_version"), Int(2)) && SafeId(c.str(At(m, "preparation_id")))
    ensures At(m, "adapter_version") == Str("custom-robot-sb3-v2") && At(m, "reward_version") == Str("locomotion-rewards-v20")
    ensures At(m, "preparation_profile_version") == Str("custom-prepare-v1")
    ensures Describes(c, At(m, "robot"), robot, "robot.xml") && Describes(c, At(m, "setup"), setup, "normalized-setup.json")
    ensures var image := At(At(m, "runtime"), "image_digest"); image.Str? && 1 <= |image.text| <= 256
  {
    hide SafeId, IsDigest;
    ManifestShape(c, m.fields);
    DescriptorMeans(c, m.fields["robot"], robot, "robot.xml");
    DescriptorMeans(c, m.fields["setup"], setup, "normalized-setup.json");
  }

  lemma DescriptorMeans(c: Codec, d: Json, raw: seq<byte>, path: string)
    requires DescribedOk(c, d, path) && ContentError(c, raw, d.fields) == None
    ensures Describes(c, d, raw, path)
  {
    hide SafeId, IsDigest;
  }

  /** Everything an accepted delivery says of itself is so, field by field. */
  lemma AcceptedMeans(c: Codec, manifest: seq<byte>, robot: seq<byte>, setup: seq<byte>)
    requires Accepts(c, manifest, robot, setup)
    ensures |manifest| <= 65536 && c.decode(manifest).Some? && c.decode(setup).Some? && c.fromUtf8(robot).Some?
    ensures ManifestAccepted(c, c.decode(manifest).value, robot, setup)
    ensures var m := c.decode(manifest).value;
      && At(At(m, "robot"), "source_digest") == Str(c.sha(robot))
      && At(m, "fingerprint") == Str(c.sha(c.encode(Obj(map[
           "adapter_version" := Str("custom-robot-sb3-v2"), "preparation_profile_version" := Str("custom-prepare-v1"),
           "reward_version" := Str("locomotion-rewards-v20"), "robot_digest" := Str(c.str(Str(c.sha(robot)))),
           "runtime_image_digest" := At(At(m, "runtime"), "image_digest"), "schema_version" := Int(2),
           "setup_digest" := Str(c.str(At(At(m, "setup"), "source_digest")))]))))
    ensures var s := c.decode(setup).value;
      && c.encode(s) == setup && ScalarSame(At(s, "schema_version"), Int(2))
      && At(s, "robot_type") in {Str("biped"), Str("quadruped")}
      && At(s, "task_template_id") in {Str("stand-balance"), Str("walk-forward"), Str("recover-from-fall")}
      && (At(s, "task_template_id") == Str("recover-from-fall") ==> At(s, "robot_type") == Str("quadruped"))
      && At(s, "scene_preset_id") in {Str("flat-arena"), Str("ramp-course"), Str("hurdle-course"), Str("step-course")}
      && At(s, "objects").List? && |At(s, "objects").items| <= 6
      && ObjectsAccepted(At(s, "objects").items, ExpectedPresets(At(s, "scene_preset_id").text))
  {
    hide SafeId, IsDigest, ObjectsAccepted, ExpectedPresets, ContentError;
    ManifestShape(c, c.decode(manifest).value.fields);
    SetupShape(c.decode(setup).value.fields);
    SetupMeans(c.decode(setup).value);
  }

  lemma SetupMeans(s: Json)
    requires s.Obj? && SetupError(s.fields) == None
    ensures ScalarSame(At(s, "schema_version"), Int(2))
    ensures At(s, "robot_type") in {Str("biped"), Str("quadruped")}
    ensures At(s, "task_template_id") in {Str("stand-balance"), Str("walk-forward"), Str("recover-from-fall")}
    ensures At(s, "task_template_id") == Str("recover-from-fall") ==> At(s, "robot_type") == Str("quadruped")
    ensures At(s, "scene_preset_id") in {Str("flat-arena"), Str("ramp-course"), Str("hurdle-course"), Str("step-course")}
    ensures At(s, "objects").List? && |At(s, "objects").items| <= 6
  {
  }

  /** One manifest goes with one robot and one setup, unless they exhibit a hash collision. */
  lemma ManifestBindsContents(c: Codec, manifest: seq<byte>, robot: seq<byte>, setup: seq<byte>,
                              robot': seq<byte>, setup': seq<byte>)
    requires Accepts(c, manifest, robot, setup) && Accepts(c, manifest, robot', setup')
    ensures (robot == robot' && setup == setup') || Collision(c, robot, robot') || Collision(c, setup, setup')
  {
    hide SetupAccepted, FingerprintBinds, ManifestAccepted, IsDigest, SafeId;
    AcceptedManifestMeans(c, c.decode(manifest).value, robot, setup);
    AcceptedManifestMeans(c, c.decode(manifest).value, robot', setup');
  }

  lemma ManifestShape(c: Codec, m: map<string, Json>)
    requires ManifestError(c, m) == None
    ensures m.Keys == MANIFEST_FIELDS
    ensures m["robot"].Obj? && m["robot"].fields.Keys == DESCRIPTOR_FIELDS
    ensures m["setup"].Obj? && m["setup"].fields.Keys == DESCRIPTOR_FIELDS
    ensures m["runtime"].Obj? && "image_digest" in m["runtime"].fields && m["runtime"].fields["image_digest"].Str?
  {
  }

  lemma SetupShape(s: map<string, Json>)
    requires SetupError(s) == None
    ensures "objects" in s && s["objects"].List? && "scene_preset_id" in s && s["scene_preset_id"].Str?
  {
  }

  // ----- producer meets consumer

  /** A setup whose world normalize_setup made from these requested objects. */
  predicate FromNormalization(setup: Setup, inputs: seq<Saas.ObjectInput>) {
    && Saas.Acceptable(setup.robotType, setup.task, setup.scene, inputs)
    && setup.objects == Saas.Presets(setup.scene) + Saas.AllNormalized(inputs, "custom")
  }

  /** What the producer does not check and the consumer does. */
  predicate WithinLimits(c: Codec, robot: Robot, setup: Setup, d: Documents) {
    && |c.encode(d.manifest)| <= MAX_MANIFEST
    && 1 <= |d.robot| <= MAX_INPUT && 1 <= |d.setup| <= MAX_INPUT
    && SafeId(robot.id) && SafeId(setup.id)
    && c.sha(d.robot) == robot.digest
  }

  lemma LimitsFit(c: Codec, robot: Robot, setup: Setup, d: Documents)
    requires WithinLimits(c, robot, setup, d)
    ensures |d.robot| <= MAX_INPUT && |d.setup| <= MAX_INPUT
  {
  }

  lemma ChosenInContract(input: Saas.ObjectInput, field: string)
    requires Saas.ObjectOk(input) && field in Saas.FIELDS
    ensures Saas.KnownObject(input.kind) && Contracted(input.kind) && Saas.Chosen(input, field).Finite?
    ensures NumberIn(Num(Saas.Chosen(input, field)), Contract(input.kind, field))
  {
    MirrorAgrees(input.kind, field);
    hide Contract, Saas.Catalog, Saas.Chosen;
    assert Saas.FieldOk(input, field);
  }

  lemma DumpShape(o: Saas.CatalogObject)
    requires forall field :: field in o.values <==> field in Saas.FIELDS
    ensures Saas.Dump(o).Obj? && HasFields(Saas.Dump(o).fields)
    ensures Saas.Dump(o).fields["object_type"] == Str(o.kind) && Saas.Dump(o).fields["source"] == Str(o.source)
    ensures forall field :: field in Saas.FIELDS ==> Saas.Dump(o).fields[field] == Num(Finite(o.values[field]))
  {
    assert Saas.Dump(o).fields.Keys == OBJECT_FIELDS;
  }

  /** A normalized object passes every check on its own. */
  lemma NormalizedItemOk(input: Saas.ObjectInput, source: string)
    requires Saas.ObjectOk(input) && (source == "preset" || source == "custom")
    ensures ItemOk(Saas.Dump(Saas.Normalized(input, source))) && From(Saas.Dump(Saas.Normalized(input, source)), source)
  {
    hide Contract, NumberIn, HasFields, Saas.Chosen, Saas.ObjectOk, Saas.Dump;
    ChosenInContract(input, "x");
    forall field | field in Saas.FIELDS
      ensures Saas.Chosen(input, field).Finite? && NumberIn(Num(Saas.Chosen(input, field)), Contract(input.kind, field))
    {
      ChosenInContract(input, field);
    }
    DumpShape(Saas.Normalized(input, source));
    FieldsPresent(Saas.Dump(Saas.Normalized(input, source)).fields);
  }

  lemma FieldsPresent(fields: map<string, Json>)
    requires HasFields(fields)
    ensures "object_type" in fields && "source" in fields && forall field :: field in Saas.FIELDS ==> field in fields
  {
  }

  /** The worker accepts the objects of every setup the catalog normalizes. */
  lemma NormalizedObjectsAccepted(setup: Setup, inputs: seq<Saas.ObjectInput>)
    requires FromNormalization(setup, inputs)
    ensures ObjectsAccepted(Saas.DumpAll(setup.objects), ExpectedPresets(setup.scene))
    ensures |setup.objects| <= MAX_OBJECTS
  {
    hide ItemOk, ExpectedPresets, Saas.Dump, Saas.Normalized, Saas.ObjectOk, Saas.PresetInputs;
    ScenesAgree(setup.scene);
    Saas.PresetsOk(setup.scene);
    var items, expected, presets := Saas.DumpAll(setup.objects), ExpectedPresets(setup.scene), Saas.PresetInputs(setup.scene);
    forall k | 0 <= k < |items|
      ensures ItemOk(items[k]) && From(items[k], if k < |expected| then "preset" else "custom")
    {
      if k < |expected| {
        assert setup.objects[k] == Saas.Normalized(presets[k], "preset");
        NormalizedItemOk(presets[k], "preset");
      } else {
        assert setup.objects[k] == Saas.Normalized(inputs[k - |expected|], "custom");
        NormalizedItemOk(inputs[k - |expected|], "custom");
      }
    }
    forall k | 0 <= k < |expected| ensures FieldsSame(items[k].fields, expected[k]) {
      assert items[k].fields == expected[k];
    }
  }

  lemma SetupWritable(c: Codec, setup: Setup, inputs: seq<Saas.ObjectInput>)
    requires Lawful(c) && FromNormalization(setup, inputs) && Saas.InputsWritable(c, inputs)
    ensures Writable(c, SetupJson(setup), MAX_DEPTH)
  {
    Saas.PresetsWritable(c, setup.scene);
    Saas.NormalizedWritable(c, inputs, "custom");
    Saas.DumpWritable(c, setup.objects, MAX_DEPTH - 1);
    var fields := SetupJson(setup).fields;
    forall k | k in fields ensures Writable(c, fields[k], MAX_DEPTH - 1) {
    }
  }

  lemma ManifestWritable(c: Codec, preparationId: string, fingerprint: string, robot: Json, setup: Json, image: string)
    requires Writable(c, robot, MAX_DEPTH - 1) && Writable(c, setup, MAX_DEPTH - 1)
    ensures Writable(c, Manifest(preparationId, fingerprint, robot, setup, image), MAX_DEPTH)
  {
    var m := Manifest(preparationId, fingerprint, robot, setup, image).fields;
    forall k | k in m ensures Writable(c, m[k], MAX_DEPTH - 1) {
      if k == "runtime" {
        assert m[k] == Obj(map["image_digest" := Str(image)]);
        assert forall l :: l in m[k].fields ==> m[k].fields[l] == Str(image);
      }
    }
  }

  lemma DescriptorWritable(c: Codec, id: string, path: string, source: string, hash: string, size: int)
    requires 0 <= size <= MAX_INPUT
    ensures Writable(c, Descriptor(id, path, source, hash, size), MAX_DEPTH - 1)
  {
    var d := Descriptor(id, path, source, hash, size).fields;
    forall k | k in d ensures Writable(c, d[k], MAX_DEPTH - 2) {
    }
  }

  lemma DocumentsWritable(c: Codec, preparationId: string, robot: Robot, xml: string, setup: Setup, image: string)
    requires BuildInputDocuments(c, preparationId, robot, xml, setup, image).Ok?
    requires |c.utf8(xml)| <= MAX_INPUT && |c.encode(SetupJson(setup))| <= MAX_INPUT
    ensures Writable(c, BuildInputDocuments(c, preparationId, robot, xml, setup, image).value.manifest, MAX_DEPTH)
  {
    hide Writable, Descriptor, Manifest, IsDigest, SafeId;
    var r, s := c.utf8(xml), c.encode(SetupJson(setup));
    DescriptorWritable(c, robot.id, "robot.xml", robot.digest, c.sha(r), |r|);
    DescriptorWritable(c, setup.id, "normalized-setup.json", setup.digest, c.sha(s), |s|);
    ManifestWritable(c, preparationId, ProducerFingerprint(c, robot, setup, image).value,
                     Descriptor(robot.id, "robot.xml", robot.digest, c.sha(r), |r|),
                     Descriptor(setup.id, "normalized-setup.json", setup.digest, c.sha(s), |s|), image);
  }

  /** The setup document is accepted as it was encoded. */
  lemma ProducedSetupAccepted(c: Codec, setup: Setup, inputs: seq<Saas.ObjectInput>)
    requires Lawful(c) && FromNormalization(setup, inputs) && Saas.InputsWritable(c, inputs)
    ensures c.decode(c.encode(SetupJson(setup))) == Some(SetupJson(setup))
    ensures SetupAccepted(c, SetupJson(setup), c.encode(SetupJson(setup)))
  {
    hide ObjectsAccepted, ExpectedPresets, Saas.DumpAll, Saas.Presets, Saas.AllNormalized, Writable;
    NormalizedObjectsAccepted(setup, inputs);
    SetupWritable(c, setup, inputs);
    ScenesAgree(setup.scene);
    TasksAgree(setup.task, setup.robotType);
    var s := SetupJson(setup).fields;
    assert s.Keys == SETUP_FIELDS;
  }

  /** The fields of a produced manifest. */
  lemma ManifestHas(preparationId: string, fingerprint: string, robot: Json, setup: Json, image: string)
    ensures var m := Manifest(preparationId, fingerprint, robot, setup, image).fields;
      && m.Keys == MANIFEST_FIELDS && m["robot"] == robot && m["setup"] == setup
      && m["runtime"].Obj? && m["runtime"].fields.Keys == {"image_digest"} && m["runtime"].fields["image_digest"] == Str(image)
      && m["schema_version"] == Int(SCHEMA_VERSION) && m["preparation_id"] == Str(preparationId)
      && m["adapter_version"] == Str(ADAPTER_VERSION) && m["reward_version"] == Str(REWARD_VERSION)
      && m["preparation_profile_version"] == Str(PROFILE_VERSION)
  {
    var m := Manifest(preparationId, fingerprint, robot, setup, image).fields;
    assert m.Keys == MANIFEST_FIELDS && m["runtime"].fields.Keys == {"image_digest"};
  }

  /** A produced manifest passes on its own when its two descriptors do. */
  lemma ManifestOkIff(c: Codec, preparationId: string, fingerprint: string, robot: Json, setup: Json, image: string)
    requires Lawful(c) && SafeId(preparationId) && image != "" && |image| <= 256
    ensures ManifestError(c, Manifest(preparationId, fingerprint, robot, setup, image).fields) == None <==>
      DescribedOk(c, robot, "robot.xml") && DescribedOk(c, setup, "normalized-setup.json")
  {
    assert c.str(Str(preparationId)) == preparationId by { hide Writable; }
    hide SafeId, DescriptorError, Manifest, Lawful;
    ManifestHas(preparationId, fingerprint, robot, setup, image);
  }

  lemma ContentOkIff(c: Codec, raw: seq<byte>, id: string, path: string, source: string)
    ensures Descriptor(id, path, source, c.sha(raw), |raw|).fields.Keys == DESCRIPTOR_FIELDS
    ensures ContentError(c, raw, Descriptor(id, path, source, c.sha(raw), |raw|).fields) == None <==> |raw| <= MAX_INPUT
  {
    assert Descriptor(id, path, source, c.sha(raw), |raw|).fields.Keys == DESCRIPTOR_FIELDS;
  }

  /** The manifest is accepted exactly within the limits the producer leaves unchecked. */
  lemma ProducedManifestAccepted(c: Codec, preparationId: string, robot: Robot, xml: string, setup: Setup, image: string)
    requires Lawful(c) && BuildInputDocuments(c, preparationId, robot, xml, setup, image).Ok?
    ensures var d := BuildInputDocuments(c, preparationId, robot, xml, setup, image).value;
      ManifestAccepted(c, d.manifest, d.robot, d.setup) <==> (
        && 1 <= |d.robot| <= MAX_INPUT && 1 <= |d.setup| <= MAX_INPUT && SafeId(robot.id) && SafeId(setup.id))
    ensures var d := BuildInputDocuments(c, preparationId, robot, xml, setup, image).value;
      ManifestAccepted(c, d.manifest, d.robot, d.setup) ==>
        (FingerprintBinds(c, d.manifest, d.robot) <==> c.sha(d.robot) == robot.digest)
  {
    hide Writable, SafeId, IsDigest, ManifestError, ContentError, DescriptorError, DescribedOk, WorkerFingerprint, Descriptor;
    var d := BuildInputDocuments(c, preparationId, robot, xml, setup, image).value;
    var m := d.manifest.fields;
    DescriptorOkIff(c, robot.id, "robot.xml", robot.digest, c.sha(d.robot), |d.robot|);
    DescriptorOkIff(c, setup.id, "normalized-setup.json", setup.digest, c.sha(d.setup), |d.setup|);
    ContentOkIff(c, d.robot, robot.id, "robot.xml", robot.digest);
    ContentOkIff(c, d.setup, setup.id, "normalized-setup.json", setup.digest);
    ManifestOkIff(c, preparationId, m["fingerprint"].text, m["robot"], m["setup"], image);
    DescriptorNames(c, robot.id, "robot.xml", robot.digest, c.sha(d.robot), |d.robot|);
    DescriptorNames(c, setup.id, "normalized-setup.json", setup.digest, c.sha(d.setup), |d.setup|);
    FingerprintsAgree(c, robot, setup, image);
    assert c.fromUtf8(c.utf8(xml)) == Some(xml);
  }

  lemma DescriptorNames(c: Codec, id: string, path: string, source: string, hash: string, size: int)
    requires Lawful(c)
    ensures var d := Descriptor(id, path, source, hash, size);
      d.Obj? && "source_digest" in d.fields && d.fields["source_digest"] == Str(source) && c.str(Str(source)) == source
  {
  }

  lemma DescriptorOkIff(c: Codec, id: string, path: string, source: string, hash: string, size: int)
    requires Lawful(c) && IsDigest(source) && IsDigest(hash)
    ensures DescribedOk(c, Descriptor(id, path, source, hash, size), path) <==> SafeId(id) && 1 <= size <= MAX_INPUT
  {
    hide SafeId, IsDigest, Writable;
    var d := Descriptor(id, path, source, hash, size);
    assert d.fields.Keys == DESCRIPTOR_FIELDS;
    assert c.str(Str(id)) == id && c.str(Str(source)) == source && c.str(Str(hash)) == hash;
  }

  /**
   Every setup the catalog normalizes, encoded and decoded, is accepted by the worker,
   exactly when the sizes, identities and robot digest the producer does not check are right.
   */
  lemma ProducedIsAcceptedIff(c: Codec, preparationId: string, robot: Robot, xml: string, setup: Setup, image: string,
                              inputs: seq<Saas.ObjectInput>)
    requires Lawful(c) && FromNormalization(setup, inputs) && Saas.InputsWritable(c, inputs)
    requires BuildInputDocuments(c, preparationId, robot, xml, setup, image).Ok?
    ensures var d := BuildInputDocuments(c, preparationId, robot, xml, setup, image).value;
      Accepts(c, c.encode(d.manifest), d.robot, d.setup) <==> WithinLimits(c, robot, setup, d)
  {
    hide ManifestAccepted, SetupAccepted, SafeId, FromNormalization, Writable, FingerprintBinds;
    var d := BuildInputDocuments(c, preparationId, robot, xml, setup, image).value;
    if |d.robot| > MAX_INPUT || |d.setup| > MAX_INPUT {
      if Accepts(c, c.encode(d.manifest), d.robot, d.setup) {
        AcceptedContentsFit(c, c.decode(c.encode(d.manifest)).value, d.robot, d.setup);
      }
    } else {
      DocumentsWritable(c, preparationId, robot, xml, setup, image);
      ProducedManifestAccepted(c, preparationId, robot, xml, setup, image);
      ProducedSetupAccepted(c, setup, inputs);
      assert c.decode(c.encode(d.manifest)) == Some(d.manifest);
    }
  }

  /** Whatever the manifest says, contents above the limit are refused. */
  lemma AcceptedContentsFit(c: Codec, m: Json, robot: seq<byte>, setup: seq<byte>)
    requires ManifestAccepted(c, m, robot, setup)
    ensures |robot| <= MAX_INPUT && |setup| <= MAX_INPUT
  {
    hide ManifestError;
  }

  lemma FingerprintWritable(c: Codec, r: string, s: string, image: string)
    ensures Writable(c, FingerprintJson(r, s, image), MAX_DEPTH)
  {
    var fields := FingerprintJson(r, s, image).fields;
    forall k | k in fields ensures Writable(c, fields[k], MAX_DEPTH - 1) {
    }
  }

  /** Equal fingerprints name the same robot, setup and runtime, unless they exhibit a hash collision. */
  lemma FingerprintIdentifies(c: Codec, r: string, s: string, image: string, r': string, s': string, image': string)
    requires Lawful(c) && WorkerFingerprint(c, r, s, image).Some?
    requires WorkerFingerprint(c, r, s, image) == WorkerFingerprint(c, r', s', image')
    ensures (r == r' && s == s' && image == image')
      || Collision(c, c.encode(FingerprintJson(r, s, image)), c.encode(FingerprintJson(r', s', image')))
  {
    var a, b := FingerprintJson(r, s, image), FingerprintJson(r', s', image');
    FingerprintWritable(c, r, s, image);
    FingerprintWritable(c, r', s', image');
    if c.encode(a) == c.encode(b) {
      assert Some(a) == c.decode(c.encode(a)) == c.decode(c.encode(b)) == Some(b);
      assert a.fields["robot_digest"] == b.fields["robot_digest"] && a.fields["setup_digest"] == b.fields["setup_digest"];
      assert a.fields["runtime_image_digest"] == b.fields["runtime_image_digest"];
    }
  }

  /** The setup a request is stored as. */
  function StoredSetup(c: Codec, setupId: string, robotId: string, robotType: string, task: string, scene: string,
                       inputs: seq<Saas.ObjectInput>): Setup
    requires Saas.Acceptable(robotType, task, scene, inputs)
  {
    var objects := Saas.Presets(scene) + Saas.AllNormalized(inputs, "custom");
    Setup(setupId, robotType, task, scene, objects, c.sha(c.ascii(Saas.Payload(robotId, robotType, task, scene, objects))))
  }

  /** A requested setup, all the way: normalized, built, encoded, and validated by the worker. */
  method Deliver(c: Codec, robotId: string, xml: string, setupId: string, preparationId: string, image: string,
                 robotType: string, task: string, scene: string, inputs: seq<Saas.ObjectInput>)
    returns (r: Option<Loaded>)
    requires Lawful(c) && SafeId(preparationId) && image != "" && |image| <= 256 && Saas.InputsWritable(c, inputs)
    ensures !Saas.Acceptable(robotType, task, scene, inputs) ==> r == None
    ensures Saas.Acceptable(robotType, task, scene, inputs) ==>
      var robot, setup := Robot(robotId, c.sha(c.utf8(xml))), StoredSetup(c, setupId, robotId, robotType, task, scene, inputs);
      var d := BuildInputDocuments(c, preparationId, robot, xml, setup, image);
      d.Ok? && r == if WithinLimits(c, robot, setup, d.value) then Some(Loaded(d.value.manifest, xml, SetupJson(setup))) else None
  {
    var normalized := Saas.NormalizeSetup(c, robotId, robotType, task, scene, inputs);
    if normalized.Err? {
      return None;
    }
    hide Accepts, Saas.Acceptable, Saas.Payload, Manifest, SafeId, IsDigest, WithinLimits, SetupJson, Writable;
    var robot := Robot(robotId, c.sha(c.utf8(xml)));
    var setup := Setup(setupId, robotType, task, scene, normalized.value.0, normalized.value.1);
    var d := BuildInputDocuments(c, preparationId, robot, xml, setup, image).value;
    var loaded := ValidateDocuments(c, c.encode(d.manifest), d.robot, d.setup);
    ProducedIsAcceptedIff(c, preparationId, robot, xml, setup, image, inputs);
    ProducedSetupAccepted(c, setup, inputs);
    if WithinLimits(c, robot, setup, d) {
      LimitsFit(c, robot, setup, d);
      DocumentsWritable(c, preparationId, robot, xml, setup, image);
      assert c.decode(c.encode(d.manifest)) == Some(d.manifest) && c.fromUtf8(c.utf8(xml)) == Some(xml);
    }
    return if loaded.Ok? then Some(loaded.value) else None;
  }
}
