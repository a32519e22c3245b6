/**
 * The field tables of api/utils/constants.js and how they instantiate the
 * validator.  Each table maps a field name to a bare array of type names;
 * the validator instead reads `.type` and `.required` of each entry.  The
 * model gives both readings: `AsRead` is what `validateBody` sees when handed
 * a bare table, `FromTable` is the evident intent (the array is the list of
 * admitted types, and the caller chooses whether the fields are required).
 */
module Constants {
  import opened Json
  import opened Helper

  datatype Column = Column(name: string, kinds: seq<Kind>)

  const ProjectDataInitFields: seq<Column> := [
    Column("project_id", [KString]),
    Column("title", [KString]),
    Column("developer", [KString]),
    Column("engine", [KString])
  ]

  const ProjectUpdatableFields: seq<Column> := [
    Column("title", [KString]),
    Column("developer", [KString]),
    Column("description", [KString]),
    Column("image_url", [KString]),
    Column("publisher", [KString]),
    Column("engine", [KString])
  ]

  const GameDataInitFields: seq<Column> := [
    Column("platform", [KString]),
    Column("display_size", [KString])
  ]

  const GameDataUpdatableFields: seq<Column> := [
    Column("play_time", [KNumber]),
    Column("multiple_ids", [KBoolean]),
    Column("sessions", [KNumber]),
    Column("sessions_length", [KNumber, KArray]),
    Column("increment", [KBoolean])
  ]

  const EndGameDataFields: seq<Column> := [
    Column("play_time", [KNumber]),
    Column("ending", [KString]),
    Column("sessions", [KNumber]),
    Column("sessions_length", [KNumber, KArray]),
    Column("end_data", [KObject]),
    Column("relationship_data", [KObject]),
    Column("choice_data", [KObject]),
    Column("play_data", [KObject])
  ]

  /** The remaining constants, api/utils/constants.js lines 37-39; no modelled operation reads them. */
  const AllowedUpdateMethods: seq<string> := ["self", "play", "relationship", "choice"]

  const MinProjectIdLength: nat := 8
  const MaxProjectIdLength: nat := 24

  /** The intended reading of a table: the array lists the admitted types; `required` is the caller's choice. */
  function FromTable(t: seq<Column>, required: bool): (spec: seq<Entry>)
    ensures |spec| == |t|
    ensures forall i :: 0 <= i < |t| ==> spec[i].name == t[i].name
  {
    if t == [] then [] else [Entry(t[0].name, FieldSpec(Listed(t[0].kinds), required))] + FromTable(t[1..], required)
  }

  /** A bare table as `validateBody` reads it: an array has neither a `type` nor a `required` property. */
  function AsRead(t: seq<Column>): (spec: seq<Entry>)
    ensures |spec| == |t|
    ensures forall i :: 0 <= i < |t| ==> spec[i].name == t[i].name && spec[i].field == FieldSpec(Unset, false)
  {
    if t == [] then [] else [Entry(t[0].name, FieldSpec(Unset, false))] + AsRead(t[1..])
  }

  /** The two game-data tables read as the validator intends, spelled out. */
  lemma IntendedSpecs()
    ensures FromTable(GameDataInitFields, true) == InitSpec
    ensures FromTable(GameDataUpdatableFields, false) == UpdatableSpec
  {
  }

  /** The same tables as `validateBody` reads them, spelled out. */
  lemma BareSpecs()
    ensures AsRead(GameDataInitFields) == [Entry("platform", FieldSpec(Unset, false)), Entry("display_size", FieldSpec(Unset, false))]
  {
  }

  const InitSpec: seq<Entry> := [
    Entry("platform", FieldSpec(Listed([KString]), true)),
    Entry("display_size", FieldSpec(Listed([KString]), true))
  ]

  const UpdatableSpec: seq<Entry> := [
    Entry("play_time", FieldSpec(Listed([KNumber]), false)),
    Entry("multiple_ids", FieldSpec(Listed([KBoolean]), false)),
    Entry("sessions", FieldSpec(Listed([KNumber]), false)),
    Entry("sessions_length", FieldSpec(Listed([KNumber, KArray]), false)),
    Entry("increment", FieldSpec(Listed([KBoolean]), false))
  ]

  function Field2(k1: string, v1: Value, k2: string, v2: Value): seq<Field> {
    [Field(k1, v1), Field(k2, v2)]
  }

  /** The field loop over a two-entry specification is two steps. */
  lemma CheckTwo(e0: Entry, e1: Entry, post: seq<Field>, acc: Acc)
    ensures CheckFields([e0, e1], post, acc) == StepField(e1, post, StepField(e0, post, acc))
  {
    var a1 := StepField(e0, post, acc);
    assert [e0, e1][1..] == [e1];
    assert CheckFields([e0, e1], post, acc) == CheckFields([e1], post, a1);
    assert [e1][1..] == [];
    assert CheckFields([e1], post, a1) == CheckFields([], post, StepField(e1, post, a1));
  }

  /** A one-kind list admits exactly the values of that kind. */
  lemma JudgeOne(k: Kind, v: Value)
    ensures Judge(Listed([k]), v) == (if ListedMatch(k, v) then Accept else Reject)
  {
    if ListedMatch(k, v) { assert ListedMatch([k][0], v); }
  }

  /** `["string"]` admits exactly the strings. */
  lemma JudgeString(v: Value)
    ensures Judge(Listed([KString]), v) == (if v.Str? then Accept else Reject)
  {
    JudgeOne(KString, v);
    if !v.Str? { assert TypeOf(v)[0] != KindName(KString)[0]; }
  }

  // ---------------------------------------------------------------------------
  // The bare tables as written
  // ---------------------------------------------------------------------------

  /**
   * An entry with neither `type` nor `required`, as every entry of a bare
   * table reads, is never accepted and never missing: it lands in `error`
   * exactly when the input holds it.
   */
  lemma BareEntryRejected(spec: seq<Entry>, post: seq<Field>, i: nat)
    requires DistinctNames(spec)
    requires i < |spec| && spec[i].field == FieldSpec(Unset, false)
    requires Validate(spec, post).Checked?
    ensures var r := Validate(spec, post);
      && spec[i].name !in r.accepted
      && spec[i].name !in r.missing
      && (spec[i].name in r.errors <==> HasKey(post, spec[i].name))
  {
    ValidatePlacement(spec, post, i);
  }

  /**
   * The payload with which test/projects.test.js (lines 24-29) creates a
   * project; `createNewProject` checks it against the bare
   * `projectDataInitFields` (api/controllers/projects.controller.js line 19).
   */
  const ProjectPayload: seq<Field> := [
    Field("project_id", Str("TestGame")),
    Field("title", Str("Test")),
    Field("developer", Str("Test")),
    Field("engine", Str("Ren'Py"))
  ]

  /**
   * As written, every field of that well-formed payload lands in `error`, so
   * `createNewProject` answers with the invalid-types failure.
   */
  lemma ProjectPayloadRejectedAsWritten()
    ensures Validate(AsRead(ProjectDataInitFields), ProjectPayload)
         == Checked(map[], ["project_id", "title", "developer", "engine"], [])
  {
    var spec := AsRead(ProjectDataInitFields);
    var post := ProjectPayload;
    assert Names(spec) == ["project_id", "title", "developer", "engine"] by { BareProjectSpec(); }
    assert KeysOf(post) == Names(spec);
    ProjectNamesDistinct(spec);
    BareTableRejectsAll(spec, post);
  }

  /**
   * Under a bare table, a payload that holds exactly the table's fields has
   * every field in `error`, in table order, and nothing accepted.
   */
  lemma BareTableRejectsAll(spec: seq<Entry>, post: seq<Field>)
    requires DistinctNames(spec) && KeysOf(post) == Names(spec)
    requires forall j :: 0 <= j < |spec| ==> spec[j].field == FieldSpec(Unset, false)
    ensures Validate(spec, post) == Checked(map[], Names(spec), [])
  {
    var names := Names(spec);
    forall j | 0 <= j < |spec| ensures HasKey(post, spec[j].name) {
      assert post[j].key == names[j];
    }
    forall i | 0 <= i < |post| ensures post[i].key in names {
      assert post[i].key == names[i];
    }
    NoExtraWhenNamed(spec, post);
    assert spec[0..] == spec;
    BareErrorsFrom(spec, post, 0);
  }

  /** A payload whose every key the specification names has no extra key. */
  lemma {:induction false} NoExtraWhenNamed(spec: seq<Entry>, post: seq<Field>)
    requires forall i :: 0 <= i < |post| ==> post[i].key in Names(spec)
    ensures ExtraKeys(spec, post) == []
  {
    if post != [] {
      var tail := post[1..];
      assert forall i :: 0 <= i < |tail| ==> tail[i] == post[i + 1];
      NoExtraWhenNamed(spec, tail);
      ExtraCons(spec, post);
    }
  }

  lemma {:induction false} BareErrorsFrom(spec: seq<Entry>, post: seq<Field>, i: nat)
    requires i <= |spec| && DistinctNames(spec)
    requires forall j :: 0 <= j < |spec| ==> spec[j].field == FieldSpec(Unset, false) && HasKey(post, spec[j].name)
    ensures CheckFields(spec[i..], post, Acc(map[], Names(spec)[..i], [])) == Acc(map[], Names(spec), [])
    decreases |spec| - i
  {
    var names := Names(spec);
    if i == |spec| {
      assert names[..i] == names;
      assert spec[i..] == [];
    } else {
      assert spec[i..][1..] == spec[i + 1..];
      assert names[..i + 1] == names[..i] + [names[i]];
      BareStepAt(spec, post, i);
      BareErrorsFrom(spec, post, i + 1);
    }
  }

  /** Under the intended reading the same payload is accepted unchanged. */
  lemma ProjectPayloadAccepted()
    ensures Validate(FromTable(ProjectDataInitFields, true), ProjectPayload)
         == Checked(map["project_id" := Str("TestGame"), "title" := Str("Test"),
                        "developer" := Str("Test"), "engine" := Str("Ren'Py")], [], [])
  {
    var spec := FromTable(ProjectDataInitFields, true);
    var post := ProjectPayload;
    ProjectTableIntended();
    ProjectPayloadKnown(spec, post);
    ProjectPayloadLookups(post);
    var a0 := Acc(map[], [], []);
    var a1 := a0.(accepted := map["project_id" := Str("TestGame")]);
    var a2 := a0.(accepted := a1.accepted["title" := Str("Test")]);
    var a3 := a0.(accepted := a2.accepted["developer" := Str("Test")]);
    var a4 := a0.(accepted := a3.accepted["engine" := Str("Ren'Py")]);
    InitStep(spec[0], post, a0, Str("TestGame"));
    InitStep(spec[1], post, a1, Str("Test"));
    InitStep(spec[2], post, a2, Str("Test"));
    InitStep(spec[3], post, a3, Str("Ren'Py"));
    CheckFour(spec, post, a0, a1, a2, a3, a4);
  }

  lemma ProjectTableIntended()
    ensures forall i :: 0 <= i < 4 ==> FromTable(ProjectDataInitFields, true)[i].field == FieldSpec(Listed([KString]), true)
  {
  }

  /** The project creation table as `validateBody` reads it, spelled out. */
  lemma BareProjectSpec()
    ensures AsRead(ProjectDataInitFields)
         == [Entry("project_id", FieldSpec(Unset, false)), Entry("title", FieldSpec(Unset, false)),
             Entry("developer", FieldSpec(Unset, false)), Entry("engine", FieldSpec(Unset, false))]
  {
  }

  lemma ProjectNamesDistinct(spec: seq<Entry>)
    requires Names(spec) == ["project_id", "title", "developer", "engine"]
    ensures DistinctNames(spec)
  {
    var names := Names(spec);
    assert "title"[0] != "project_id"[0];
    assert "developer"[0] != "project_id"[0] && "developer"[0] != "title"[0];
    assert "engine"[0] != "project_id"[0] && "engine"[0] != "title"[0] && "engine"[0] != "developer"[0];
    forall i, j | 0 <= i < j < |spec| ensures spec[i].name != spec[j].name {
      assert names[i][0] != names[j][0];
    }
  }

  /** Pass `i` of the loop over a bare table adds that present field to `error` after the ones before it. */
  lemma BareStepAt(spec: seq<Entry>, post: seq<Field>, i: nat)
    requires i < |spec| && DistinctNames(spec)
    requires spec[i].field == FieldSpec(Unset, false) && HasKey(post, spec[i].name)
    ensures StepField(spec[i], post, Acc(map[], Names(spec)[..i], [])) == Acc(map[], Names(spec)[..i] + [spec[i].name], [])
  {
    var names := Names(spec);
    assert spec[i].name !in names[..i] by {
      forall j | 0 <= j < i ensures names[..i][j] != spec[i].name {
        assert names[j] == spec[j].name;
      }
    }
  }

  /** Every key of the payload is named by a reading of the project table. */
  lemma ProjectPayloadKnown(spec: seq<Entry>, post: seq<Field>)
    requires |spec| == 4 && forall i :: 0 <= i < 4 ==> spec[i].name == ProjectDataInitFields[i].name
    requires post == ProjectPayload
    ensures ExtraKeys(spec, post) == []
  {
    assert Names(spec) == ["project_id", "title", "developer", "engine"];
    var p1 := post[1..];
    var p2 := p1[1..];
    var p3 := p2[1..];
    assert p3[1..] == [];
    ExtraCons(spec, post);
    ExtraCons(spec, p1);
    ExtraCons(spec, p2);
    ExtraCons(spec, p3);
  }

  lemma ProjectPayloadLookups(post: seq<Field>)
    requires post == ProjectPayload
    ensures Lookup(post, "project_id") == Some(Str("TestGame"))
    ensures Lookup(post, "title") == Some(Str("Test"))
    ensures Lookup(post, "developer") == Some(Str("Test"))
    ensures Lookup(post, "engine") == Some(Str("Ren'Py"))
  {
    var p1 := post[1..];
    var p2 := p1[1..];
    var p3 := p2[1..];
    assert p3 == [Field("engine", Str("Ren'Py"))];
    assert "title"[0] != "project_id"[0];
    assert "developer"[0] != "project_id"[0] && "developer"[0] != "title"[0];
    assert "engine"[0] != "project_id"[0] && "engine"[0] != "title"[0] && "engine"[0] != "developer"[0];
  }

  /** The field loop over a four-entry specification, once no key is extra, is four steps. */
  lemma CheckFour(spec: seq<Entry>, post: seq<Field>, a0: Acc, a1: Acc, a2: Acc, a3: Acc, a4: Acc)
    requires |spec| == 4 && ExtraKeys(spec, post) == [] && a0 == Acc(map[], [], [])
    requires StepField(spec[0], post, a0) == a1 && StepField(spec[1], post, a1) == a2
    requires StepField(spec[2], post, a2) == a3 && StepField(spec[3], post, a3) == a4
    ensures Validate(spec, post) == Checked(a4.accepted, a4.errors, a4.missing)
  {
    assert spec[0..] == spec;
    CheckFrom(spec, post, 0, a0, a1);
    CheckFrom(spec, post, 1, a1, a2);
    CheckFrom(spec, post, 2, a2, a3);
    CheckFrom(spec, post, 3, a3, a4);
    assert spec[4..] == [];
  }

  /**
   * Were `validateBody` handed the bare game creation table, a well-formed
   * creation payload would be rejected field by field.  No visible caller
   * does so: game creation reaches `addGameId` without the validator.
   */
  lemma InitPayloadRejectedAsWritten()
    ensures Validate(AsRead(GameDataInitFields), Field2("platform", Str("Windows"), "display_size", Str("(1920*1080)")))
         == Checked(map[], ["platform", "display_size"], [])
  {
    var post := Field2("platform", Str("Windows"), "display_size", Str("(1920*1080)"));
    BareSpecs();
    var spec := AsRead(GameDataInitFields);
    assert Names(spec) == ["platform", "display_size"];
    assert ExtraKeys(spec, post) == [];
    CheckTwo(spec[0], spec[1], post, Acc(map[], [], []));
  }

  // ---------------------------------------------------------------------------
  // The intended reading
  // ---------------------------------------------------------------------------

  /** The same payload is accepted unchanged under the intended reading. */
  lemma InitPayloadAccepted()
    ensures Validate(FromTable(GameDataInitFields, true), Field2("platform", Str("Windows"), "display_size", Str("(1920*1080)")))
         == Checked(map["platform" := Str("Windows"), "display_size" := Str("(1920*1080)")], [], [])
  {
    var post := Field2("platform", Str("Windows"), "display_size", Str("(1920*1080)"));
    var a1 := Acc(map["platform" := Str("Windows")], [], []);
    var a2 := Acc(map["platform" := Str("Windows"), "display_size" := Str("(1920*1080)")], [], []);
    IntendedSpecs();
    InitNoExtra(post);
    assert Lookup(post, "platform") == Some(Str("Windows"));
    assert Lookup(post, "display_size") == Some(Str("(1920*1080)"));
    InitStep(InitSpec[0], post, Acc(map[], [], []), Str("Windows"));
    InitStep(InitSpec[1], post, a1, Str("(1920*1080)"));
    ValidateTwo(InitSpec, post, a1, a2);
  }

  /**
   * A creation payload without `display_size` reports it missing, as
   * test/game_data.test.js lines 224-237 expect of the intended validator.
   */
  lemma InitPayloadMissingDisplaySize()
    ensures Validate(FromTable(GameDataInitFields, true), [Field("platform", Str("Windows"))])
         == Checked(map["platform" := Str("Windows")], [], ["display_size"])
  {
    IntendedSpecs();
    MissingDisplaySizeSteps([Field("platform", Str("Windows"))]);
  }

  lemma MissingDisplaySizeSteps(post: seq<Field>)
    requires post == [Field("platform", Str("Windows"))]
    ensures Validate(InitSpec, post) == Checked(map["platform" := Str("Windows")], [], ["display_size"])
  {
    var a1 := Acc(map["platform" := Str("Windows")], [], []);
    PlatformOnly();
    InitStep(InitSpec[0], post, Acc(map[], [], []), Str("Windows"));
    MissingStep(InitSpec[1], post, a1);
    ValidateTwo(InitSpec, post, a1, a1.(missing := ["display_size"]));
  }

  /** A required field the input lacks is reported missing. */
  lemma MissingStep(e: Entry, post: seq<Field>, acc: Acc)
    requires Lookup(post, e.name) == None && e.field.required
    ensures StepField(e, post, acc) == acc.(missing := acc.missing + [e.name])
  {
  }

  lemma PlatformOnly()
    ensures ExtraKeys(InitSpec, [Field("platform", Str("Windows"))]) == []
    ensures Lookup([Field("platform", Str("Windows"))], "platform") == Some(Str("Windows"))
    ensures Lookup([Field("platform", Str("Windows"))], "display_size") == None
  {
    InitNoExtra([Field("platform", Str("Windows"))]);
  }

  /** An unknown key is reported alone, as test/game_data.test.js lines 239-254 expect of the intended validator. */
  lemma InitPayloadExtraKey()
    ensures Validate(FromTable(GameDataInitFields, true),
                     [Field("platform", Str("Windows")), Field("display_size", Str("(1920*1080)")), Field("random", Num(1234))])
         == Extra(["random"])
  {
    var post := [Field("platform", Str("Windows")), Field("display_size", Str("(1920*1080)")), Field("random", Num(1234))];
    IntendedSpecs();
    RandomExtra(post);
  }

  lemma RandomExtra(post: seq<Field>)
    requires post == [Field("platform", Str("Windows")), Field("display_size", Str("(1920*1080)")), Field("random", Num(1234))]
    ensures ExtraKeys(InitSpec, post) == ["random"]
  {
    var names := Names(InitSpec);
    assert names == ["platform", "display_size"];
    var p1 := post[1..];
    var p2 := p1[1..];
    assert p2 == [Field("random", Num(1234))] && p2[1..] == [];
    assert "random"[0] != names[0][0] && "random"[0] != names[1][0];
    ExtraCons(InitSpec, post);
    ExtraCons(InitSpec, p1);
    ExtraCons(InitSpec, p2);
  }

  /** The unknown-key filter, one input member at a time. */
  lemma ExtraCons(spec: seq<Entry>, post: seq<Field>)
    requires post != []
    ensures ExtraKeys(spec, post) == (if post[0].key in Names(spec) then [] else [post[0].key]) + ExtraKeys(spec, post[1..])
  {
  }

  /** A number for `display_size` is a type error, as test/game_data.test.js lines 256-270 expect of the intended validator. */
  lemma InitPayloadWrongType()
    ensures Validate(FromTable(GameDataInitFields, true), Field2("platform", Str("Windows"), "display_size", Num(1920)))
         == Checked(map["platform" := Str("Windows")], ["display_size"], [])
  {
    var post := Field2("platform", Str("Windows"), "display_size", Num(1920));
    var a1 := Acc(map["platform" := Str("Windows")], [], []);
    IntendedSpecs();
    InitNoExtra(post);
    assert Lookup(post, "platform") == Some(Str("Windows"));
    assert Lookup(post, "display_size") == Some(Num(1920));
    InitStep(InitSpec[0], post, Acc(map[], [], []), Str("Windows"));
    InitStep(InitSpec[1], post, a1, Num(1920));
    assert AddError([], "display_size") == ["display_size"];
    ValidateTwo(InitSpec, post, a1, a1.(errors := ["display_size"]));
  }

  /** Validation against a two-entry specification, once no key is extra, is the two field steps. */
  lemma ValidateTwo(spec: seq<Entry>, post: seq<Field>, a1: Acc, a2: Acc)
    requires |spec| == 2 && ExtraKeys(spec, post) == []
    requires StepField(spec[0], post, Acc(map[], [], [])) == a1 && StepField(spec[1], post, a1) == a2
    ensures Validate(spec, post) == Checked(a2.accepted, a2.errors, a2.missing)
  {
    assert spec == [spec[0], spec[1]];
    CheckTwo(spec[0], spec[1], post, Acc(map[], [], []));
  }

  /** A payload naming only the two creation fields has no extra key. */
  lemma {:induction false} InitNoExtra(post: seq<Field>)
    requires forall i :: 0 <= i < |post| ==> post[i].key == "platform" || post[i].key == "display_size"
    ensures ExtraKeys(InitSpec, post) == []
  {
    if post != [] {
      assert forall i :: 0 <= i < |post| - 1 ==> post[1..][i] == post[i + 1];
      InitNoExtra(post[1..]);
      assert Names(InitSpec) == ["platform", "display_size"];
      assert post[0].key in Names(InitSpec);
    }
  }

  /** One pass of the loop for a present required string field. */
  lemma InitStep(e: Entry, post: seq<Field>, acc: Acc, v: Value)
    requires e.field == FieldSpec(Listed([KString]), true) && Lookup(post, e.name) == Some(v)
    ensures StepField(e, post, acc)
         == if v.Str? then acc.(accepted := acc.accepted[e.name := v]) else acc.(errors := AddError(acc.errors, e.name))
  {
    JudgeString(v);
  }

  /**
   * The creation table admits exactly `platform` and `display_size`, both
   * strings: a payload passes with no error and nothing missing exactly when
   * it holds both, as strings, and nothing else.
   */
  lemma InitFieldsAdmitExactly(post: seq<Field>)
    ensures var r := Validate(FromTable(GameDataInitFields, true), post);
      (r.Checked? && r.errors == [] && r.missing == []) <==>
      && (forall i :: 0 <= i < |post| ==> post[i].key in ["platform", "display_size"])
      && HoldsString(post, "platform")
      && HoldsString(post, "display_size")
  {
    IntendedSpecs();
    InitKeysOnly(post);
    if Validate(InitSpec, post).Checked? {
      InitFieldsClean(post);
    }
  }

  predicate HoldsString(post: seq<Field>, k: string) {
    Lookup(post, k).Some? && Lookup(post, k).value.Str?
  }

  lemma InitKeysOnly(post: seq<Field>)
    ensures Validate(InitSpec, post).Checked? <==> forall i :: 0 <= i < |post| ==> post[i].key in ["platform", "display_size"]
  {
    assert Names(InitSpec) == ["platform", "display_size"];
    ValidateExtra(InitSpec, post);
  }

  lemma InitFieldsClean(post: seq<Field>)
    requires Validate(InitSpec, post).Checked?
    ensures var r := Validate(InitSpec, post);
      (r.errors == [] && r.missing == []) <==> HoldsString(post, "platform") && HoldsString(post, "display_size")
  {
    var r := Validate(InitSpec, post);
    StringFieldPlaced(post, 0);
    StringFieldPlaced(post, 1);
    ValidateShape(InitSpec, post);
    assert Names(InitSpec) == ["platform", "display_size"];
    if r.errors != [] {
      assert r.errors[0] in r.errors;
    }
    if r.missing != [] {
      assert r.missing[0] in r.missing;
    }
  }

  /** A creation field is accepted when the input holds a string under its name, rejected on any other value, missing when absent. */
  lemma StringFieldPlaced(post: seq<Field>, i: nat)
    requires i < 2
    requires Validate(InitSpec, post).Checked?
    ensures var r := Validate(InitSpec, post);
      var k := InitSpec[i].name;
      match Lookup(post, k)
      case Some(v) => if v.Str? then Placed(r.accepted, r.errors, r.missing, k, Accepted(v)) else Placed(r.accepted, r.errors, r.missing, k, Rejected)
      case None => Placed(r.accepted, r.errors, r.missing, k, Missing)
  {
    ValidatePlacement(InitSpec, post, i);
    var found := Lookup(post, InitSpec[i].name);
    if found.Some? { JudgeString(found.value); }
  }

  /** The update table admits a number or an array for `sessions_length` (its fourth field), and nothing else. */
  lemma UpdatableSessionsLengthKinds(v: Value)
    ensures Judge(UpdatableSpec[3].field.types, v) == Accept <==> v.Num? || v.Arr?
  {
    var ks := [KNumber, KArray];
    if v.Num? { assert ListedMatch(ks[0], v); }
    if v.Arr? { assert ListedMatch(ks[1], v); }
  }

  /**
   * The other four update fields, in table order `play_time`,
   * `multiple_ids`, `sessions` and (fifth) `increment`: numbers for the
   * first and third, booleans for the second and fifth.
   */
  lemma UpdatableScalarKinds(v: Value)
    ensures Judge(UpdatableSpec[0].field.types, v) == Accept <==> v.Num?
    ensures Judge(UpdatableSpec[1].field.types, v) == Accept <==> v.Bool?
    ensures Judge(UpdatableSpec[2].field.types, v) == Accept <==> v.Num?
    ensures Judge(UpdatableSpec[4].field.types, v) == Accept <==> v.Bool?
  {
    JudgeOne(KNumber, v);
    JudgeOne(KBoolean, v);
    if !v.Num? { assert TypeOf(v)[0] != KindName(KNumber)[0]; }
    if !v.Bool? { assert TypeOf(v)[0] != KindName(KBoolean)[0]; }
  }

  /**
   * `sessions` sent as a string is a type error while `sessions_length`
   * passes, as test/game_data.test.js lines 274-288 expect of the intended
   * validator.
   */
  lemma UpdatableSessionsAsString()
    ensures Validate(FromTable(GameDataUpdatableFields, false), SessionsPayload)
         == Checked(map["sessions_length" := SessionsPayload[1].value], ["sessions"], [])
  {
    IntendedSpecs();
    SessionsNoExtra();
    SessionsPayloadSteps();
  }

  lemma SessionsNoExtra()
    ensures ExtraKeys(UpdatableSpec, SessionsPayload) == []
  {
    var names := Names(UpdatableSpec);
    assert names[2] == "sessions" && names[3] == "sessions_length";
    var p1 := SessionsPayload[1..];
    assert p1[1..] == [];
    ExtraCons(UpdatableSpec, SessionsPayload);
    ExtraCons(UpdatableSpec, p1);
  }

  const SessionsPayload: seq<Field> :=
    Field2("sessions", Str("4"), "sessions_length", Arr([Num(1222), Num(465), Num(48464), Num(556)]))

  lemma CheckCons(e: Entry, rest: seq<Entry>, post: seq<Field>, acc: Acc)
    ensures CheckFields([e] + rest, post, acc) == CheckFields(rest, post, StepField(e, post, acc))
  {
    assert ([e] + rest)[1..] == rest;
  }

  lemma SessionsPayloadSteps()
    ensures CheckFields(UpdatableSpec, SessionsPayload, Acc(map[], [], []))
         == Acc(map["sessions_length" := SessionsPayload[1].value], ["sessions"], [])
  {
    var s0 := Acc(map[], [], []);
    var s3 := Acc(map[], ["sessions"], []);
    var s4 := Acc(map["sessions_length" := SessionsPayload[1].value], ["sessions"], []);
    SessionsAbsentSteps(s0, s4);
    SessionsPresentSteps();
    CheckFive(UpdatableSpec, SessionsPayload, s0, s0, s0, s3, s4, s4);
  }

  /** The three fields the payload leaves out are optional, so they change nothing. */
  lemma SessionsAbsentSteps(a: Acc, b: Acc)
    ensures StepField(UpdatableSpec[0], SessionsPayload, a) == a
    ensures StepField(UpdatableSpec[1], SessionsPayload, a) == a
    ensures StepField(UpdatableSpec[4], SessionsPayload, b) == b
  {
    assert Lookup(SessionsPayload, "play_time") == None;
    assert Lookup(SessionsPayload, "multiple_ids") == None;
    assert Lookup(SessionsPayload, "increment") == None;
  }

  /** The string `sessions` is an error; the array `sessions_length` is accepted. */
  lemma SessionsPresentSteps()
    ensures StepField(UpdatableSpec[2], SessionsPayload, Acc(map[], [], [])) == Acc(map[], ["sessions"], [])
    ensures StepField(UpdatableSpec[3], SessionsPayload, Acc(map[], ["sessions"], []))
         == Acc(map["sessions_length" := SessionsPayload[1].value], ["sessions"], [])
  {
    JudgeOne(KNumber, Str("4"));
    assert TypeOf(Str("4"))[0] != KindName(KNumber)[0];
    UpdatableSessionsLengthKinds(SessionsPayload[1].value);
    assert Lookup(SessionsPayload, "sessions") == Some(Str("4"));
    assert Lookup(SessionsPayload, "sessions_length") == Some(SessionsPayload[1].value);
  }

  /** The field loop over a five-entry specification is five steps. */
  lemma CheckFive(spec: seq<Entry>, post: seq<Field>, a0: Acc, a1: Acc, a2: Acc, a3: Acc, a4: Acc, a5: Acc)
    requires |spec| == 5
    requires StepField(spec[0], post, a0) == a1 && StepField(spec[1], post, a1) == a2
    requires StepField(spec[2], post, a2) == a3 && StepField(spec[3], post, a3) == a4
    requires StepField(spec[4], post, a4) == a5
    ensures CheckFields(spec, post, a0) == a5
  {
    assert spec[0..] == spec;
    CheckFrom(spec, post, 0, a0, a1);
    CheckFrom(spec, post, 1, a1, a2);
    CheckFrom(spec, post, 2, a2, a3);
    CheckFrom(spec, post, 3, a3, a4);
    CheckFrom(spec, post, 4, a4, a5);
    assert spec[5..] == [];
  }

  /** One step of the field loop, from position `i` of the specification. */
  lemma CheckFrom(spec: seq<Entry>, post: seq<Field>, i: nat, a: Acc, b: Acc)
    requires i < |spec| && StepField(spec[i], post, a) == b
    ensures CheckFields(spec[i..], post, a) == CheckFields(spec[i + 1..], post, b)
  {
    assert spec[i..][1..] == spec[i + 1..];
  }

  /**
   * The end table wants a string for `ending` and the type name `"object"`
   * for the four data fields, which `typeof` also gives arrays and `null`.
   */
  lemma EndFieldsKinds(v: Value)
    ensures Judge(Listed(EndGameDataFields[1].kinds), v) == Accept <==> v.Str?
    ensures forall i :: 4 <= i < 8 ==> (Judge(Listed(EndGameDataFields[i].kinds), v) == Accept <==> v.Obj? || v.Arr? || v.Null?)
  {
    JudgeString(v);
    JudgeOne(KObject, v);
  }

  /** Every project field, in both project tables, admits exactly the strings. */
  lemma ProjectFieldsAreStrings(v: Value)
    ensures forall i :: 0 <= i < |ProjectDataInitFields| ==> (Judge(Listed(ProjectDataInitFields[i].kinds), v) == Accept <==> v.Str?)
    ensures forall i :: 0 <= i < |ProjectUpdatableFields| ==> (Judge(Listed(ProjectUpdatableFields[i].kinds), v) == Accept <==> v.Str?)
  {
    JudgeString(v);
  }
}
