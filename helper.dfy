/**
 * The request helpers of api/utils/helper.js: the field validator
 * `validateBody`, the small predicates `contains` and `isEmpty`, and the
 * key/value sanitiser `sanitise`.
 */
module Helper {
  import opened Json

  // ---------------------------------------------------------------------------
  // Field specifications
  // ---------------------------------------------------------------------------

  /** The type names a field specification may list. */
  datatype Kind = KString | KNumber | KBoolean | KObject | KArray

  function KindName(k: Kind): string {
    match k
    case KString => "string"
    case KNumber => "number"
    case KBoolean => "boolean"
    case KObject => "object"
    case KArray => "array"
  }

  /**
   * What `allowedKeys[key].type` holds: an array of type names, a single
   * type name, or nothing at all (`undefined`).
   */
  datatype TypeSpec = Listed(kinds: seq<Kind>) | Single(kind: Kind) | Unset

  /**
   * One field of a specification.  `required` records whether the entry has
   * a `required` property at all: the validator compares it with
   * `undefined`, so any defined value, even `false`, makes the field required.
   */
  datatype FieldSpec = FieldSpec(types: TypeSpec, required: bool)

  datatype Entry = Entry(name: string, field: FieldSpec)

  /**
   * The object `validateBody` returns: either only the unknown input keys,
   * or the accepted fields together with the `error` and `missing` lists
   * (an empty list stands for a property that was never set).
   */
  datatype Validation =
    | Extra(keys: seq<string>)
    | Checked(accepted: map<string, Value>, errors: seq<string>, missing: seq<string>)

  /** The partial result that the field loop builds up. */
  datatype Acc = Acc(accepted: map<string, Value>, errors: seq<string>, missing: seq<string>)

  function Names(spec: seq<Entry>): (r: seq<string>)
    ensures |r| == |spec|
    ensures forall i :: 0 <= i < |spec| ==> r[i] == spec[i].name
  {
    if spec == [] then [] else [spec[0].name] + Names(spec[1..])
  }

  predicate DistinctNames(spec: seq<Entry>) {
    forall i, j :: 0 <= i < j < |spec| ==> spec[i].name != spec[j].name
  }

  /** A listed type admits a value: `"array"` only arrays, every other name by `typeof`. */
  predicate ListedMatch(k: Kind, v: Value) {
    (k == KArray && v.Arr?) || TypeOf(v) == KindName(k)
  }

  /** A single type name is compared with `typeof` alone, so `"array"` admits nothing. */
  predicate SingleMatch(k: Kind, v: Value) {
    TypeOf(v) == KindName(k)
  }

  datatype Verdict = Accept | Reject | Skip

  /**
   * The decision for a present field.  A listed field is accepted when any
   * of its types admits the value and rejected only when all were tried; an
   * empty list is never tried, so the field is neither accepted nor rejected.
   * An entry without `type` compares `typeof` with `undefined`, which never holds.
   */
  function Judge(t: TypeSpec, v: Value): Verdict {
    match t
    case Listed(ks) =>
      if exists j :: 0 <= j < |ks| && ListedMatch(ks[j], v) then Accept
      else if ks == [] then Skip
      else Reject
    case Single(k) => if SingleMatch(k, v) then Accept else Reject
    case Unset => Reject
  }

  /** Records a rejected key once (the `includes` test before the `push`). */
  function AddError(errors: seq<string>, k: string): (r: seq<string>)
    ensures k in r
    ensures forall x :: x in r <==> x in errors || x == k
  {
    if k in errors then errors else errors + [k]
  }

  /** One pass of the loop over the specification, for entry `e`. */
  function StepField(e: Entry, post: seq<Field>, acc: Acc): Acc {
    match Lookup(post, e.name)
    case Some(v) =>
      (match Judge(e.field.types, v)
       case Accept => acc.(accepted := acc.accepted[e.name := v])
       case Reject => acc.(errors := AddError(acc.errors, e.name))
       case Skip => acc)
    case None =>
      if e.field.required then acc.(missing := acc.missing + [e.name]) else acc
  }

  function CheckFields(spec: seq<Entry>, post: seq<Field>, acc: Acc): Acc
    decreases |spec|
  {
    if spec == [] then acc else CheckFields(spec[1..], post, StepField(spec[0], post, acc))
  }

  /** The input keys that the specification does not name, in input order. */
  function ExtraKeys(spec: seq<Entry>, post: seq<Field>): (r: seq<string>)
    ensures |r| <= |post|
    ensures forall k :: k in r <==> HasKey(post, k) && k !in Names(spec)
  {
    if post == [] then []
    else
      var rest := ExtraKeys(spec, post[1..]);
      HasKeyCons(post, post[0].key);
      assert forall k :: HasKey(post, k) <==> post[0].key == k || HasKey(post[1..], k) by {
        forall k ensures HasKey(post, k) <==> post[0].key == k || HasKey(post[1..], k) {
          HasKeyCons(post, k);
        }
      }
      if post[0].key in Names(spec) then rest else [post[0].key] + rest
  }

  /** `validateBody(allowedKeys, postData)`, helper.js lines 3-74. */
  function Validate(spec: seq<Entry>, post: seq<Field>): Validation {
    var extra := ExtraKeys(spec, post);
    if |extra| != 0 then Extra(extra)
    else
      var acc := CheckFields(spec, post, Acc(map[], [], []));
      Checked(acc.accepted, acc.errors, acc.missing)
  }

  /**
   * The validator as the source writes it: the unknown-key filter, then a
   * loop over the specification, in order.
   */
  method ValidateBody(spec: seq<Entry>, post: seq<Field>) returns (r: Validation)
    ensures r == Validate(spec, post)
  {
    var extra := ExtraKeys(spec, post);
    if |extra| != 0 {
      return Extra(extra);
    }
    var acc := Acc(map[], [], []);
    for i := 0 to |spec|
      invariant CheckFields(spec[i..], post, acc) == CheckFields(spec, post, Acc(map[], [], []))
    {
      assert spec[i..][1..] == spec[i + 1..];
      acc := CheckField(spec[i], post, acc);
    }
    r := Checked(acc.accepted, acc.errors, acc.missing);
  }

  /**
   * The body of the loop over the specification (helper.js lines 13-70): an
   * inner loop over the listed types that stops at the first match and
   * records an error only once the last type has failed.
   */
  method CheckField(e: Entry, post: seq<Field>, acc0: Acc) returns (acc: Acc)
    ensures acc == StepField(e, post, acc0)
  {
    acc := acc0;
    var key := e.name;
    var found := Lookup(post, key);
    if found.Some? {
      var v := found.value;
      match e.field.types
      case Listed(types) =>
        var j := 0;
        while j < |types|
          invariant 0 <= j <= |types|
          invariant forall j' :: 0 <= j' < j ==> !ListedMatch(types[j'], v)
          invariant acc == if 0 < j == |types| then acc0.(errors := AddError(acc0.errors, key)) else acc0
        {
          if types[j] == KArray && v.Arr? {
            acc := acc.(accepted := acc.accepted[key := v]);
            break;
          } else if TypeOf(v) == KindName(types[j]) {
            acc := acc.(accepted := acc.accepted[key := v]);
            break;
          } else {
            if j + 1 < |types| {
              j := j + 1;
              continue;
            }
            acc := acc.(errors := AddError(acc.errors, key));
            j := j + 1;
          }
        }
      case Single(kind) =>
        if TypeOf(v) == KindName(kind) {
          acc := acc.(accepted := acc.accepted[key := v]);
        } else {
          acc := acc.(errors := AddError(acc.errors, key));
        }
      case Unset =>
        acc := acc.(errors := AddError(acc.errors, key));
    } else {
      if !e.field.required {
        return;
      }
      acc := acc.(missing := acc.missing + [key]);
    }
  }

  // ---------------------------------------------------------------------------
  // What the validator guarantees
  // ---------------------------------------------------------------------------

  /** Where a key ends up in a result. */
  datatype Status = Accepted(value: Value) | Rejected | Missing | Nowhere

  predicate Placed(accepted: map<string, Value>, errors: seq<string>, missing: seq<string>, k: string, s: Status) {
    match s
    case Accepted(v) => k in accepted && accepted[k] == v && k !in errors && k !in missing
    case Rejected => k !in accepted && k in errors && k !in missing
    case Missing => k !in accepted && k !in errors && k in missing
    case Nowhere => k !in accepted && k !in errors && k !in missing
  }

  /** Where a specification field belongs, given what the input holds under its name. */
  function Expected(f: FieldSpec, found: Option<Value>): Status {
    match found
    case Some(v) =>
      (match Judge(f.types, v)
       case Accept => Accepted(v)
       case Reject => Rejected
       case Skip => Nowhere)
    case None => if f.required then Missing else Nowhere
  }

  /** The names of the required fields the input lacks, in specification order. */
  function MissingOf(spec: seq<Entry>, post: seq<Field>): seq<string> {
    if spec == [] then []
    else if !HasKey(post, spec[0].name) && spec[0].field.required then [spec[0].name] + MissingOf(spec[1..], post)
    else MissingOf(spec[1..], post)
  }

  predicate NoDuplicates(s: seq<string>) {
    forall i, j :: 0 <= i < j < |s| ==> s[i] != s[j]
  }

  lemma {:induction false} CheckMissing(spec: seq<Entry>, post: seq<Field>, acc: Acc)
    ensures CheckFields(spec, post, acc).missing == acc.missing + MissingOf(spec, post)
    decreases |spec|
  {
    if spec != [] {
      CheckMissing(spec[1..], post, StepField(spec[0], post, acc));
    }
  }

  lemma {:induction false} CheckErrorsNoDuplicates(spec: seq<Entry>, post: seq<Field>, acc: Acc)
    requires NoDuplicates(acc.errors)
    ensures NoDuplicates(CheckFields(spec, post, acc).errors)
    decreases |spec|
  {
    if spec != [] {
      var next := StepField(spec[0], post, acc);
      assert NoDuplicates(next.errors);
      CheckErrorsNoDuplicates(spec[1..], post, next);
    }
  }

  /** A key the specification does not name keeps whatever place it had. */
  lemma {:induction false} CheckKeeps(spec: seq<Entry>, post: seq<Field>, acc: Acc, k: string, s: Status)
    requires k !in Names(spec)
    requires Placed(acc.accepted, acc.errors, acc.missing, k, s)
    ensures var r := CheckFields(spec, post, acc); Placed(r.accepted, r.errors, r.missing, k, s)
    decreases |spec|
  {
    if spec != [] {
      assert Names(spec)[0] == spec[0].name;
      assert Names(spec[1..]) == Names(spec)[1..];
      CheckKeeps(spec[1..], post, StepField(spec[0], post, acc), k, s);
    }
  }

  /** A specification field, not yet placed, ends up where `Expected` says. */
  lemma {:induction false} CheckDecides(spec: seq<Entry>, post: seq<Field>, acc: Acc, i: nat)
    requires DistinctNames(spec)
    requires i < |spec|
    requires Placed(acc.accepted, acc.errors, acc.missing, spec[i].name, Nowhere)
    ensures var r := CheckFields(spec, post, acc);
      Placed(r.accepted, r.errors, r.missing, spec[i].name, Expected(spec[i].field, Lookup(post, spec[i].name)))
    decreases |spec|
  {
    var next := StepField(spec[0], post, acc);
    var k := spec[i].name;
    if i == 0 {
      assert Placed(next.accepted, next.errors, next.missing, k, Expected(spec[0].field, Lookup(post, k)));
      assert forall j :: 0 <= j < |spec| - 1 ==> Names(spec[1..])[j] == spec[j + 1].name;
      assert k !in Names(spec[1..]);
      CheckKeeps(spec[1..], post, next, k, Expected(spec[0].field, Lookup(post, k)));
    } else {
      assert spec[0].name != k;
      assert Placed(next.accepted, next.errors, next.missing, k, Nowhere);
      assert spec[1..][i - 1] == spec[i];
      CheckDecides(spec[1..], post, next, i - 1);
    }
  }

  /**
   * Unknown input keys short-circuit: the result is `extra` exactly when some
   * input key is not in the specification, and it lists exactly those keys.
   */
  lemma ValidateExtra(spec: seq<Entry>, post: seq<Field>)
    ensures Validate(spec, post).Extra? <==> exists i :: 0 <= i < |post| && post[i].key !in Names(spec)
    ensures Validate(spec, post).Extra? ==>
      forall k :: k in Validate(spec, post).keys <==> HasKey(post, k) && k !in Names(spec)
  {
    var extra := ExtraKeys(spec, post);
    if exists i :: 0 <= i < |post| && post[i].key !in Names(spec) {
      var i :| 0 <= i < |post| && post[i].key !in Names(spec);
      assert HasKey(post, post[i].key);
      assert post[i].key in extra;
    }
    if |extra| != 0 {
      assert extra[0] in extra;
      assert HasKey(post, extra[0]);
    }
  }

  /**
   * Every specification field is placed as `Expected` says: a present field
   * in exactly one of accepted (with its value unchanged) or `error`, a
   * missing one in `missing` exactly when it is required.
   */
  lemma ValidatePlacement(spec: seq<Entry>, post: seq<Field>, i: nat)
    requires DistinctNames(spec)
    requires i < |spec|
    requires Validate(spec, post).Checked?
    ensures var r := Validate(spec, post);
      Placed(r.accepted, r.errors, r.missing, spec[i].name, Expected(spec[i].field, Lookup(post, spec[i].name)))
  {
    CheckDecides(spec, post, Acc(map[], [], []), i);
  }

  /** Nothing but specification fields appear in a checked result, `missing` keeps specification order, and `error` names each key once. */
  lemma ValidateShape(spec: seq<Entry>, post: seq<Field>)
    requires Validate(spec, post).Checked?
    ensures var r := Validate(spec, post);
      && (forall k :: k in r.accepted || k in r.errors || k in r.missing ==> k in Names(spec))
      && r.missing == MissingOf(spec, post)
      && NoDuplicates(r.errors)
  {
    var r := Validate(spec, post);
    forall k | k in r.accepted || k in r.errors || k in r.missing
      ensures k in Names(spec)
    {
      if k !in Names(spec) {
        CheckKeeps(spec, post, Acc(map[], [], []), k, Nowhere);
      }
    }
    CheckMissing(spec, post, Acc(map[], [], []));
    CheckErrorsNoDuplicates(spec, post, Acc(map[], [], []));
  }

  // ---------------------------------------------------------------------------
  // contains and isEmpty
  // ---------------------------------------------------------------------------

  /** `contains(parentArray, childArray)`: `childArray.every(x => parentArray.includes(x))`. */
  function Contains<T(==)>(parent: seq<T>, child: seq<T>): (r: bool)
    ensures r <==> forall x :: x in child ==> x in parent
  {
    if child == [] then true
    else
      child[0] in parent && Contains(parent, child[1..])
  }

  /** `isEmpty(obj)`: `Object.keys(obj).length === 0`, for an object. */
  function IsEmpty(fs: seq<Field>): (r: bool)
    ensures r <==> forall k :: !HasKey(fs, k)
  {
    assert fs != [] ==> HasKey(fs, fs[0].key);
    |KeysOf(fs)| == 0
  }

  // ---------------------------------------------------------------------------
  // sanitise
  // ---------------------------------------------------------------------------

  /** `s.charAt(0) == "$" ? s.slice(1) : s`. */
  function StripDollar(s: string): (r: string)
    ensures s == (if StartsWithDollar(s) then "$" else "") + r
  {
    if StartsWithDollar(s) then s[1..] else s
  }

  /**
   * What the sanitiser makes of one member value: a string loses one leading
   * `$`, numbers and booleans pass, an object or array is sanitised in turn,
   * and `null` fails (`typeof null` is `"object"`, and the recursive call then
   * reads `null.constructor`).  This is the intended recursion; the source
   * calls an undefined name instead (see `SanitiseAsWritten`).
   */
  function SanitisedValue(v: Value): Option<Value>
    decreases v
  {
    match v
    case Str(s) => Some(Str(StripDollar(s)))
    case Num(_) => Some(v)
    case Bool(_) => Some(v)
    case Null => None
    case Obj(fs) =>
      (match SanitisedFields(fs, [])
       case Some(gs) => Some(Obj(gs))
       case None => None)
    case Arr(vs) =>
      (match SanitisedItems(vs, [])
       case Some(ws) => Some(Arr(ws))
       case None => None)
  }

  /** The object loop: each key loses one leading `$` and is assigned with `_temp[key] = value`. */
  function SanitisedFields(fs: seq<Field>, acc: seq<Field>): Option<seq<Field>>
    decreases fs
  {
    if fs == [] then Some(acc)
    else
      match SanitisedValue(fs[0].value)
      case None => None
      case Some(w) => SanitisedFields(fs[1..], Put(acc, StripDollar(fs[0].key), w))
  }

  /** The array loop: each element is pushed in order. */
  function SanitisedItems(vs: seq<Value>, acc: seq<Value>): Option<seq<Value>>
    decreases vs
  {
    if vs == [] then Some(acc)
    else
      match SanitisedValue(vs[0])
      case None => None
      case Some(w) => SanitisedItems(vs[1..], acc + [w])
  }

  /** `sanitise(obj)` for an object or an array, with the intended recursion into nested values. */
  method Sanitise(obj: Value) returns (r: Option<Value>)
    requires obj.Obj? || obj.Arr?
    ensures r == SanitisedValue(obj)
    decreases obj, 0
  {
    if obj.Arr? {
      var items := obj.items;
      var temp: seq<Value> := [];
      for i := 0 to |items|
        invariant SanitisedItems(items[i..], temp) == SanitisedItems(items, [])
      {
        assert items[i..][1..] == items[i + 1..];
        assert items[i] in items;
        var value := SanitiseMember(items[i]);
        if value.None? {
          return None;
        }
        temp := temp + [value.value];
      }
      r := Some(Arr(temp));
    } else {
      var fields := obj.fields;
      var temp: seq<Field> := [];
      for i := 0 to |fields|
        invariant SanitisedFields(fields[i..], temp) == SanitisedFields(fields, [])
      {
        assert fields[i..][1..] == fields[i + 1..];
        assert fields[i] in fields;
        var key := StripDollar(fields[i].key);
        var value := SanitiseMember(fields[i].value);
        if value.None? {
          return None;
        }
        temp := Put(temp, key, value.value);
      }
      r := Some(Obj(temp));
    }
  }

  /** The loop body's treatment of one value (helper.js lines 127-131). */
  method SanitiseMember(value: Value) returns (r: Option<Value>)
    ensures r == SanitisedValue(value)
    decreases value, 1
  {
    match value
    case Str(s) => r := Some(Str(StripDollar(s)));
    case Obj(_) => r := Sanitise(value);
    case Arr(_) => r := Sanitise(value);
    case Null => r := None;
    case _ => r := Some(value);
  }

  /** A value holds a `null` somewhere inside it. */
  predicate HasNull(v: Value)
    decreases v
  {
    match v
    case Null => true
    case Obj(fs) => exists i :: 0 <= i < |fs| && HasNull(fs[i].value)
    case Arr(vs) => exists i :: 0 <= i < |vs| && HasNull(vs[i])
    case _ => false
  }

  /** The intended sanitiser fails exactly on values that contain a `null`. */
  lemma {:induction false} SanitiseFailsOnlyOnNull(v: Value)
    ensures SanitisedValue(v).None? <==> HasNull(v)
    decreases v, 1
  {
    match v
    case Obj(fs) => SanitisedFieldsFail(fs, []);
    case Arr(vs) => SanitisedItemsFail(vs, []);
    case _ =>
  }

  lemma {:induction false} SanitisedFieldsFail(fs: seq<Field>, acc: seq<Field>)
    ensures SanitisedFields(fs, acc).None? <==> exists i :: 0 <= i < |fs| && HasNull(fs[i].value)
    decreases fs, 0
  {
    if fs != [] {
      SanitiseFailsOnlyOnNull(fs[0].value);
      var k := StripDollar(fs[0].key);
      if SanitisedValue(fs[0].value).Some? {
        SanitisedFieldsFail(fs[1..], Put(acc, k, SanitisedValue(fs[0].value).value));
        assert forall i :: 1 <= i < |fs| ==> fs[i] == fs[1..][i - 1];
      }
    }
  }

  lemma {:induction false} SanitisedItemsFail(vs: seq<Value>, acc: seq<Value>)
    ensures SanitisedItems(vs, acc).None? <==> exists i :: 0 <= i < |vs| && HasNull(vs[i])
    decreases vs, 0
  {
    if vs != [] {
      SanitiseFailsOnlyOnNull(vs[0]);
      if SanitisedValue(vs[0]).Some? {
        SanitisedItemsFail(vs[1..], acc + [SanitisedValue(vs[0]).value]);
        assert forall i :: 1 <= i < |vs| ==> vs[i] == vs[1..][i - 1];
      }
    }
  }

  /** An array keeps its length and order; each element is sanitised in place. */
  lemma {:induction false} SanitisedItemsShape(vs: seq<Value>, acc: seq<Value>)
    requires SanitisedItems(vs, acc).Some?
    ensures var ws := SanitisedItems(vs, acc).value;
      && |ws| == |acc| + |vs|
      && ws[..|acc|] == acc
      && forall i :: 0 <= i < |vs| ==> SanitisedValue(vs[i]) == Some(ws[|acc| + i])
    decreases vs
  {
    if vs != [] {
      var w := SanitisedValue(vs[0]).value;
      var acc' := acc + [w];
      assert SanitisedItems(vs, acc) == SanitisedItems(vs[1..], acc');
      SanitisedItemsShape(vs[1..], acc');
      var ws := SanitisedItems(vs, acc).value;
      var tail := vs[1..];
      assert ws == SanitisedItems(tail, acc').value;
      assert ws[..|acc'|] == acc';
      assert ws[..|acc|] == acc'[..|acc|];
      forall i | 0 <= i < |vs| ensures SanitisedValue(vs[i]) == Some(ws[|acc| + i]) {
        if i == 0 {
          assert ws[|acc|] == ws[..|acc'|][|acc|];
        } else {
          var j := i - 1;
          assert SanitisedValue(tail[j]) == Some(ws[|acc'| + j]);
          assert tail[j] == vs[i];
        }
      }
    }
  }

  /** The keys of the sanitised members are the input keys less one leading `$` each. */
  predicate StrippedDistinct(fs: seq<Field>) {
    forall i, j :: 0 <= i < j < |fs| ==> StripDollar(fs[i].key) != StripDollar(fs[j].key)
  }

  /** `gs` is `fs` member by member, with one leading `$` stripped from each key and each value sanitised. */
  predicate Pairwise(fs: seq<Field>, gs: seq<Field>) {
    && |gs| == |fs|
    && forall i {:trigger SanitisedMember(fs[i], gs[i])} :: 0 <= i < |fs| ==> SanitisedMember(fs[i], gs[i])
  }

  predicate SanitisedMember(f: Field, g: Field) {
    g.key == StripDollar(f.key) && SanitisedValue(f.value) == Some(g.value)
  }

  /** No stripped key of `fs` is already a key of `acc`. */
  predicate FreshKeys(fs: seq<Field>, acc: seq<Field>) {
    forall i {:trigger fs[i]} :: 0 <= i < |fs| ==> !HasKey(acc, StripDollar(fs[i].key))
  }

  lemma {:induction false} SanitisedFieldsAppend(fs: seq<Field>, acc: seq<Field>) returns (gs: seq<Field>)
    requires StrippedDistinct(fs)
    requires FreshKeys(fs, acc)
    requires SanitisedFields(fs, acc).Some?
    ensures SanitisedFields(fs, acc) == Some(acc + gs) && Pairwise(fs, gs)
    decreases fs
  {
    if fs == [] {
      gs := [];
      assert acc + gs == acc;
    } else {
      var k := StripDollar(fs[0].key);
      var w := SanitisedValue(fs[0].value).value;
      assert SanitisedFields(fs, acc) == SanitisedFields(fs[1..], Put(acc, k, w));
      assert !HasKey(acc, StripDollar(fs[0].key));
      PutNew(acc, k, w);
      StillFresh(fs, acc, w);
      var rest := SanitisedFieldsAppend(fs[1..], acc + [Field(k, w)]);
      gs := [Field(k, w)] + rest;
      AppendAssoc(acc, Field(k, w), rest);
      PairwiseCons(fs, Field(k, w), rest);
    }
  }

  lemma PairwiseCons(fs: seq<Field>, g: Field, rest: seq<Field>)
    requires fs != [] && SanitisedMember(fs[0], g) && Pairwise(fs[1..], rest)
    ensures Pairwise(fs, [g] + rest)
  {
    var gs := [g] + rest;
    forall i | 0 <= i < |fs| ensures SanitisedMember(fs[i], gs[i]) {
      if i > 0 {
        assert fs[i] == fs[1..][i - 1] && gs[i] == rest[i - 1];
        assert SanitisedMember(fs[1..][i - 1], rest[i - 1]);
      }
    }
  }

  lemma AppendAssoc(a: seq<Field>, x: Field, b: seq<Field>)
    ensures (a + [x]) + b == a + ([x] + b)
  {
  }

  /** After the first member is appended, the remaining stripped keys are still new, and still distinct. */
  lemma StillFresh(fs: seq<Field>, acc: seq<Field>, w: Value)
    requires fs != []
    requires StrippedDistinct(fs)
    requires FreshKeys(fs, acc)
    ensures StrippedDistinct(fs[1..])
    ensures FreshKeys(fs[1..], acc + [Field(StripDollar(fs[0].key), w)])
  {
    var k := StripDollar(fs[0].key);
    assert forall i :: 0 <= i < |fs| - 1 ==> fs[1..][i] == fs[i + 1];
    forall i | 0 <= i < |fs[1..]| ensures !HasKey(acc + [Field(k, w)], StripDollar(fs[1..][i].key)) {
      var k' := StripDollar(fs[1..][i].key);
      HasKeyAppend(acc, [Field(k, w)], k');
      assert [Field(k, w)][0].key == k;
    }
  }

  /**
   * When no two keys collide once stripped, a sanitised object keeps its
   * members in insertion order: each key loses one leading `$` and each value
   * is sanitised in turn.  JavaScript would list a stripped key that is an
   * array index first.
   */
  lemma SanitiseObjectShape(fs: seq<Field>)
    requires StrippedDistinct(fs)
    requires SanitisedValue(Obj(fs)).Some?
    ensures SanitisedValue(Obj(fs)).value.Obj?
    ensures Pairwise(fs, SanitisedValue(Obj(fs)).value.fields)
  {
    var gs := SanitisedFieldsAppend(fs, []);
    assert [] + gs == gs;
  }

  /** Assigning a key the object does not have appends it. */
  lemma {:induction false} PutNew(fs: seq<Field>, k: string, v: Value)
    requires !HasKey(fs, k)
    ensures Put(fs, k, v) == fs + [Field(k, v)]
  {
    if fs == [] {
      assert Put(fs, k, v) == [Field(k, v)];
    } else {
      AbsentTail(fs, k);
      PutNew(fs[1..], k, v);
      PutPast(fs, k, v);
      ConsAppend(fs, Field(k, v));
    }
  }

  lemma AbsentTail(fs: seq<Field>, k: string)
    requires fs != [] && !HasKey(fs, k)
    ensures fs[0].key != k && !HasKey(fs[1..], k)
  {
    forall i | 0 <= i < |fs[1..]| ensures fs[1..][i].key != k {
      assert fs[1..][i] == fs[i + 1];
    }
  }

  /** Assigning a key the first member does not hold leaves that member in front. */
  lemma PutPast(fs: seq<Field>, k: string, v: Value)
    requires fs != [] && fs[0].key != k
    ensures Put(fs, k, v) == [fs[0]] + Put(fs[1..], k, v)
  {
  }

  lemma ConsAppend(fs: seq<Field>, x: Field)
    requires fs != []
    ensures [fs[0]] + (fs[1..] + [x]) == fs + [x]
  {
    assert [fs[0]] + fs[1..] == fs;
  }

  /**
   * The sanitiser as written: helper.js line 130 recurses through the
   * undefined name `helper_functions`, so any member whose `typeof` is
   * `"object"` (an object, an array or `null`) throws a ReferenceError.
   * Inputs without such members take the same path as the corrected version.
   */
  function SanitiseAsWritten(obj: Value): (r: Option<Value>)
    requires obj.Obj? || obj.Arr?
    ensures r.Some? ==> r == SanitisedValue(obj)
  {
    var nested := match obj
      case Obj(fs) => exists i :: 0 <= i < |fs| && TypeOf(fs[i].value) == "object"
      case Arr(vs) => exists i :: 0 <= i < |vs| && TypeOf(vs[i]) == "object";
    if nested then None else SanitisedValue(obj)
  }

  /** `{"a": {"$b": "$c"}}`: the source throws, the intended sanitiser gives `{"a": {"b": "c"}}`. */
  lemma SanitiseNestedDiscrepancy()
    ensures SanitiseAsWritten(Obj([Field("a", Obj([Field("$b", Str("$c"))]))])) == None
    ensures SanitisedValue(Obj([Field("a", Obj([Field("$b", Str("$c"))]))])) == Some(Obj([Field("a", Obj([Field("b", Str("c"))]))]))
  {
    var inner := [Field("$b", Str("$c"))];
    assert TypeOf(Obj(inner)) == "object";
    assert SanitisedFields(inner, []) == Some([Field("b", Str("c"))]);
  }
}
