/**
 * The game-instance update engine of api/models/game_data.model.js, as
 * specification functions.  Each update reads one stored instance, computes
 * either a changed copy, a rejection with the source's message, or a runtime
 * fault (a `TypeError` the source catches as an internal error), and then
 * settles: a rejection or fault writes nothing, a change to a finished
 * instance (one with an end date) is written to a fresh instance forked from
 * it, and a change to an open instance is written in place.
 *
 * Where the source has a defect, the affected definition takes a `Reading`:
 * `AsWritten` follows the code, `Intended` the evident intent; the store
 * uses `Intended`.
 */
module GameData {
  import opened Json

  type Id = nat

  datatype Doc = Doc(
    projectId: string,
    platform: string,
    displaySize: string,
    country: string,
    startDate: int,
    endDate: Option<int>,
    parentDoc: Option<Id>,
    playTime: Option<int>,
    sessions: int,
    sessionsLength: seq<int>,
    multipleIds: bool,
    filledForm: bool,
    ending: Option<string>,
    formData: Option<Value>,
    relationshipData: seq<Field>,
    choiceData: seq<Field>,
    playData: seq<Field>,
    endData: Option<Value>)

  datatype Created = Created(id: Id, projectId: string)

  /** The `{ type, message, data }` objects the engine returns. */
  datatype Outcome =
    | Success(message: string, created: Option<Created>)
    | Failure(message: string)
    | Error
  {
    function Message(): string {
      match this
      case Success(m, _) => m
      case Failure(m) => m
      case Error => InternalError
    }
  }

  const InternalError := "Internal Server Error. Contact administrator."
  const ForkedMessage := "A new game Instance was successfully created from the existing one."
  const CreatedMessage := "Game Instance was successfully created."
  const LengthMismatch := "Key and data length do not match."

  function UpdatedMessage(id: Id): string { NatText(id) + " Game Instance has been updated." }
  function NotFoundMessage(id: Id): string { NatText(id) + " could not be found in our records." }

  datatype Reading = AsWritten | Intended

  /** What one update decides about the instance it read. */
  datatype Effect = Changed(doc: Doc) | Rejected(message: string) | Fault

  datatype Transition = Transition(docs: map<Id, Doc>, next: Id, outcome: Outcome)

  // ---------------------------------------------------------------------------
  // Store shape
  // ---------------------------------------------------------------------------

  /** Relationship values are numbers: the writers modelled here check them. */
  ghost predicate AllNumbers(fs: seq<Field>) {
    forall k :: Lookup(fs, k).Some? ==> Lookup(fs, k).value.Num?
  }

  /** Choice values are strings: the writers modelled here check them. */
  ghost predicate AllStrings(fs: seq<Field>) {
    forall k :: Lookup(fs, k).Some? ==> Lookup(fs, k).value.Str?
  }

  ghost predicate DocOk(d: Doc) {
    AllNumbers(d.relationshipData) && AllStrings(d.choiceData)
  }

  /**
   * Every id is below the fresh-id counter, every instance is well formed,
   * and every parent link names an older instance that is itself a root:
   * forks of forks point at the original, so lineage stays one level deep.
   */
  ghost predicate StoreOk(docs: map<Id, Doc>, next: Id) {
    forall id :: id in docs ==>
      && id < next
      && DocOk(docs[id])
      && (docs[id].parentDoc.Some? ==>
            var p := docs[id].parentDoc.value;
            p in docs && p < id && docs[p].parentDoc.None?)
  }

  /** An update never touches what identifies an instance or records its end. */
  predicate SameInstance(d: Doc, e: Doc) {
    && e.projectId == d.projectId && e.platform == d.platform
    && e.displaySize == d.displaySize && e.country == d.country
    && e.startDate == d.startDate && e.endDate == d.endDate
    && e.parentDoc == d.parentDoc && e.ending == d.ending
    && e.endData == d.endData && e.filledForm == d.filledForm
    && e.formData == d.formData
  }

  /** The copy a finished instance is forked into (its `toObject()` minus `_id`, `end_date`, `ending`, `end_data`). */
  function ForkOf(d: Doc, id: Id): (f: Doc)
    ensures f.endDate.None? && f.ending.None? && f.endData.None? && f.multipleIds
    ensures f.parentDoc == if d.parentDoc.None? then Some(id) else d.parentDoc
    ensures f.(endDate := d.endDate, ending := d.ending, endData := d.endData,
               multipleIds := d.multipleIds, parentDoc := d.parentDoc) == d
  {
    d.(multipleIds := true, endDate := None, ending := None, endData := None,
       parentDoc := if d.parentDoc.None? then Some(id) else d.parentDoc)
  }

  /** Writes the effect of an update on instance `id` (lines 381-403 and their three copies). */
  function Settle(docs: map<Id, Doc>, next: Id, id: Id, eff: Effect): Transition
    requires id in docs
  {
    match eff
    case Rejected(m) => Transition(docs, next, Failure(m))
    case Fault => Transition(docs, next, Error)
    case Changed(d) =>
      if d.endDate.Some? then
        var f := ForkOf(d, id);
        Transition(docs[next := f], next + 1, Success(ForkedMessage, Some(Created(next, f.projectId))))
      else
        Transition(docs[id := d], next, Success(UpdatedMessage(id), None))
  }

  /**
   * The answer for an id that `findById` does not find.  As written the
   * failure message reads `doc._id` of `null`, which throws, so an unknown id
   * surfaces as an internal error.
   */
  function Missing(docs: map<Id, Doc>, next: Id, id: Id, reading: Reading): Transition {
    match reading
    case AsWritten => Transition(docs, next, Error)
    case Intended => Transition(docs, next, Failure(NotFoundMessage(id)))
  }

  /** A new game instance with the schema's defaults (`addGameId`, lines 290-293). */
  function NewInstance(projectId: string, platform: string, displaySize: string, country: string, now: int): Doc {
    Doc(projectId, platform, displaySize, country, now, None, None, None, 0, [], false, false, None, None, [], [], [], None)
  }

  const MissingParameters := "Required parameters are not provided for creating a new game instance."

  /** The schema's `required` validator refuses an empty string. */
  predicate CreationComplete(projectId: string, platform: string, displaySize: string, country: string) {
    projectId != "" && platform != "" && displaySize != "" && country != ""
  }

  // ---------------------------------------------------------------------------
  // updateGameFields
  // ---------------------------------------------------------------------------

  /** `sessions_length` as the validator admits it: an array, or a single number. */
  datatype SessionsLength = Many(items: seq<Value>) | One(n: int)

  /** The validated update object: each member present or absent. */
  datatype SelfUpdate = SelfUpdate(
    sessions: Option<int>,
    playTime: Option<int>,
    multipleIds: Option<bool>,
    sessionsLength: Option<SessionsLength>)

  predicate AllPositive(s: seq<int>) {
    forall i :: 0 <= i < |s| ==> s[i] > 0
  }

  /** `every(i => typeof i === "number" && i > 0)`. */
  predicate PositiveNumbers(vs: seq<Value>) {
    forall i :: 0 <= i < |vs| ==> vs[i].Num? && vs[i].n > 0
  }

  function Ints(vs: seq<Value>): (r: seq<int>)
    requires forall i :: 0 <= i < |vs| ==> vs[i].Num?
    ensures |r| == |vs| && forall i :: 0 <= i < |vs| ==> r[i] == vs[i].n
  {
    if vs == [] then [] else [vs[0].n] + Ints(vs[1..])
  }

  /**
   * The new `play_time`.  As written the test is inverted: a request without
   * `play_time` erases the stored value, one with it leaves it unchanged.
   */
  function NewPlayTime(stored: Option<int>, given: Option<int>, reading: Reading): Option<int> {
    match reading
    case AsWritten => if given.None? then None else stored
    case Intended => if given.Some? then given else stored
  }

  /** `updateGameFields(gameId, updatedObj, increment)`, lines 317-379. */
  function SelfEffect(d: Doc, u: SelfUpdate, inc: bool, reading: Reading): Effect {
    if u.sessions.Some? && u.sessions.value <= 0 then Rejected("Sessions can only be a positive number.")
    else LengthsEffect(d, SelfFields(d, u, inc, reading), u, inc)
  }

  /** Sessions, play time and the multiple-ids flag, lines 317-340. */
  function SelfFields(d: Doc, u: SelfUpdate, inc: bool, reading: Reading): Doc {
    var sessions := if u.sessions.None? then d.sessions else if inc then d.sessions + u.sessions.value else u.sessions.value;
    d.(sessions := sessions,
       playTime := NewPlayTime(d.playTime, u.playTime, reading),
       multipleIds := if u.multipleIds.Some? then true else d.multipleIds)
  }

  /** The session lengths, lines 342-379, applied to the copy `d1` of `d`. */
  function LengthsEffect(d: Doc, d1: Doc, u: SelfUpdate, inc: bool): Effect {
    match u.sessionsLength
    case None => Changed(d1)
    case Some(Many(items)) =>
      if !AllPositive(d.sessionsLength) || !PositiveNumbers(items) then
        Rejected("Session length values can only be positive numbers.")
      else if inc then
        if u.sessions != Some(|items|) then Rejected("Number of sessions and session length should be same.")
        else Changed(d1.(sessionsLength := d.sessionsLength + Ints(items)))
      else Changed(d1.(sessionsLength := Ints(items)))
    case Some(One(n)) =>
      if n <= 0 then Rejected("Session length values can only be a positive number.")
      else if inc then
        if u.sessions != Some(1) then Rejected("Number of sessions and sessions length should be same.")
        else Changed(d1.(sessionsLength := d.sessionsLength + [n]))
      else Changed(d1.(sessionsLength := [n]))
  }

  function UpdateGameFieldsStep(docs: map<Id, Doc>, next: Id, id: Id, u: SelfUpdate, inc: bool, reading: Reading): Transition {
    if id !in docs then Missing(docs, next, id, reading)
    else Settle(docs, next, id, SelfEffect(docs[id], u, inc, reading))
  }

  // ---------------------------------------------------------------------------
  // Parallel key/data arrays
  // ---------------------------------------------------------------------------

  predicate AllText(vs: seq<Value>) {
    forall i :: 0 <= i < |vs| ==> vs[i].Str?
  }

  predicate AllNum(vs: seq<Value>) {
    forall i :: 0 <= i < |vs| ==> vs[i].Num?
  }

  /** `data.length`: arrays and strings have one; numbers, booleans and objects give `undefined`. */
  function DataLength(data: Value): Option<nat> {
    match data
    case Arr(vs) => Some(|vs|)
    case Str(s) => Some(|s|)
    case _ => None
  }

  /** `data[i]` for an array or a string (a one-character string). */
  function Elements(data: Value): (es: seq<Value>)
    ensures DataLength(data).Some? ==> |es| == DataLength(data).value
  {
    match data
    case Arr(vs) => vs
    case Str(s) => seq(|s|, i requires 0 <= i < |s| => Str([s[i]]))
    case _ => []
  }

  /**
   * The checks shared by the three array forms: `data.length` throws on
   * `null`, differs from the key count on anything without a matching
   * length, and the keys must all be strings.
   */
  function ArrayGuard(ks: seq<Value>, data: Value, keyMessage: string): Option<Effect> {
    if data.Null? then Some(Fault)
    else if DataLength(data) != Some(|ks|) then Some(Rejected(LengthMismatch))
    else if !AllText(ks) then Some(Rejected(keyMessage))
    else None
  }

  // ---------------------------------------------------------------------------
  // updateRelationshipData
  // ---------------------------------------------------------------------------

  /** One assignment of the relationship loop: added when present and incrementing, written otherwise. */
  function RelWrite(rel: seq<Field>, k: string, n: int, inc: bool): (r: seq<Field>)
    requires AllNumbers(rel)
    ensures AllNumbers(r)
  {
    if HasKey(rel, k) && inc then Put(rel, k, Num(Lookup(rel, k).value.n + n))
    else Put(rel, k, Num(n))
  }

  function RelFold(rel: seq<Field>, ks: seq<Value>, vs: seq<Value>, inc: bool): (r: seq<Field>)
    requires AllNumbers(rel) && |ks| == |vs| && AllText(ks) && AllNum(vs)
    ensures AllNumbers(r)
    decreases |ks|
  {
    if ks == [] then rel else RelFold(RelWrite(rel, ks[0].s, vs[0].n, inc), ks[1..], vs[1..], inc)
  }

  /** `updateRelationshipData(gameId, key, data, increment)`, lines 407-455. */
  function RelationshipEffect(d: Doc, keys: Value, data: Value, inc: bool): Effect
    requires DocOk(d)
  {
    var rel := d.relationshipData;
    match keys
    case Arr(ks) =>
      var guard := ArrayGuard(ks, data, "Relationship key can only be strings.");
      if guard.Some? then guard.value
      else if data.Str? then Fault
      else if !AllNum(data.items) then Rejected("Relationship value can only be numbers.")
      else Changed(d.(relationshipData := RelFold(rel, ks, data.items, inc)))
    case Str(k) =>
      if !data.Num? then Rejected("Relationship value can only be a number.")
      else Changed(d.(relationshipData := RelWrite(rel, k, data.n, inc)))
    case _ => Rejected("Relationship key can only be a string.")
  }

  function RelationshipStep(docs: map<Id, Doc>, next: Id, id: Id, keys: Value, data: Value, inc: bool, reading: Reading): Transition
    requires StoreOk(docs, next)
  {
    if id !in docs then Missing(docs, next, id, reading)
    else Settle(docs, next, id, RelationshipEffect(docs[id], keys, data, inc))
  }

  // ---------------------------------------------------------------------------
  // updateChoiceData
  // ---------------------------------------------------------------------------

  function ChoiceFold(cd: seq<Field>, ks: seq<Value>, vs: seq<Value>): (r: seq<Field>)
    requires |ks| == |vs| && AllText(ks) && AllText(vs) && AllStrings(cd)
    ensures AllStrings(r)
    decreases |ks|
  {
    if ks == [] then cd else ChoiceFold(Put(cd, ks[0].s, vs[0]), ks[1..], vs[1..])
  }

  /**
   * `updateChoiceData(gameId, key, data)`, lines 483-523.  As written the
   * single-key form tests `!key != "string"`, a boolean against a string,
   * which always holds: every single-key call is rejected.
   */
  function ChoiceEffect(d: Doc, keys: Value, data: Value, reading: Reading): Effect
    requires DocOk(d)
  {
    var cd := d.choiceData;
    match keys
    case Arr(ks) =>
      var guard := ArrayGuard(ks, data, "Choice keys can only be strings.");
      if guard.Some? then guard.value
      else if data.Str? then Fault
      else if !AllText(data.items) then Rejected("Choice values can only be strings.")
      else Changed(d.(choiceData := ChoiceFold(cd, ks, data.items)))
    case Str(k) =>
      if reading == AsWritten then Rejected("Choice key can only be a string.")
      else if !data.Str? then Rejected("Choice text can only be a string.")
      else Changed(d.(choiceData := Put(cd, k, data)))
    case _ => Rejected("Choice key can only be a string.")
  }

  function ChoiceStep(docs: map<Id, Doc>, next: Id, id: Id, keys: Value, data: Value, reading: Reading): Transition
    requires StoreOk(docs, next)
  {
    if id !in docs then Missing(docs, next, id, reading)
    else Settle(docs, next, id, ChoiceEffect(docs[id], keys, data, reading))
  }

  // ---------------------------------------------------------------------------
  // updatePlayData
  // ---------------------------------------------------------------------------

  /**
   * `for (const key in incoming) target[key] = incoming[key]` in strict
   * mode: nothing happens for an empty `incoming`; an object takes the
   * members with later ones winning; an array is left as stored (see README);
   * a primitive or `null` target throws.
   */
  function MergeInto(target: Value, incoming: seq<Field>): Option<Value> {
    if incoming == [] then Some(target)
    else
      match target
      case Obj(gs) => Some(Obj(PutAll(gs, incoming)))
      case Arr(_) => Some(target)
      case _ => None
  }

  /** The value stored under a key when the element is not a plain object: as written the whole data array. */
  function Stored(elem: Value, whole: Value, reading: Reading): Value {
    if reading == AsWritten then whole else elem
  }

  /** One pass of the play loop (lines 567-582); `None` is a thrown `TypeError`. */
  function PlayWrite(pd: seq<Field>, k: string, elem: Value, whole: Value, reading: Reading): Option<seq<Field>> {
    var pd1 := if HasKey(pd, k) then pd else Put(pd, k, Obj([]));
    match elem
    case Null => None
    case Obj(fs) =>
      (match MergeInto(Lookup(pd1, k).value, fs)
       case Some(t) => Some(Put(pd1, k, t))
       case None => None)
    case _ => Some(Put(pd1, k, Stored(elem, whole, reading)))
  }

  function PlayFold(pd: seq<Field>, ks: seq<Value>, es: seq<Value>, whole: Value, reading: Reading): Option<seq<Field>>
    requires |ks| == |es| && AllText(ks)
    decreases |ks|
  {
    if ks == [] then Some(pd)
    else
      match PlayWrite(pd, ks[0].s, es[0], whole, reading)
      case Some(pd') => PlayFold(pd', ks[1..], es[1..], whole, reading)
      case None => None
  }

  /** `updatePlayData(gameId, key, data)`, lines 551-609. */
  function PlayEffect(d: Doc, keys: Value, data: Value, reading: Reading): Effect {
    var pd := d.playData;
    match keys
    case Arr(ks) =>
      var guard := ArrayGuard(ks, data, "Play keys can only be strings.");
      if guard.Some? then guard.value
      else
        (match PlayFold(pd, ks, Elements(data), data, reading)
         case Some(pd') => Changed(d.(playData := pd'))
         case None => Fault)
    case Str(k) =>
      (match data
       case Null => Fault
       case Obj(fs) =>
         if fs == [] then Changed(d)
         else
           var target := if HasKey(pd, k) then Lookup(pd, k).value else Obj([]);
           (match MergeInto(target, fs)
            case Some(t) => Changed(d.(playData := Put(pd, k, t)))
            case None => Fault)
       case _ => Changed(d.(playData := Put(pd, k, data))))
    case _ => Rejected("Play key can only be a string.")
  }

  function PlayStep(docs: map<Id, Doc>, next: Id, id: Id, keys: Value, data: Value, reading: Reading): Transition {
    if id !in docs then Missing(docs, next, id, reading)
    else Settle(docs, next, id, PlayEffect(docs[id], keys, data, reading))
  }
}
