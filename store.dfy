/**
 * The game-data collection and the four update operations of
 * api/models/game_data.model.js, written the way the source works: read the
 * stored instance, change a working copy step by step (returning early on
 * a rejection), then save it or fork it.  Each operation is proved to do
 * exactly what the matching step function of `GameData` specifies, under
 * the intended reading.
 */
module GameStore {
  import opened Json
  import opened GameData
  import opened GameDataFacts

  class Store {
    /** The collection, by `_id`. */
    var docs: map<Id, Doc>
    /** The id the next created instance gets. */
    var nextId: Id

    ghost predicate Valid()
      reads this
    {
      StoreOk(docs, nextId)
    }

    constructor ()
      ensures Valid() && docs == map[] && nextId == 0
    {
      docs := map[];
      nextId := 0;
    }

    /** `addGameId`, lines 289-293 and 298-299: a new root instance under a fresh id. */
    method AddGameId(projectId: string, platform: string, displaySize: string, country: string, now: int) returns (o: Outcome)
      requires Valid()
      modifies this
      ensures Valid()
      ensures if CreationComplete(projectId, platform, displaySize, country) then
          && docs == old(docs)[old(nextId) := NewInstance(projectId, platform, displaySize, country, now)]
          && nextId == old(nextId) + 1
          && o == Success(CreatedMessage, Some(Created(old(nextId), projectId)))
        else
          docs == old(docs) && nextId == old(nextId) && o == Failure(MissingParameters)
    {
      if !CreationComplete(projectId, platform, displaySize, country) {
        return Failure(MissingParameters);
      }
      var d := NewInstance(projectId, platform, displaySize, country, now);
      docs := docs[nextId := d];
      o := Success(CreatedMessage, Some(Created(nextId, projectId)));
      nextId := nextId + 1;
    }

    /** Saves or forks a changed copy, lines 381-403. */
    method Commit(id: Id, eff: Effect) returns (o: Outcome)
      requires Valid() && id in docs
      requires eff.Changed? ==> SameInstance(docs[id], eff.doc) && DocOk(eff.doc)
      modifies this
      ensures Valid()
      ensures Transition(docs, nextId, o) == Settle(old(docs), old(nextId), id, eff)
    {
      SettleKeepsStore(docs, nextId, id, eff);
      match eff
      case Rejected(m) => o := Failure(m);
      case Fault => o := Error;
      case Changed(d) =>
        if d.endDate.Some? {
          var f := d.(multipleIds := true, endDate := None, ending := None, endData := None);
          if f.parentDoc.None? {
            f := f.(parentDoc := Some(id));
          }
          docs := docs[nextId := f];
          o := Success(ForkedMessage, Some(Created(nextId, f.projectId)));
          nextId := nextId + 1;
        } else {
          docs := docs[id := d];
          o := Success(UpdatedMessage(id), None);
        }
    }

    /** `updateGameFields(gameId, updatedObj, increment)`, lines 309-405. */
    method UpdateGameFields(id: Id, u: SelfUpdate, inc: bool) returns (o: Outcome)
      requires Valid()
      modifies this
      ensures Valid()
      ensures Transition(docs, nextId, o) == UpdateGameFieldsStep(old(docs), old(nextId), id, u, inc, Intended)
    {
      if id !in docs {
        return Failure(NotFoundMessage(id));
      }
      var eff := SelfChange(docs[id], u, inc);
      SelfChangesOnlyItsFields(docs[id], u, inc, Intended);
      o := Commit(id, eff);
    }

    /** `updateRelationshipData(gameId, key, data, increment)`, lines 407-481. */
    method UpdateRelationshipData(id: Id, keys: Value, data: Value, inc: bool) returns (o: Outcome)
      requires Valid()
      modifies this
      ensures Valid()
      ensures Transition(docs, nextId, o) == RelationshipStep(old(docs), old(nextId), id, keys, data, inc, Intended)
    {
      if id !in docs {
        return Failure(NotFoundMessage(id));
      }
      var eff := RelationshipChange(docs[id], keys, data, inc);
      RelationshipKeepsDoc(docs[id], keys, data, inc);
      o := Commit(id, eff);
    }

    /** `updateChoiceData(gameId, key, data)`, lines 483-549, with the key test corrected. */
    method UpdateChoiceData(id: Id, keys: Value, data: Value) returns (o: Outcome)
      requires Valid()
      modifies this
      ensures Valid()
      ensures Transition(docs, nextId, o) == ChoiceStep(old(docs), old(nextId), id, keys, data, Intended)
    {
      if id !in docs {
        return Failure(NotFoundMessage(id));
      }
      var eff := ChoiceChange(docs[id], keys, data);
      ChoiceKeepsDoc(docs[id], keys, data, Intended);
      o := Commit(id, eff);
    }

    /** `updatePlayData(gameId, key, data)`, lines 551-635, storing the element itself. */
    method UpdatePlayData(id: Id, keys: Value, data: Value) returns (o: Outcome)
      requires Valid()
      modifies this
      ensures Valid()
      ensures Transition(docs, nextId, o) == PlayStep(old(docs), old(nextId), id, keys, data, Intended)
    {
      if id !in docs {
        return Failure(NotFoundMessage(id));
      }
      var eff := PlayChange(docs[id], keys, data);
      PlayKeepsDoc(docs[id], keys, data, Intended);
      o := Commit(id, eff);
    }
  }

  // ---------------------------------------------------------------------------
  // The working-copy updates
  // ---------------------------------------------------------------------------

  /** The body of `updateGameFields` on the fetched document, lines 317-379. */
  method SelfChange(d: Doc, u: SelfUpdate, inc: bool) returns (eff: Effect)
    ensures eff == SelfEffect(d, u, inc, Intended)
  {
    var doc := d;
    if u.sessions.Some? {
      if u.sessions.value <= 0 {
        return Rejected("Sessions can only be a positive number.");
      }
      if inc {
        doc := doc.(sessions := doc.sessions + u.sessions.value);
      } else {
        doc := doc.(sessions := u.sessions.value);
      }
    }
    if u.playTime.Some? {
      doc := doc.(playTime := u.playTime);
    }
    if u.multipleIds.Some? {
      doc := doc.(multipleIds := true);
    }
    assert doc == SelfFields(d, u, inc, Intended);
    eff := LengthsChange(d, doc, u, inc);
  }

  /** The session-length part of `updateGameFields`, lines 342-379. */
  method LengthsChange(d: Doc, d1: Doc, u: SelfUpdate, inc: bool) returns (eff: Effect)
    ensures eff == LengthsEffect(d, d1, u, inc)
  {
    var doc := d1;
    if u.sessionsLength.Some? {
      match u.sessionsLength.value
      case Many(items) =>
        if !AllPositive(d.sessionsLength) || !PositiveNumbers(items) {
          return Rejected("Session length values can only be positive numbers.");
        }
        if inc {
          if u.sessions != Some(|items|) {
            return Rejected("Number of sessions and session length should be same.");
          }
          doc := doc.(sessionsLength := d.sessionsLength + Ints(items));
        } else {
          doc := doc.(sessionsLength := Ints(items));
        }
      case One(n) =>
        if n <= 0 {
          return Rejected("Session length values can only be a positive number.");
        }
        if inc {
          if u.sessions != Some(1) {
            return Rejected("Number of sessions and sessions length should be same.");
          }
          doc := doc.(sessionsLength := d.sessionsLength + [n]);
        } else {
          doc := doc.(sessionsLength := [n]);
        }
    }
    return Changed(doc);
  }

  /** The relationship loop, lines 430-436. */
  method WriteRelationships(rel: seq<Field>, ks: seq<Value>, vs: seq<Value>, inc: bool) returns (r: seq<Field>)
    requires AllNumbers(rel) && |ks| == |vs| && AllText(ks) && AllNum(vs)
    ensures r == RelFold(rel, ks, vs, inc)
  {
    r := rel;
    var i := 0;
    while i < |ks|
      invariant 0 <= i <= |ks|
      invariant AllNumbers(r)
      invariant RelFold(r, ks[i..], vs[i..], inc) == RelFold(rel, ks, vs, inc)
    {
      assert ks[i..][1..] == ks[i + 1..] && vs[i..][1..] == vs[i + 1..];
      r := RelWrite(r, ks[i].s, vs[i].n, inc);
      i := i + 1;
    }
  }

  /** The body of `updateRelationshipData` on the fetched document, lines 415-452. */
  method RelationshipChange(d: Doc, keys: Value, data: Value, inc: bool) returns (eff: Effect)
    requires DocOk(d)
    ensures eff == RelationshipEffect(d, keys, data, inc)
  {
    match keys
    case Arr(ks) =>
      var guard := ArrayGuard(ks, data, "Relationship key can only be strings.");
      if guard.Some? {
        return guard.value;
      }
      if data.Str? {
        return Fault;
      }
      if !AllNum(data.items) {
        return Rejected("Relationship value can only be numbers.");
      }
      var rel := WriteRelationships(d.relationshipData, ks, data.items, inc);
      return Changed(d.(relationshipData := rel));
    case Str(k) =>
      if !data.Num? {
        return Rejected("Relationship value can only be a number.");
      }
      return Changed(d.(relationshipData := RelWrite(d.relationshipData, k, data.n, inc)));
    case _ =>
      return Rejected("Relationship key can only be a string.");
  }

  /** The choice loop, lines 505-507. */
  method WriteChoices(cd: seq<Field>, ks: seq<Value>, vs: seq<Value>) returns (r: seq<Field>)
    requires |ks| == |vs| && AllText(ks) && AllText(vs) && AllStrings(cd)
    ensures r == ChoiceFold(cd, ks, vs)
  {
    r := cd;
    var i := 0;
    while i < |ks|
      invariant 0 <= i <= |ks|
      invariant AllStrings(r)
      invariant ChoiceFold(r, ks[i..], vs[i..]) == ChoiceFold(cd, ks, vs)
    {
      assert ks[i..][1..] == ks[i + 1..] && vs[i..][1..] == vs[i + 1..];
      r := Put(r, ks[i].s, vs[i]);
      i := i + 1;
    }
  }

  /** The body of `updateChoiceData` on the fetched document, lines 491-520, with the key test corrected. */
  method ChoiceChange(d: Doc, keys: Value, data: Value) returns (eff: Effect)
    requires DocOk(d)
    ensures eff == ChoiceEffect(d, keys, data, Intended)
  {
    match keys
    case Arr(ks) =>
      var guard := ArrayGuard(ks, data, "Choice keys can only be strings.");
      if guard.Some? {
        return guard.value;
      }
      if data.Str? {
        return Fault;
      }
      if !AllText(data.items) {
        return Rejected("Choice values can only be strings.");
      }
      var cd := WriteChoices(d.choiceData, ks, data.items);
      return Changed(d.(choiceData := cd));
    case Str(k) =>
      if !data.Str? {
        return Rejected("Choice text can only be a string.");
      }
      return Changed(d.(choiceData := Put(d.choiceData, k, data)));
    case _ =>
      return Rejected("Choice key can only be a string.");
  }

  /** `for (const key in incoming) target[key] = incoming[key]`; `None` is a thrown `TypeError`. */
  method AssignMembers(target: Value, incoming: seq<Field>) returns (r: Option<Value>)
    ensures r == MergeInto(target, incoming)
  {
    if incoming == [] {
      return Some(target);
    }
    match target
    case Obj(gs) =>
      var acc := gs;
      var j := 0;
      while j < |incoming|
        invariant 0 <= j <= |incoming|
        invariant PutAll(acc, incoming[j..]) == PutAll(gs, incoming)
      {
        assert incoming[j..][1..] == incoming[j + 1..];
        acc := Put(acc, incoming[j].key, incoming[j].value);
        j := j + 1;
      }
      return Some(Obj(acc));
    case Arr(_) =>
      return Some(target);
    case _ =>
      return None;
  }

  /** One pass of the play loop, lines 568-581, storing a non-object element itself. */
  method WritePlay(pd: seq<Field>, k: string, elem: Value, whole: Value) returns (r: Option<seq<Field>>)
    ensures r == PlayWrite(pd, k, elem, whole, Intended)
  {
    var acc := pd;
    if !HasKey(acc, k) {
      acc := Put(acc, k, Obj([]));
    }
    if elem.Null? {
      return None;
    }
    if !elem.Obj? {
      return Some(Put(acc, k, elem));
    }
    var merged := AssignMembers(Lookup(acc, k).value, elem.fields);
    if merged.None? {
      return None;
    }
    return Some(Put(acc, k, merged.value));
  }

  /** The play loop, lines 567-582. */
  method WritePlays(pd: seq<Field>, ks: seq<Value>, es: seq<Value>, whole: Value) returns (r: Option<seq<Field>>)
    requires |ks| == |es| && AllText(ks)
    ensures r == PlayFold(pd, ks, es, whole, Intended)
  {
    var acc := pd;
    var i := 0;
    while i < |ks|
      invariant 0 <= i <= |ks|
      invariant PlayFold(acc, ks[i..], es[i..], whole, Intended) == PlayFold(pd, ks, es, whole, Intended)
    {
      assert ks[i..][1..] == ks[i + 1..] && es[i..][1..] == es[i + 1..];
      var step := WritePlay(acc, ks[i].s, es[i], whole);
      if step.None? {
        return None;
      }
      acc := step.value;
      i := i + 1;
    }
    return Some(acc);
  }

  /** The body of `updatePlayData` on the fetched document, lines 559-606. */
  method PlayChange(d: Doc, keys: Value, data: Value) returns (eff: Effect)
    ensures eff == PlayEffect(d, keys, data, Intended)
  {
    match keys
    case Arr(ks) =>
      var guard := ArrayGuard(ks, data, "Play keys can only be strings.");
      if guard.Some? {
        return guard.value;
      }
      var pd := WritePlays(d.playData, ks, Elements(data), data);
      if pd.None? {
        return Fault;
      }
      return Changed(d.(playData := pd.value));
    case Str(k) =>
      match data {
        case Null =>
          return Fault;
        case Obj(fs) =>
          if fs == [] {
            return Changed(d);
          }
          var target := if HasKey(d.playData, k) then Lookup(d.playData, k).value else Obj([]);
          var merged := AssignMembers(target, fs);
          if merged.None? {
            return Fault;
          }
          return Changed(d.(playData := Put(d.playData, k, merged.value)));
        case _ =>
          return Changed(d.(playData := Put(d.playData, k, data)));
      }
    case _ =>
      return Rejected("Play key can only be a string.");
  }
}
