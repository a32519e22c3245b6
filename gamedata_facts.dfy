/**
 * What the update engine guarantees: a failed update writes nothing, a
 * finished instance is never overwritten, a fork gets a fresh id and a root
 * parent, each update changes only the field it names, and the key/data
 * loops leave each key with the value the request evidently means.
 */
module GameDataFacts {
  import opened Json
  import opened GameData

  // ---------------------------------------------------------------------------
  // Settling an effect
  // ---------------------------------------------------------------------------

  /** Only a change is reported as success, and a rejection or a fault leaves the store as it was. */
  lemma SettleFailureWritesNothing(docs: map<Id, Doc>, next: Id, id: Id, eff: Effect)
    requires id in docs
    ensures var r := Settle(docs, next, id, eff);
      && (r.outcome.Success? <==> eff.Changed?)
      && (!eff.Changed? ==> r.docs == docs && r.next == next)
      && (eff.Rejected? ==> r.outcome == Failure(eff.message))
      && (eff.Fault? ==> r.outcome == Error)
  {
  }

  /**
   * A change to a finished instance leaves every stored instance as it was
   * and adds one open instance under the fresh id, reported in the outcome,
   * whose parent is a root.
   */
  lemma SettleFinishedForks(docs: map<Id, Doc>, next: Id, id: Id, eff: Effect)
    requires StoreOk(docs, next) && id in docs
    requires eff.Changed? && SameInstance(docs[id], eff.doc)
    requires docs[id].endDate.Some?
    ensures var r := Settle(docs, next, id, eff);
      && next !in docs
      && r.docs.Keys == docs.Keys + {next}
      && r.next == next + 1
      && (forall j :: j in docs ==> r.docs[j] == docs[j])
      && r.outcome == Success(ForkedMessage, Some(Created(next, docs[id].projectId)))
      && r.docs[next].endDate.None?
      && r.docs[next].parentDoc.Some?
      && var p := r.docs[next].parentDoc.value; p in docs && docs[p].parentDoc.None?
  {
    var d := docs[id];
    if d.parentDoc.Some? {
      assert d.parentDoc.value in docs && docs[d.parentDoc.value].parentDoc.None?;
    }
  }

  /** A change to an open instance replaces it in place and nothing else. */
  lemma SettleOpenInPlace(docs: map<Id, Doc>, next: Id, id: Id, eff: Effect)
    requires id in docs
    requires eff.Changed? && SameInstance(docs[id], eff.doc)
    requires docs[id].endDate.None?
    ensures var r := Settle(docs, next, id, eff);
      && r.docs.Keys == docs.Keys
      && r.next == next
      && r.docs[id] == eff.doc
      && (forall j :: j in docs && j != id ==> r.docs[j] == docs[j])
      && r.outcome == Success(UpdatedMessage(id), None)
  {
  }

  /** A finished instance is never overwritten by an update that keeps its end date. */
  lemma FinishedNeverOverwritten(docs: map<Id, Doc>, next: Id, id: Id, eff: Effect, j: Id)
    requires StoreOk(docs, next) && id in docs
    requires eff.Changed? ==> SameInstance(docs[id], eff.doc)
    requires j in docs && docs[j].endDate.Some?
    ensures var r := Settle(docs, next, id, eff); j in r.docs && r.docs[j] == docs[j]
  {
    if eff.Changed? && eff.doc.endDate.None? {
      assert j != id;
    }
  }

  /** Settling a well-formed change keeps the store well formed. */
  lemma SettleKeepsStore(docs: map<Id, Doc>, next: Id, id: Id, eff: Effect)
    requires StoreOk(docs, next) && id in docs
    requires eff.Changed? ==> SameInstance(docs[id], eff.doc) && DocOk(eff.doc)
    ensures var r := Settle(docs, next, id, eff); StoreOk(r.docs, r.next)
  {
    var r := Settle(docs, next, id, eff);
    if eff.Changed? {
      var d := eff.doc;
      if d.endDate.Some? {
        var f := ForkOf(d, id);
        assert DocOk(f) by {
          assert f.relationshipData == d.relationshipData && f.choiceData == d.choiceData;
        }
        forall j | j in r.docs
          ensures j < r.next && DocOk(r.docs[j])
          ensures r.docs[j].parentDoc.Some? ==>
            var p := r.docs[j].parentDoc.value; p in r.docs && p < j && r.docs[p].parentDoc.None?
        {
          if j == next {
            if d.parentDoc.None? {
              assert docs[id].parentDoc.None?;
            } else {
              assert d.parentDoc == docs[id].parentDoc;
            }
          }
        }
      } else {
        forall j | j in r.docs
          ensures j < r.next && DocOk(r.docs[j])
          ensures r.docs[j].parentDoc.Some? ==>
            var p := r.docs[j].parentDoc.value; p in r.docs && p < j && r.docs[p].parentDoc.None?
        {
          if r.docs[j].parentDoc.Some? {
            var p := r.docs[j].parentDoc.value;
            assert p in docs && docs[p].parentDoc.None?;
            if p == id { assert r.docs[p].parentDoc == docs[id].parentDoc; }
          }
        }
      }
    }
  }

  /**
   * An unknown id is an internal error as written, because the failure
   * message dereferences the `null` document; the intended reading reports it
   * as a failure naming the id.  Neither writes anything.
   */
  lemma UnknownIdAsWritten(docs: map<Id, Doc>, next: Id, id: Id, u: SelfUpdate, inc: bool)
    requires id !in docs
    ensures UpdateGameFieldsStep(docs, next, id, u, inc, AsWritten) == Transition(docs, next, Error)
  {
  }

  /** Under the intended reading every update answers an unknown id with a failure naming it and writes nothing. */
  lemma UnknownIdFails(docs: map<Id, Doc>, next: Id, id: Id, u: SelfUpdate, keys: Value, data: Value, inc: bool)
    requires StoreOk(docs, next) && id !in docs
    ensures var t := Transition(docs, next, Failure(NotFoundMessage(id)));
      && UpdateGameFieldsStep(docs, next, id, u, inc, Intended) == t
      && RelationshipStep(docs, next, id, keys, data, inc, Intended) == t
      && ChoiceStep(docs, next, id, keys, data, Intended) == t
      && PlayStep(docs, next, id, keys, data, Intended) == t
  {
  }

  /** Each update keeps the store well formed. */
  lemma SelfStepKeepsStore(docs: map<Id, Doc>, next: Id, id: Id, u: SelfUpdate, inc: bool, reading: Reading)
    requires StoreOk(docs, next)
    ensures var t := UpdateGameFieldsStep(docs, next, id, u, inc, reading); StoreOk(t.docs, t.next)
  {
    if id in docs {
      SelfChangesOnlyItsFields(docs[id], u, inc, reading);
      SettleKeepsStore(docs, next, id, SelfEffect(docs[id], u, inc, reading));
    }
  }

  lemma RelationshipStepKeepsStore(docs: map<Id, Doc>, next: Id, id: Id, keys: Value, data: Value, inc: bool, reading: Reading)
    requires StoreOk(docs, next)
    ensures var t := RelationshipStep(docs, next, id, keys, data, inc, reading); StoreOk(t.docs, t.next)
  {
    if id in docs {
      RelationshipKeepsDoc(docs[id], keys, data, inc);
      SettleKeepsStore(docs, next, id, RelationshipEffect(docs[id], keys, data, inc));
    }
  }

  lemma ChoiceStepKeepsStore(docs: map<Id, Doc>, next: Id, id: Id, keys: Value, data: Value, reading: Reading)
    requires StoreOk(docs, next)
    ensures var t := ChoiceStep(docs, next, id, keys, data, reading); StoreOk(t.docs, t.next)
  {
    if id in docs {
      ChoiceKeepsDoc(docs[id], keys, data, reading);
      SettleKeepsStore(docs, next, id, ChoiceEffect(docs[id], keys, data, reading));
    }
  }

  lemma PlayStepKeepsStore(docs: map<Id, Doc>, next: Id, id: Id, keys: Value, data: Value, reading: Reading)
    requires StoreOk(docs, next)
    ensures var t := PlayStep(docs, next, id, keys, data, reading); StoreOk(t.docs, t.next)
  {
    if id in docs {
      PlayKeepsDoc(docs[id], keys, data, reading);
      SettleKeepsStore(docs, next, id, PlayEffect(docs[id], keys, data, reading));
    }
  }

  /** None of the four updates overwrites a finished instance, whichever instance it is aimed at. */
  lemma FinishedSurvivesUpdates(docs: map<Id, Doc>, next: Id, id: Id, u: SelfUpdate, keys: Value, data: Value, inc: bool,
                                reading: Reading, j: Id)
    requires StoreOk(docs, next) && j in docs && docs[j].endDate.Some?
    ensures var t := UpdateGameFieldsStep(docs, next, id, u, inc, reading); j in t.docs && t.docs[j] == docs[j]
    ensures var t := RelationshipStep(docs, next, id, keys, data, inc, reading); j in t.docs && t.docs[j] == docs[j]
    ensures var t := ChoiceStep(docs, next, id, keys, data, reading); j in t.docs && t.docs[j] == docs[j]
    ensures var t := PlayStep(docs, next, id, keys, data, reading); j in t.docs && t.docs[j] == docs[j]
  {
    SelfKeepsFinished(docs, next, id, u, inc, reading, j);
    RelationshipKeepsFinished(docs, next, id, keys, data, inc, reading, j);
    ChoiceKeepsFinished(docs, next, id, keys, data, reading, j);
    PlayKeepsFinished(docs, next, id, keys, data, reading, j);
  }

  lemma SelfKeepsFinished(docs: map<Id, Doc>, next: Id, id: Id, u: SelfUpdate, inc: bool, reading: Reading, j: Id)
    requires StoreOk(docs, next) && j in docs && docs[j].endDate.Some?
    ensures var t := UpdateGameFieldsStep(docs, next, id, u, inc, reading); j in t.docs && t.docs[j] == docs[j]
  {
    if id in docs {
      SelfChangesOnlyItsFields(docs[id], u, inc, reading);
      FinishedNeverOverwritten(docs, next, id, SelfEffect(docs[id], u, inc, reading), j);
    }
  }

  lemma RelationshipKeepsFinished(docs: map<Id, Doc>, next: Id, id: Id, keys: Value, data: Value, inc: bool, reading: Reading, j: Id)
    requires StoreOk(docs, next) && j in docs && docs[j].endDate.Some?
    ensures var t := RelationshipStep(docs, next, id, keys, data, inc, reading); j in t.docs && t.docs[j] == docs[j]
  {
    if id in docs {
      RelationshipKeepsDoc(docs[id], keys, data, inc);
      FinishedNeverOverwritten(docs, next, id, RelationshipEffect(docs[id], keys, data, inc), j);
    }
  }

  lemma ChoiceKeepsFinished(docs: map<Id, Doc>, next: Id, id: Id, keys: Value, data: Value, reading: Reading, j: Id)
    requires StoreOk(docs, next) && j in docs && docs[j].endDate.Some?
    ensures var t := ChoiceStep(docs, next, id, keys, data, reading); j in t.docs && t.docs[j] == docs[j]
  {
    if id in docs {
      ChoiceKeepsDoc(docs[id], keys, data, reading);
      FinishedNeverOverwritten(docs, next, id, ChoiceEffect(docs[id], keys, data, reading), j);
    }
  }

  lemma PlayKeepsFinished(docs: map<Id, Doc>, next: Id, id: Id, keys: Value, data: Value, reading: Reading, j: Id)
    requires StoreOk(docs, next) && j in docs && docs[j].endDate.Some?
    ensures var t := PlayStep(docs, next, id, keys, data, reading); j in t.docs && t.docs[j] == docs[j]
  {
    if id in docs {
      PlayKeepsDoc(docs[id], keys, data, reading);
      FinishedNeverOverwritten(docs, next, id, PlayEffect(docs[id], keys, data, reading), j);
    }
  }

  // ---------------------------------------------------------------------------
  // updateGameFields
  // ---------------------------------------------------------------------------

  /**
   * A self update changes only sessions, play time, the multiple-ids flag
   * and the session lengths; a non-positive session count is always rejected.
   */
  lemma SelfChangesOnlyItsFields(d: Doc, u: SelfUpdate, inc: bool, reading: Reading)
    ensures var eff := SelfEffect(d, u, inc, reading);
      && (u.sessions.Some? && u.sessions.value <= 0 ==> eff == Rejected("Sessions can only be a positive number."))
      && (eff.Changed? ==>
            && eff.doc == d.(sessions := eff.doc.sessions, playTime := eff.doc.playTime,
                             multipleIds := eff.doc.multipleIds, sessionsLength := eff.doc.sessionsLength)
            && SameInstance(d, eff.doc)
            && (eff.doc.multipleIds <==> d.multipleIds || u.multipleIds.Some?))
  {
    if !(u.sessions.Some? && u.sessions.value <= 0) {
      LengthsOnlyLengths(d, SelfFields(d, u, inc, reading), u, inc);
    }
  }

  /** The session-length step changes nothing but the lengths of the copy it is given. */
  lemma LengthsOnlyLengths(d: Doc, d1: Doc, u: SelfUpdate, inc: bool)
    ensures var eff := LengthsEffect(d, d1, u, inc);
      eff.Changed? ==> eff.doc == d1.(sessionsLength := eff.doc.sessionsLength)
  {
  }

  /** Sessions are added with `increment`, replaced without it, kept when not given. */
  lemma SelfSessions(d: Doc, u: SelfUpdate, inc: bool, reading: Reading)
    requires SelfEffect(d, u, inc, reading).Changed?
    ensures var e := SelfEffect(d, u, inc, reading).doc;
      match u.sessions
      case None => e.sessions == d.sessions
      case Some(s) => s > 0 && e.sessions == (if inc then d.sessions + s else s)
  {
  }

  /** Under the intended reading a given play time is stored and an absent one leaves the stored value. */
  lemma SelfPlayTime(d: Doc, u: SelfUpdate, inc: bool)
    requires SelfEffect(d, u, inc, Intended).Changed?
    ensures SelfEffect(d, u, inc, Intended).doc.playTime == if u.playTime.Some? then u.playTime else d.playTime
  {
  }

  /** As written, a request that omits `play_time` erases it, and one that gives it is ignored. */
  lemma SelfPlayTimeAsWritten(d: Doc, p: int)
    requires d.playTime.Some? && d.playTime != Some(p)
    ensures SelfEffect(d, SelfUpdate(None, None, None, None), false, AsWritten) == Changed(d.(playTime := None))
    ensures SelfEffect(d, SelfUpdate(None, Some(p), None, None), false, AsWritten).doc.playTime != Some(p)
  {
  }

  /**
   * With `increment`, the session count and the number of recorded lengths
   * grow by the same amount: the given lengths, all positive numbers, are
   * appended after the stored ones.
   */
  lemma SelfIncrementKeepsPace(d: Doc, u: SelfUpdate, reading: Reading)
    requires u.sessionsLength.Some?
    requires SelfEffect(d, u, true, reading).Changed?
    ensures var e := SelfEffect(d, u, true, reading).doc;
      && e.sessions - d.sessions == |e.sessionsLength| - |d.sessionsLength| > 0
      && e.sessionsLength[..|d.sessionsLength|] == d.sessionsLength
    ensures var e := SelfEffect(d, u, true, reading).doc;
      match u.sessionsLength.value
      case Many(items) => PositiveNumbers(items) && e.sessionsLength == d.sessionsLength + Ints(items)
      case One(n) => n > 0 && e.sessionsLength == d.sessionsLength + [n]
  {
    var d1 := SelfFields(d, u, true, reading);
    var e := SelfEffect(d, u, true, reading).doc;
    assert SelfEffect(d, u, true, reading) == LengthsEffect(d, d1, u, true);
    match u.sessionsLength.value
    case Many(items) =>
      assert e.sessions == d.sessions + |items| && e.sessionsLength == d.sessionsLength + Ints(items);
    case One(n) =>
      assert e.sessions == d.sessions + 1 && e.sessionsLength == d.sessionsLength + [n];
  }

  /** Without `increment` the given lengths replace the stored ones. */
  lemma SelfReplaceLengths(d: Doc, u: SelfUpdate, reading: Reading)
    requires u.sessionsLength.Some?
    requires SelfEffect(d, u, false, reading).Changed?
    ensures var e := SelfEffect(d, u, false, reading).doc;
      match u.sessionsLength.value
      case Many(items) => |e.sessionsLength| == |items| && forall i :: 0 <= i < |items| ==> items[i] == Num(e.sessionsLength[i])
      case One(n) => e.sessionsLength == [n]
  {
  }

  /**
   * Session lengths stay positive.  In either mode, an array update is
   * refused while any stored length or any given entry is not a positive
   * number, and a single length is refused unless it is positive.
   */
  lemma SelfLengthsPositive(d: Doc, u: SelfUpdate, inc: bool, reading: Reading)
    ensures ((u.sessions.None? || u.sessions.value > 0) &&
             u.sessionsLength.Some? && u.sessionsLength.value.Many? && !AllPositive(d.sessionsLength)) ==>
      SelfEffect(d, u, inc, reading) == Rejected("Session length values can only be positive numbers.")
    ensures ((u.sessions.None? || u.sessions.value > 0) &&
             u.sessionsLength.Some? && u.sessionsLength.value.Many? && !PositiveNumbers(u.sessionsLength.value.items)) ==>
      SelfEffect(d, u, inc, reading) == Rejected("Session length values can only be positive numbers.")
    ensures ((u.sessions.None? || u.sessions.value > 0) &&
             u.sessionsLength.Some? && u.sessionsLength.value.One? && u.sessionsLength.value.n <= 0) ==>
      SelfEffect(d, u, inc, reading) == Rejected("Session length values can only be a positive number.")
    ensures AllPositive(d.sessionsLength) && SelfEffect(d, u, inc, reading).Changed? ==>
      AllPositive(SelfEffect(d, u, inc, reading).doc.sessionsLength)
  {
    if !(u.sessions.Some? && u.sessions.value <= 0) {
      var d1 := SelfFields(d, u, inc, reading);
      assert SelfEffect(d, u, inc, reading) == LengthsEffect(d, d1, u, inc);
      LengthsRefused(d, d1, u, inc);
      LengthsPositive(d, d1, u, inc);
    }
  }

  /** The session-length step on its own: it refuses new lengths while a stored one is not positive. */
  lemma LengthsRefused(d: Doc, d1: Doc, u: SelfUpdate, inc: bool)
    ensures u.sessionsLength.Some? && u.sessionsLength.value.Many? && !AllPositive(d.sessionsLength) ==>
      LengthsEffect(d, d1, u, inc) == Rejected("Session length values can only be positive numbers.")
  {
  }

  /** The session-length step on its own: positive stored lengths stay positive. */
  lemma LengthsPositive(d: Doc, d1: Doc, u: SelfUpdate, inc: bool)
    requires d1.sessionsLength == d.sessionsLength
    ensures AllPositive(d.sessionsLength) && LengthsEffect(d, d1, u, inc).Changed? ==>
      AllPositive(LengthsEffect(d, d1, u, inc).doc.sessionsLength)
  {
    var eff := LengthsEffect(d, d1, u, inc);
    if AllPositive(d.sessionsLength) && eff.Changed? && u.sessionsLength.Some? {
      match u.sessionsLength.value
      case Many(items) =>
        var xs := Ints(items);
        assert AllPositive(xs);
        assert eff.doc.sessionsLength == (if inc then d.sessionsLength + xs else xs);
        AppendPositive(d.sessionsLength, xs);
      case One(n) =>
        assert eff.doc.sessionsLength == (if inc then d.sessionsLength + [n] else [n]);
        AppendPositive(d.sessionsLength, [n]);
    }
  }

  lemma AppendPositive(a: seq<int>, b: seq<int>)
    requires AllPositive(a) && AllPositive(b)
    ensures AllPositive(a + b)
  {
    forall i | 0 <= i < |a + b| ensures (a + b)[i] > 0 {
      if i >= |a| { assert (a + b)[i] == b[i - |a|]; }
    }
  }

  // ---------------------------------------------------------------------------
  // Parallel key/data arrays: reference definitions
  // ---------------------------------------------------------------------------

  /** Some key of the request is `k`. */
  predicate Named(ks: seq<Value>, k: string) {
    exists i :: 0 <= i < |ks| && ks[i] == Str(k)
  }

  /** `i` is the last position of key `k`. */
  predicate LastAt(ks: seq<Value>, k: string, i: int) {
    0 <= i < |ks| && ks[i] == Str(k) && forall j :: i < j < |ks| ==> ks[j] != Str(k)
  }

  /** The sum of the values given for key `k`. */
  function SumFor(ks: seq<Value>, vs: seq<Value>, k: string): int
    requires |ks| == |vs| && AllNum(vs)
    decreases |ks|
  {
    if ks == [] then 0 else (if ks[0] == Str(k) then vs[0].n else 0) + SumFor(ks[1..], vs[1..], k)
  }

  function NumberOr0(fs: seq<Field>, k: string): int {
    match Lookup(fs, k)
    case Some(Num(n)) => n
    case _ => 0
  }

  lemma NamedCons(ks: seq<Value>, k: string)
    requires ks != []
    ensures Named(ks, k) <==> ks[0] == Str(k) || Named(ks[1..], k)
  {
    if Named(ks, k) && ks[0] != Str(k) {
      var i :| 0 <= i < |ks| && ks[i] == Str(k);
      assert ks[1..][i - 1] == Str(k);
    }
    if Named(ks[1..], k) {
      var i :| 0 <= i < |ks| - 1 && ks[1..][i] == Str(k);
      assert ks[i + 1] == Str(k);
    }
  }

  /** A last position in the tail is a last position in the whole. */
  lemma LastAtCons(ks: seq<Value>, k: string, i: int)
    requires ks != [] && LastAt(ks[1..], k, i)
    ensures LastAt(ks, k, i + 1)
  {
    forall j | i + 1 < j < |ks| ensures ks[j] != Str(k) {
      assert ks[j] == ks[1..][j - 1];
    }
  }

  /** The head is the last position when the tail does not name the key. */
  lemma LastAtHead(ks: seq<Value>, k: string)
    requires ks != [] && ks[0] == Str(k) && !Named(ks[1..], k)
    ensures LastAt(ks, k, 0)
  {
    forall j | 0 < j < |ks| ensures ks[j] != Str(k) {
      assert ks[j] == ks[1..][j - 1];
    }
  }

  // ---------------------------------------------------------------------------
  // updateRelationshipData
  // ---------------------------------------------------------------------------

  /** Keys the request does not name keep their value. */
  lemma {:induction false} RelFoldUnnamed(rel: seq<Field>, ks: seq<Value>, vs: seq<Value>, inc: bool, k: string)
    requires AllNumbers(rel) && |ks| == |vs| && AllText(ks) && AllNum(vs)
    requires !Named(ks, k)
    ensures Lookup(RelFold(rel, ks, vs, inc), k) == Lookup(rel, k)
    decreases |ks|
  {
    if ks != [] {
      NamedCons(ks, k);
      RelFoldUnnamed(RelWrite(rel, ks[0].s, vs[0].n, inc), ks[1..], vs[1..], inc, k);
    }
  }

  /** Without `increment`, a named key takes the value given at its last position. */
  lemma {:induction false} RelFoldOverwrite(rel: seq<Field>, ks: seq<Value>, vs: seq<Value>, k: string)
    requires AllNumbers(rel) && |ks| == |vs| && AllText(ks) && AllNum(vs)
    requires Named(ks, k)
    ensures exists i :: LastAt(ks, k, i) && Lookup(RelFold(rel, ks, vs, false), k) == Some(vs[i])
    decreases |ks|
  {
    NamedCons(ks, k);
    var rel' := RelWrite(rel, ks[0].s, vs[0].n, false);
    if Named(ks[1..], k) {
      RelFoldOverwrite(rel', ks[1..], vs[1..], k);
      var i :| LastAt(ks[1..], k, i) && Lookup(RelFold(rel', ks[1..], vs[1..], false), k) == Some(vs[1..][i]);
      LastAtCons(ks, k, i);
      assert vs[1..][i] == vs[i + 1];
    } else {
      RelFoldUnnamed(rel', ks[1..], vs[1..], false, k);
      LastAtHead(ks, k);
      assert Lookup(rel', k) == Some(vs[0]);
    }
  }

  /**
   * With `increment`, every key ends with its stored number (0 when absent)
   * plus every value given for it: the first write of an absent key sets it
   * and the later ones add.  With `RelFoldHasKey` and `AllNumbers` of the
   * result, a named key holds exactly that number.
   */
  lemma {:induction false} RelFoldSums(rel: seq<Field>, ks: seq<Value>, vs: seq<Value>, k: string)
    requires AllNumbers(rel) && |ks| == |vs| && AllText(ks) && AllNum(vs)
    ensures NumberOr0(RelFold(rel, ks, vs, true), k) == NumberOr0(rel, k) + SumFor(ks, vs, k)
    decreases |ks|
  {
    if ks != [] {
      RelWriteAdds(rel, ks[0].s, vs[0].n, k);
      RelFoldSums(RelWrite(rel, ks[0].s, vs[0].n, true), ks[1..], vs[1..], k);
    }
  }

  /** A key stored before, or named by the request, is present afterwards. */
  lemma {:induction false} RelFoldHasKey(rel: seq<Field>, ks: seq<Value>, vs: seq<Value>, inc: bool, k: string)
    requires AllNumbers(rel) && |ks| == |vs| && AllText(ks) && AllNum(vs)
    requires HasKey(rel, k) || Named(ks, k)
    ensures HasKey(RelFold(rel, ks, vs, inc), k)
    decreases |ks|
  {
    if ks != [] {
      NamedCons(ks, k);
      var rel' := RelWrite(rel, ks[0].s, vs[0].n, inc);
      assert Lookup(rel', ks[0].s).Some?;
      assert HasKey(rel, k) ==> Lookup(rel', k).Some?;
      RelFoldHasKey(rel', ks[1..], vs[1..], inc, k);
    }
  }

  /** One incrementing write adds its number to its own key and leaves the others. */
  lemma RelWriteAdds(rel: seq<Field>, k': string, n: int, k: string)
    requires AllNumbers(rel)
    ensures var r := RelWrite(rel, k', n, true);
      && NumberOr0(r, k) == NumberOr0(rel, k) + (if k' == k then n else 0)
      && (k' == k ==> Lookup(r, k) == Some(Num(NumberOr0(r, k))))
      && (k' != k ==> Lookup(r, k) == Lookup(rel, k))
  {
  }

  lemma {:induction false} SumForUnnamed(ks: seq<Value>, vs: seq<Value>, k: string)
    requires |ks| == |vs| && AllNum(vs) && !Named(ks, k)
    ensures SumFor(ks, vs, k) == 0
    decreases |ks|
  {
    if ks != [] {
      NamedCons(ks, k);
      SumForUnnamed(ks[1..], vs[1..], k);
    }
  }

  /**
   * The array form is applied exactly when the data is an array of numbers
   * as long as the array of string keys; it faults on `null` data and on a
   * string data of the right length; otherwise it is rejected.
   */
  lemma RelationshipArrayCases(d: Doc, ks: seq<Value>, data: Value, inc: bool)
    requires DocOk(d)
    ensures var eff := RelationshipEffect(d, Arr(ks), data, inc);
      && (eff.Changed? <==> data.Arr? && |data.items| == |ks| && AllText(ks) && AllNum(data.items))
      && (eff.Fault? <==> data.Null? || (data.Str? && |data.s| == |ks| && AllText(ks)))
      && (eff.Changed? ==> eff.doc == d.(relationshipData := RelFold(d.relationshipData, ks, data.items, inc)))
  {
  }

  /** The single form writes (or, incrementing an existing key, adds) one number and nothing else. */
  lemma RelationshipSingle(d: Doc, k: string, data: Value, inc: bool)
    requires DocOk(d)
    ensures var eff := RelationshipEffect(d, Str(k), data, inc);
      && (eff.Changed? <==> data.Num?)
      && (eff.Changed? ==>
            var r := eff.doc.relationshipData;
            && eff.doc == d.(relationshipData := r)
            && Lookup(r, k) == Some(Num(if inc && HasKey(d.relationshipData, k) then NumberOr0(d.relationshipData, k) + data.n else data.n))
            && forall k' :: k' != k ==> Lookup(r, k') == Lookup(d.relationshipData, k'))
  {
  }

  /** Any other key is rejected. */
  lemma RelationshipBadKey(d: Doc, keys: Value, data: Value, inc: bool)
    requires DocOk(d) && !keys.Arr? && !keys.Str?
    ensures RelationshipEffect(d, keys, data, inc) == Rejected("Relationship key can only be a string.")
  {
  }

  /** A relationship update changes nothing but the relationship data and keeps it all numbers. */
  lemma RelationshipKeepsDoc(d: Doc, keys: Value, data: Value, inc: bool)
    requires DocOk(d)
    ensures var eff := RelationshipEffect(d, keys, data, inc);
      eff.Changed? ==> eff.doc == d.(relationshipData := eff.doc.relationshipData) && DocOk(eff.doc)
  {
  }

  // ---------------------------------------------------------------------------
  // updateChoiceData
  // ---------------------------------------------------------------------------

  lemma {:induction false} ChoiceFoldUnnamed(cd: seq<Field>, ks: seq<Value>, vs: seq<Value>, k: string)
    requires |ks| == |vs| && AllText(ks) && AllText(vs) && AllStrings(cd)
    requires !Named(ks, k)
    ensures Lookup(ChoiceFold(cd, ks, vs), k) == Lookup(cd, k)
    decreases |ks|
  {
    if ks != [] {
      NamedCons(ks, k);
      ChoiceFoldUnnamed(Put(cd, ks[0].s, vs[0]), ks[1..], vs[1..], k);
    }
  }

  /** A named choice key takes the text given at its last position. */
  lemma {:induction false} ChoiceFoldLast(cd: seq<Field>, ks: seq<Value>, vs: seq<Value>, k: string)
    requires |ks| == |vs| && AllText(ks) && AllText(vs) && AllStrings(cd)
    requires Named(ks, k)
    ensures exists i :: LastAt(ks, k, i) && Lookup(ChoiceFold(cd, ks, vs), k) == Some(vs[i])
    decreases |ks|
  {
    NamedCons(ks, k);
    var cd' := Put(cd, ks[0].s, vs[0]);
    if Named(ks[1..], k) {
      ChoiceFoldLast(cd', ks[1..], vs[1..], k);
      var i :| LastAt(ks[1..], k, i) && Lookup(ChoiceFold(cd', ks[1..], vs[1..]), k) == Some(vs[1..][i]);
      LastAtCons(ks, k, i);
      assert vs[1..][i] == vs[i + 1];
    } else {
      ChoiceFoldUnnamed(cd', ks[1..], vs[1..], k);
      LastAtHead(ks, k);
    }
  }

  /**
   * Under the intended reading a choice update is applied exactly when the
   * keys are strings with string texts of the same number, or one string
   * key with a string text.
   */
  lemma ChoiceAccepts(d: Doc, keys: Value, data: Value)
    requires DocOk(d)
    ensures var eff := ChoiceEffect(d, keys, data, Intended);
      && (eff.Changed? <==>
            || (keys.Arr? && data.Arr? && |data.items| == |keys.items| && AllText(keys.items) && AllText(data.items))
            || (keys.Str? && data.Str?))
      && (eff.Changed? && keys.Str? ==> Lookup(eff.doc.choiceData, keys.s) == Some(data))
      && (eff.Changed? ==> eff.doc == d.(choiceData := eff.doc.choiceData) && DocOk(eff.doc))
  {
  }

  /** A choice update changes nothing but the choice data and keeps it all strings. */
  lemma ChoiceKeepsDoc(d: Doc, keys: Value, data: Value, reading: Reading)
    requires DocOk(d)
    ensures var eff := ChoiceEffect(d, keys, data, reading);
      eff.Changed? ==> eff.doc == d.(choiceData := eff.doc.choiceData) && DocOk(eff.doc)
  {
  }

  /**
   * As written every single-key choice update is rejected, including the
   * well-typed one the test suite expects to succeed
   * (test/game_data.test.js lines 64-77).
   */
  lemma ChoiceSingleAsWritten(d: Doc, keys: Value, data: Value)
    requires DocOk(d) && !keys.Arr?
    ensures ChoiceEffect(d, keys, data, AsWritten) == Rejected("Choice key can only be a string.")
    ensures keys.Str? && data.Str? ==> ChoiceEffect(d, keys, data, Intended).Changed?
  {
  }

  // ---------------------------------------------------------------------------
  // updatePlayData
  // ---------------------------------------------------------------------------

  lemma {:induction false} PlayFoldUnnamed(pd: seq<Field>, ks: seq<Value>, es: seq<Value>, whole: Value, reading: Reading, k: string)
    requires |ks| == |es| && AllText(ks) && !Named(ks, k)
    requires PlayFold(pd, ks, es, whole, reading).Some?
    ensures Lookup(PlayFold(pd, ks, es, whole, reading).value, k) == Lookup(pd, k)
    decreases |ks|
  {
    if ks != [] {
      NamedCons(ks, k);
      assert PlayWrite(pd, ks[0].s, es[0], whole, reading).Some?;
      var pd' := PlayWrite(pd, ks[0].s, es[0], whole, reading).value;
      PlayWriteOthers(pd, ks[0].s, es[0], whole, reading, k);
      PlayFoldUnnamed(pd', ks[1..], es[1..], whole, reading, k);
    }
  }

  /** One pass of the play loop leaves every other key alone. */
  lemma PlayWriteOthers(pd: seq<Field>, k': string, elem: Value, whole: Value, reading: Reading, k: string)
    requires k' != k && PlayWrite(pd, k', elem, whole, reading).Some?
    ensures Lookup(PlayWrite(pd, k', elem, whole, reading).value, k) == Lookup(pd, k)
  {
    var pd1 := if HasKey(pd, k') then pd else Put(pd, k', Obj([]));
    assert Lookup(pd1, k) == Lookup(pd, k);
  }

  /** A `null` element anywhere makes the whole array update fault. */
  lemma {:induction false} PlayFoldNull(pd: seq<Field>, ks: seq<Value>, es: seq<Value>, whole: Value, reading: Reading, i: nat)
    requires |ks| == |es| && AllText(ks) && i < |es| && es[i].Null?
    ensures PlayFold(pd, ks, es, whole, reading).None?
    decreases |ks|
  {
    if i > 0 {
      match PlayWrite(pd, ks[0].s, es[0], whole, reading)
      case Some(pd') =>
        assert es[1..][i - 1].Null?;
        PlayFoldNull(pd', ks[1..], es[1..], whole, reading, i - 1);
      case None =>
    }
  }

  /** Under the intended reading one pass stores a non-object element itself under its key. */
  lemma PlayWriteStoresElement(pd: seq<Field>, k: string, elem: Value, whole: Value)
    requires !elem.Obj? && !elem.Null?
    ensures var r := PlayWrite(pd, k, elem, whole, Intended);
      r.Some? && Lookup(r.value, k) == Some(elem)
      && forall k' :: k' != k ==> Lookup(r.value, k') == Lookup(pd, k')
  {
  }

  /** One pass merges an object element into an object (or absent) entry member by member. */
  lemma PlayWriteMerges(pd: seq<Field>, k: string, fs: seq<Field>, whole: Value, reading: Reading, m: string)
    requires !HasKey(pd, k) || Lookup(pd, k).value.Obj?
    ensures var r := PlayWrite(pd, k, Obj(fs), whole, reading);
      var gs := if HasKey(pd, k) then Lookup(pd, k).value.fields else [];
      r.Some? && Lookup(r.value, k).Some? && Lookup(r.value, k).value.Obj?
      && Lookup(Lookup(r.value, k).value.fields, m) == if HasKey(fs, m) then Lookup(Reversed(fs), m) else Lookup(gs, m)
  {
    var gs := if HasKey(pd, k) then Lookup(pd, k).value.fields else [];
    var pd1 := if HasKey(pd, k) then pd else Put(pd, k, Obj([]));
    assert Lookup(pd1, k) == Some(Obj(gs));
    assert MergeInto(Obj(gs), fs) == Some(Obj(PutAll(gs, fs)));
    var r := Put(pd1, k, Obj(PutAll(gs, fs)));
    assert PlayWrite(pd, k, Obj(fs), whole, reading) == Some(r);
    assert Lookup(r, k) == Some(Obj(PutAll(gs, fs)));
    PutAllLookup(gs, fs, m);
  }

  /**
   * As written a non-object element stores the whole data array: keys `["a"]`
   * with data `[5]` store `[5]` under `"a"` where `5` is meant.
   */
  lemma PlayArrayAsWritten()
    ensures PlayEffect(PlainDoc, Arr([Str("a")]), Arr([Num(5)]), AsWritten) == Changed(PlainDoc.(playData := [Field("a", Arr([Num(5)]))]))
    ensures PlayEffect(PlainDoc, Arr([Str("a")]), Arr([Num(5)]), Intended) == Changed(PlainDoc.(playData := [Field("a", Num(5))]))
  {
    var ks := [Str("a")];
    assert ks[1..] == [];
  }

  /** A freshly created instance: schema defaults and nothing recorded. */
  const PlainDoc := Doc("p", "Windows", "(1920*1080)", "GB", 0, None, None, None, 0, [], false, false, None, None, [], [], [], None)

  /** The single-key form with an object merges into the stored object (or a new one) member by member. */
  lemma PlaySingleMerges(d: Doc, k: string, fs: seq<Field>, reading: Reading, m: string)
    requires fs != []
    requires !HasKey(d.playData, k) || Lookup(d.playData, k).value.Obj?
    ensures var eff := PlayEffect(d, Str(k), Obj(fs), reading);
      var gs := if HasKey(d.playData, k) then Lookup(d.playData, k).value.fields else [];
      && eff.Changed?
      && eff.doc == d.(playData := eff.doc.playData)
      && Lookup(eff.doc.playData, k).Some? && Lookup(eff.doc.playData, k).value.Obj?
      && Lookup(Lookup(eff.doc.playData, k).value.fields, m) == (if HasKey(fs, m) then Lookup(Reversed(fs), m) else Lookup(gs, m))
  {
    var gs := if HasKey(d.playData, k) then Lookup(d.playData, k).value.fields else [];
    PutAllLookup(gs, fs, m);
  }

  /** The single-key form with anything but an object or `null` replaces the entry. */
  lemma PlaySingleReplaces(d: Doc, k: string, data: Value, reading: Reading)
    requires !data.Obj? && !data.Null?
    ensures PlayEffect(d, Str(k), data, reading) == Changed(d.(playData := Put(d.playData, k, data)))
  {
  }

  /** A play update changes nothing but the play data. */
  lemma PlayKeepsDoc(d: Doc, keys: Value, data: Value, reading: Reading)
    ensures var eff := PlayEffect(d, keys, data, reading);
      eff.Changed? ==> eff.doc == d.(playData := eff.doc.playData) && (DocOk(d) ==> DocOk(eff.doc))
  {
  }
}
