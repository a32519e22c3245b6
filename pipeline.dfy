/**
 * `createPipeline(field, query)` of api/models/game_data.model.js, lines
 * 101-285: the report key and the filter picked by the caller become the
 * list of aggregation stages handed to MongoDB.  Stages are a datatype;
 * the expressions inside them stay JSON values, as they are in the source
 * (a string starting with `$` names a field path, anything else is a
 * constant).  The pipeline is only built here, never run.
 */
module Pipeline {
  import opened Json
  import opened GameData

  datatype Stage =
    | Match(query: Value)
    | Unwind(path: string)
    | Group(id: Value, accumulators: seq<Field>)
    | Project(spec: seq<Field>)

  /** `{"$sum": 1}`: one per document of the group. */
  const Count: Value := Obj([Field("$sum", Num(1))])

  /** `{"$sum": {"$cond": [{op: [path, v]}, 1, 0]}}`: documents whose field passes the test. */
  function CountWhere(op: string, path: string, v: Value): Value {
    Obj([Field("$sum", Obj([Field("$cond", Arr([Obj([Field(op, Arr([Str(path), v]))]), Num(1), Num(0)]))]))])
  }

  /** Report keys that group on a top-level field of the instance, line 141. */
  predicate GroupsOnOwnField(field: string) {
    field == "platform" || field == "display_size"
  }

  /** Report keys with a pipeline of their own; every other key is a play-data field. */
  predicate NamedReport(field: string) {
    field == "choices" || GroupsOnOwnField(field) || field == "summary" || field == "player"
  }

  /** Lines 101-285.  The reading only changes the player report's projection (lines 259-260). */
  function CreatePipeline(field: string, query: Value, reading: Reading): (r: seq<Stage>)
    ensures |r| >= 2 && r[0] == Match(query)
  {
    if field == "choices" then
      [Match(query), Unwind("$play_data"), Unwind("$play_data.choices"),
       Group(Obj([Field("label", Str("$play_data.choices.label")), Field("caption", Str("$play_data.choices.caption"))]),
             [Field("count", Count)]),
       Group(Str("$_id.label"),
             [Field("choices", Obj([Field("$push", Obj([Field("caption", Str("$_id.caption")), Field("count", Str("$count"))]))]))]),
       Project([Field("_id", Num(0)), Field("label", Str("$_id")), Field("choices", Num(1))])]
    else if GroupsOnOwnField(field) then
      [Match(query), Group(Str("$" + field), [Field("count", Count)])]
    else if field == "summary" then
      [Match(query), Group(Str("_id"), [Field("Feedback Data", Obj([Field("$push", Feedback)]))]),
       Project([Field("_id", Num(0)), Field("Feedback Data", Num(1))])]
    else if field == "player" then
      [Match(query), Unwind("$sessions_length"), Unwind("$end_data"), Group(Str("_id"), PlayerTotals),
       Project(PlayerProjection(reading))]
    else
      [Match(query), Unwind("$play_data"),
       Group(Obj([Field("value", Str("$play_data." + field))]), [Field("count", Count)])]
  }

  /** The feedback record pushed per instance, lines 165-174. */
  const Feedback: Value := Obj([
    Field("Player ID", Str("$_id")),
    Field("Overall Experience", Str("$form_data.overall")),
    Field("Ease of Use", Str("$form_data.ease")),
    Field("Gameplay", Str("$form_data.gameplay")),
    Field("Story", Str("$form_data.story")),
    Field("Graphics", Str("$form_data.graphics")),
    Field("Sound", Str("$form_data.sound")),
    Field("Extra Questions", Str("$form_data.extra_questions")),
    Field("Email", Str("$form_data.email"))])

  /** The player report's accumulators, lines 199-245. */
  const PlayerTotals: seq<Field> := [
    Field("Total Play", Count),
    Field("Total Unique Users", CountWhere("$eq", "$multiple_ids", Bool(false))),
    Field("Total Users -- Single Session", CountWhere("$eq", "$sessions", Num(1))),
    Field("Total Users -- Multi Session", CountWhere("$gt", "$sessions", Num(1))),
    Field("Total Sessions", Obj([Field("$sum", Str("$sessions"))])),
    Field("Average Session per User", Obj([Field("$avg", Str("$sessions"))])),
    Field("Average Session Length", Obj([Field("$avg", Obj([Field("$divide", Arr([Str("$sessions_length"), Num(60)]))]))])),
    Field("Users who completed the game", CountWhere("$eq", "$ending", Str("done"))),
    Field("Users who did not complete the game", CountWhere("$ne", "$ending", Str("done"))),
    Field("Average XP", Obj([Field("$avg", Str("$end_data.total_points"))])),
    Field("Average Days (Users who got bad end)",
          Obj([Field("$avg", Obj([Field("$cond", Arr([Obj([Field("$ne", Arr([Str("$ending"), Str("done")]))]), Str("$end_data.days"), Num(0)]))]))]))]

  /**
   * The player report's projection, lines 249-262.  As written it keeps
   * "Users who completed FP" and "Users who did not complete FP", names the
   * group stage never produces; the intended projection keeps the two
   * completion counts the group computes.
   */
  function PlayerProjection(reading: Reading): seq<Field> {
    var completed := if reading == AsWritten then "Users who completed FP" else "Users who completed the game";
    var notCompleted := if reading == AsWritten then "Users who did not complete FP" else "Users who did not complete the game";
    [Field("_id", Num(0)),
     Field("Total Play", Num(1)),
     Field("Total Unique Users", Num(1)),
     Field("Total Users -- Single Session", Num(1)),
     Field("Total Users -- Multi Session", Num(1)),
     Field("Total Sessions", Num(1)),
     Field("Average XP", Num(1)),
     Field("Average Session per User", Num(1)),
     Field("Average Session Length", Num(1)),
     Field(completed, Num(1)),
     Field(notCompleted, Num(1)),
     Field("Average Days (Users who got bad end)", Num(1))]
  }

  /** Every member a projection keeps is one the group stage before it produces. */
  predicate ProjectsProduced(stages: seq<Stage>) {
    forall i :: 0 <= i < |stages| - 1 ==> Feeds(stages[i], stages[i + 1])
  }

  /** A group stage followed by a projection: each member kept as it is (`name: 1`) is one of the group's. */
  predicate Feeds(before: Stage, after: Stage) {
    before.Group? && after.Project? ==>
      forall j :: 0 <= j < |after.spec| && after.spec[j].value == Num(1) ==> HasKey(before.accumulators, after.spec[j].key)
  }

  // ---------------------------------------------------------------------------
  // Properties of the built pipelines
  // ---------------------------------------------------------------------------

  /** The fixed lengths: 6 stages for choices, 2 per own field, 3 for summary, 5 for player, 3 otherwise. */
  lemma StageCounts(field: string, query: Value, reading: Reading)
    ensures var n := |CreatePipeline(field, query, reading)|;
      && (field == "choices" ==> n == 6)
      && (GroupsOnOwnField(field) ==> n == 2)
      && (field == "summary" ==> n == 3)
      && (field == "player" ==> n == 5)
      && (!NamedReport(field) ==> n == 3)
  {
  }

  /** The filter reaches the first stage only: two filters give the same later stages. */
  lemma QueryOnlyInMatch(field: string, q1: Value, q2: Value, reading: Reading)
    ensures |CreatePipeline(field, q1, reading)| == |CreatePipeline(field, q2, reading)|
    ensures CreatePipeline(field, q1, reading)[1..] == CreatePipeline(field, q2, reading)[1..]
  {
  }

  /** `platform` and `display_size` count the filtered instances per value of that field. */
  lemma OwnFieldReport(field: string, query: Value, reading: Reading)
    requires GroupsOnOwnField(field)
    ensures var r := CreatePipeline(field, query, reading);
      && |r| == 2 && r[1].Group?
      && r[1].id == Str("$" + field) && StartsWithDollar(r[1].id.s)
      && r[1].accumulators == [Field("count", Count)]
  {
  }

  /** Any other key counts the values of that member across all play-data entries. */
  lemma PlayFieldReport(field: string, query: Value, reading: Reading)
    requires !NamedReport(field)
    ensures var r := CreatePipeline(field, query, reading);
      && r[1] == Unwind("$play_data")
      && r[2].Group? && r[2].id == Obj([Field("value", Str("$play_data." + field))])
      && r[2].accumulators == [Field("count", Count)]
  {
  }

  /** The summary and player reports group on a constant, so all filtered instances form one group. */
  lemma WholeCollectionReports(field: string, query: Value, reading: Reading)
    requires field == "summary" || field == "player"
    ensures var r := CreatePipeline(field, query, reading);
      && r[|r| - 2].Group? && r[|r| - 2].id.Str? && !StartsWithDollar(r[|r| - 2].id.s)
  {
  }

  /** The projection in the player report is the only difference between the readings. */
  lemma ReadingsAgreeElsewhere(field: string, query: Value)
    requires field != "player"
    ensures CreatePipeline(field, query, AsWritten) == CreatePipeline(field, query, Intended)
  {
  }

  /** As written, the player report projects a count nobody computes. */
  lemma PlayerProjectionAsWritten(query: Value)
    ensures var r := CreatePipeline("player", query, AsWritten);
      && r[4].spec[9] == Field("Users who completed FP", Num(1))
      && !HasKey(r[3].accumulators, "Users who completed FP")
      && !ProjectsProduced(r)
  {
    var r := CreatePipeline("player", query, AsWritten);
    assert r[3].accumulators == PlayerTotals;
    assert r[4].spec[9] == Field("Users who completed FP", Num(1));
    NoFinalPlayCount();
    assert !Feeds(r[3], r[4]);
  }

  lemma NoFinalPlayCount()
    ensures !HasKey(PlayerTotals, "Users who completed FP")
  {
    forall i | 0 <= i < |PlayerTotals|
      ensures PlayerTotals[i].key != "Users who completed FP"
    {
      if i == 6 {
        assert PlayerTotals[i].key[0] == 'A';
      } else {
        assert |PlayerTotals[i].key| != 22;
      }
    }
  }

  /** With the intended projection, every report projects only members its group produces. */
  lemma ProjectionsIntended(field: string, query: Value)
    ensures ProjectsProduced(CreatePipeline(field, query, Intended))
  {
    var r := CreatePipeline(field, query, Intended);
    if field == "player" {
      PlayerIntendedFeeds();
      assert r[3] == Group(Str("_id"), PlayerTotals) && r[4] == Project(PlayerProjection(Intended));
    } else if field == "choices" {
      assert r[4].accumulators[0].key == r[5].spec[2].key;
    } else if field == "summary" {
      assert r[1].accumulators[0].key == r[2].spec[1].key;
    }
  }

  /** For each member of the intended player projection, the index of the group accumulator it keeps. */
  const PlayerSources: seq<nat> := [0, 0, 1, 2, 3, 4, 9, 5, 6, 7, 8, 10]

  lemma PlayerIntendedFeeds()
    ensures Feeds(Group(Str("_id"), PlayerTotals), Project(PlayerProjection(Intended)))
  {
    var spec := PlayerProjection(Intended);
    forall j | 0 <= j < |spec| && spec[j].value == Num(1)
      ensures HasKey(PlayerTotals, spec[j].key)
    {
      var m := PlayerSources[j];
      assert PlayerTotals[m].key == spec[j].key;
    }
  }
}
