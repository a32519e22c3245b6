# VNlytics game-instance core, modelled in Dafny

VNlytics collects play analytics from visual-novel games. Each play-through is a
*game instance*: a document holding the platform, session counts and lengths,
and per-player maps of relationship scores, choices and play data. This
project models three pieces of its core.

- **The instance update engine** (`api/models/game_data.model.js`):
  `updateGameFields`, `updateRelationshipData`, `updateChoiceData` and
  `updatePlayData`. Each one fetches an instance and checks the request. It
  then changes a working copy, and finally either saves it in place or, when
  the instance is already finished (it has an `end_date`), forks it into a new
  instance. A failed check returns a `failure` with the source's message. A
  JavaScript `TypeError` caught by the `catch` block returns the generic
  `error` envelope.
- **The report pipeline builder** `createPipeline`: it maps a report key and a
  filter to the list of MongoDB aggregation stages.
- **The request helpers** (`api/utils/helper.js`) and the field tables they
  run against (`api/utils/constants.js`): `validateBody`, `sanitise`,
  `contains` and `isEmpty`.

Files:

| file | module | contents |
|---|---|---|
| `json.dfy` | `Json` | parsed JSON values. An object is a member list read as its enumeration order, because key order is observable. `typeof`, `o[k]` and `o[k] = v`. |
| `helper.dfy` | `Helper` | `validateBody` as a function, and as a method with the source's nested loops; `contains`, `isEmpty`; `sanitise` (the intended version and the version as written) |
| `constants.dfy` | `Constants` | the field tables, their two readings, and the test-suite payloads |
| `gamedata.dfy` | `GameData` | the instance datatype and the update rules as specification functions; the fork-on-finalize rule (`Settle`) |
| `gamedata_facts.dfy` | `GameDataFacts` | properties of the update rules and of the store invariant |
| `store.dfy` | `GameStore` | the collection as a class, with the four update operations as methods proved equal to the specification functions |
| `pipeline.dfy` | `Pipeline` | `createPipeline` over a `Stage` datatype, and what its output guarantees |

Where the code has a defect, the affected definition takes a `Reading`:
`AsWritten` follows the code and `Intended` follows the evident intent. The
store methods use `Intended`. Each defect is listed under "## Findings".

The collection is abstract. `Store` holds a `map<Id, Doc>` and a fresh-id
counter, in place of MongoDB. Its invariant `StoreOk` says:

- every id is below the counter;
- relationship values are numbers and choice values are strings (the writers modelled here check this);
- every parent link names an older root instance.

Each update method is specified by one step function over the old state
(`UpdateGameFieldsStep`, `RelationshipStep`, `ChoiceStep`, `PlayStep`). The
lemmas in `GameDataFacts` prove what those functions promise.

## Model

| member | source | states |
|---|---|---|
| Json.Put | api/utils/helper.js:136 | `o[k] = v` on an object: afterwards `k` reads `v`, every other key reads as before, and the object grows only when `k` was new |
| Json.PutAllLookup | api/models/game_data.model.js:580-582 | a `for…in` copy of one object into another: each key ends with its last value in the source object, and keys the source object does not name keep their old value |
| Helper.ValidateBody | api/utils/helper.js:3-74 | the validator with its nested loops: unknown keys short-circuit to `extra`, then each specification field is checked in order; the result equals `Helper.Validate` |
| Helper.CheckField | api/utils/helper.js:13-70 | one specification field. A present value is copied unchanged if some listed type admits it; the inner loop stops at the first match. It goes to `error` once, and only after the last listed type fails. An absent field is appended to `missing` when required, and skipped otherwise |
| Helper.AddError | api/utils/helper.js:32-39 | recording an error key adds exactly that key and keeps every recorded one |
| Helper.ExtraKeys | api/utils/helper.js:5 | the unknown keys are exactly the input keys the specification does not name |
| Helper.ValidateExtra | api/utils/helper.js:5-10 | the result is `extra` exactly when some input key is unknown, and it then lists exactly the unknown keys |
| Helper.ValidatePlacement | api/utils/helper.js:12-71 | with distinct field names, each specification field is placed where its value decides: accepted with its value unchanged, or in `error`, or in `missing`, and in only one of them. A present field whose type list is empty is in none |
| Helper.ValidateShape | api/utils/helper.js:12-71 | a checked result names only specification fields. `missing` lists the absent required fields in specification order. `error` names each key once |
| Helper.CheckMissing | api/utils/helper.js:59-70 | the field loop appends exactly the absent required fields to `missing`, in specification order |
| Helper.CheckErrorsNoDuplicates | api/utils/helper.js:32-39 | the field loop never records an error key twice |
| Helper.CheckKeeps | api/utils/helper.js:12-71 | a key the specification does not name keeps whatever place it had |
| Helper.CheckDecides | api/utils/helper.js:12-71 | a not-yet-placed specification field ends where its value decides |
| Helper.Contains | api/utils/helper.js:76-80 | `contains(p, c)` holds exactly when every element of `c` occurs in `p` |
| Helper.IsEmpty | api/utils/helper.js:83-85 | `isEmpty(o)` holds exactly when `o` has no key |
| Helper.StripDollar | api/utils/helper.js:122-128 | exactly one leading `$` is removed, and nothing else changes |
| Helper.Sanitise | api/utils/helper.js:109-141 | the sanitiser's loop, with the intended recursion, computes `SanitisedValue` of an object or an array |
| Helper.SanitiseMember | api/utils/helper.js:127-131 | one member value: a string loses one leading `$`; numbers and booleans pass; objects and arrays are sanitised in turn; `null` fails |
| Helper.SanitiseFailsOnlyOnNull | api/utils/helper.js:127-131 | the intended sanitiser fails exactly on values that contain a `null` at some depth |
| Helper.SanitisedItemsShape | api/utils/helper.js:114-134 | an array maps to an array of the same length and order, each element sanitised |
| Helper.SanitiseObjectShape | api/utils/helper.js:119-137 | when no two keys collide once stripped, an object keeps its members in insertion order, each key with one leading `$` removed and each value sanitised |
| Helper.SanitiseAsWritten | api/utils/helper.js:129-131 | as written, any member whose `typeof` is `"object"` throws. An input without such a member sanitises as intended |
| Helper.SanitiseNestedDiscrepancy | api/utils/helper.js:130 | `{"a": {"$b": "$c"}}` throws as written; the intended sanitiser gives `{"a": {"b": "c"}}` |
| Constants.FromTable | api/utils/constants.js:16-36 | the intended reading of a bare table keeps its field names, in order |
| Constants.AsRead | api/utils/helper.js:14-61 | a bare table as `validateBody` reads it: no field has a type or a `required` property |
| Constants.BareEntryRejected | api/utils/helper.js:43-63 | such an entry is never accepted and never missing; it is in `error` exactly when the input holds it |
| Constants.BareTableRejectsAll | api/utils/helper.js:43-56 | under a bare table, a payload holding exactly the table's fields has every field in `error`, in table order, with nothing accepted and nothing missing |
| Constants.ProjectPayloadRejectedAsWritten | api/controllers/projects.controller.js:19-33 | `createNewProject` checks a well-formed project payload (test/projects.test.js:24-29) against the bare project table: all four fields land in `error`, so the request is refused |
| Constants.ProjectPayloadAccepted | api/utils/constants.js:2-7 | under the intended table the same project payload is accepted unchanged, with nothing in `error` or `missing` |
| Constants.InitPayloadRejectedAsWritten | api/utils/constants.js:16-19 | were `validateBody` handed the bare game creation table, a well-formed creation payload would have both fields in `error` |
| Constants.InitPayloadAccepted | api/utils/constants.js:16-19 | under the intended game creation table that payload is accepted unchanged |
| Constants.InitFieldsAdmitExactly | api/utils/constants.js:16-19 | a creation payload passes with no error and nothing missing exactly when it holds `platform` and `display_size` as strings and nothing else |
| Constants.StringFieldPlaced | api/utils/constants.js:17-18 | each creation field is accepted for a string, in `error` for any other value, and in `missing` when absent |
| Constants.InitPayloadMissingDisplaySize | test/game_data.test.js:224-237 | `{"platform": "Windows"}` reports `display_size` missing |
| Constants.InitPayloadExtraKey | test/game_data.test.js:239-254 | an unknown `random` key is reported alone, as `extra` |
| Constants.InitPayloadWrongType | test/game_data.test.js:256-270 | a number for `display_size` is a type error while `platform` is accepted |
| Constants.UpdatableSessionsLengthKinds | api/utils/constants.js:24 | `sessions_length` admits exactly numbers and arrays |
| Constants.UpdatableScalarKinds | api/utils/constants.js:21-25 | `play_time` and `sessions` admit exactly numbers; `multiple_ids` and `increment` admit exactly booleans |
| Constants.UpdatableSessionsAsString | test/game_data.test.js:274-288 | `sessions` sent as a string is a type error while the array `sessions_length` is accepted |
| Constants.EndFieldsKinds | api/utils/constants.js:27-36 | `ending` needs a string. The four data fields need the type name `"object"`, which admits objects, arrays and `null` |
| Constants.ProjectFieldsAreStrings | api/utils/constants.js:2-15 | every project field, in both project tables, admits exactly strings |
| GameData.ForkOf | api/models/game_data.model.js:381-393 | a fork is open, has no ending or end data, has `multiple_ids` set, and has parent `gameId` unless it had a parent already; every other field is copied |
| GameDataFacts.SettleFailureWritesNothing | api/models/game_data.model.js:313-404 | only a change is reported as success. A failure carries its message, a caught `TypeError` is the error envelope, and neither writes anything |
| GameDataFacts.SettleFinishedForks | api/models/game_data.model.js:381-395 | a change to a finished instance leaves every stored instance as it was. It adds one open instance under a fresh id, reported in the outcome, whose parent is a root |
| GameDataFacts.SettleOpenInPlace | api/models/game_data.model.js:398-399 | a change to an open instance replaces it in place, touches nothing else, and reports no data |
| GameDataFacts.FinishedNeverOverwritten | api/models/game_data.model.js:381-399 | a finished instance is never overwritten |
| GameDataFacts.FinishedSurvivesUpdates | api/models/game_data.model.js:381-399 | none of the four updates, whatever id it names and under either reading, removes or changes a stored finished instance |
| GameDataFacts.SettleKeepsStore | api/models/game_data.model.js:381-399 | settling a well-formed change keeps the store invariant |
| GameDataFacts.UnknownIdAsWritten | api/models/game_data.model.js:313-314 | as written an unknown id yields the error envelope, because the failure message reads `_id` of `null` |
| GameDataFacts.UnknownIdFails | api/models/game_data.model.js:313-315 | under the intended reading all four updates answer an unknown id with a failure naming it, and write nothing |
| GameDataFacts.SelfStepKeepsStore | api/models/game_data.model.js:309-405 | `updateGameFields` keeps the store invariant |
| GameDataFacts.RelationshipStepKeepsStore | api/models/game_data.model.js:407-481 | `updateRelationshipData` keeps the store invariant |
| GameDataFacts.ChoiceStepKeepsStore | api/models/game_data.model.js:483-549 | `updateChoiceData` keeps the store invariant |
| GameDataFacts.PlayStepKeepsStore | api/models/game_data.model.js:551-635 | `updatePlayData` keeps the store invariant |
| GameDataFacts.SelfChangesOnlyItsFields | api/models/game_data.model.js:317-379 | a non-positive `sessions` is rejected. A self update changes only sessions, play time, `multiple_ids` and the session lengths. The flag ends set exactly when it was set before or the request carries it |
| GameDataFacts.LengthsOnlyLengths | api/models/game_data.model.js:342-379 | the session-length step changes only the session lengths |
| GameDataFacts.SelfSessions | api/models/game_data.model.js:317-332 | a given session count is positive. It is added to the stored count with `increment`, and replaces it otherwise; an absent count keeps the stored one |
| GameDataFacts.SelfPlayTime | api/models/game_data.model.js:334-336 | under the intended reading a given play time is stored, and an absent one leaves the stored value |
| GameDataFacts.SelfPlayTimeAsWritten | api/models/game_data.model.js:334-336 | as written a request without `play_time` erases the stored value, and one with it is ignored |
| GameDataFacts.SelfIncrementKeepsPace | api/models/game_data.model.js:352-373 | with `increment`, sessions and recorded lengths grow by the same positive amount: the given lengths, all positive, are appended after the stored ones |
| GameDataFacts.SelfReplaceLengths | api/models/game_data.model.js:359-376 | without `increment` the given lengths replace the stored ones: an array element by element, a number as a one-element list |
| GameDataFacts.SelfLengthsPositive | api/models/game_data.model.js:343-366 | in either mode, an array update is rejected while a stored length or a given entry is not a positive number, a single length is rejected unless positive, and positive stored lengths stay positive |
| GameDataFacts.LengthsRefused | api/models/game_data.model.js:344-346 | the session-length step refuses an array while a stored length is not positive |
| GameDataFacts.LengthsPositive | api/models/game_data.model.js:348-377 | the session-length step keeps positive stored lengths positive |
| GameDataFacts.RelFoldUnnamed | api/models/game_data.model.js:430-436 | keys the request does not name keep their relationship value |
| GameDataFacts.RelFoldOverwrite | api/models/game_data.model.js:430-436 | without `increment`, a named key takes the value given at its last position |
| GameDataFacts.RelFoldSums | api/models/game_data.model.js:430-436 | with `increment`, each key ends with its stored number (0 when absent) plus the sum of the values given for it |
| GameDataFacts.RelFoldHasKey | api/models/game_data.model.js:430-436 | a key stored before, or named by the request, is present afterwards |
| GameDataFacts.RelWriteAdds | api/models/game_data.model.js:431-435 | one incrementing write adds its number to its own key and leaves the other keys alone |
| GameDataFacts.RelationshipArrayCases | api/models/game_data.model.js:417-436 | the array form applies exactly when the data is an array of numbers as long as the array of string keys. It faults on `null` data and on string data of the right length, and is rejected otherwise. An applied update folds each key with its number into the relationship data and changes nothing else |
| GameDataFacts.RelationshipSingle | api/models/game_data.model.js:438-451 | the single form applies exactly when the data is a number. It writes that number, or adds it to an existing key under `increment`, and leaves every other key alone |
| GameDataFacts.RelationshipBadKey | api/models/game_data.model.js:439-441 | a key that is neither an array nor a string is rejected |
| GameDataFacts.RelationshipKeepsDoc | api/models/game_data.model.js:407-455 | a relationship update changes only the relationship data, which stays all numbers |
| GameDataFacts.ChoiceFoldUnnamed | api/models/game_data.model.js:506-508 | keys the request does not name keep their choice text |
| GameDataFacts.ChoiceFoldLast | api/models/game_data.model.js:506-508 | a named choice key takes the text given at its last position |
| GameDataFacts.ChoiceAccepts | api/models/game_data.model.js:493-520 | under the intended reading a choice update applies exactly for string keys with string texts of the same number, or one string key with a string text. A single key then reads its text |
| GameDataFacts.ChoiceKeepsDoc | api/models/game_data.model.js:483-523 | a choice update changes only the choice data, which stays all strings |
| GameDataFacts.ChoiceSingleAsWritten | api/models/game_data.model.js:511-513 | as written every single-key choice update is rejected, including the well-typed one that the intended reading applies |
| GameDataFacts.PlayFoldUnnamed | api/models/game_data.model.js:570-583 | keys the request does not name keep their play data |
| GameDataFacts.PlayWriteOthers | api/models/game_data.model.js:571-582 | one pass of the play loop leaves every other key alone |
| GameDataFacts.PlayFoldNull | api/models/game_data.model.js:575 | a `null` element anywhere in the data makes the whole array update fault |
| GameDataFacts.PlayWriteStoresElement | api/models/game_data.model.js:575-577 | under the intended reading a non-object element is stored itself under its key, and other keys are unchanged |
| GameDataFacts.PlayWriteMerges | api/models/game_data.model.js:571-582 | an object element is merged member by member into the stored object, or into a new `{}`. Its members win, with the later one when a member repeats, and other stored members stay |
| GameDataFacts.PlayArrayAsWritten | api/models/game_data.model.js:576 | as written, keys `["a"]` with data `[5]` store `[5]` under `"a"`; the intended reading stores `5` |
| GameDataFacts.PlaySingleMerges | api/models/game_data.model.js:590-597 | the single form with a non-empty object shallow-merges it into the stored object or a new `{}`, keeping stored members it does not name |
| GameDataFacts.PlaySingleReplaces | api/models/game_data.model.js:599-605 | the single form with anything but an object or `null` replaces the entry |
| GameDataFacts.PlayKeepsDoc | api/models/game_data.model.js:551-609 | a play update changes only the play data |
| GameStore.Store.AddGameId | api/models/game_data.model.js:290-302 | a complete request adds one root instance with the schema defaults under a fresh id and reports it. An incomplete one fails and writes nothing |
| GameStore.Store.Commit | api/models/game_data.model.js:381-399 | saving or forking the working copy does exactly what `Settle` specifies, and keeps the invariant |
| GameStore.Store.UpdateGameFields | api/models/game_data.model.js:309-405 | the operation's new collection, counter and outcome are those of `UpdateGameFieldsStep` under the intended reading |
| GameStore.Store.UpdateRelationshipData | api/models/game_data.model.js:407-481 | the operation's new state and outcome are those of `RelationshipStep` |
| GameStore.Store.UpdateChoiceData | api/models/game_data.model.js:483-549 | the operation's new state and outcome are those of `ChoiceStep` under the intended reading |
| GameStore.Store.UpdatePlayData | api/models/game_data.model.js:551-635 | the operation's new state and outcome are those of `PlayStep` under the intended reading |
| GameStore.SelfChange | api/models/game_data.model.js:317-379 | the step-by-step edit of the working copy computes `SelfEffect` |
| GameStore.LengthsChange | api/models/game_data.model.js:342-379 | the session-length branch computes `LengthsEffect` |
| GameStore.WriteRelationships | api/models/game_data.model.js:430-436 | the relationship loop computes `RelFold` |
| GameStore.RelationshipChange | api/models/game_data.model.js:415-454 | the relationship body computes `RelationshipEffect` |
| GameStore.WriteChoices | api/models/game_data.model.js:506-508 | the choice loop computes `ChoiceFold` |
| GameStore.ChoiceChange | api/models/game_data.model.js:491-522 | the choice body computes `ChoiceEffect` under the intended reading |
| GameStore.AssignMembers | api/models/game_data.model.js:580-582 | the member-assignment loop computes `MergeInto` |
| GameStore.WritePlay | api/models/game_data.model.js:571-582 | one pass of the play loop computes `PlayWrite` |
| GameStore.WritePlays | api/models/game_data.model.js:570-583 | the play loop computes `PlayFold` |
| GameStore.PlayChange | api/models/game_data.model.js:559-608 | the play body computes `PlayEffect` under the intended reading |
| Pipeline.CreatePipeline | api/models/game_data.model.js:101-285 | every pipeline has at least two stages and starts with `{$match: query}` |
| Pipeline.StageCounts | api/models/game_data.model.js:101-285 | 6 stages for `choices`, 2 for `platform` and `display_size`, 3 for `summary`, 5 for `player`, 3 for any other key |
| Pipeline.QueryOnlyInMatch | api/models/game_data.model.js:101-285 | the filter reaches only the first stage: two filters give pipelines of the same length with the same later stages |
| Pipeline.OwnFieldReport | api/models/game_data.model.js:141-154 | `platform` and `display_size` group by the field path `"$" + field` and count |
| Pipeline.PlayFieldReport | api/models/game_data.model.js:265-283 | any other key unwinds `play_data` and counts per value of `"$play_data." + field` |
| Pipeline.WholeCollectionReports | api/models/game_data.model.js:155-262 | `summary` and `player` group on a constant, so all filtered instances form one group |
| Pipeline.ReadingsAgreeElsewhere | api/models/game_data.model.js:101-285 | the two readings differ only in the player report |
| Pipeline.PlayerProjectionAsWritten | api/models/game_data.model.js:259-260 | as written the player projection keeps `Users who completed FP`, which its group stage never produces |
| Pipeline.NoFinalPlayCount | api/models/game_data.model.js:197-245 | the player group computes no member named `Users who completed FP` |
| Pipeline.ProjectionsIntended | api/models/game_data.model.js:101-285 | with the intended names, every projection keeps only members its group stage produces |
| Pipeline.PlayerIntendedFeeds | api/models/game_data.model.js:197-262 | each member the intended player projection keeps is a member of the player group |

## Left out

- Mongoose and MongoDB are replaced by an in-memory map with a fresh-id counter. Left out: schema casting; the `required` validator, reduced to `CreationComplete` (non-empty strings); `markModified`; indexes; `findOneAndUpdate`; `addFormData`; `getData`; and running an aggregation. Pipelines are built, never executed.
- GameStore.Store.AddGameId: the creation timestamp is a parameter (`now`) instead of `Date.now`, and the country comes from the caller instead of a geoip lookup.
- The asynchronous calls are taken as sequential. The logger calls are left out.
- Numbers are integers. JavaScript floating point, `NaN` and the `/60` average of session lengths are not modelled.
- Ids are natural numbers. Messages render an id in decimal (`NatText`) instead of as a 24-digit hexadecimal ObjectId.
- The batch processor, end, replace, delete and `checkIfPathValid` operations are routed, but their controller functions are not part of this model. Their behaviour is not invented.
- HTTP controllers and routers are not modelled. Neither are the legacy `api/models/gameData.js` (a duplicate `createPipeline`), `projects*.js`, or the bootstrap files.
- `helper.js` `isObject`, `documentExists`, `getDistinct` and `getKey`: their callers are outside the core.
- GameData.SelfUpdate: the self-update request is typed as the update table admits it. `sessions` and `play_time` are integers, `multiple_ids` a boolean, and `sessions_length` a number or an array. JavaScript's loose comparisons on other types (`"4" <= 0`, `undefined != 1`) are not modelled.
- GameData.Doc: `sessions` is an integer with the schema default 0, so the source's `undefined → 0` step is the default. The relationship, choice and play maps start as empty objects (the `|| {}` fallback).
- GameData.MergeInto: a `for…in` assignment onto a stored *array* changes its indexed or named properties in JavaScript. The model keeps the array unchanged. Assignment onto a primitive or `null` throws in strict mode and is modelled as a fault.
- Json.Value: objects cannot own a `length` or `constructor` member that shadows the built-in one. `data.length` of an object is `undefined`, and `x.constructor === Object` holds exactly for plain objects.
- The test at test/game_data.test.js:306-320 expects the sessions/lengths mismatch failure for a request without `increment`. The code (game_data.model.js:352-355) checks the mismatch only under `increment`, and the model follows the code.
- Json.Put, Helper.SanitiseObjectShape: JavaScript enumerates array-index keys ("0", "1", …) first, in ascending order, and then the other keys in insertion order. The model keeps insertion order for every key. So after `sanitise({"b": 1, "$1": 2})` JavaScript lists `["1", "b"]`, while the model lists `b` before `1`. `Json.Value` does not require an object's member list to be in enumeration order or its keys to be distinct; lemmas that need distinct keys require them.
- GameData.StoreOk: relationship values stay numbers and choice values stay strings only for the writers modelled here. The end and replace operations may store any object in these fields (their table at api/utils/constants.js:33-34 admits any `"object"`), and their controller code is not part of this model. The invariant assumes they store data in the format the relationship and choice updates check. On a stored string, `+=` at game_data.model.js:432 and 448 concatenates, which the model does not capture.
- GameDataFacts.SelfPlayTime: no positivity check on `play_time`. The route documentation (api/routes/v1/game_data.route.js:92) and the test at test/game_data.test.js:322-335 expect a negative `play_time` to fail with "play_time can only be a positive number.", but no code in game_data.model.js:309-405 performs that check. Under the intended reading the model stores any integer, as the code would once line 334 is corrected.
- `allowedUpdateMethods` and the project id bounds (api/utils/constants.js:37-39) are transcribed as constants. No modelled operation reads them.
- Constants.InitPayloadAccepted, Constants.InitFieldsAdmitExactly, Constants.StringFieldPlaced, Constants.InitPayloadMissingDisplaySize, Constants.InitPayloadExtraKey, Constants.InitPayloadWrongType, Constants.UpdatableSessionsAsString: no visible code validates game-data requests against `gameDataInitFields` or `gameDataUpdatableFields`. Game creation reaches `addGameId` without the validator, and only projects.controller.js calls `validateBody`. These lemmas state what test/game_data.test.js:224-288 expects of the intended validator on those tables.
- Helper.Validate: `validateBody` takes exactly two parameters. The third argument some callers pass is ignored, as in the source.

## Findings

| source | as written | input that shows it | evidently intended | confidence | as-written member | corrected member |
|---|---|---|---|---|---|---|
| api/models/game_data.model.js:314 | the not-found failure reads `doc._id` when `doc` is `null`, which throws, so the caller gets the error envelope | any id not in the collection | a failure naming the requested id | high, not executed | GameDataFacts.UnknownIdAsWritten | GameDataFacts.UnknownIdFails |
| api/models/game_data.model.js:334 | `!updatedObj.hasOwnProperty("play_time")` writes `play_time` only when it is absent | a stored play time with a request `{}`: the value is erased | store `play_time` when the request gives it | high, not executed | GameDataFacts.SelfPlayTimeAsWritten | GameDataFacts.SelfPlayTime |
| api/models/game_data.model.js:511 | `!updatedChoiceDataKey != "string"` compares a boolean with a string and always holds | key `"third_choice"`, data `"Third Choice: Option 2"` (test/game_data.test.js:64-77 expects success) | `typeof updatedChoiceDataKey != "string"` | high, not executed | GameDataFacts.ChoiceSingleAsWritten | GameDataFacts.ChoiceAccepts |
| api/models/game_data.model.js:576 | a non-object element stores the whole `updatedPlayData` array | keys `["a"]`, data `[5]`: `"a"` holds `[5]` | store `updatedPlayData[i]` | high, not executed | GameDataFacts.PlayArrayAsWritten | GameDataFacts.PlayWriteStoresElement |
| api/utils/helper.js:130 | recursion through the undefined name `helper_functions` throws a ReferenceError | `{"a": {"$b": "$c"}}` | recurse through `helperFunctions.sanitise` | high, not executed | Helper.SanitiseNestedDiscrepancy | Helper.SanitiseObjectShape |
| api/utils/constants.js:3 | the tables hold bare type arrays, but `validateBody` reads `.type` and `.required` (helper.js:14, 44, 61), so every present field is a type error and none is required | project creation (projects.controller.js:19) with `{"project_id": "TestGame", "title": "Test", "developer": "Test", "engine": "Ren'Py"}` (test/projects.test.js:24-29 expects success): all four keys in `error` | the array is the field's type list | medium, not executed | Constants.ProjectPayloadRejectedAsWritten | Constants.ProjectPayloadAccepted |
| api/models/game_data.model.js:259-260 | the player projection keeps `Users who completed FP` and `Users who did not complete FP`, but the group stage (lines 228-236) produces `…the game` | report key `player` | project the two `…the game` counts | medium, not executed | Pipeline.PlayerProjectionAsWritten | Pipeline.ProjectionsIntended |
