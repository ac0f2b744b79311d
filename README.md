# huelio: query resolution for Philips Hue, modelled in Dafny

huelio turns a free-text request such as "turn kitchen on" or "living room
to relax" into a ranked list of actions on a Hue bridge: switch a group
(room) or a light on or off, give it a colour, or activate a scene of a
group. The repository holds two generations of this resolution engine, and
the model covers both.

- The `engine` package (engine/*.go):
  - `ParseQuery` lower-cases the request, splits it into fields and produces
    candidate *passes* (a name and a change). Some passes come from keyword
    patterns ("turn", "on", "off", "to"). The rest come from every split
    point of the fields.
  - An `Index` holds the groups, lights and scenes fetched from the bridge.
    `Index.Query` narrows the passes entity by entity through a score buffer
    (`ScoreQueries`): a pass survives a criterion when it scores
    non-negatively, and its row of scores grows by one.
  - Each surviving action gets a 4-part score: match quality, kind, item
    ID, action index. The results are sorted by that score.
  - The `Engine` object owns the bridge and the index, links a bridge
    through a connect callback, answers queries and executes actions.
- The root package (query.go, action.go, engine.go, engine_ranking.go):
  - the older `ParseQuery`, with 1-based keyword positions and an
    `Action` value of a scene or an on/off change;
  - `Engine.Run`, which filters passes per group and light and collects the
    on, off and scene actions;
  - `QueryAction.Do` and `String`;
  - a ranking by `LesserPriority`, which is not an order.

Dependencies are parameters of the model:
- the bridge round trips (fetching groups, lights and scenes; refreshing
  one entity; setting its state);
- the fuzzy matchers `fuzzy.RankMatchNormalizedFold` and
  `fuzzy.MatchFold`;
- the colour parser;
- the connect callback.

Every method runs as one step; locks and goroutines are not modelled.

Module layout, one file per source file plus shared pieces:

| file | module | models |
|---|---|---|
| wrappers.dfy | Wrappers | nil pointers and nil errors as `Option` |
| errors.dfy | Errors | the sentinel errors and `errors.Wrap` |
| catalog.dfy | Catalog | the bridge's group, light and scene records |
| text.dfy | Text | `strings.ToLower`, `TrimSpace`, `Fields`, `Join`, `strconv.Itoa`, `Atoi`, and `len` of a string in UTF-8 bytes |
| score_buffer.dfy | ScoreBuffer | the filtering and column maxima both score buffers share |
| engine_action.dfy | EngineAction | engine/action.go |
| engine_query.dfy | EngineQuery | engine/query.go |
| engine_results.dfy | EngineResults | engine/results.go |
| engine_ranking.dfy | EngineRanking | engine/ranking.go |
| engine_index.dfy | EngineIndex | engine/index.go |
| engine_engine.dfy | EngineState | engine/engine.go |
| huelio_query.dfy | HuelioQuery | query.go |
| huelio_action.dfy | HuelioAction | action.go |
| huelio_ranking.dfy | HuelioRanking | engine_ranking.go |
| huelio_engine.dfy | HuelioEngine | engine.go |

## Model

| member | source | states |
|---|---|---|
| Text.Lower | engine/query.go:24 | lower-casing keeps the length and leaves no upper-case letter |
| Text.TrimLeft | query.go:162 | the result is a suffix of the input, every dropped character is white space, and the result does not start with white space |
| Text.TrimRight | query.go:162 | the result is a prefix of the input, every dropped character is white space, and the result does not end with white space |
| Text.FieldsAreWords | engine/query.go:24 | every field is non-empty and holds no white space |
| Text.FieldsEmpty | engine/query.go:25-27 | splitting finds no field exactly when the text is all white space |
| Text.FieldsNoUpper | engine/query.go:24 | fields of lower-cased text are lower-case |
| Text.JoinNoUpper | engine/query.go:82-83 | joining lower-case fields gives lower-case text |
| Text.Itoa | engine/index.go:115 | the decimal form of an integer is never empty |
| Text.RuneLen | engine/results.go:82 | a character takes one to four UTF-8 bytes, and one exactly when it is ASCII |
| Text.Utf8Len | engine/results.go:73-82 | `len` of a string lies between its character count and four times that |
| Text.Utf8LenAscii | engine/results.go:73-82 | the byte length equals the character count exactly when every character is ASCII |
| Text.Atoi | engine/results.go:165 | the parsed value lies in the 64-bit range, and empty text gives 0 |
| Text.LeadingDigits | engine/results.go:165 | the leading digit run is a prefix of the text, all digits, and stops at the first non-digit |
| Text.AtoiRun | engine/results.go:165 | a text starting with a digit, with or without a minus sign, reads through its leading digit run: a later non-digit gives 0 unless the run has already overflowed 64 unsigned bits, else the run's value clamped to 64 bits |
| Text.AtoiTrailingJunk | engine/results.go:165 | digits that fit in 64 unsigned bits followed by a non-digit give 0, signed or not |
| Text.AtoiOverflow | engine/results.go:165 | digits that overflow 64 unsigned bits give the largest (or, after a minus sign, the smallest) 64-bit integer, whatever follows them |
| Text.AtoiDigits | engine/results.go:165 | a digit string parses as its value, and with a minus sign as its negation, clamped to 64 bits |
| Text.AtoiItoa | engine/results.go:163-176 | parsing the decimal form of a 64-bit integer gives that integer back |
| Text.ItoaInjective | engine/index.go:115-119 | distinct integers have distinct decimal forms, so a scene's group string names one group |
| ScoreBuffer.EmptyRows | engine/results.go:223-227 | `Use` makes one empty score row per query |
| ScoreBuffer.KeepScored | engine/results.go:233-251 | filtering never grows the buffer and keeps queries and rows aligned |
| ScoreBuffer.Survivors | engine/results.go:237-241 | the surviving positions are valid positions of the buffer |
| ScoreBuffer.SurvivorsExact | engine/results.go:237-241 | survivors are listed in increasing order, and a position is listed exactly when its query scores non-negatively |
| ScoreBuffer.KeepScoredSelects | engine/results.go:233-251 | the k-th kept query is the query at the k-th survivor, and its row is that position's old row plus the new score |
| ScoreBuffer.KeepScoredEmpty | engine/results.go:250 | nothing survives exactly when every query scores negatively |
| ScoreBuffer.KeepScoredExt | engine/results.go:233-251 | only the scores of the buffer's own queries affect the outcome |
| ScoreBuffer.KeepScoredRows | engine/results.go:243-245 | every kept row ends with the non-negative score its query just got |
| ScoreBuffer.ColMaxIsMax | engine/results.go:100-114 | the column maximum bounds every entry of its column and is one of them |
| EngineAction.Do | engine/action.go:63-98 | an action with neither a group nor a light fails with `ErrInvalidAction`; a failed refresh comes back wrapped; success is possible only after a successful refresh through a bridge call chosen by `Dispatch` |
| EngineAction.TargetText | engine/action.go:102-110 | the target is "<invalid>" exactly when there is neither a group nor a light |
| EngineAction.ChangeText | engine/action.go:112-122 | the change is empty exactly when there is no on/off, no colour and no scene |
| EngineAction.String | engine/action.go:101-124 | the text starts with the target and ": ", followed by the change text |
| EngineAction.Dispatch | engine/action.go:63-98 | a bridge call is made only after a successful refresh; a light call is made only for an action without a group |
| EngineAction.DoWithoutTarget | engine/action.go:97 | an action with neither a group nor a light fails with `ErrInvalidAction` |
| EngineAction.DoRefreshFailure | engine/action.go:65-84 | a failed refresh is returned wrapped with "Unable to find group" or "Unable to find light", before any call |
| EngineAction.GroupDispatch | engine/action.go:65-80 | for a group, a scene wins over on/off, on/off wins over a colour, and with none of them the action is invalid |
| EngineAction.LightDispatch | engine/action.go:81-95 | for a light, a colour wins over on/off, a scene is never used, and with neither the action is invalid |
| EngineAction.StringPrecedence | engine/action.go:101-125 | the target prints as the group, else the light, else "<invalid>"; the change prints as on/off, else the colour, else the quoted scene, else nothing |
| EngineQuery.ScanIndexMeaning | engine/query.go:106-123 | after scanning a prefix, the entry holds the first position of the keyword after the first field, else 0 |
| EngineQuery.KeywordIndexMeaning | engine/query.go:113-120 | the recorded position is the first occurrence of the keyword after the first field, or 0 when there is none |
| EngineQuery.KeywordIndexBound | engine/query.go:113-120 | a recorded position is always a valid index, so it never equals `len(fields)` |
| EngineQuery.KeywordIndexIgnoresFirst | engine/query.go:113-120 | the first field never affects a recorded position |
| EngineQuery.MakeQueryIndexes | engine/query.go:106-123 | the pooled map ends with exactly the four keywords, each at its recorded position, whatever the pool held before |
| EngineQuery.SplitPasses | engine/query.go:80-85 | there is one split pass per split point |
| EngineQuery.SplitPassesAt | engine/query.go:80-85 | the i-th split pass names the first i fields and changes by the rest |
| EngineQuery.KeywordBranches | engine/query.go:33-78 | the four keyword branches add exactly the keyword passes for the positions in the map |
| EngineQuery.SplitBranches | engine/query.go:79-84 | the loop appends, after what came before, one pass per split point from 0 to the number of fields, in order |
| EngineQuery.ParseQuery | engine/query.go:22-88 | the method's passes are the keyword passes followed by one pass per split point |
| EngineQuery.PassesEmpty | engine/query.go:24-27 | an empty or all-white-space request gives no passes, and any other request gives some |
| EngineQuery.PassesShape | engine/query.go:33-85 | a non-empty request ends with one pass per split point, in order, after at most three keyword passes |
| EngineQuery.NameOnOffNeverFires | engine/query.go:50 | the `[turn] NAME on/off` branch never fires, because a recorded position is always below `len(fields)` |
| EngineQuery.ToPassMeaning | engine/query.go:64-78 | the "to" pass is added exactly when "to" occurs after the second field with a field after it; its change is the text after "to" and its name the text before it, without the first field when "turn" was not recorded |
| EngineQuery.PassesLowerCase | engine/query.go:24 | no pass's name or change holds an upper-case letter |
| EngineQuery.TurnOnKitchen | engine/query.go:33-47 | with 0-based positions, "turn on kitchen" takes the `"on" NAME` branch and names "on kitchen" with the change "turn" |
| EngineResults.ScoreText | engine/results.go:72-83 | an empty target scores 0; the score is negative exactly when the matcher finds no match, and then it is -1; otherwise the score times the target's UTF-8 byte length (Go's `len`) is the rank |
| EngineResults.ScoreTextCountsBytes | engine/results.go:82 | a rank of 1 against "Küche" scores 1/6, because the target's five characters take six bytes |
| EngineResults.MatchTotalBound | engine/results.go:96-122 | the match score of a well-formed buffer is at most minus the sum of any one row |
| EngineResults.MatchTotalSingle | engine/results.go:96-122 | a buffer with one row scores minus the sum of that row |
| EngineResults.MatchGroup | engine/results.go:37-39 | a query's score against a group is negative exactly when the group has a name and the matcher finds no match |
| EngineResults.MatchLight | engine/results.go:42-44 | a query's score against a light is negative exactly when the light has a name and the matcher finds no match |
| EngineResults.MatchScene | engine/results.go:47-49 | a query's change scores negatively against a scene exactly when the scene has a name and the matcher finds no match |
| EngineResults.MatchOnOff | engine/results.go:52-54 | a query's change scores negatively against "on" or "off" exactly when the matcher finds no match |
| EngineResults.MatchColor | engine/results.go:57-63 | the score is non-negative exactly when the colour parses; then the colour is the parsed hex string, otherwise the result is "" and -1 |
| EngineResults.AsFloat64 | engine/results.go:96-122 | the method computes minus the sum of the column maxima, or 0 for an empty or ragged buffer |
| EngineResults.KindScore | engine/results.go:134-151 | kind 0 is a group on/off action, 1 a group scene, 2 a light on/off action and 3 anything else; each case holds in both directions |
| EngineResults.ItemIndexScore | engine/results.go:153-161 | the negated group ID, the light ID only without a group, and 0 without either; `HigherIdRanksFirst` states the ranking this gives |
| EngineResults.ActionIndexScore | engine/results.go:163-176 | a scene's parsed ID within the 64-bit range; without a scene, 1 exactly for "on", 2 exactly for "off", 0 exactly for neither; `SceneActionIndex` gives the scene case |
| EngineResults.ActionScore | engine/results.go:125-132 | the method computes the 4-part score of match quality, kind, item index and action index |
| EngineResults.SceneActionIndex | engine/results.go:163-176 | a scene whose ID is the decimal form of a 64-bit number is indexed by that number |
| EngineResults.LexLess | engine/results.go:179-191 | a score is less than another only when they differ |
| EngineResults.LexLessFirstDifference | engine/results.go:179-191 | one score is less than another exactly when, at the first component where they differ, its component is smaller |
| EngineResults.LexLessIrreflexive | engine/results.go:179-191 | no score is less than itself |
| EngineResults.LexLessTransitive | engine/results.go:179-191 | `Score.Less` is transitive |
| EngineResults.LexLessTotal | engine/results.go:179-191 | of two distinct scores, one is less than the other |
| EngineResults.LexLessAsymmetric | engine/results.go:179-191 | two scores are never each less than the other |
| EngineResults.NotLessTransitive | engine/results.go:179-191 | "not less" is transitive, so `Score.Less` orders the results totally |
| EngineResults.ScoreLess | engine/results.go:179-191 | the method compares component by component, the first difference deciding |
| EngineResults.KindRanks | engine/results.go:125-151 | at equal match quality, a lower kind ranks first |
| EngineResults.HigherIdRanksFirst | engine/results.go:153-161 | at equal match quality and kind, the group with the higher ID ranks first |
| EngineResults.Results.constructor | engine/results.go:12-16 | a new result set is empty |
| EngineResults.Results.Reset | engine/results.go:19-23 | resetting empties all three lists, whatever they held |
| EngineResults.Results.Add | engine/results.go:26-30 | adding appends the action, its score and its buffer to the three lists, in step |
| EngineResults.Results.Len | engine/results.go:209-211 | the length is the common length of the three lists |
| EngineResults.Results.Less | engine/results.go:213-215 | the method compares the two positions' scores by `Score.Less` |
| EngineResults.Results.Swap | engine/results.go:203-207 | swapping exchanges the two positions on all three lists, so entries stay aligned |
| EngineResults.Results.Insert | engine/results.go:198-201 | one insertion step keeps the entries as a permutation and extends the sorted prefix by one |
| EngineResults.Results.SwapDown | engine/results.go:203-207 | moving an entry one place down keeps the entries as a permutation |
| EngineResults.Results.Results | engine/results.go:198-201 | sorting leaves the entries as a permutation of themselves, sorted by score, with the three lists still aligned |
| EngineResults.FirstAnnotIsFirst | engine/results.go:260-285 | the annotation kept is the one of the first query that scores non-negatively, or the zero value when none does |
| EngineResults.ScoreQueries.constructor | engine/results.go:218-221 | a new buffer is empty |
| EngineResults.ScoreQueries.Use | engine/results.go:223-227 | the buffer holds a copy of the queries, each with an empty row |
| EngineResults.ScoreQueries.Score | engine/results.go:233-251 | the buffer keeps exactly the queries that score non-negatively, in order, each row extended by its score; the result says whether any survived |
| EngineResults.ScoreQueries.ScoreFinalAnnot | engine/results.go:260-285 | the method returns the same filtering without changing the buffer, and the first survivor's annotation |
| EngineResults.ScoreQueries.ScoreFinal | engine/results.go:253-258 | the method returns the filtering without changing the buffer |
| EngineRanking.MatchScore | engine/ranking.go:48-63 | the loop computes minus the sum of the largest first and the largest second score over all rows |
| EngineRanking.MatchTotalBound | engine/ranking.go:48-63 | the match score is at most minus the first two scores of any row |
| EngineRanking.MatchTotalAgrees | engine/ranking.go:48-63 | on rows of two scores, this match score equals `AsFloat64` of engine/results.go |
| EngineRanking.KindScore | engine/ranking.go:65-82 | this kind score is 3 minus the kind score of engine/results.go, so the order of kinds is reversed |
| EngineRanking.ActionIndexScore | engine/ranking.go:94-107 | "on" scores 2 and "off" 1, the reverse of engine/results.go; a scene scores as in engine/results.go |
| EngineRanking.LesserPriority | engine/ranking.go:25-37 | an action has lesser priority exactly when some score component of the other is lower |
| EngineRanking.SomeLowerIrreflexive | engine/ranking.go:25-37 | no action has lesser priority than itself |
| EngineRanking.SomeLowerNotAsymmetric | engine/ranking.go:25-37 | two actions can each have lesser priority than the other, so `Less` is not an order |
| EngineRanking.Computed | engine/ranking.go:39-46 | recomputing scores keeps the number of actions |
| EngineRanking.ComputeScores | engine/ranking.go:39-46 | each action's scores are overwritten in place with its computed scores |
| EngineRanking.Swap | engine/ranking.go:21-23 | swapping exchanges two positions and keeps the multiset |
| EngineRanking.Less | engine/ranking.go:18-20 | `Less(i, j)` is `LesserPriority` of the two actions |
| EngineRanking.Sort | engine/ranking.go:10-13 | sorting leaves a permutation of the actions with their recomputed scores |
| EngineRanking.ScoreQueries.constructor | engine/ranking.go:109-112 | a new buffer is empty |
| EngineRanking.ScoreQueries.Use | engine/ranking.go:115-119 | the buffer holds a copy of the queries, each with an empty row |
| EngineRanking.ScoreQueries.Score | engine/ranking.go:125-143 | the buffer keeps exactly the queries that score non-negatively, in order, each row extended by its score; the result says whether any survived |
| EngineRanking.ScoreQueries.ScoreFinal | engine/ranking.go:145-165 | the method returns the same filtering without changing the buffer |
| EngineIndex.NewIndex | engine/index.go:28-52 | without a bridge, an empty index and `ErrIndexNilBridge`; otherwise the fetched lists with the fetch error |
| EngineIndex.Query | engine/index.go:72-173 | the three returned lists are aligned, hold exactly the candidate entries in some order, and are sorted by score |
| EngineIndex.QueryGroups | engine/index.go:80-134 | the group loop adds the candidates of every group, in catalog order |
| EngineIndex.QueryLights | engine/index.go:136-170 | the light loop adds the candidates of every light, in catalog order |
| EngineIndex.QueryGroup | engine/index.go:81-133 | one group adds nothing unless a pass names it, then its on, off, colour and scene candidates |
| EngineIndex.QueryLight | engine/index.go:137-169 | one light adds nothing unless a pass names it, then its on, off and colour candidates |
| EngineIndex.AddIfAny | engine/index.go:91-96 | an action is added exactly when some pass survived |
| EngineIndex.AddChanges | engine/index.go:90-112 | the on, off and colour steps add their candidates, the colour being that of the first pass that parses as one |
| EngineIndex.AddScenes | engine/index.go:114-133 | the scene loop adds each scene of the group that some pass names |
| EngineIndex.QueryString | engine/index.go:55-57 | the query runs over the passes `ParseQuery` produces for the input |
| EngineIndex.NamedEmpty | engine/index.go:85-88 | no pass survives a name exactly when every pass scores negatively against it |
| EngineIndex.UnmatchedGroupAddsNothing | engine/index.go:85-88 | a group whose name no pass matches adds no candidate, whatever the passes' changes |
| EngineIndex.UnmatchedLightAddsNothing | engine/index.go:141-144 | a light whose name no pass matches adds no candidate |
| EngineIndex.SceneAddedShape | engine/index.go:115-119 | a scene candidate's scene names the group's ID in decimal |
| EngineIndex.GroupCandidates | engine/index.go:80-134 | every candidate of a group is that group's on, off, colour or scene action, with a non-empty buffer |
| EngineIndex.LightCandidates | engine/index.go:136-170 | every candidate of a light is that light's on, off or colour action, never a scene, with a non-empty buffer |
| EngineIndex.CandidatesShape | engine/index.go:72-173 | over the whole index, every candidate has a non-empty buffer, a scene candidate belongs to a group whose decimal ID it names, and a candidate without a group is a light action without a scene |
| EngineState.LinkSpecial | engine/engine.go:215-217 | without a bridge the answer is the single link action, with one empty buffer and one zero score |
| EngineState.Engine.constructor | engine/engine.go:32-40 | a new engine is read-only exactly when it is given a bridge, and has no index yet |
| EngineState.Engine.RefreshIndex | engine/engine.go:43-82 | a cancelled context or a missing bridge change nothing; otherwise the index and its error become the fetched ones, and that error is returned |
| EngineState.Engine.SetBridge | engine/engine.go:84-99 | the bridge is installed, the old index dropped and read-only mode turned on |
| EngineState.Engine.Query | engine/engine.go:105-125 | the link action without a bridge, `ErrEngineMissingIndex` without an index, the stored error after a failed refresh, and otherwise the index's sorted candidates for the input |
| EngineState.Engine.LinkInternal | engine/engine.go:178-204 | without the write lock it refuses; with a bridge it does nothing; without a callback, or when the callback fails, it reports the error; otherwise it installs the bridge and turns read-only on |
| EngineState.Engine.Link | engine/engine.go:171-176 | under the write lock: with a bridge, nothing changes; without one, a missing callback (in the state before the call) gives `ErrEngineNoConnect` and a failing callback its error, both with the state unchanged; otherwise the bridge is installed and read-only is on, with the index, its error and the callback flag unchanged |
| EngineState.Engine.DoSpecial | engine/engine.go:162-168 | any special other than link fails with `ErrEngineInvalidSpecial`; link (always under the write lock) does nothing when a bridge is linked, fails with `ErrEngineNoConnect` without a connect callback, returns the callback's error when it fails, and otherwise installs the new bridge and turns read-only on |
| EngineState.Engine.Do | engine/engine.go:128-147 | once the engine is read-only, `Do` changes no engine state and a link special succeeds; a normal action goes to `Action.Do`; an unknown special fails; on a writable engine a link special has the three outcomes of `linkInternal`: no callback, the callback's error, or the bridge installed and read-only on |
| HuelioQuery.ParseAction | query.go:161-170 | a parsed action never has both a scene and an on/off change |
| HuelioQuery.ParseActionMeaning | query.go:161-170 | the trimmed, lower-cased text is the on/off change when it is "on" or "off", and the scene otherwise |
| HuelioQuery.ParseActionNoUpper | query.go:162 | a parsed action holds no upper-case letter |
| HuelioQuery.ParseActionKeywordExamples | query_test.go:5-10 | "on" and "off" parse as on/off changes with no scene, as the package's example shows |
| HuelioQuery.ParseActionSceneExample | query_test.go:8-11 | "stuff" parses as a scene with no on/off change, as the package's example shows |
| HuelioQuery.IsOnOff | query.go:141-143 | an action with a scene is never an on/off action, and one with no scene and no on/off change counts for both "on" and "off" |
| HuelioQuery.ParseActionIsOnOff | query.go:141-143 | a parsed action is an "on" (or "off") change exactly when its text is that keyword or blank |
| HuelioQuery.ActionString | query.go:145-156 | an action prints as "<invalid>" exactly when it has no scene and no on/off change |
| HuelioQuery.QueryString | query.go:17-19 | a query prints as its quoted name, ": ", then its action |
| HuelioQuery.Filter | query.go:32-40 | filtering never grows the list |
| HuelioQuery.AnyQueries | query.go:22-29 | the loop reports whether some query satisfies the predicate |
| HuelioQuery.FilterQueries | query.go:32-40 | the loop returns the matching queries in order, and whether there are any |
| HuelioQuery.FilterMembers | query.go:32-40 | a query is kept exactly when it is an input that satisfies the predicate |
| HuelioQuery.FilterAppend | query.go:32-40 | filtering keeps the order of the input |
| HuelioQuery.AnyFilter | query.go:22-40 | some query matches exactly when filtering keeps one |
| HuelioQuery.FirstIndexMeaning | query.go:55-60 | the map holds the 1-based position of a word's first occurrence, or 0 when it does not occur |
| HuelioQuery.FieldIndexes | query.go:55-60 | reading the built map gives every word's first 1-based position, and 0 for absent words |
| HuelioQuery.Recorded | query.go:62-69 | the looked-up keyword positions lie within the fields, and no two keywords share one |
| HuelioQuery.PositionsOf | query.go:62-69 | the positions read from the map are the recorded ones |
| HuelioQuery.KeywordBranches | query.go:71-100 | the first three keyword branches add exactly the keyword passes for the looked-up positions |
| HuelioQuery.NameOnOffBranch | query.go:87-100 | the `[turn] NAME on/off` branch adds exactly its pass |
| HuelioQuery.ToBranch | query.go:102-116 | the "to" branch adds exactly the pass the as-written slicing gives |
| HuelioQuery.Branches | query.go:71-131 | the branches add the keyword passes, the "to" pass and the two final passes for the looked-up positions, in that order |
| HuelioQuery.ParseQuery | query.go:47-131 | on every input that does not panic, the passes are the keyword passes, then the whole text as a name, then the whole text as an action |
| HuelioQuery.PassesEmpty | query.go:48-51 | an empty or all-white-space request gives no passes, and any other request gives some |
| HuelioQuery.PassesShape | query.go:47-131 | a non-empty request gives two to five passes (the two leading-keyword branches exclude each other), ending with the whole text as a name with no action and the whole text as an action with no name |
| HuelioQuery.LastKeywordPrecedence | query.go:88 | because `&&` binds tighter than `\|\|`, "on" alone is read as a `NAME on` pass with an empty name, but "off" alone is not |
| HuelioQuery.NameOnOffFires | query.go:88 | the third branch fires exactly when "on" first occurs last, or "off" first occurs last among two or more fields |
| HuelioQuery.ToPanicsMeaning | query.go:103-107 | `ParseQuery` panics exactly when "to" is the first of several fields and "turn" does not occur |
| HuelioQuery.ToPassDropsFirstField | query.go:105-109 | as written, "kitchen to relax" yields the name "" |
| HuelioQuery.ToPassKeepsTurn | query.go:110-114 | as written, "turn kitchen to relax" yields the name "turn kitchen" |
| HuelioQuery.ToRelaxPanics | query.go:107 | as written, "to relax" slices `fields[1:0]` |
| HuelioQuery.IntendedToPassFires | query.go:102-103 | the corrected "to" pass is added exactly when "to" occurs with at least one field after its first occurrence |
| HuelioQuery.IntendedToPassMeaning | query.go:102-116 | when "to" first occurs at k with a field after it, the corrected pass names the text between a leading "turn" and "to" and acts on the text after "to" |
| HuelioQuery.IntendedPassesLowerCase | query.go:48 | no pass's name or action holds an upper-case letter |
| HuelioAction.ToEngine | action.go:12-23 | a root action corresponds field by field to an engine action without a colour |
| HuelioAction.Dispatch | action.go:34-62 | a call is made only after a successful refresh: a scene activation or a group state for a group, a light state only for an action without a group; any other failure is `ErrInvalidAction` |
| HuelioAction.Do | action.go:34-62 | a failed refresh comes back wrapped with "Unable to find group" or "Unable to find light"; an action without a target is invalid |
| HuelioAction.GroupDispatch | action.go:41-48 | for a group, a scene wins over on/off, and with neither the action is invalid |
| HuelioAction.LightDispatch | action.go:54-59 | for a light only on/off counts, a scene is ignored, and anything else is invalid |
| HuelioAction.DispatchAgrees | action.go:34-62 | the root dispatch equals the engine package's dispatch without a colour, except for which package's invalid-action error it returns |
| HuelioAction.TargetText | action.go:66-74 | the printed target agrees with the engine package's for the same action |
| HuelioAction.ChangeText | action.go:76-84 | the printed change agrees with the engine package's for the same action without a colour |
| HuelioAction.String | action.go:65-87 | the printed action agrees with the engine package's `Action.String` |
| HuelioAction.StringPrecedence | action.go:65-87 | the target prints as the group, else the light, else "<invalid>"; the change prints as on/off, else the quoted scene, else nothing |
| HuelioRanking.MatchScore | engine_ranking.go:38-53 | an empty buffer scores 0, the score is at most minus the first two scores of any row, and it equals the engine package's loop |
| HuelioRanking.KindScore | engine_ranking.go:55-72 | kind 3 is a group on/off action, 2 a group scene, 1 a light on/off action and 0 anything else; each case holds in both directions; the value equals the engine package's |
| HuelioRanking.ItemIndexScore | engine_ranking.go:74-82 | the negated group ID, else the negated light ID, else 0; equal to the engine package's |
| HuelioRanking.ActionIndexScore | engine_ranking.go:84-97 | without a scene, "on" scores 2, "off" 1 and anything else 0; equal to the engine package's |
| HuelioRanking.SceneActionIndex | engine_ranking.go:85-88 | a scene whose ID is the decimal form of a 64-bit number is indexed by that number |
| HuelioRanking.ScoresOf | engine_ranking.go:30-36 | an action's four scores are those engine/ranking.go computes for the same action |
| HuelioRanking.Scores | engine_ranking.go:30-36 | the method fills the four scores in order |
| HuelioRanking.LesserPriority | engine_ranking.go:16-28 | an action has lesser priority exactly when some score of the other is lower |
| HuelioRanking.SomeLowerIrreflexive | engine_ranking.go:16-28 | no action has lesser priority than itself |
| HuelioRanking.SomeLowerNotAsymmetric | engine_ranking.go:16-28 | turning group 7 on and turning light 1 on each have lesser priority than the other, so `Less` is not an order |
| HuelioRanking.Swap | engine_ranking.go:12 | swapping exchanges two positions and keeps the multiset |
| HuelioRanking.Less | engine_ranking.go:11 | `Less(i, j)` is `LesserPriority` of the two actions |
| HuelioRanking.Sort | engine_ranking.go:13 | sorting leaves a permutation of the actions |
| HuelioRanking.ScoreQueries.constructor | engine_ranking.go:99-102 | a new buffer is empty |
| HuelioRanking.ScoreQueries.Use | engine_ranking.go:105-109 | the buffer holds a copy of the queries, each with an empty row |
| HuelioRanking.ScoreQueries.Score | engine_ranking.go:115-133 | the buffer keeps exactly the queries that score non-negatively, in order, each row extended by its score; the result says whether any survived |
| HuelioRanking.ScoreQueries.ScoreFinal | engine_ranking.go:135-155 | the method returns the same filtering without changing the buffer |
| HuelioEngine.ConcatMember | engine.go:104-184 | an action is found exactly when it comes from one of the groups or lights |
| HuelioEngine.Engine.constructor | engine.go:27-33 | the new engine keeps the invariant that without a bridge the stored error is `ErrNoBridge`; a new engine without a bridge holds `ErrNoBridge` and no catalog; with a bridge it holds the fetched lists and the fetch error |
| HuelioEngine.Engine.UseInternal | engine.go:46-74 | keeps the invariant that without a bridge the stored error is `ErrNoBridge`; a given bridge replaces the current one and no bridge keeps it; with no bridge at all the result is `ErrNoBridge` and nothing changes; otherwise the lists and the stored error become the fetched ones |
| HuelioEngine.Engine.Use | engine.go:37-40 | `Use` behaves as `useInternal` and keeps the same invariant |
| HuelioEngine.Engine.Bridge | engine.go:77-89 | the result is exactly one of a bridge and an error: the stored error if there is one, else `ErrNoBridge` without a bridge, else the bridge with no error; once a fetch has succeeded, the bridge is returned |
| HuelioEngine.Engine.Run | engine.go:96-187 | with a stored error, that error and no actions; otherwise every group's actions, then every light's |
| HuelioEngine.Engine.Query | engine.go:91-93 | `Run` over the passes `ParseQuery` gives for the input as written: the stored error and no actions, or the actions of every group, then every light, for those passes |
| HuelioEngine.Engine.IntendedQuery | engine.go:91-93 | the same as `Query`, over the passes with the "to" branch corrected, for every input |
| HuelioEngine.RunGroups | engine.go:104-153 | the group loop collects every group's actions in catalog order |
| HuelioEngine.RunLights | engine.go:155-184 | the light loop collects every light's actions in catalog order |
| HuelioEngine.RunGroup | engine.go:105-152 | one group contributes nothing unless a pass names it, and otherwise its on and off actions, then its scenes |
| HuelioEngine.RunLight | engine.go:156-183 | one light contributes nothing unless a pass names it, and otherwise its on and off actions |
| HuelioEngine.OnOff | engine.go:116-129 | "on" is added when some named pass asks for on or for nothing, then "off" likewise |
| HuelioEngine.GroupActionsShape | engine.go:104-153 | every action of a group is for that group, and a scene action's scene belongs to it |
| HuelioEngine.RunShape | engine.go:96-187 | every action found is a group's on/off or scene action, or a light's on/off action; no group action comes after a light action |
| HuelioEngine.NamedOnly | engine.go:111-114 | a group or light contributes actions only when some pass names it |
| HuelioEngine.OnOffExact | engine.go:116-129 | a group (or light) is turned on exactly when some pass names it and asks for on or for nothing; likewise for off |
| HuelioEngine.AnyMembers | query.go:22-29 | `anyQueries` holds exactly when some member satisfies the predicate |
| HuelioEngine.SceneExact | engine.go:131-152 | a scene is offered for a group exactly when it belongs to the group and some pass names both the group and the scene |
| HuelioEngine.RunGroupOnOff | engine.go:104-129 | `Run` turns a group on (or off) exactly when it is in the catalog and some pass names it and asks for that change or for nothing |

## Left out

- Bridge I/O: fetching groups, lights and scenes, refreshing one entity and setting state are round trips to the bridge. Their outcomes are parameters (`Fetched`, the refresh error, an `execute` function).
- Concurrency: the `errgroup` fetches, `go RefreshIndex()`, `go useInternal(...)`, the read/write locks and the `sync.Pool` objects are not modelled. Every method runs as one step and a pooled object is a fresh one. `errgroup` reporting the first error is a single error in `Fetched`.
- Fuzzy matching (`fuzzy.RankMatchNormalizedFold`, `fuzzy.MatchFold`) and the colour parser (`csscolorparser` with `colorful`) are function parameters. `Action.ColorXY` is reduced to whether it yields coordinates.
- Floating point: scores are reals, so NaN, infinities and rounding are not modelled.
- Text: `strings.ToLower` is modelled for A to Z only, and `%q` without Go's escaping of special characters. `strconv.Atoi` errors are discarded, as in the source. Out-of-range values are clamped to 64 bits, including digits that overflow 64 unsigned bits before a non-digit, as `ParseUint` stops at the overflow.
- `ParseChange` (engine/change.go) is not part of this model. A pass's change is the raw joined text, and `MatchOnOff`, `MatchScene` and `MatchColor` read that text.
- The `QueryBuffer` type with `Finalize` and `FinalizeAnnot`, which engine/index.go uses, is not part of this model. It is modelled by `ScoreQueries` with `ScoreFinal` and `ScoreFinalAnnot` of engine/results.go.
- EngineRanking.Sort, EngineResults.Results.Results, HuelioRanking.Sort: `sort.Sort` is modelled as an insertion sort. For engine/results.go only "sorted and a permutation" is claimed; for the `LesserPriority` sorts, which compare by a relation that is not an order, only "a permutation".
- The Go slice aliasing in `ScoreQueries.Score`, where appending to a row may write into memory shared with other rows, is not modelled. Rows are values.
- The root `QueryAction` has a `scores [4]float64` field that nothing reads; it is left out. engine_ranking.go reads its score rows from `action.Score`, which is modelled as `matchScores`.
- engine/ranking.go reads `action.scores` and `action.matchScores`, which the `Action` of engine/action.go does not declare; the file that declares them is not part of this model. They are modelled by `EngineRanking.ScoredAction`, an action paired with a four-entry score tuple and a score buffer.
- `ActionGroup`, `ActionScene` and `ActionLight`, which engine.go builds, are not part of this model. They and `HueGroup`/`HueLight`/`HueScene` are modelled by the catalog records.
- EngineState.ConnectOutcome: the connect callback is assumed to return a bridge or an error. A callback returning neither, which engine/engine.go:193-199 would accept by turning read-only on with no bridge, is not expressible; the callback in creds/manager.go always returns one of the two.
- Text.Utf8Len: strings are sequences of Unicode scalar values, so Go strings holding invalid UTF-8 bytes are not modelled.
- EngineState.Engine.SetBridge: the panic on a nil bridge is left out, as the parameter cannot be nil.
- `Engine.logDo` (JSON logging of an action) and all other logging are not modelled.
- JSON encoding, the HTTP server, the GUI, the service wrappers and credential storage are outside the resolution core.
- HuelioQuery.ParseQuery: inputs on which the source panics are excluded by its precondition, `!ToPanics(value)`. `ToPanicsMeaning` characterises them, and the corrected `IntendedPasses` is defined for every input.
- HuelioEngine.Engine.Query: like `ParseQuery`, it excludes the inputs on which the source panics, by its precondition `!ToPanics(input)`. `HuelioEngine.Engine.IntendedQuery` runs on the corrected passes for every input.

## Findings

| source | as written | input that shows it | evidently intended | confidence | as-written member | corrected member |
|---|---|---|---|---|---|---|
| query.go:103-116 | The two name slices of the "to" branch are swapped. Without "turn" the name is `fields[1:toIndex-1]`, which drops the first word. With "turn" it is `fields[:toIndex-1]`, which keeps "turn". With "to" as the first of several words, `fields[1:0]` panics. | "kitchen to relax" gives the name ""; "turn kitchen to relax" gives "turn kitchen"; "to relax" panics | The name is the text before "to", without a leading "turn", as the `[turn] NAME on/off` branch reads it | not executed | HuelioQuery.ToPass, HuelioQuery.ToPassDropsFirstField, HuelioQuery.ToPassKeepsTurn, HuelioQuery.ToRelaxPanics, HuelioEngine.Engine.Query | HuelioQuery.IntendedToPass, HuelioQuery.IntendedToPassFires, HuelioQuery.IntendedToPassMeaning, HuelioEngine.Engine.IntendedQuery |
