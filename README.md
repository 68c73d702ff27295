# mastraAgent_qfield tool core, modelled in Dafny

This project models the four tool modules behind the repository's agents.

- **ff-tasks**: a task list kept in one PostgreSQL table `ff_tasks`. It has
  add, list, update, get, search and delete tools. Each tool first resolves
  `POSTGRES_URL || DATABASE_URL`.
- **ldp-compass**: the deep-work planner.
  - The block allocator (blocks 1-5, planning or completion mode, energy notes).
  - The anchor nudger (5pm exercise, 8pm boys time, 22:30 bed time).
  - The weekly reflection: block completion against 28 blocks, energy, the
    exercise and sleep anchors, their fallbacks and the focus for next week.
  - The `parseTimeToMinutes` helper.
- **diary-guide**: the journalling companion.
  - The keyword sentiment score and its label.
  - The progress tracker: starting report, mean score, trend of the last three scores and week number.
  - The nudge chosen from the days since the last entry.
  - The per-pillar question, resource and curated-resource tables.
- **agent-builder**: collects an agent specification, then generates the
  agent's system prompt, its suggested tools, its export name (`toCamelCase`)
  and its file name.

The files are:

- `common.dfy` (module `Common`): helpers shared by all four tools.
  - ASCII case mapping.
  - `includes` and `LIKE '%q%'` substring search.
  - Decimal numerals and `Number()` of a digit string.
  - JavaScript `split`/`join` on one separator character.
- `ff_tasks.dfy` (module `FfTasks`): the table as a value.
  - The row Add inserts and the effect of Update's UPDATE statement.
  - The row Delete removes.
  - The List filters and the two ORDER BY orderings.
  - The case-insensitive Search.
- `ff_task_store.dfy` (module `FfTaskStore`): the store as a class.
  - Its `rows` and `clock` are changed in place by `Add`, `Update` and `Delete`.
  - `Get`, `List` and `Search` read them.
- `ldp_compass.dfy`, `diary_guide.dfy` and `agent_builder.dfy`: one module per
  tool file.
  - Loops and push sequences of the source are methods proved against
    specification functions.
  - Pure decision logic is written as functions and lemmas.

Texts that the source builds from a fixed set of templates are modelled as tagged values, for example `Win`, `Adjustment`, `AnchorNudge` and `NudgeKind`. Each has a separate text function where the exact wording matters.

## Model

| member | source | states |
|---|---|---|
| FfTasks.DatabaseUrlChoice | src/mastra/tools/ff-tasks.tool.ts:6-20 | a client exists iff POSTGRES_URL or DATABASE_URL is non-empty; POSTGRES_URL wins, and the URL used is never empty |
| FfTasks.IndexOf | src/mastra/tools/ff-tasks.tool.ts:301-310 | `SELECT ... WHERE id = ...` finds nothing exactly when no row has the id; otherwise it finds the first row with that id |
| FfTasks.FilterRows | src/mastra/tools/ff-tasks.tool.ts:195-212 | a WHERE clause keeps exactly the rows it accepts and never adds rows |
| FfTasks.FilterAll | src/mastra/tools/ff-tasks.tool.ts:211 | with no condition the SELECT returns the table unchanged |
| FfTasks.FilterKeepsInvariant | src/mastra/tools/ff-tasks.tool.ts:195-212 | any selection from a well-formed table is itself well formed (rows pairwise apart, timestamps ordered) |
| FfTasks.FilterAppend | src/mastra/tools/ff-tasks.tool.ts:195-212 | filtering two runs of rows is filtering each run and concatenating the results |
| FfTasks.FilterSplit | src/mastra/tools/ff-tasks.tool.ts:195-212 | filtering around one row: the rows before it, the row itself if accepted, then the rows after it |
| FfTasks.RankInjective | src/mastra/tools/ff-tasks.tool.ts:215-222 | the CASE ranks the four priorities 0..3, each with a different rank |
| FfTasks.PrecedesOrder | src/mastra/tools/ff-tasks.tool.ts:224-230 | each ORDER BY is reflexive, total and transitive, and strict on rows that are apart |
| FfTasks.Insert | src/mastra/tools/ff-tasks.tool.ts:224-230 | inserting a row into a sorted run keeps it sorted and adds exactly that row |
| FfTasks.SortRows | src/mastra/tools/ff-tasks.tool.ts:224-230 | the ORDER BY result is sorted and a permutation of the selected rows |
| FfTasks.SortedHeadsAgree | src/mastra/tools/ff-tasks.tool.ts:224-230 | two sorted arrangements of the same rows that are pairwise apart start with the same row |
| FfTasks.SortedUnique | src/mastra/tools/ff-tasks.tool.ts:224-230 | rows that are pairwise apart have only one sorted arrangement, so every ORDER BY is deterministic |
| FfTasks.NewRecordWellFormed | src/mastra/tools/ff-tasks.tool.ts:117-129 | the inserted row is well formed at the clock reading that stamped it |
| FfTasks.AddThenGet | src/mastra/tools/ff-tasks.tool.ts:113-141 | after the INSERT the id is found with the given title and description, status 'pending', the priority (default 'medium'), the category or null, the tags, the due date or null, both timestamps equal to now, and no completion stamp |
| FfTasks.AddKeepsInvariant | src/mastra/tools/ff-tasks.tool.ts:117-129 | adding a row with a fresh id at the next clock reading keeps the table invariant |
| FfTasks.UpdatePartial | src/mastra/tools/ff-tasks.tool.ts:335-344 | COALESCE: each given field is written and each omitted field is kept; updated_at is now; completed_at changes exactly when the status becomes 'completed' and the row had no stamp; every other column is kept |
| FfTasks.EmptyUpdateTouchesOnlyUpdatedAt | src/mastra/tools/ff-tasks.tool.ts:335-344 | an update that supplies nothing changes only updated_at |
| FfTasks.UpdateKeepsInvariant | src/mastra/tools/ff-tasks.tool.ts:335-344 | updating one row at the next clock reading keeps the table invariant |
| FfTasks.CompletionIsStampedOnce | src/mastra/tools/ff-tasks.tool.ts:319-341 | over any sequence of updates, a completion stamp is never overwritten, and one exists iff the row had one or some update set 'completed' |
| FfTasks.CompletionStampIsFirstCompletion | src/mastra/tools/ff-tasks.tool.ts:319-341 | the stamp is the time of the first update that completed the task |
| FfTasks.DeleteRemovesExactlyOne | src/mastra/tools/ff-tasks.tool.ts:572-584 | DELETE ... WHERE id removes the row with that id and no other, shrinking the table by one; with no such row the table is unchanged |
| FfTasks.WithoutUniqueRow | src/mastra/tools/ff-tasks.tool.ts:584 | in a table with unique ids, deleting one id cuts out exactly that row's position |
| FfTasks.HoldsAllPush | src/mastra/tools/ff-tasks.tool.ts:202-209 | adding a condition to the AND-joined list strengthens the WHERE clause by exactly that condition |
| FfTasks.BuildConditions | src/mastra/tools/ff-tasks.tool.ts:202-209 | the pushed conditions hold of a row iff it matches every filter that is not "all" (the category only when it is a non-empty string); there is one condition per such filter |
| FfTasks.ListRows | src/mastra/tools/ff-tasks.tool.ts:195-232 | List returns exactly the matching rows, sorted by `sortBy`, as a permutation of the filtered rows |
| FfTasks.ListAllReturnsEveryRow | src/mastra/tools/ff-tasks.tool.ts:211 | with every filter "all", List returns every row of the table |
| FfTasks.ListOrderIsDeterministic | src/mastra/tools/ff-tasks.tool.ts:224-232 | on a well-formed table, any sorted arrangement of the selected rows is the one List returns |
| FfTasks.SortedApartArrangement | src/mastra/tools/ff-tasks.tool.ts:224-230 | a permutation of rows that are pairwise apart is itself pairwise apart |
| FfTasks.MultiplicityOneWhenApart | src/mastra/tools/ff-tasks.tool.ts:49 | a row occurs only once in a table whose rows are pairwise apart (the primary key) |
| FfTasks.SearchRows | src/mastra/tools/ff-tasks.tool.ts:489-521 | Search returns exactly the rows whose chosen field (or any tag) contains the lower-cased query, newest first, each matching row as often as the WHERE clause keeps it |
| FfTasks.SearchOrderIsDeterministic | src/mastra/tools/ff-tasks.tool.ts:489-521 | on a well-formed table, any newest-first arrangement of the matching rows is the search result |
| FfTasks.SearchIgnoresQueryCase | src/mastra/tools/ff-tasks.tool.ts:489 | upper-casing the query does not change the result |
| FfTasks.SearchFindsTitle | src/mastra/tools/ff-tasks.tool.ts:492-497 | a row whose title contains the query verbatim is found by a title or title-and-description search |
| FfTasks.SearchFindsTag | src/mastra/tools/ff-tasks.tool.ts:504-512 | a row with a tag containing the query is found by a tags search |
| FfTasks.MapListView | src/mastra/tools/ff-tasks.tool.ts:234-243 | one listed entry per row, in order |
| FfTasks.MapSearchView | src/mastra/tools/ff-tasks.tool.ts:523-531 | one found entry per row, in order |
| FfTaskStore.TaskStore.constructor | src/mastra/tools/ff-tasks.tool.ts:42-71 | the table starts empty, with the clock at 0 |
| FfTaskStore.TaskStore.Add | src/mastra/tools/ff-tasks.tool.ts:102-151 | unconfigured: fails and changes nothing; a taken id: fails as the INSERT does and changes nothing; otherwise appends the new record at the next clock reading and reports its id, title, 'pending' and the priority; the invariant is kept |
| FfTaskStore.TaskStore.Update | src/mastra/tools/ff-tasks.tool.ts:288-374 | unconfigured or unknown id: fails and changes nothing; otherwise rewrites only that row as the UPDATE does, at the next clock reading, and reports the row read back |
| FfTaskStore.TaskStore.Delete | src/mastra/tools/ff-tasks.tool.ts:559-597 | unconfigured or unknown id: fails and changes nothing; otherwise reports the deleted title and removes exactly that row; afterwards the id is gone |
| FfTaskStore.TaskStore.Get | src/mastra/tools/ff-tasks.tool.ts:404-451 | unconfigured: fails; unknown id: not found; otherwise returns the stored row with that id |
| FfTaskStore.TaskStore.List | src/mastra/tools/ff-tasks.tool.ts:181-260 | unconfigured: empty and total 0; otherwise the list view of `ListRows`; `total` is the number of entries |
| FfTaskStore.TaskStore.Search | src/mastra/tools/ff-tasks.tool.ts:476-542 | unconfigured: empty and total 0; otherwise the search view of `SearchRows`; `total` is the number of entries |
| LdpCompass.Allocation | src/mastra/tools/ldp-compass.tools.ts:26-34 | a block number has an allocation exactly when it is 1..5; anything else is "Undefined block" |
| LdpCompass.BandsAreOrdered | src/mastra/tools/ldp-compass.tools.ts:53-61 | more energy never gives a lower band, and the steady band is exactly 4..6 |
| LdpCompass.AllocateBlock | src/mastra/tools/ldp-compass.tools.ts:22-69 | planning: the block's allocation plus the hint of its tier, with no energy note; completion: the completion line, and an energy note exactly when a non-zero energy is given, naming its band |
| LdpCompass.SplitTime | src/mastra/tools/ldp-compass.tools.ts:332 | "HH:MM" with digit pieces splits at ':' into exactly the hours and minutes |
| LdpCompass.ParseTimeOfDigits | src/mastra/tools/ldp-compass.tools.ts:331-334 | digits ':' digits parses to hours * 60 + minutes |
| LdpCompass.ParseTimeOfPieces | src/mastra/tools/ldp-compass.tools.ts:331-334 | any string that splits into two digit pieces parses to hours * 60 + minutes |
| LdpCompass.ParseTimeRoundTrip | src/mastra/tools/ldp-compass.tools.ts:331-334 | printing hours and minutes and parsing the result gives hours * 60 + minutes back |
| LdpCompass.TargetBedMinutes | src/mastra/tools/ldp-compass.tools.ts:219-221 | the 22:30 target is 1350 minutes |
| LdpCompass.ParseTimeWithoutColon | src/mastra/tools/ldp-compass.tools.ts:331-334 | a time with no ':' has no minutes piece and parses to NaN |
| LdpCompass.AdviseSleep | src/mastra/tools/ldp-compass.tools.ts:226-236 | optimal iff quality >= 7 and the bed time is within 30 minutes of target; low quality iff quality < 5; late by `floor(variance / 60)` hours only past +30; early only before -30; no advice in every other case, including NaN |
| LdpCompass.LateByLessThanAnHour | src/mastra/tools/ldp-compass.tools.ts:232-233 | 31..59 minutes late reports "0h late" |
| LdpCompass.EarlyNightIsNotOptimal | src/mastra/tools/ldp-compass.tools.ts:226-235 | more than 30 minutes early is never optimal: low quality below 5, early-bed advice otherwise |
| LdpCompass.AdviseNight | src/mastra/tools/ldp-compass.tools.ts:226-236 | a nudge is set exactly when a sleep rule fires, and it carries that rule; a pattern only for an optimal or low-quality night |
| LdpCompass.NudgeAnchor | src/mastra/tools/ldp-compass.tools.ts:188-251 | each anchor's status and nudge by `completed` (true, false, absent); a logged night (quality and bed time both truthy) follows AdviseSleep, with the consistent-bed-time pattern for an optimal night, the late-blocks pattern for a low-quality night and none otherwise; otherwise the sleep target and tracking nudge; the check anchor lists the anchors |
| LdpCompass.DigitsBelowPow10 | src/mastra/tools/ldp-compass.tools.ts:298 | k decimal digits read as less than 10^k |
| LdpCompass.ValueBands | src/mastra/tools/ldp-compass.tools.ts:297-299 | comparing a printed number with a whole threshold through its whole part is the real comparison |
| LdpCompass.HeadlineOfSentence | src/mastra/tools/ldp-compass.tools.ts:317-319 | the first sentence of "h. rest" is h when h has no sentence end |
| LdpCompass.HeadlineHasNoSentenceEnd | src/mastra/tools/ldp-compass.tools.ts:291-313 | no adjustment's first sentence contains ". " |
| LdpCompass.FocusNamesFirstSentence | src/mastra/tools/ldp-compass.tools.ts:317-319 | the focus names the whole first sentence of the first adjustment |
| LdpCompass.FocusText | src/mastra/tools/ldp-compass.tools.ts:317-319 | a focus on an adjustment reads "Fix: ..."; with no adjustment it is the momentum line |
| LdpCompass.FocusTextNamesFirstSentence | src/mastra/tools/ldp-compass.tools.ts:317-319 | the focus line is "Fix: " and the adjustment's first sentence; with whole-number figures that equals the source's cut at the first '.' |
| LdpCompass.BeforeFirstDotOf | src/mastra/tools/ldp-compass.tools.ts:318 | `split('.')[0]` is the text before the first '.' |
| LdpCompass.LowEnergyTextAtPoint | src/mastra/tools/ldp-compass.tools.ts:300 | a fractional average puts its decimal point inside the low-energy text |
| LdpCompass.FocusCutsFraction | src/mastra/tools/ldp-compass.tools.ts:317-319 | as written, a fractional low energy cuts the focus at its decimal point, which differs from the first sentence |
| LdpCompass.FocusCutsFractionalEnergy | src/mastra/tools/ldp-compass.tools.ts:300-318 | as written, an average of 4.5 gives the focus "Low energy (4" |
| LdpCompass.WholeHeadlineHasNoDot | src/mastra/tools/ldp-compass.tools.ts:291-313 | with a whole-number energy, no adjustment headline contains '.' |
| LdpCompass.AdjustmentTextAtStop | src/mastra/tools/ldp-compass.tools.ts:291-313 | every adjustment except "Keep current protocol." is its headline, ". " and its advice |
| LdpCompass.CutsAgreeOnWholeNumbers | src/mastra/tools/ldp-compass.tools.ts:317-319 | with a whole-number energy, `split('.')[0]` and the first sentence agree |
| LdpCompass.NextWeekFocus | src/mastra/tools/ldp-compass.tools.ts:317-319 | the focus is the momentum line exactly when the rules pushed no adjustment |
| LdpCompass.CompletionIsPercentage | src/mastra/tools/ldp-compass.tools.ts:280-281 | the integer test `blocks * 100 >= pct * 28` is `blocks / 28 * 100 >= pct` |
| LdpCompass.PushBlockNotes | src/mastra/tools/ldp-compass.tools.ts:287-294 | the block analysis appends exactly the block wins and adjustments |
| LdpCompass.PushEnergyNotes | src/mastra/tools/ldp-compass.tools.ts:297-301 | the energy analysis appends exactly the energy win or adjustment |
| LdpCompass.PushAnchorNotes | src/mastra/tools/ldp-compass.tools.ts:304-314 | the anchor analysis appends exactly the exercise and sleep notes, in that order |
| LdpCompass.WeeklyReflection | src/mastra/tools/ldp-compass.tools.ts:277-327 | the reflection built step by step is `Reflect`, the rule table proved below |
| LdpCompass.ReflectionNeverEmpty | src/mastra/tools/ldp-compass.tools.ts:321-325 | wins and adjustments are never empty |
| LdpCompass.OnlyBlockRulesAdjustBlocks | src/mastra/tools/ldp-compass.tools.ts:297-314 | the energy and anchor rules never push a block adjustment |
| LdpCompass.StrongWeekRule | src/mastra/tools/ldp-compass.tools.ts:287-288 | at >= 80% the first win is strong execution and no adjustment is about blocks |
| LdpCompass.SolidWeekRule | src/mastra/tools/ldp-compass.tools.ts:289-291 | at 60-80% the first win is a solid foundation and the first adjustment the daily target |
| LdpCompass.WeakWeekRule | src/mastra/tools/ldp-compass.tools.ts:292-293 | below 60% the first adjustment reports the block count and no win is about blocks |
| LdpCompass.EnergyRule | src/mastra/tools/ldp-compass.tools.ts:297-301 | an energy win iff the average is >= 7; a low-energy adjustment iff it is < 5 |
| LdpCompass.ExerciseRule | src/mastra/tools/ldp-compass.tools.ts:304-308 | an exercise win iff >= 5 anchors held, a reminder iff fewer |
| LdpCompass.SleepRule | src/mastra/tools/ldp-compass.tools.ts:310-314 | a sleep win iff >= 5 anchors held, a wind-down adjustment iff fewer |
| LdpCompass.WinsFallbackRule | src/mastra/tools/ldp-compass.tools.ts:323 | the wins are only "Showing up" iff completion < 60%, energy < 7, exercise < 5 and sleep < 5 |
| LdpCompass.AdjustmentsFallbackRule | src/mastra/tools/ldp-compass.tools.ts:324 | the adjustments are only "Keep current protocol." iff completion >= 80%, energy >= 5, exercise >= 5 and sleep >= 5 |
| LdpCompass.FocusRule | src/mastra/tools/ldp-compass.tools.ts:317-324 | the focus is the momentum line iff the adjustments fell back; otherwise it fixes the first adjustment shown |
| DiaryGuide.KeywordListsAreDistinct | src/mastra/tools/diary-guide.tools.ts:29-30 | neither keyword list repeats a word |
| DiaryGuide.Included | src/mastra/tools/diary-guide.tools.ts:33-34 | the filter keeps only listed words that the text includes, never more than the list holds |
| DiaryGuide.CountIsDistinctWords | src/mastra/tools/diary-guide.tools.ts:33-34 | over a list without repeats, the count is the number of distinct listed words the text includes |
| DiaryGuide.CountsAreDistinctWords | src/mastra/tools/diary-guide.tools.ts:32-34 | the positive and negative counts are the numbers of distinct keywords in the lower-cased entry |
| DiaryGuide.Clamp | src/mastra/tools/diary-guide.tools.ts:36 | `Math.max(lo, Math.min(hi, x))` saturates at both ends and is the identity in between |
| DiaryGuide.SentimentScore | src/mastra/tools/diary-guide.tools.ts:36 | the score is always 1..10 |
| DiaryGuide.ScoreFollowsBalance | src/mastra/tools/diary-guide.tools.ts:36 | the score is above, below or at 5 exactly as the positive count is above, below or equal to the negative count |
| DiaryGuide.ScoreIgnoresCase | src/mastra/tools/diary-guide.tools.ts:32 | upper-casing the entry does not change the score |
| DiaryGuide.MoodOf | src/mastra/tools/diary-guide.tools.ts:40 | positive iff the score is > 6, challenging iff < 4, mixed iff 4..6 |
| DiaryGuide.Capitalize | src/mastra/tools/diary-guide.tools.ts:40 | the first character is upper-cased and the rest is kept |
| DiaryGuide.AnalyzeReflection | src/mastra/tools/diary-guide.tools.ts:25-55 | the score is the entry's sentiment score, in 1..10; two insights, the first naming the pillar and the score's mood, the second the awareness line; two actions, the pillar's goal and the check-in line; and the pillar's resource |
| DiaryGuide.BalancedEntryIsMixed | src/mastra/tools/diary-guide.tools.ts:36-40 | an entry with as many positive as negative keywords reads as mixed |
| DiaryGuide.LopsidedEntries | src/mastra/tools/diary-guide.tools.ts:36-40 | two more positive keywords than negative reads as positive; two more negative reads as challenging |
| DiaryGuide.WeekNumber | src/mastra/tools/diary-guide.tools.ts:135 | `Math.ceil(n / 7)`: the smallest r with n <= 7r |
| DiaryGuide.Recent | src/mastra/tools/diary-guide.tools.ts:120 | `slice(-3)` keeps three scores, or all when there are fewer |
| DiaryGuide.Older | src/mastra/tools/diary-guide.tools.ts:121 | `slice(0, -3)` keeps all but three scores, or none when there are at most three |
| DiaryGuide.OlderThenRecent | src/mastra/tools/diary-guide.tools.ts:120-121 | the older and the recent scores are the history, split |
| DiaryGuide.TrackProgress | src/mastra/tools/diary-guide.tools.ts:105-136 | no history: average 5, trend stable, the starting summary and week 1; otherwise the mean score, a trend report for the pillar and range, and the week `Math.ceil(n / 7)` |
| DiaryGuide.SumAtLeast | src/mastra/tools/diary-guide.tools.ts:117 | scores of at least lo add up to at least n * lo |
| DiaryGuide.SumAtMost | src/mastra/tools/diary-guide.tools.ts:117 | scores of at most hi add up to at most n * hi |
| DiaryGuide.MeanAtLeast | src/mastra/tools/diary-guide.tools.ts:117 | the mean of scores of at least lo is at least lo |
| DiaryGuide.MeanAtMost | src/mastra/tools/diary-guide.tools.ts:117 | the mean of scores of at most hi is at most hi |
| DiaryGuide.MeanBetween | src/mastra/tools/diary-guide.tools.ts:117 | the mean of scores between lo and hi lies between them |
| DiaryGuide.AverageStaysOnScale | src/mastra/tools/diary-guide.tools.ts:108-117 | scores on the 1 to 10 scale give an average on that scale, the starting 5 included |
| DiaryGuide.ShortHistoryIsStable | src/mastra/tools/diary-guide.tools.ts:119-129 | up to three scores always report a stable trend |
| DiaryGuide.SteadyScoresAreStable | src/mastra/tools/diary-guide.tools.ts:117-129 | scores that never move report that score as the average and a stable trend |
| DiaryGuide.TrendFollowsRecentScores | src/mastra/tools/diary-guide.tools.ts:119-129 | last three scores a full point above every older one read as improving, a full point below as declining |
| DiaryGuide.WeekCountsSevens | src/mastra/tools/diary-guide.tools.ts:108-135 | the reported week is at least 1; it is week 1 iff there are at most seven scores; a score past a multiple of seven opens a new week |
| DiaryGuide.NudgeFor | src/mastra/tools/diary-guide.tools.ts:202-228 | 0 days: well done, no pillar; 1 day: ready, the current pillar; more than 3 days: lapsed with that count, suggesting health; otherwise the check-in for the given week, or week 1 |
| DiaryGuide.SuggestionRule | src/mastra/tools/diary-guide.tools.ts:202-228 | a pillar is suggested only after 1 or more than 3 days; the lapsed nudge is used iff more than 3 days; the week check-in iff the day count is negative, 2 or 3 |
| DiaryGuide.BaselineQuestions | src/mastra/tools/diary-guide.tools.ts:159-182 | three questions, in the table's order, for the pillar |
| DiaryGuide.CuratedResources | src/mastra/tools/diary-guide.tools.ts:242-264 | two resources per pillar; the first is a book and the second is not; every url is the placeholder |
| AgentBuilder.WithDefaults | src/mastra/tools/agent-builder.tool.ts:5-15 | the schema defaults: provider "openai", model "gpt-4o", no workflow and no evals unless requested; the other fields are kept |
| AgentBuilder.CollectAgentSpecs | src/mastra/tools/agent-builder.tool.ts:26-34 | always succeeds, echoes the specs, and the message names the display name |
| AgentBuilder.DropSeps | src/mastra/tools/agent-builder.tool.ts:195 | dropping a run of separators leaves a suffix that does not start with a separator |
| AgentBuilder.DropSepsKeepsLetters | src/mastra/tools/agent-builder.tool.ts:195 | dropping separators loses no other character |
| AgentBuilder.TokensConcat | src/mastra/tools/agent-builder.tool.ts:195 | the pieces of `split(/[-_\s]+/)` concatenate to the string without its separators |
| AgentBuilder.TokensSepFree | src/mastra/tools/agent-builder.tool.ts:195 | no piece contains a separator |
| AgentBuilder.CapWordFacts | src/mastra/tools/agent-builder.tool.ts:199 | capitalising a piece keeps its length, its letters up to case and its freedom from separators |
| AgentBuilder.CapAllFacts | src/mastra/tools/agent-builder.tool.ts:196-201 | the capitalised later pieces keep their total length and letters up to case |
| AgentBuilder.CamelCaseHasNoSeparators | src/mastra/tools/agent-builder.tool.ts:193-202 | a camel-cased name contains no '-', '_' or whitespace |
| AgentBuilder.CamelCaseKeepsLetters | src/mastra/tools/agent-builder.tool.ts:193-202 | camel casing keeps every non-separator character, in order, up to case |
| AgentBuilder.TokensOfWord | src/mastra/tools/agent-builder.tool.ts:195 | a string without separators is one piece |
| AgentBuilder.TokensOfWordThenSep | src/mastra/tools/agent-builder.tool.ts:195 | a word followed by a separator is the first piece |
| AgentBuilder.TokensOfJoin | src/mastra/tools/agent-builder.tool.ts:195 | words joined by a separator split back into the words |
| AgentBuilder.CamelCaseOfWords | src/mastra/tools/agent-builder.tool.ts:193-202 | separated words become the first word lower-cased followed by each later word capitalised |
| AgentBuilder.CapabilityLines | src/mastra/tools/agent-builder.tool.ts:78 | one line per capability, the i-th numbered i + 1 |
| AgentBuilder.CapabilityLineParses | src/mastra/tools/agent-builder.tool.ts:78 | each line is the numeral of i + 1, ". " and the capability, and the numeral reads back as i + 1 |
| AgentBuilder.CapabilitiesSectionSplits | src/mastra/tools/agent-builder.tool.ts:78 | splitting the section at newlines gives back the numbered lines when no capability holds a newline |
| AgentBuilder.SystemPrompt | src/mastra/tools/agent-builder.tool.ts:70-90 | the prompt contains the numbered capabilities section |
| AgentBuilder.AnyIncluded | src/mastra/tools/agent-builder.tool.ts:156-176 | a chain of `includes` tests fires iff some listed word is included |
| AgentBuilder.FirstMatch | src/mastra/tools/agent-builder.tool.ts:155-186 | the family chosen is that of the first rule that fires, or general when none fires |
| AgentBuilder.FiresOnDomainWords | src/mastra/tools/agent-builder.tool.ts:156-176 | a two-word domain rule fires iff the domain includes either word |
| AgentBuilder.FiresOnDataRule | src/mastra/tools/agent-builder.tool.ts:166 | the data rule fires iff the domain includes "data" or the joined capabilities include "analysis" |
| AgentBuilder.FirstMatchOfRules | src/mastra/tools/agent-builder.tool.ts:155-186 | the rule table is the source's if/else-if chain, in the same order |
| AgentBuilder.ChooseFamily | src/mastra/tools/agent-builder.tool.ts:155-186 | the if/else-if chain picks the family of the first rule that fires |
| AgentBuilder.ToolsFor | src/mastra/tools/agent-builder.tool.ts:151-190 | three suggestions, the commented import line, and tools code that opens with the commented `tools: {` and closes with `// },` |
| AgentBuilder.PushSuggestions | src/mastra/tools/agent-builder.tool.ts:156-186 | the pushes append exactly the family's three suggestions and its tools lines |
| AgentBuilder.GetSuggestedTools | src/mastra/tools/agent-builder.tool.ts:143-191 | the result built step by step is the table entry of the family selected from the lower-cased domain and joined capabilities |
| AgentBuilder.AgentFilename | src/mastra/tools/agent-builder.tool.ts:59 | the filename is the name followed by ".agent.ts" |
| AgentBuilder.NameOfFile | src/mastra/tools/agent-builder.tool.ts:59 | a filename gives back a name exactly when it ends in ".agent.ts" |
| AgentBuilder.FilenameRoundTrip | src/mastra/tools/agent-builder.tool.ts:59 | the name is recovered from the filename it produced |
| AgentBuilder.AgentCodeFor | src/mastra/tools/agent-builder.tool.ts:92-141 | the exported name is the camel-cased name, free of separators, followed by "Agent"; the model is "provider/model"; imports, the three suggestions and the tool code are those of the family the domain and capabilities select; the instructions are the system prompt; name, display name, goal and domain are the spec's |
| AgentBuilder.GenerateAgentFile | src/mastra/tools/agent-builder.tool.ts:50-67 | succeeds; the filename gives back the spec's name; the instructions are the system prompt and contain the capabilities; the message names the filename |
| Common.LowerOfUpper | src/mastra/tools/diary-guide.tools.ts:32 | lower-casing undoes upper-casing |
| Common.ContainsLower | src/mastra/tools/ff-tasks.tool.ts:489-495 | a verbatim occurrence is also found case-insensitively |
| Common.ContainsWitness | src/mastra/tools/diary-guide.tools.ts:33 | when `includes` succeeds, some position holds the substring |
| Common.OccursContains | src/mastra/tools/diary-guide.tools.ts:33 | any position holding the substring makes `includes` succeed |
| Common.NatToString | src/mastra/tools/agent-builder.tool.ts:78 | a numeral is non-empty, all digits, and has no leading zero |
| Common.ParseNatToString | src/mastra/tools/ldp-compass.tools.ts:332 | `Number` of a printed whole number gives the number back |
| Common.SplitJoin | src/mastra/tools/agent-builder.tool.ts:78 | joining pieces that do not contain the separator, then splitting, gives the pieces back |

## Left out

- The SQL client is not modelled: the Neon connection, query text, DDL and indexes, and `initializeTable` at module load. The table is a sequence of rows with an abstract clock for NOW().
- Errors thrown by the database are not modelled, apart from a duplicate id. They would be reported by the `catch` blocks, and nothing the model does raises one.
- `generateId` (`Date.now()` and `Math.random()`) is not modelled. Ids are supplied by the caller, and a taken id fails as the primary-key violation of the INSERT would.
- Timestamps are modelled as readings of a clock that advances by one on every write. `toISOString()` and the parsing of `dueDate` text are out.
- `LIKE` wildcards inside the query (`%` and `_` typed by the user) are not modelled. The query is matched as a plain substring.
- Messages and summaries of the ff-tasks tools are not modelled: "Found N task(s)...", "Task updated: ... (status → ...)". The `notes` input only feeds the update message.
- Update: lines 313-333 build `updates` and `updateParts`, which are never used. The model follows the executed UPDATE statement at lines 335-344. There COALESCE writes a supplied empty description, whereas the `if (description)` checks would not.
- Case mapping is ASCII only, for `toLowerCase`, `toUpperCase` and SQL `LOWER`. Unicode case mapping is left out.
- ParseTimeToMinutes: `Number()` is modelled only for pieces made of decimal digits, the empty piece counting as 0. Whitespace, signs, exponents and hex pieces give NaN in the model, although JavaScript would read some of them.
- Numbers are modelled as follows:
  - avgEnergy is a printed decimal: a whole part plus fraction digits.
  - Block and anchor counts, energy levels and day counts are integers. A negative block count, which the schema accepts, is modelled.
  - Fractional inputs to those integer fields are not modelled.
- LdpCompass.FocusText: renders the corrected focus, the whole first sentence. The source cuts at the first '.', which differs only for a fractional average energy (see Findings).
- The weekly summary string with its `Math.round` percentage is not modelled. Neither are the exact texts of the wins.
- DiaryGuide.TrackProgress: scores are exact reals, not doubles, and the reported average is the exact mean. The source rounds it to one decimal with `Math.round(average * 10) / 10`.
- The summary text of a non-empty history is kept as its parts (pillar, trend, range), because its average is printed with `toFixed(1)`, which is not modelled.
- `previousInsights` (reflection analyzer) and `topic` (resource fetcher) are accepted but unused, as in the source.
- The `boys` anchor count of the weekly reflection is not modelled, because the source never reads it.
- The full rendered text of the generated agent file is not modelled; it is kept as its parts (`AgentCode`). Only the system prompt, the capabilities section and the suggested tools are modelled as text.
- zod input validation (ranges, enums, defaults other than the ones modelled) is not modelled. Out-of-range inputs follow the code's own branches.
- visionBackcasterTool is not part of this model. Neither are codebase-tools.ts, project-agent.tools.ts, the agents and index.ts.
- Concurrency between tool calls is not modelled.

## Findings

| source | as written | input that shows it | evidently intended | confidence | as-written member | corrected member |
|---|---|---|---|---|---|---|
| src/mastra/tools/ldp-compass.tools.ts:317-319 | the focus is `adjustments[0].split('.')[0]`, cut at the first '.' | avgEnergy 4.5 with blocksCompleted 28, exercise 5, sleep 5: the first adjustment is "Low energy (4.5/10). Check: ...", so the focus is "Fix: Low energy (4" | the focus names the whole first sentence, "Fix: Low energy (4.5/10)" | high, not executed | LdpCompass.FocusCutsFractionalEnergy | LdpCompass.FocusNamesFirstSentence |
