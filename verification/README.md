# Weekend planner — a Dafny model

Weekendly is a React app for planning a weekend. Its core is the `useWeekendPlanner` hook. The hook keeps:

- a schedule: an object mapping each day of the chosen weekend option to a list of activities;
- a "bucket" of activities that are not placed yet;
- the chosen weekend option.

On that state it offers these operations:

- place an activity on a day, or on the first day where it fits;
- move an activity between days by drag and drop;
- edit an activity's time, and remove an activity;
- add, remove and re-time bucket entries;
- fill the schedule from a theme;
- flush the bucket into the plan;
- switch to a longer or shorter weekend;
- score catalog activities as recommendations;
- offer an indoor swap for an outdoor activity on a rainy day.

Around the hook sit a static catalog (`constants.js`) and three pure services:

- the mood service: time slots, context and mood filters, vibe-pattern counting, insights, and group mood compatibility;
- the holiday service: region detection, regional holidays, seasons, long-weekend opportunities, activity suggestions and planning tips;
- the weather service's activity advice.

The model lifts all of this out of React as pure functions over immutable values.

Representation choices:

- A clock time is a minute of the day (`Activities.Minute`, 0 to 1439). An end time wraps at midnight, as the source's `toTimeString().slice(0, 5)` does. Zero-padded `HH:MM` strings compare exactly like these numbers.
- A schedule is `Schedules.Schedule(keys, lists)`: the object's key order (which the source relies on) together with the day lists.
- Weather is a map from day to weather code; a missing day is an absent reading.
- The wall clock, `Date.now()` ids, the month and the day of the week are parameters.

Module layout, following the source:

| module | models |
|---|---|
| `Activities` | activities, times, the overlap test |
| `Schedules` | the day-keyed schedule and how often an activity occurs in it |
| `Catalog` | categories, themes, weekend options, `getAllActivities` |
| `Planner` | placement, moving, removal, time edits, bucket edits |
| `ThemeFill` | applying a theme |
| `BucketFlush` | pushing the bucket into the plan |
| `OptionChange` | changing the weekend option |
| `Recommend` | smart recommendations |
| `WeatherSwap` | the weather effect and its swap |
| `Mood` | the mood tracking service |
| `Holiday` | the holiday service |
| `WeatherAdvice` | the weather service's activity advice |

`Seqs`, `Sorting`, `Modular` and `Wrappers` are generic helpers.

Several source behaviours are kept as written, and lemmas state their consequences:

- The catalog loader replaces every activity's `Indoor`/`Outdoor` category with its group's name. So with the real catalog, the weather bonus and the weather swap never fire.
- The bucket flush checks conflicts against the schedule as it was before the flush, so a flush can create overlaps.
- The duplicate check in `addActivity` looks only at the target day.
- End times wrap at midnight, which hides some overlaps.
- `isHoliday` consults only the US and international tables.
- The holiday service's region is only ever "india".

## Model

| member | source | states |
|---|---|---|
| Activities.EndTime | src/hooks/useWeekendPlanner.js:210-211 | the end time is start plus duration before midnight, and otherwise congruent to it modulo a day (the clock wraps) |
| Activities.FirstConflict | src/hooks/useWeekendPlanner.js:209-223 | `isConflict`: the result is absent exactly when the candidate fits the day; otherwise it is the first entry, in list order, that conflicts with the candidate |
| Activities.FindById | src/hooks/useWeekendPlanner.js:720 | `find` by id: absent exactly when no entry has the id, otherwise the first entry with it |
| Activities.ClashIsOverlapBeforeMidnight | src/hooks/useWeekendPlanner.js:210-221 | when neither interval crosses midnight, the clock-string test is exactly interval overlap |
| Activities.ConflictSymmetric | src/hooks/useWeekendPlanner.js:213-222 | a conflicts with b at their own times iff b conflicts with a (including the skipped same-id case) |
| Activities.MidnightWrapHidesOverlap | src/hooks/useWeekendPlanner.js:209-223 | two overlapping evening activities that run past midnight are not reported as a conflict |
| Schedules.Put | src/hooks/useWeekendPlanner.js:333-336 | writing one day keeps the schedule well-formed, changes only that day, and appends a new key last (object key order) |
| Schedules.Empty | src/hooks/useWeekendPlanner.js:236-239 | a schedule of empty lists whose keys are exactly the given days, in order |
| Schedules.DayOf | src/hooks/useWeekendPlanner.js:279-281 | the first day, in key order, that holds the id; absent exactly when no day holds it |
| Schedules.FlatHasId | src/hooks/useWeekendPlanner.js:662 | `Object.values(...).flat().some(id)` holds iff some day holds the id |
| Schedules.PlacedHasId | src/hooks/useWeekendPlanner.js:819-854 | the flattened schedule holds an id iff some day of the schedule holds it |
| Schedules.FlatContents | src/hooks/useWeekendPlanner.js:786 | flattening the lists of distinct days keeps every activity's multiplicity: it is the sum over those days |
| Schedules.PlacedContents | src/hooks/useWeekendPlanner.js:821 | the flattened schedule holds each activity exactly as often as the schedule does |
| Schedules.OccurrencesUpdate | src/hooks/useWeekendPlanner.js:333-336 | replacing one day's list changes an activity's count by the difference of its counts in the old and new list |
| Catalog.Clock | src/constants.js:12 | the minute of `HH:MM` has hour `h` and minute `m` |
| Catalog.FindOption | src/constants.js:354-361 | lookup of a weekend option by key: found options carry the key; absent means no option has it |
| Catalog.FindTheme | src/hooks/useWeekendPlanner.js:228 | lookup of a theme by key: found themes carry the key; absent means no theme has it |
| Catalog.Relabel | src/hooks/useWeekendPlanner.js:201 | each activity keeps every field except its category, which becomes the group's name |
| Catalog.AllActivities | src/hooks/useWeekendPlanner.js:199-203 | an activity is loaded iff it is some group's activity with its category replaced by that group's name |
| Catalog.Resolve | src/hooks/useWeekendPlanner.js:231-233 | one catalog activity per id the catalog knows, in id order, each with that id; unknown ids are dropped |
| Catalog.OptionsWellFormed | src/constants.js:354-361 | every weekend option lists two to four pairwise distinct days |
| Catalog.ThemesHaveFourActivities | src/constants.js:303-352 | every theme lists four activity ids |
| Catalog.RawCategories | src/constants.js:1-301 | every catalog activity is marked "Indoor" or "Outdoor" and has a positive duration |
| Catalog.LoadedCategories | src/hooks/useWeekendPlanner.js:199-203 | no loaded activity has category "Indoor" or "Outdoor" |
| Catalog.GroupNamesAreNotRaw | src/constants.js:1-301 | no group is named "Indoor" or "Outdoor" |
| Catalog.Loaded | src/hooks/useWeekendPlanner.js:200-201 | every group activity, relabelled with its group name, is among the loaded activities |
| Catalog.NoIndependentCinema | src/constants.js:1-301 | no catalog activity has the id "independent-cinema" |
| Catalog.IdsOf | src/hooks/useWeekendPlanner.js:199-203 | the ids of a list of activities, position by position |
| Catalog.AllActivitiesIds | src/hooks/useWeekendPlanner.js:199-203 | loading keeps every id in place: the loaded ids are the groups' ids, group by group |
| Catalog.GroupIdsStep | src/constants.js:1-301 | a group whose ids are one slice of a list, followed by groups whose ids are the rest, gives the list from that slice on |
| Catalog.GroupIdsAre | src/constants.js:1-301 | five groups whose id lists fill consecutive slices of a list have exactly that list as their ids |
| Catalog.GroupIdsOfCatalog | src/constants.js:1-301 | the catalog's ids, group by group, are the 24 listed ids |
| Catalog.CatalogIdsDistinct | src/constants.js:1-301 | the 24 catalog ids are pairwise distinct |
| Catalog.CatalogIdsUnique | src/constants.js:1-301 | no two loaded activities share an id |
| Catalog.LuxurySeekerTheme | src/constants.js:344-350 | the "luxurySeeker" theme lists wine-discovery, holistic-spa, astronomy-night and independent-cinema |
| Catalog.LuxurySeekerIdsLoaded | src/constants.js:1-301 | three of the luxury theme's ids are loaded; independent-cinema is not |
| Catalog.LuxuryIdsIn | src/hooks/useWeekendPlanner.js:199-203 | ids found at known positions of the groups are loaded; an id found in no group is not |
| Catalog.LoadedId | src/hooks/useWeekendPlanner.js:199-203 | an id carried by any group activity is carried by a loaded activity |
| Catalog.LuxurySeekerKnownIds | src/hooks/useWeekendPlanner.js:231-233 | against a catalog holding exactly the first three luxury ids, the known ids are those three |
| Catalog.ResolveLuxury | src/hooks/useWeekendPlanner.js:231-233 | such a catalog resolves the luxury theme to three activities |
| Catalog.LuxurySeekerResolvesThree | src/constants.js:344-350 | the luxury theme resolves to three activities against the real catalog, so applying it places three |
| Planner.PlaceOn | src/hooks/useWeekendPlanner.js:320-336 | placement on a given day fails with a duplicate exactly when the day holds the id; succeeds exactly when the id is new and nothing conflicts; a conflict names an entry of that day; success appends to that day only |
| Planner.FirstFreeDay | src/hooks/useWeekendPlanner.js:311 | the first option day, in order, where the activity fits; absent exactly when it fits nowhere |
| Planner.AddActivity | src/hooks/useWeekendPlanner.js:308-337 | with a day, placement on that day; without one, failure exactly when no day fits, else placement on the first day that fits; a conflict is never reported without a day |
| Planner.AddPreservesNoOverlaps | src/hooks/useWeekendPlanner.js:327-336 | a successful placement keeps every day free of conflicting pairs |
| Planner.AddTwiceIsNoOp | src/hooks/useWeekendPlanner.js:320-325 | placing the same activity again on the day it landed on is rejected as a duplicate |
| Planner.DuplicateCheckIsDayLocal | src/hooks/useWeekendPlanner.js:320 | an activity already on one day can be added to another, and then appears twice |
| Planner.PutConsistent | src/hooks/useWeekendPlanner.js:333-336 | writing a conflict-free list keeps a conflict-free schedule conflict-free |
| Planner.ConsistentPair | src/hooks/useWeekendPlanner.js:213-222 | two activities that do not conflict either way form a conflict-free day |
| Planner.AppendFitting | src/hooks/useWeekendPlanner.js:327-336 | appending an activity that fits a conflict-free day keeps the day conflict-free |
| Planner.ClashBreaksNoOverlaps | src/hooks/useWeekendPlanner.js:213-222 | two conflicting entries on one day break the no-overlap invariant |
| Planner.Without | src/hooks/useWeekendPlanner.js:632 | `filter(a => a.id !== id)`: no entry keeps the id, every other entry keeps its multiplicity, order is kept |
| Planner.WithoutAppended | src/hooks/useWeekendPlanner.js:632 | removing the id of an activity just appended to a list without that id restores the list |
| Planner.RemoveActivity | src/hooks/useWeekendPlanner.js:629-634 | the id leaves that day; every other entry of the day keeps its multiplicity and order; other days are unchanged |
| Planner.RemoveCount | src/hooks/useWeekendPlanner.js:629-634 | removal lowers an activity's count by its count on that day exactly when it carries the removed id |
| Planner.RemoveUndoesAppend | src/hooks/useWeekendPlanner.js:629-634 | removing an activity appended to a day that did not hold its id gives back the schedule |
| Planner.RemoveUndoesAdd | src/hooks/useWeekendPlanner.js:308-337 | a successful placement followed by removal of its id from its day is the identity |
| Planner.RemovePreservesNoOverlaps | src/hooks/useWeekendPlanner.js:629-634 | removal keeps a conflict-free schedule conflict-free |
| Planner.Move | src/hooks/useWeekendPlanner.js:276-296 | a drop onto another day fails exactly when the activity conflicts there; otherwise the origin day loses exactly the entries with its id, the target gains it at the end unless it already held the id, and other days are unchanged; a drop with no other origin is `addActivity` on the target |
| Planner.MoveOntoDuplicate | src/hooks/useWeekendPlanner.js:283-293 | dropping onto a day that already holds the id removes it from the origin and adds nothing |
| Planner.MovePreservesNoOverlaps | src/hooks/useWeekendPlanner.js:276-296 | a successful move keeps a conflict-free schedule conflict-free |
| Planner.Retime | src/hooks/useWeekendPlanner.js:746-748 | same length; entries with the id get the new time and change nothing else; other entries are unchanged |
| Planner.RetimeTwice | src/hooks/useWeekendPlanner.js:746-748 | re-timing twice equals re-timing once to the last time |
| Planner.RetimeConsistent | src/hooks/useWeekendPlanner.js:739-748 | on a conflict-free day with unique ids, a new time that passed the conflict check keeps the day conflict-free |
| Planner.AddToBucket | src/hooks/useWeekendPlanner.js:340-350 | the bucket grows by one entry at the end; it keeps the activity's id (or takes the fresh one when it has none) and takes the custom time when one is given |
| Planner.RemoveFromBucket | src/hooks/useWeekendPlanner.js:612-614 | no bucket entry keeps the id; others keep multiplicity and order |
| Planner.RemoveFromBucketUndoesAdd | src/hooks/useWeekendPlanner.js:612-614 | adding an activity with a new id and removing that id gives back the bucket |
| Planner.UpdateBucketTime | src/hooks/useWeekendPlanner.js:755-761 | entries with the id get the new time, with no conflict check; all other entries are unchanged |
| Planner.UpdateTimeOnDay | src/hooks/useWeekendPlanner.js:733-749 | not-found exactly when the day does not hold the id; a conflict names another entry of that day; success re-times only that id on that day |
| Planner.UpdateTime | src/hooks/useWeekendPlanner.js:700-752 | without a day: a bucket entry is re-timed in the bucket; otherwise the first day holding the id is edited; neither gives not-found |
| Planner.UpdateTimePreservesNoOverlaps | src/hooks/useWeekendPlanner.js:739-749 | a successful time edit keeps a conflict-free schedule conflict-free when the day's ids are unique |
| ThemeFill.Deal | src/hooks/useWeekendPlanner.js:235-245 | the new schedule is well-formed and its keys are exactly the option's days, in order |
| ThemeFill.DealIsRoundRobin | src/hooks/useWeekendPlanner.js:241-245 | day k receives activities k, k+n, k+2n, … in order, for n days |
| ThemeFill.StrideIndex | src/hooks/useWeekendPlanner.js:242 | index m is dealt to day k exactly when m mod n is k |
| ThemeFill.EverySnoc | src/hooks/useWeekendPlanner.js:241-245 | dealing one more activity appends it to exactly the day its index selects |
| ThemeFill.ApplyTheme | src/hooks/useWeekendPlanner.js:226-249 | the bucket is untouched; the schedule is replaced wholesale by the round-robin of the theme's resolved activities over the option's days |
| ThemeFill.ApplyThemeIdempotent | src/hooks/useWeekendPlanner.js:226-249 | applying the same theme twice gives the same plan as once |
| BucketFlush.Slot | src/hooks/useWeekendPlanner.js:672 | the day tried at each offset is one of the option's days |
| BucketFlush.Probe | src/hooks/useWeekendPlanner.js:671-685 | the first offset whose day fits the activity against the pre-flush schedule; absent exactly when no remaining offset fits |
| BucketFlush.Step | src/hooks/useWeekendPlanner.js:661-690 | an id already in the growing schedule is skipped; otherwise the activity is appended to the first fitting day and the day index moves to just past it; unplaced activities change nothing |
| BucketFlush.StepFacts | src/hooks/useWeekendPlanner.js:661-690 | one step only appends, at most one entry per day, and only this activity onto a day where it fits; afterwards the activity is scheduled or fits no day |
| BucketFlush.FlushGrows | src/hooks/useWeekendPlanner.js:661-690 | the flush only appends to day lists |
| BucketFlush.FlushAppends | src/hooks/useWeekendPlanner.js:674-678 | every appended entry came from the bucket and fits its day in the pre-flush schedule |
| BucketFlush.FlushCovers | src/hooks/useWeekendPlanner.js:661-690 | every bucket activity ends up scheduled or fits no option day |
| BucketFlush.FlushOrdered | src/hooks/useWeekendPlanner.js:656-690 | a time-sorted bucket is appended to each day in time order |
| BucketFlush.OrderedJoin | src/hooks/useWeekendPlanner.js:656-690 | appending the earliest item, then later items in order, keeps each day's appended part in time order |
| BucketFlush.GrowsKeepsIds | src/hooks/useWeekendPlanner.js:662 | an id scheduled before an append-only change is still scheduled |
| BucketFlush.PushBucket | src/hooks/useWeekendPlanner.js:650-697 | the bucket is emptied even for unplaced items; days only grow, by bucket items that fit the pre-flush day, in time order; every bucket item ends scheduled or fits no day |
| BucketFlush.Flush | src/hooks/useWeekendPlanner.js:661-690 | the `forEach` over the bucket keeps the schedule being built valid, with exactly the pre-flush days as keys |
| BucketFlush.FlushKeepsOrder | src/hooks/useWeekendPlanner.js:661-690 | any two entries a flush appends to the same day appear there in the order the flush processed them |
| BucketFlush.PushBucketStable | src/hooks/useWeekendPlanner.js:656-690 | two bucket activities with the same start time that land on the same day keep their bucket order there: the time sort is stable |
| BucketFlush.StepToDayIndex | src/hooks/useWeekendPlanner.js:671-684 | when the day at the day index fits, the activity lands there and the day index advances by one |
| BucketFlush.Weekend | src/constants.js:355 | a Saturday/Sunday schedule is well-formed with keys Saturday, Sunday |
| BucketFlush.NotOnWeekend | src/hooks/useWeekendPlanner.js:662 | an id on neither day is not scheduled |
| BucketFlush.StepOntoSaturday | src/hooks/useWeekendPlanner.js:671-684 | from day index 0 on an empty weekend, a new activity goes to Saturday and the day index becomes 1 |
| BucketFlush.StepOntoSunday | src/hooks/useWeekendPlanner.js:671-684 | from day index 1, it goes to Sunday and the day index wraps to 0 |
| BucketFlush.ThreeIntoTwo | src/hooks/useWeekendPlanner.js:661-690 | three new activities on an empty weekend go Saturday, Sunday, Saturday |
| BucketFlush.FlushSameStart | src/hooks/useWeekendPlanner.js:650-697 | three bucket activities at the same time put two of them on Saturday |
| BucketFlush.FlushCanCreateOverlap | src/hooks/useWeekendPlanner.js:674 | checking against the pre-flush schedule lets the flush put two clashing activities on one day |
| BucketFlush.EmptyWeekendNoOverlaps | src/constants.js:355 | the empty weekend has no overlaps |
| OptionChange.Carry | src/hooks/useWeekendPlanner.js:778-782 | the new schedule's keys are the new option's days; kept days keep their lists, new days start empty |
| OptionChange.RemovedDays | src/hooks/useWeekendPlanner.js:784-785 | the removed days are exactly the old days not in the new option, without repeats |
| OptionChange.Reassign | src/hooks/useWeekendPlanner.js:788-811 | reassignment keeps the schedule well-formed with the same keys |
| OptionChange.ReassignFollowsRule | src/hooks/useWeekendPlanner.js:788-811 | every entry appended to a day is a reassigned activity that fits with the entries before it on its own day and conflicts with something on each earlier day of the option; every entry appended to the bucket is a reassigned activity (with an id given if it had none) that conflicts with something on every day |
| OptionChange.ReassignGrows | src/hooks/useWeekendPlanner.js:788-811 | reassignment only appends, to day lists and to the bucket |
| OptionChange.ReassignKeepsNoOverlaps | src/hooks/useWeekendPlanner.js:790-805 | reassignment checks against the schedule being built, so it keeps it conflict-free |
| OptionChange.ReassignCount | src/hooks/useWeekendPlanner.js:788-811 | every reassigned activity lands exactly once, on a day or in the bucket |
| OptionChange.CountAppend | src/hooks/useWeekendPlanner.js:802 | appending to a day raises only that activity's count, by one |
| OptionChange.CarryCount | src/hooks/useWeekendPlanner.js:778-782 | the carried schedule holds exactly the activities of the kept days |
| OptionChange.RemovedCount | src/hooks/useWeekendPlanner.js:784-786 | the activities to reassign are exactly those of the removed days |
| OptionChange.SplitCount | src/hooks/useWeekendPlanner.js:778-786 | an activity's count is its count on kept days plus its count on removed days |
| OptionChange.FlatHasIds | src/hooks/useWeekendPlanner.js:786 | flattening activities that all have ids gives activities that all have ids |
| OptionChange.ChangeOptionConserves | src/hooks/useWeekendPlanner.js:776-814 | no activity is lost or duplicated: schedule plus bucket hold every activity as often as before |
| OptionChange.ChangeOptionKeeps | src/hooks/useWeekendPlanner.js:776-814 | the keys become the new days; kept days and the bucket only grow; a conflict-free schedule stays conflict-free |
| OptionChange.ChangeOption | src/hooks/useWeekendPlanner.js:776-813 | the new schedule is well-formed and has exactly the new option's days as keys, in the option's order |
| OptionChange.ChangeOptionFollowsRule | src/hooks/useWeekendPlanner.js:778-811 | starting from the kept days, each activity of a removed day is appended to the first new day where it fits, or sent to the bucket when it fits nowhere |
| OptionChange.ChangeToSameDays | src/hooks/useWeekendPlanner.js:776-814 | switching to the option's own days changes nothing |
| Recommend.WeatherBonus | src/hooks/useWeekendPlanner.js:879-888 | three points per schedule day whose truthy code favours the category; none for categories other than Indoor and Outdoor |
| Recommend.ScoreAll | src/hooks/useWeekendPlanner.js:855-891 | every candidate paired with its score, in order |
| Recommend.CandidatesScored | src/hooks/useWeekendPlanner.js:853-891 | the scored list holds exactly the unscheduled catalog activities, each with its score |
| Recommend.Top | src/hooks/useWeekendPlanner.js:892-893 | the first five (or all, when fewer) of the scored list, taken from it without repetition beyond its own, highest score first; anything left out scores at most the fifth |
| Recommend.Recommend | src/hooks/useWeekendPlanner.js:819-896 | five unscheduled catalog activities (all of them when fewer) with their scores, highest first, none listed more often than the catalog holds it; every unscheduled activity is listed or scores at most the fifth |
| Recommend.Score | src/hooks/useWeekendPlanner.js:856-888 | each scheduled activity adds at most 7 points (vibe, category, energy), the duration at most 2, and each day's weather at most 3 |
| Recommend.ScoreOfUnrelated | src/hooks/useWeekendPlanner.js:856-888 | a candidate sharing no vibe, category or energy level with the scheduled activities scores only its duration and weather bonuses |
| Recommend.TakeHighest | src/hooks/useWeekendPlanner.js:891-893 | the first five of a best-first permutation of the scored list are its five best, in order |
| Recommend.RecommendCounts | src/hooks/useWeekendPlanner.js:853-855 | entries drawn from the scored candidates occur no more often than their activities occur in the catalog |
| Recommend.DurationBonusIsAverageBonus | src/hooks/useWeekendPlanner.js:848-876 | the division-free duration test equals the source's test against the average duration, which is 120 when nothing is scheduled |
| Recommend.BonusOfScaled | src/hooks/useWeekendPlanner.js:874-876 | the 30- and 60-minute thresholds compare the same after scaling by the number of activities |
| Recommend.ScaledDistance | src/hooks/useWeekendPlanner.js:874 | the absolute difference scales with a positive factor |
| Recommend.CatalogGetsNoWeatherBonus | src/hooks/useWeekendPlanner.js:879-888 | a loaded catalog activity never gets a weather bonus |
| Recommend.EmptyScheduleScore | src/hooks/useWeekendPlanner.js:848-850 | on an empty schedule the score is the bonus against the 120-minute default plus the weather bonus |
| Recommend.EmptyPlaced | src/hooks/useWeekendPlanner.js:821 | an all-empty schedule flattens to nothing |
| WeatherSwap.First | src/hooks/useWeekendPlanner.js:125-126 | the first element satisfying the test; absent exactly when none does |
| WeatherSwap.Proposal | src/hooks/useWeekendPlanner.js:113-126 | a swap exists exactly when the day has an Outdoor entry and the catalog an alternative; it pairs the day's first Outdoor entry with the first catalog activity, in catalog order, that is Indoor, not on the day and within 30 minutes of some Outdoor entry |
| WeatherSwap.DayAlert | src/hooks/useWeekendPlanner.js:111-187 | a code of 51 or more with a proposal gives a swap offer; a code of 0 or 1 with more than half the day Indoor gives a reminder; nothing else does |
| WeatherSwap.Alerts | src/hooks/useWeekendPlanner.js:190-195 | the alerts are exactly the day alerts of the non-empty days |
| WeatherSwap.Confirm | src/hooks/useWeekendPlanner.js:139-146 | the swap removes the outdoor activity's id from the day and appends the alternative; other days are unchanged |
| WeatherSwap.ConfirmReplaces | src/hooks/useWeekendPlanner.js:143-144 | after the swap the day lacks the outdoor id, holds the alternative, and keeps every other entry's multiplicity |
| WeatherSwap.ConfirmSkipsConflictCheck | src/hooks/useWeekendPlanner.js:141-146 | the swap can turn a conflict-free day into one with an overlap |
| WeatherSwap.ConfirmCanCreateOverlap | src/hooks/useWeekendPlanner.js:141-146 | a concrete swap into an 11:40 museum visit overlaps a lunch kept at 12:00 |
| WeatherSwap.NoRawCategoryNoAlert | src/hooks/useWeekendPlanner.js:111-187 | a day with neither Indoor nor Outdoor entries raises no alert |
| WeatherSwap.NoDayAlertNoAlerts | src/hooks/useWeekendPlanner.js:190-195 | if no day has such entries, there are no alerts |
| WeatherSwap.CatalogSchedulesRaiseNoAlert | src/hooks/useWeekendPlanner.js:108-203 | a schedule built only from loaded catalog activities raises no weather alert |
| Mood.FindMood | src/services/moodTrackingService.js:17-119 | lookup of a mood definition by key; absent exactly when no definition has the key |
| Mood.MoodDefinitionsShape | src/services/moodTrackingService.js:17-119 | every mood suggests four activities and names two opposites and two complementary moods |
| Mood.TimeSlot | src/services/moodTrackingService.js:606-611 | morning iff hour below 12, afternoon iff 12 to 16, evening iff 17 to 20, night otherwise |
| Mood.TimeSlotMonotone | src/services/moodTrackingService.js:606-611 | a later hour never gets an earlier slot |
| Mood.FilterByContext | src/services/moodTrackingService.js:327-343 | an order-preserving sub-list keeping exactly the ids the context does not rule out, with their multiplicities |
| Mood.FilterByContextIdempotent | src/services/moodTrackingService.js:327-343 | filtering twice by the same context equals filtering once |
| Mood.FilterByMood | src/services/moodTrackingService.js:633-660 | absent or empty moods return the input; otherwise an order-preserving sub-list keeping exactly the activities some selected mood matches |
| Mood.UnknownMoodsMatchNothing | src/services/moodTrackingService.js:641-643 | moods without a definition match no activity |
| Mood.Bump | src/services/moodTrackingService.js:281-287 | `m[k] = (m[k] || 0) + 1`: only k's counter changes, by one |
| Mood.Learn | src/services/moodTrackingService.js:268-289 | one listed mood raises the frequency and the counters for its time slot, season and company by one |
| Mood.UpdateVibePatterns | src/services/moodTrackingService.js:266-291 | every listed mood gains a pattern; unlisted moods keep theirs; each frequency rises by the number of times the mood is listed |
| Mood.VibeStep | src/services/moodTrackingService.js:267-290 | learning one mood, then the rest, adds up to learning the whole list |
| Mood.TimeCounterGrows | src/services/moodTrackingService.js:280-281 | each mood's counter for the time slot rises by the number of times the mood is listed |
| Mood.InsightRecommendations | src/services/moodTrackingService.js:502-538 | none without dominant moods; otherwise a high-priority entry with at most three activities; a medium balance entry with at most two, from the first opposite, exactly when that opposite is a defined mood |
| Mood.LookupKeys | src/services/moodTrackingService.js:17-119 | a mood is defined exactly when it is one of the ten keys |
| Mood.FindByKey | src/services/moodTrackingService.js:17-119 | a key lookup in a table succeeds exactly for its keys, returning the entry at the key's first position |
| Mood.BalanceOnlyForEnergeticOrRelaxed | src/services/moodTrackingService.js:519-531 | the balance entry appears exactly when the dominant mood is energetic or relaxed, the only moods whose first opposite is itself defined |
| Mood.Clamp | src/services/moodTrackingService.js:592 | the result lies in the bounds, equals the value inside them, and the nearer bound outside |
| Mood.AllConflicts | src/services/moodTrackingService.js:555-563 | conflicts are friend moods, and there are none exactly when no user mood has an opposite among them |
| Mood.SuggestionsOf | src/services/moodTrackingService.js:578-580 | exactly the suggestions of the defined moods listed |
| Mood.GroupCompatibility | src/services/moodTrackingService.js:541-595 | the score is the clamped weighted sum, so within 0 to 100; recommendations are the first five (all, when fewer) distinct suggestions of the shared moods in first-occurrence order, so every such suggestion is recommended unless five already are, and none without shared moods; the compromise list appears exactly with conflicts and no shared moods |
| Mood.SomeConflictIffOpposed | src/services/moodTrackingService.js:554-563 | some conflict is found exactly when some user mood lists one of the friend's moods among its opposites |
| Mood.CompromiseIffOpposedWithoutShared | src/services/moodTrackingService.js:584-589 | the compromise activities are offered exactly when no mood is shared and some user mood opposes a friend's mood |
| Mood.NoFriendMoodsIsNeutral | src/services/moodTrackingService.js:541-595 | against a friend with no moods the result is the neutral 50 with every list empty |
| Mood.ScoreAroundNeutral | src/services/moodTrackingService.js:549-592 | without conflicts the score is at least 50; with nothing shared and nothing complementing, at most 50 |
| Mood.OppositesCompromise | src/services/moodTrackingService.js:541-595 | an energetic user with a relaxed friend scores 40 with the neutral compromise list |
| Holiday.RegionalHolidays | src/services/holidayService.js:188-195 | the region's holidays, or India's for an unknown region, followed by the international ones |
| Holiday.FirstRegion | src/services/holidayService.js:175-181 | the first region in declaration order whose box holds the point; absent exactly when none does |
| Holiday.DetectRegion | src/services/holidayService.js:153-185 | India without a location; otherwise the first region holding the point, or India |
| Holiday.USWinsOverCanada | src/services/holidayService.js:95-106 | a point in both the US and the Canadian box is detected as the US |
| Holiday.NoCoordinateMeansIndia | src/services/holidayService.js:163-184 | a location without a usable latitude is detected as India |
| Holiday.SetUserLocation | src/services/holidayService.js:144-150 | the location is stored and the region is always India |
| Holiday.RegionStaysIndia | src/services/holidayService.js:137-195 | the region stays India, so the regional list is India's plus the international holidays |
| Holiday.CorrectRegion | src/services/holidayService.js:311-315 | an empty or "us" region becomes India; any other region is kept |
| Holiday.SeasonOfMonth | src/services/holidayService.js:241-245 | a found season lists the month; absent means no season lists it |
| Holiday.CurrentSeason | src/services/holidayService.js:229-248 | Australia gets an unnamed shifted season; elsewhere every month 1 to 12 gets a named season listing it |
| Holiday.SeasonsPartitionMonths | src/services/holidayService.js:108-134 | every month 1 to 12 lies in exactly one season |
| Holiday.AustraliaIsShifted | src/services/holidayService.js:232-238 | Australia's season data is the northern season six months on |
| Holiday.LongWeekend | src/services/holidayService.js:273-294 | Monday, Tuesday, Thursday and Friday give an opportunity, with the matching option key; other days give none |
| Holiday.LongWeekendOptionsExist | src/services/holidayService.js:273-294 | every produced option key names a weekend option with the same days |
| Holiday.RecommendedActivities | src/services/holidayService.js:347-356 | at most four distinct suggestions, holiday ones first in order, then seasonal ones not already listed |
| Holiday.PlanningTips | src/services/holidayService.js:359-372 | three tips; with an opportunity the first names it |
| Holiday.FirstTipIffOpportunity | src/services/holidayService.js:359-372 | the first tip names an opportunity exactly when the holiday has one |
| Holiday.PlanningTipsDistinct | src/services/holidayService.js:359-372 | the three tips never repeat |
| Holiday.HolidayRecommendations | src/services/holidayService.js:308-327 | the region is corrected first; at most three entries, one per upcoming holiday in order, each with its opportunity, suggestions and tips |
| Holiday.CorrectRegionIdempotent | src/services/holidayService.js:311-314 | correcting an already corrected region changes nothing, and never leaves "us" |
| Holiday.HolidayRecommendationsStable | src/services/holidayService.js:308-327 | asking again from the state a call leaves gives the same state and recommendations |
| Holiday.OpportunityIffLongWeekendDay | src/services/holidayService.js:273-294 | a recommendation carries an opportunity exactly when its holiday is on a Monday, Tuesday, Thursday or Friday, and then its first tip names it |
| Holiday.FindHoliday | src/services/holidayService.js:376-377 | a found holiday has the date; absent means no holiday has it |
| Holiday.IsHoliday | src/services/holidayService.js:375-378 | a date is a holiday only via the US and international tables |
| Holiday.IsPartOfLongWeekend | src/services/holidayService.js:394-401 | true exactly for a holiday date on a Monday or Friday |
| Holiday.LongWeekendAgreesOnThreeDays | src/services/holidayService.js:394-401 | for a holiday, being part of a long weekend agrees with the long-weekend mapping on three-day weekends only; a four-day opportunity never counts |
| Holiday.IndianHolidayNotFound | src/services/holidayService.js:375-401 | Independence Day, a Friday in 2025, is not part of a long weekend |
| Holiday.IndiaHasAugust15 | src/services/holidayService.js:30-49 | India's list does contain 15 August |
| Holiday.NotInAugust | src/services/holidayService.js:17-28 | no US or international holiday falls in August |
| Holiday.NoAugustHoliday | src/services/holidayService.js:375-378 | an August date is never found by `isHoliday` |
| Holiday.MemorialDayIsLongWeekend | src/services/holidayService.js:394-401 | Memorial Day 2025, a Monday, is part of a long weekend |
| WeatherAdvice.ActivityRecommendations | src/services/realTimeServices.js:162-194 | clear and warm: three outdoor favourites; up to code 3: the cloudy lists; rain: a caution and things to avoid; snow: cycling and outdoor dining to avoid; anything else: four empty lists |
| WeatherAdvice.AdviceFollowsBand | src/services/realTimeServices.js:171-193 | the advice depends only on the weather band, and is empty exactly for codes outside the bands |
| WeatherAdvice.CautionOnlyInRain | src/services/realTimeServices.js:181-190 | only rain brings a caution; only rain and snow bring something to avoid |
| WeatherAdvice.ColdClearSkyIsCloudy | src/services/realTimeServices.js:171-179 | a clear sky at 15 degrees or below gets the cloudy-day advice |
| WeatherAdvice.GapCodesGetNoAdvice | src/services/realTimeServices.js:162-194 | fog, showers and storms get no advice |
| Sorting.SortBy | src/hooks/useWeekendPlanner.js:656 | a permutation sorted by key that keeps the relative order of equal keys (a stable sort) |
| Sorting.SortByEqualKeys | src/hooks/useWeekendPlanner.js:656 | sorting items with one key changes nothing |
| Sorting.WithKeyMembers | src/hooks/useWeekendPlanner.js:656 | the items with a given key are exactly the members with that key |
| Sorting.SortByStable | src/hooks/useWeekendPlanner.js:656 | two items with equal keys keep their relative order: the sort is stable |

## Left out

- React state, effects, drag state, toasts, performance metrics and the summary text are left out. They are notifications and rendering, not plan state.
- Persistence (`persistenceService`, local storage) and action logging are left out. They are asynchronous I/O and do not change the plan.
- The network, geolocation and reverse geocoding are left out. Weather is a parameter: a map from day to code.
- The clock and randomness are left out. The `Date.now()` id of `addActivityToBucket` is a parameter (`freshId`), as are the month, the day of the week and the list of upcoming holidays.
- Planner.AddToBucket: the `'12:00'` fallback for an activity without a time is not modelled, because every modelled activity has a time. The `addedAt` and `source` fields are not modelled.
- OptionChange.ChangeOption: the source calls `addActivityToBucket` once per unplaced activity. Each call appends to the same bucket captured when the handler began, so only the last unplaced activity survives in the bucket. The model keeps the intended behaviour, where each call appends.
- OptionChange.ChangeOption requires the new option's days to be distinct, which every weekend option satisfies (Catalog.OptionsWellFormed).
- OptionChange.ChangeOptionConserves assumes every scheduled activity has an id. The fresh id given to an id-less activity is not tracked.
- Planner.AddActivity, Planner.Move, Planner.RemoveActivity and WeatherSwap.Confirm require the target day to be a key of the schedule. The source throws a TypeError for any other day.
- Recommend.Recommend: the order among equal scores is not stated in its contract. The sort used is stable (Sorting.SortBy), so equal scores keep catalog order.
- Recommend.DurationBonusIsAverageBonus: the average duration is an exact rational, not a floating-point value. Floating-point rounding is not modelled.
- The bucket flush sorts by `localeCompare` on zero-padded `HH:MM` strings. The model sorts by minutes, which orders them the same way.
- Catalog times are minutes by construction (Catalog.Clock), so the `HH:MM` format of the catalog is not a separate property.
- Mood: `calculateRecommendationConfidence` (floating-point arithmetic) is left out, as are `generateRecommendationReasoning` and `getMoodInsights` (clock windows). The pattern fields for contexts and outcomes are left out; time-slot, seasonal and social counters are kept.
- Holiday: the date arithmetic and sorting of `getUpcomingLongWeekends` are left out; they depend on the clock. Their result is a parameter of Holiday.HolidayRecommendations. Only the day-of-week mapping is modelled.
- Holiday: `detectUserCountry` (time zone), `generatePersonalizedMessage`, `getHolidayContext`, `getLocalCelebrations` and `getCulturalTips` are left out. They are text lookups outside the planning logic.
- Holiday.DetectRegion: coordinates are exact reals, and JavaScript's treatment of non-numeric inputs is not modelled.
- Weather: `getCurrentLocation`, `getDetailedWeather` and the travel-time floats are left out.
