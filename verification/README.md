# Rhythm game core in Dafny

This project models the core of a four-lane rhythm game (lanes D, F, J, K) and proves
properties about it. The core is the timing and judgment engine of the play scene:

- key presses judge the notes falling toward a judgment line, by distance tier (JUST, GREAT, GOOD);
- hold notes are started, released, advanced and scored;
- chart notes and holds are spawned 1375 ms before their time;
- notes that fall past the screen are dropped, and a drop resets the combo;
- the round ends when its timer runs out.

Alongside the engine, the project models:

- the chart format and the four built-in sample charts;
- the result screen's rank rule;
- the song-select screen's scroll clamp, difficulty colours and fallback song list;
- the converter from USC charts to the game's chart format.

Modules, one file each:

- `Optional` (optional.dfy) holds the `Option` and `Result` wrappers.
- `ChartTypes` (chart_types.dfy) holds notes, holds, metadata and charts, plus the data invariants a chart may satisfy.
- `ChartLoader` (chart_loader.dfy) holds the four sample charts, the index lookup and the proof that every sample chart is well formed.
- `ResultRank` (result_rank.dfy) holds the rank rule and the rank colours.
- `SongSelect` (song_select.dfy) holds the scroll state as a class, the difficulty colours and the fallback list.
- `UscConvert` (usc_convert.dfy) holds the converter. It is a loop proved against the functions `NotesOf`/`HoldsOf`, with lemmas about those functions.
- `GameRules` (game_rules.dfy) holds the engine rules as functions of a snapshot `Engine(notes, holds, keys, score, combo)`.
- `GameProperties` (game_properties.dfy) holds what those rules guarantee.
- `GameEngine` (game_engine.dfy) holds the `GameScene` class:
  - the note and hold list fields are reassigned with an entry spliced out or appended;
  - `keysHeld` is a fixed array of four flags;
  - each method ensures that the snapshot moves exactly as the `GameRules` function for that event says.

Four behaviours of the engine's code are easy to misread, and the model keeps them as written:

- A press judges the note with the highest list index among those in the lane and within 50 px. This is not necessarily the nearest note (`GameProperties.HitIsNotNearest`).
- Hold progress keeps following the clock after the key is released. Only the drawing treats a released hold differently (`GameProperties.ProgressIgnoresKey`, `GameProperties.ReleasedHoldScenario`).
- The spawn window is the closed interval `[time - 1375, time - 1275]`.
- The round's clock starts at 0 (src/seen/game.ts:104 and 595), so a chart note or hold before 1275 ms is never due and never appears (`GameProperties.EarlyEntitiesNeverSpawn`). In the four sample charts that is every note from 400 to 1200 ms. A note that does spawn reaches the line 50 ms after its time, because it starts 20 px above the field (`GameProperties.OneNoteReachesLine`).

## Model

| member | source | states |
|---|---|---|
| ChartTypes.ParseNoteType | src/note/type.ts:4 | the domain of the note-type union: a spelling names a note type exactly when it is `normal` or `critical` (no code of the repository parses or prints note types) |
| ChartTypes.TypeNameRoundTrip | src/note/type.ts:4-12 | the union's two members have different spellings, and each spelling names its member |
| ChartLoader.SampleCharts | src/chart/chartLoader.ts:4-119 | the four sample charts, entry for entry (`SampleChartsWellFormed`) |
| ChartLoader.GetChart | src/chart/chartLoader.ts:122-124 | an index in 0..3 yields that sample chart, which is well formed; every other index yields none |
| ChartLoader.GetAllCharts | src/chart/chartLoader.ts:126-128 | the four sample charts in order (difficulties Normal, Hard, Expert, Extend), each well formed |
| ChartLoader.SampleChartsWellFormed | src/chart/chartLoader.ts:4-119 | every sample note and hold is in lanes 0..3; every hold ends after it starts; notes are in time order; no two notes, and no note and hold start, share a time and lane |
| ChartLoader.SampleChart1WellFormed | src/chart/chartLoader.ts:5-29 | the first sample chart is well formed |
| ChartLoader.SampleChart2WellFormed | src/chart/chartLoader.ts:30-57 | the second sample chart is well formed |
| ChartLoader.SampleChart3WellFormed | src/chart/chartLoader.ts:58-87 | the third sample chart is well formed |
| ChartLoader.SampleChart4WellFormed | src/chart/chartLoader.ts:88-118 | the fourth sample chart is well formed |
| ChartLoader.LinearFactsSuffice | src/chart/chartLoader.ts:13-117 | strictly increasing (time, lane) keys and holds placed after the last note imply the pairwise chart invariants |
| ChartLoader.NotesChain | src/chart/chartLoader.ts:13-24 | adjacent ordering of notes extends to any two notes |
| ChartLoader.HoldsChain | src/chart/chartLoader.ts:26-27 | adjacent ordering of hold starts extends to any two holds |
| ChartLoader.OrderedNotesFacts | src/chart/chartLoader.ts:13-24 | strictly ordered note keys give time order and distinct keys |
| ResultRank.NewResultScene | src/seen/result.ts:10-15 | a result screen keeps the score, misses and goods it is given; counts left out are 0 |
| ResultRank.CalculateRank | src/seen/result.ts:120-130 | A exactly when misses + goods <= 3, B exactly when 4..20, C exactly when > 20 |
| ResultRank.RankNeverImproves | src/seen/result.ts:120-130 | more misses and goods never give a better rank |
| ResultRank.RankColor | src/seen/result.ts:132-138 | A gold, B blue, C green, anything else white |
| ResultRank.DefaultRankIsA | src/seen/result.ts:10-15 | a result screen without counts shows rank A in gold |
| ResultRank.RankColorsDistinct | src/seen/result.ts:132-138 | the three ranks have three different colours, none white |
| SongSelect.MaxScrollY | src/seen/select.ts:67-69 | max(0, 120 n - 400): never negative, and positive exactly from four songs on |
| SongSelect.ClampScroll | src/seen/select.ts:276 | the new offset lies in [0, max], equals the unclamped offset when that fits, and sticks to the edge otherwise |
| SongSelect.ScrollStopsAtEdges | src/seen/select.ts:276 | scrolling up at the top or down at the bottom leaves the offset unchanged |
| SongSelect.SelectScene.Start | src/seen/select.ts:67-69 | the list starts at offset 0 with the computed maximum |
| SongSelect.SelectScene.Scroll | src/seen/select.ts:273-278 | a no-op when the list fits; otherwise the clamped offset, with the container at minus the offset; the offset stays in range |
| SongSelect.SelectScene.HandleKeyDown | src/seen/select.ts:246-257 | ArrowUp scrolls by -50, ArrowDown by +50, other keys do nothing |
| SongSelect.SelectScene.HandleWheel | src/seen/select.ts:260-263 | a positive wheel delta scrolls by +50, anything else by -50 |
| SongSelect.DifficultyColor | src/seen/select.ts:234-242 | Normal, Hard, Expert and Extend get their colours; white exactly for any other difficulty |
| SongSelect.DifficultyColorsDistinct | src/seen/select.ts:234-242 | the four difficulties get four distinct colours |
| SongSelect.NatToString | src/seen/select.ts:106 | the decimal spelling of an index: non-empty digits without a leading zero, whose value (`DigitsValue`) is the index |
| SongSelect.FallbackEntry | src/seen/select.ts:106-112 | the list entry of one chart (`FallbackMusicData`) |
| SongSelect.FallbackMusicData | src/seen/select.ts:104-113 | one entry per chart in order: id `chart_i`, chart index i, rating 1, title and difficulty copied, an empty artist becomes Unknown and a zero bpm becomes 120, other artists and bpms are kept |
| SongSelect.FallbackIdsDistinct | src/seen/select.ts:104-106 | two different entries of the fallback list have different ids |
| SongSelect.FallbackForSampleCharts | src/seen/select.ts:104-113 | for the sample charts: four entries, artists kept, four distinct difficulty colours, maximum scroll 80 |
| UscConvert.LanePosition | usc2json.py:3-8 | exactly the lanes -4.5, -1.5, 1.5 and 4.5 have a position, and it is in 0..3 |
| UscConvert.LanePositionBijective | usc2json.py:3-8 | distinct known lanes map to distinct positions 0, 1, 2, 3 |
| UscConvert.FirstBpm | usc2json.py:12 | the bpm of the first bpm object, or 160 when there is none |
| UscConvert.RoundHalfEvenNearest | usc2json.py:31 | rounding lands within one half of the value, and a tie goes to the even integer |
| UscConvert.RoundHalfEvenExamples | usc2json.py:65 | 2.5 rounds to 2, 3.5 to 4, -0.5 to 0 |
| UscConvert.RoundHalfEven | usc2json.py:31 | Python's `round` on an exact value: the nearest integer, ties to even (`RoundHalfEvenNearest`) |
| UscConvert.RoundedTime | usc2json.py:27-31 | `round(beat * ms_per_beat)` |
| UscConvert.NoteOf | usc2json.py:20-34 | the note of one object, if it is a single on a known lane (`SingleConverted`) |
| UscConvert.HoldOf | usc2json.py:36-57 | the hold of one object, if it is a two-connection slide starting on a known lane (`SlideConverted`, `SlideNeedsTwoConnections`) |
| UscConvert.NotesOf | usc2json.py:19-34 | the notes of all objects, in input order (`ConvertDistributes`, `ConvertedInLanes`) |
| UscConvert.HoldsOf | usc2json.py:19-57 | the holds of all objects, in input order (`ConvertDistributes`, `ConvertedInLanes`) |
| UscConvert.TypeOf | usc2json.py:28 | `critical` exactly when the object's flag is set |
| UscConvert.ConvertObject | usc2json.py:20-57 | one object gives exactly its own note (a single on a known lane) or hold (a two-connection slide starting on a known lane), or nothing |
| UscConvert.ConvertUscToCustomChart | usc2json.py:10-71 | fails exactly on a zero bpm; otherwise fixed Unknown metadata, the bpm, the offset rounded to ms, and the notes and holds of every accepted object in input order |
| UscConvert.PrefixStep | usc2json.py:19-57 | one more object adds its own note or hold, if any, at the end |
| UscConvert.ConvertDistributes | usc2json.py:19-57 | converting a concatenation concatenates the conversions, so input order is kept |
| UscConvert.ConvertOne | usc2json.py:20-57 | an object yields at most one entry, and only singles give notes and only slides give holds |
| UscConvert.SingleConverted | usc2json.py:20-34 | a single on a known lane gives one note at round(beat * ms per beat), typed by its flag, at its lane's position |
| UscConvert.SlideConverted | usc2json.py:36-57 | a two-connection slide gives one hold from the first connection's time to the second's, at the first connection's lane |
| UscConvert.SlideNeedsTwoConnections | usc2json.py:37-38 | a slide without exactly two connections gives no hold |
| UscConvert.ConvertedInLanes | usc2json.py:23-25 | every converted note and hold is in lanes 0..3, and there are no more entries than objects |
| UscConvert.ReversedSlideConverts | usc2json.py:48-54 | a slide whose second beat precedes its first gives a hold that ends before it starts |
| GameRules.SpawnLeadIsTravelTime | src/seen/game.ts:670 | the spawn lead 550 / 400 * 1000 is 1375 ms |
| GameRules.LaneOfKey | src/seen/game.ts:310-316 | D, F, J, K select lanes 0..3; every other key selects -1 |
| GameRules.LaneKeysDistinct | src/seen/game.ts:312-315 | the four keys select four different lanes |
| GameRules.Distance | src/seen/game.ts:428 | the distance to the line is non-negative and is either y - 550 or 550 - y |
| GameRules.PickBelow | src/seen/game.ts:423-430 | the scan finds the highest index below k whose note is in the lane and within 50 px, or none exactly when there is no such note |
| GameRules.TierOf | src/seen/game.ts:441-456 | JUST exactly below 20 px, GREAT exactly in [20, 34), GOOD exactly from 34 px |
| GameRules.PointsTable | src/seen/game.ts:441-456 | 100/200, 75/150 and 50/100 points; critical doubles normal; nearer tiers are worth more |
| GameRules.NearerScoresMore | src/seen/game.ts:441-456 | a nearer note never scores less than a farther one of the same type |
| GameRules.Judge | src/seen/game.ts:441-456 | the judgment's tier comes from the distance alone and its points from tier and type |
| GameRules.RemoveAt | src/seen/game.ts:433 | removing index k keeps every other note in order |
| GameRules.FirstMatch | src/seen/game.ts:481-493 | the first hold from i on that matches, or none exactly when none matches |
| GameRules.CheckHoldStartEffect | src/seen/game.ts:479-494 | at most one hold changes: the first one matching, which becomes started and mirrors the lane key; chart data and scoring flags stay |
| GameRules.Clamp01 | src/seen/game.ts:764 | clamping lands in [0, 1] and leaves values already in range alone |
| GameRules.PickNote | src/seen/game.ts:423-430 | the note a press in a lane judges: the last in the list of that lane within 50 px; characterised by `PickBelow` |
| GameRules.Hit | src/seen/game.ts:421-477 | `hitNote`: the picked note is removed, scored by `Judge`, the combo grows by one and `CheckHoldStart` runs at its time; nothing without a pick (`PressJudgesOneNote`, `PressWithoutCandidate`) |
| GameRules.Press | src/seen/game.ts:309-324 | `handleKeyPress`: a lane key not yet held is marked held and `Hit` runs; any other key does nothing (`StrayKeyIgnored`, `PressNeverLoses`) |
| GameRules.CheckHoldStart | src/seen/game.ts:479-494 | `checkHoldStart`: the first unstarted hold of the lane at the judged time is started, active as its key (`CheckHoldStartEffect`) |
| GameRules.ReleaseLane | src/seen/game.ts:496-505 | `releaseHold`: the first started hold of the lane becomes inactive and its key flag up (`ReleaseEffect`) |
| GameRules.Release | src/seen/game.ts:326-340 | `handleKeyRelease`: a lane key is marked up and `ReleaseLane` runs; any other key does nothing (`ReleaseEffect`) |
| GameRules.SpawnNoteStep | src/seen/game.ts:670-679 | one chart note: appended at y = -20 when due and no active note has its time and lane |
| GameRules.SpawnNotes | src/seen/game.ts:669-680 | the note loop over the chart in order (`SpawnNotesAppendsDue`, `SpawnNotesFresh`, `DueNotesSpawned`) |
| GameRules.SpawnHoldStep | src/seen/game.ts:684-701 | one chart hold: when due and no active hold has its start and lane, its start note and a fresh hold are appended |
| GameRules.SpawnHolds | src/seen/game.ts:683-702 | the hold loop over the chart in order (`SpawnHoldsAppendsDue`, `DueHoldsSpawned`) |
| GameRules.SpawnFromChart | src/seen/game.ts:665-703 | `spawnNotesFromChart`: nothing without a chart, else the note loop then the hold loop (`SpawnFromChartEffect`, `EarlyEntitiesNeverSpawn`) |
| GameRules.Survivors | src/seen/game.ts:605-621 | the notes moved by the fall, in order, without those past 650 (`SurvivorsFacts`) |
| GameRules.ComboAfter | src/seen/game.ts:610-616 | a miss sets a positive combo to 0; otherwise the combo stays |
| GameRules.MoveNotes | src/seen/game.ts:604-621 | the note loop of `update`: survivors replace the notes, and the combo follows `ComboAfter` of whether any note expired (`AnyExpiresMeansSome`) |
| GameRules.ProgressAt | src/seen/game.ts:760-783 | `max(0, min(1, elapsed / duration))`, with JavaScript's results when the duration is 0 (`ProgressInRange`, `ProgressIsElapsedFraction`, `ProgressMonotone`) |
| GameRules.AwardOf | src/seen/game.ts:786-792 | 300 for a critical hold and 150 for a normal one, on the first tick of a started hold at or past its end; else 0 |
| GameRules.HoldStep | src/seen/game.ts:630-643 | one hold on one tick: a started hold copies its lane key into its flags, updates its progress from its start on, and is marked scored from its end on; an unstarted hold stays (`ProgressIgnoresKey`, `HoldScoredExactlyOnce`) |
| GameRules.HoldsAfter | src/seen/game.ts:624-657 | the holds stepped, in order, without those at or past end + 100 (`HoldsAfterFacts`) |
| GameRules.TickHolds | src/seen/game.ts:623-657 | the hold loop of `update`: holds become `HoldsAfter` and the score gains every hold's award, removed ones included (`HoldPointsNonNegative`) |
| GameRules.Tick | src/seen/game.ts:588-663 | `update` on the engine state: spawn, then notes, then holds (`TickEffect`) |
| GameProperties.StrayKeyIgnored | src/seen/game.ts:318 | a non-lane key, or a key already held, changes nothing |
| GameProperties.PressWithoutCandidate | src/seen/game.ts:423-430 | with no note of the lane within 50 px, a press only marks the key held: no miss, no score, combo, note or hold change |
| GameProperties.PressJudgesOneNote | src/seen/game.ts:421-474 | a judged press removes exactly the last qualifying note, adds 1 to combo and its tier points to score, sets the key, and starts the matching hold |
| GameProperties.PressNeverLoses | src/seen/game.ts:458-461 | a press never lowers score or combo, removes at most one note, and judges exactly when a note goes |
| GameProperties.HitIsNotNearest | src/seen/game.ts:423-430 | with a note on the line listed before one 40 px past it, the press judges the farther one as GOOD |
| GameProperties.ReleaseEffect | src/seen/game.ts:326-338 | a release marks the key up and releases at most the first started hold of the lane; notes, score and combo stay |
| GameProperties.SpawnNotesFresh | src/seen/game.ts:673-677 | the note loop appends a note only when no note before it in the list has its time and lane, even if the list already held duplicates |
| GameProperties.SpawnNotesAppendsDue | src/seen/game.ts:669-680 | spawning only appends: each new note is a due chart note, not yet active, placed at y = -20; nothing else changes |
| GameProperties.SpawnNotesKeepsUnique | src/seen/game.ts:673-677 | if no two active notes shared a time and lane before the note loop, none do after it |
| GameProperties.HoldStartDuplicatesNote | src/seen/game.ts:683-700 | a hold's start note skips the note check: a note and a hold both at 2000 ms in lane 0 give two active notes with one key |
| GameProperties.DueNotesSpawned | src/seen/game.ts:669-680 | after spawning, every due chart note is active |
| GameProperties.DueHoldsSpawned | src/seen/game.ts:683-702 | after spawning, every due chart hold is active |
| GameProperties.EarlyEntitiesNeverSpawn | src/seen/game.ts:669-702 | on a clock that is not negative, spawning appends no note and no hold before 1275 ms |
| GameProperties.SpawnHoldsAppendsDue | src/seen/game.ts:683-702 | each new hold is a due chart hold, fresh and unstarted, with its start note appended alongside it |
| GameProperties.SpawnHoldsKeepsUnique | src/seen/game.ts:686-689 | hold spawning never makes two active holds share a start time and lane |
| GameProperties.SurvivorsAppend | src/seen/game.ts:605-621 | expiring a concatenation concatenates the survivors of its parts |
| GameProperties.SurvivorsSound | src/seen/game.ts:605-621 | every survivor is a moved note not past 650; notes are lost exactly when one expires |
| GameProperties.SurvivorsInOrder | src/seen/game.ts:605-621 | every note not past 650 survives, moved, after the survivors of the notes before it, so survivors keep their order |
| GameProperties.SurvivorsFacts | src/seen/game.ts:605-621 | expiry keeps exactly the moved notes not past 650, in order; notes are lost exactly when one expires |
| GameProperties.NoExpiryMovesAll | src/seen/game.ts:605-607 | without an expiry every note survives, moved by 400 * dt / 60 |
| GameProperties.AnyExpiresMeansSome | src/seen/game.ts:610 | a miss happens exactly when some moved note is past 650 |
| GameProperties.ProgressInRange | src/seen/game.ts:764 | progress is in [0, 1], or NaN exactly for a zero-length hold at its start |
| GameProperties.ProgressIsElapsedFraction | src/seen/game.ts:763-765 | progress is the elapsed fraction of the hold, and 1 from its end on |
| GameProperties.ProgressMonotone | src/seen/game.ts:760-783 | progress never decreases as time moves on |
| GameProperties.ProgressIgnoresKey | src/seen/game.ts:780-783 | progress and scoring do not depend on the key; only isActive and keyHeldDown follow it |
| GameProperties.HoldScoredExactlyOnce | src/seen/game.ts:786-792 | over any run of ticks a started, unscored hold awards 150/300 points exactly once if a tick reaches its end, and nothing otherwise |
| GameProperties.StartedHoldScoredBeforeRemoval | src/seen/game.ts:650-656 | a started hold is scored no later than the tick that removes it |
| GameProperties.HoldsAfterAppend | src/seen/game.ts:624-657 | updating a concatenation of holds concatenates the holds left of its parts |
| GameProperties.HoldsAfterSound | src/seen/game.ts:624-657 | every hold left is an updated hold not past end + 100 |
| GameProperties.HoldsAfterInOrder | src/seen/game.ts:624-657 | every hold not past end + 100 is kept, updated, after the holds kept before it, so kept holds keep their order |
| GameProperties.HoldsAfterFacts | src/seen/game.ts:624-657 | the holds left are exactly the updated holds not past end + 100, in order |
| GameProperties.HoldsAfterKeepsUnique | src/seen/game.ts:652-656 | removing holds keeps their keys distinct |
| GameProperties.HoldPointsNonNegative | src/seen/game.ts:787-791 | hold points are never negative |
| GameProperties.SpawnFromChartEffect | src/seen/game.ts:665-703 | spawning changes no key, score or combo, only appends, and keeps hold keys distinct |
| GameProperties.TickEffect | src/seen/game.ts:588-663 | a tick adds only hold points; only a miss touches combo (positive to 0); afterwards no note is past 650, no hold past end + 100, and hold keys stay distinct |
| GameProperties.KeyEventsKeepHoldKeys | src/seen/game.ts:479-505 | presses and releases keep hold keys distinct |
| GameProperties.SurvivorsOfOne | src/seen/game.ts:605-621 | a single note not past the line survives, moved |
| GameProperties.OneNoteSpawns | src/seen/game.ts:665-680 | a critical note at 2000 ms spawns at 625 ms, 1375 ms before its time, at y = -20 |
| GameProperties.OneNoteReachesLine | src/seen/game.ts:604-607 | a tick of 85.5 frames, at 2050 ms, puts it on the line (570 px) and does not spawn it again |
| GameProperties.OneNoteJudgedJust | src/seen/game.ts:441-461 | pressed on the line it is judged JUST for 200 points, combo 1 |
| GameProperties.HeldHoldScenario | src/seen/game.ts:744-792 | a 6000-7000 ms hold, started and held, reaches progress 1 at 7000 ms and scores 150 once |
| GameProperties.ReleasedHoldScenario | src/seen/game.ts:775-792 | the same hold released has progress 0.8 at 6800 ms and still scores 150 at 7000 ms |
| GameEngine.GameScene.constructor | src/seen/game.ts:29-61 | empty lists, keys up, score, combo and timer 0, a 15 s round, not ready |
| GameEngine.GameScene.SetChartIndex | src/seen/game.ts:832-835 | the chart becomes the sample chart at the index, or none |
| GameEngine.GameScene.SetChart | src/seen/game.ts:843-845 | the chart becomes the given one |
| GameEngine.GameScene.ApplyBgmDuration | src/seen/game.ts:867-872 | a positive BGM duration becomes the round length |
| GameEngine.GameScene.Start | src/seen/game.ts:86-93 | the scene becomes ready |
| GameEngine.GameScene.HandleKeyPress | src/seen/game.ts:309-324 | the scene moves as `Press` says, keeping score and combo non-negative and hold keys distinct |
| GameEngine.GameScene.HandleKeyRelease | src/seen/game.ts:326-340 | the scene moves as `Release` says |
| GameEngine.GameScene.HitNote | src/seen/game.ts:421-477 | the backward scan stops at the note `PickNote` names and judges it as `Hit` says; with no such note nothing changes |
| GameEngine.GameScene.JudgeNoteAt | src/seen/game.ts:431-474 | judging the picked note: it is removed, its tier branches give `Judge`'s points, combo grows by one, and the hold starting at it is started, all as `Hit` says |
| GameEngine.GameScene.CheckHoldStart | src/seen/game.ts:479-494 | the forward scan starts the hold `CheckHoldStart` picks |
| GameEngine.GameScene.ReleaseHold | src/seen/game.ts:496-505 | the forward scan releases the hold `ReleaseLane` picks |
| GameEngine.GameScene.Update | src/seen/game.ts:588-663 | on a clock that is not negative, a scene that is not ready ignores the tick; otherwise the timer advances by dt / 60, the state moves as `Tick` says, and the round ends when the timer reaches its duration |
| GameEngine.GameScene.SpawnNotesFromChart | src/seen/game.ts:665-703 | the two loops spawn what `SpawnFromChart` says |
| GameEngine.GameScene.SpawnNote | src/seen/game.ts:399-419 | appends the note at y = -20 |
| GameEngine.GameScene.SpawnHold | src/seen/game.ts:705-742 | appends an unstarted, inactive, unscored hold with progress 0 |
| GameEngine.GameScene.UpdateNotes | src/seen/game.ts:604-621 | the scene's notes and combo move as `MoveNotes` says |
| GameEngine.MoveAndExpire | src/seen/game.ts:605-621 | the backward loop leaves exactly the moved survivors in order, and resets a positive combo exactly when some note expires |
| GameEngine.GameScene.UpdateHolds | src/seen/game.ts:623-657 | the scene's holds and score move as `TickHolds` says, with the lane keys as they are during the tick |
| GameEngine.TickHoldList | src/seen/game.ts:624-657 | the backward loop leaves the updated holds not past end + 100, in order, and adds every hold's award to the score |
| GameEngine.UpdateHold | src/seen/game.ts:630-643 | a started hold follows its lane key and is advanced as `HoldStep` says, adding its award once; others stay |
| GameEngine.UpdateHoldProgress | src/seen/game.ts:744-793 | progress follows the clock from the start in both branches; points are added once the end is reached |
| GameEngine.NoteStep | src/seen/game.ts:605-621 | one backward step of the note loop splits off the note at i |
| GameEngine.HoldStepAt | src/seen/game.ts:624-657 | one backward step of the hold loop splits off the hold at i |

## Left out

- Rendering is not modelled: the PIXI graphics, texts, hit effects, fades, lane drawing, the loading overlay, and the hold body's redraw and `positionY`/`endGraphic` positions. None of it feeds back into judgment or scoring.
- Audio is not modelled: the hit sounds, BGM playback, and waiting for the BGM to load. Loading is reduced to `ApplyBgmDuration` and `Start`, which set the round length and make the scene ready.
- `Date.now()` is replaced by an explicit `currentTime` argument in ms since the round started, which `GameEngine.GameScene.Update` requires to be non-negative, as `start` stamps the round's start before any tick does work. The engine reads the clock twice per tick; the model uses one reading. The spawn timestamps stored in notes and holds are never read, so they are dropped.
- `deltaTime` (frames) and `currentTime` (ms) are independent arguments of `Update`, while the source derives both from wall-clock time; no relation between them, such as 60 frames per second, is assumed. `GameProperties.OneNoteReachesLine` uses a single tick of 85.5 frames, which a real ticker would not deliver; since a note's y grows by `400 * deltaTime / 60` on every tick, ticks whose frames add up to 85.5 move it by the same 570 px.
- Numbers are exact: y positions, `deltaTime / 60` and progress are exact reals, not IEEE doubles. The remaining-time display (`Math.ceil`) is not modelled.
- Python's `round` is modelled on exact values, ties to even. The floating-point error of `beat * 60000 / bpm` is not.
- DOM listener registration and removal are not modelled. Key events are calls to `HandleKeyPress`/`HandleKeyRelease`, which, as in the source, run whether or not the scene is ready.
- `getChartById`, `loadChartById` and the song list fetch are network calls and are not modelled. A chart obtained that way enters through `SetChart`; only the fallback list of the song list is modelled.
- The `timeText` readiness check of `update` is not modelled separately: the text exists once the scene has started, so it folds into `gameReady`.
- `endGame` hands the score to the scene manager, which is not modelled. `Update` returns whether the round has ended, and the caller reads the score.
- Reading the converter's input file and writing its output file are not modelled. Neither are the scene manager, the bootstrap, the title screen and the build configuration.
- The note and hold loops of `update` (`GameEngine.MoveAndExpire`, `GameEngine.TickHoldList`) run on the lists' values and write the scene's fields back after the loop, and `GameEngine.UpdateHoldProgress` returns the new score instead of adding to the field. Nothing reads those fields while the loop runs, so the end state is the same.
- The converter's input is typed: an object without `type`, `beat` or `lane`, or a connection without `beat` or `lane`, makes usc2json.py raise `KeyError` (lines 12, 20-22, 43 and 48-49), and the model has no such input.
- Note and hold times are integers. A chart obtained through `SetChart` with fractional ms times, which a JavaScript number allows, is not represented.
- `SongSelect.FallbackEntry`: JavaScript falsiness is modelled only for the values a chart can hold here, so only the empty artist and the zero bpm get defaults (a NaN bpm cannot occur with exact reals).
