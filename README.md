# AIRA rhythm battle core in Dafny

This project models the game core of `script.js`, a browser rhythm game.
In the game, the singer AIRA beats two enemies, FIX and GL!TCH, in four-lane
note battles. Dialogs and comic prologues sit between the battles. The model
covers five parts of the script.

- **Battle economy** (`economy.dfy`, module `Economy`). The fields of the
  global `game` record, grouped into status flags, health bars, tallies and
  the special gauge. It also covers `damageEnemy`, `damageSelf` with its
  fifth-miss critical, the `_ending` guard of `endBattle`, `determineWinner`
  and `calculateGrade`.
- **Judgment engine** (`judgment.dfy`, module `Judgment`).
  - `onKey`: the nearest-note search, the ignore/hit/miss decision, the
    double tier count, score and damage, and the special-gauge gain with
    the golden note push and the sort.
  - `updateNotes`: the time-out sweep, the song-end resolution and the
    damage the sweep schedules.
- **Battle session** (`session.dfy`, module `Session`). `startBattle`'s
  reset, and one battle as a run of events: key presses, frames, the
  countdown timer, the song's end, the skip button and the start of play.
- **Game object** (`engine.dfy`, module `Engine`). The record as a class
  whose handlers update its fields in place, in the order the source uses.
  Each handler is proved to leave the object exactly as the matching
  function above describes, so the lemmas about those functions hold of
  the object.
- **Pattern generator** (`pattern.dfy`, module `Pattern`).
  `generatePattern`'s beat loop with the climax run, rests, chords and
  quick follow-ups. Every `Math.random()` call is read from a parameter
  `rand`, in the source's draw order.
- **Scene sequencer and input wait** (`scenes.dfy`, modules `Scenes` and
  `Navigation`). The `SCENES` list and the `sceneIndex` cursor. The
  handlers `nextScene`, `prevScene`, the dialog skip, the prologue skip and
  the result screen's retry. The one-shot `waitKeyOrClick`.

Times and pixel positions are `real`. A note's distance to the hit line is
its time distance times a fixed speed, so "nearest on screen" and "nearest
in time" agree (`Judgment.NearerOnScreenIsNearerInTime`). The lane height
`laneH`, the clock `now()` and every random draw are parameters.

Three behaviours of the source may look unintended. The model reproduces
each of them as written.
- The prologue skip stores the index of the next battle in
  `window.__skipToBattleIndex` (script.js:1342). Nothing reads that value.
  The comic's continuation then calls `nextScene`, so the skip leads to the
  dialog after the prologue, not to the battle.
- GOOD hits score 450 but call no `damageEnemy` at all.
- The tier counters are incremented twice per hit.

## Model

| member | source | states |
|---|---|---|
| Economy.InitialGame | script.js:316 | The record as the page loads it satisfies the battle invariant: bars and gauge in [0,100], sane tallies, `_ending` set exactly when an outcome was handed on. It holds no notes, and no battle is started, finished or ended. |
| Economy.DamageEnemy | script.js:1031-1033 | Only the bars change. With bars in range they stay in range, the player never loses health and the enemy never gains any. Each side is clamped on its own. When the player's side does not reach 100 it gains exactly `amount`; when the enemy's side does not reach 0 it loses exactly `amount`. Otherwise the side sits at 100 or at 0. |
| Economy.DamageEnemyInv | script.js:1031-1033 | damageEnemy keeps the battle invariant. |
| Economy.EndBattle | script.js:771-775 | The body runs only while `_ending` is clear. After the call `_ending` is always set. A second call changes nothing. The first one sets `_ending`, clears `started` and hands on `win`, and changes nothing else. Bars, tallies, gauge, notes, `finished`, `lastNoteHit`, `skipPressed`, tempo and length are untouched on both paths. |
| Economy.Winner | script.js:967-976 | The player wins exactly when `hpSelf >= hpEnemy`, so a tie goes to the player. |
| Economy.DetermineWinner | script.js:967-976 | Is endBattle with `win = hpSelf >= hpEnemy`: an unended battle ends with that outcome and `started` cleared, and nothing else changes. A battle that has already ended is left alone. |
| Economy.DamageSelf | script.js:977-1022 | Always resets the combo and counts one miss. Bars in range stay in range. Notes, score, best combo and tier counts are untouched. |
| Economy.DamageSelfEffects | script.js:977-1022 | The case split, in the source's order. (1) If the player reaches 0, the battle is finished and lost, and the gauge and the consecutive-miss count are unchanged. (2) Otherwise the gauge drops by 40 (special note, which also clears the queued flag) or by 20, floored at 0, and the special counts are unchanged. (3) Below five consecutive misses the count grows by one. (4) On the fifth, the critical moves 3×amount in all and restarts the count, without re-checking `hpSelf`. |
| Economy.DamageSelfInv | script.js:977-1022 | damageSelf keeps the battle invariant, the critical included. |
| Economy.CalculateGrade | script.js:418-429 | F exactly when lost or `hpSelf < 50`. Otherwise A/B/C/D exactly for misses ≤10, ≤20, ≤30, >30, each as an if-and-only-if. |
| Economy.GradeMonotone | script.js:418-429 | More misses never give a better grade. More health never gives a worse one. A loss is never better than a win. |
| Judgment.NoteY | script.js:937 | A note is on the spawn line one travel time before its time and on the hit line exactly at its time. |
| Judgment.YDistIsTimeDistance | script.js:930-937 | The note's offset from the hit line is `(t − n.t)` times the scroll speed, so its distance is the time distance scaled by the speed's magnitude. |
| Judgment.NearerOnScreenIsNearerInTime | script.js:1068 | For a lane with non-zero speed, one note is nearer the hit line than another exactly when it is nearer in time. |
| Judgment.WinPx | script.js:1040 | The pixel window always lies in [40,200]. Inside that range it is the unclamped `hitWindow·2·(hitY−spawnY)/travelTime`. |
| Judgment.Scan | script.js:1068 | The search's pick after `m` notes is one of those `m` notes. |
| Judgment.ScanNearest | script.js:1068 | The search finds a pending same-lane note at minimal distance, and the earliest in list order among ties, because of the strict `<`. It reports the note's distance and time delta. It finds none only when every candidate is at least 1e9 px away. |
| Judgment.DecideNearest | script.js:1068-1074 | The judged note is the nearest pending same-lane note, earliest on ties. It has an element and lies within 1.2 windows. A judged press is a hit exactly when the note is within half a window. When every candidate is beyond 1.2 windows the press judges nothing. |
| Judgment.DecideJudgesNearest | script.js:1068-1074 | Conversely, the nearest candidate (earliest on ties, with an element, within 1.2 windows) is always judged: accepted when within half a window, rejected otherwise. |
| Judgment.LaneOf | script.js:178 | Keys D, F, J, K (68, 70, 74, 75) drive lanes 0-3. Every other key reads as −1. |
| Judgment.DisplayTier | script.js:1084-1093 | The displayed tier is PERFECT exactly up to 0.05 s off, GREAT exactly above 0.05 s up to 0.1 s, GOOD exactly beyond 0.1 s. |
| Judgment.ScoreTier | script.js:1134-1137 | The scoring tier is PERFECT exactly up to 0.03 s off, GREAT exactly above 0.03 s up to 0.06 s, GOOD exactly beyond 0.06 s. |
| Judgment.TiersNested | script.js:1084-1137 | The two tier scales are nested. A PERFECT on the strict score scale is a PERFECT on the display scale. A GOOD on the display scale is a GOOD on the score scale. Every hit scores at least 450. |
| Judgment.SpecialNote | script.js:1126-1129 | The pushed golden note is special, pending, in a lane 0..3, 0.8 s after the press. |
| Judgment.InsertByTime | script.js:1131 | Inserting into a time-sorted list keeps it sorted and adds exactly that note to the multiset. |
| Judgment.InsertByTimeStable | script.js:1131 | The inserted note goes ahead of every note already at its time, and the notes at every other time keep their order. |
| Judgment.SortByTime | script.js:1131 | The result is sorted by time and is a permutation of the input. It is stable, as JavaScript's sort is: for every time, the notes at that time appear in the same order as in the input. |
| Judgment.SortKeepsTieOrder | script.js:1131 | Of two notes at the same time, the one first in the input comes first after the sort, ahead of every later note at that time. |
| Judgment.SortKeepsNotes | script.js:1131 | Sorting keeps the length, and every note of the sorted list comes from the input. |
| Judgment.MarkHit | script.js:1075-1112 | Only the judged note changes, and it becomes hit and removed. The combo grows by one and the consecutive-miss count restarts. Exactly the counter of the display tier grows: PERFECT up to 0.05 s off, GREAT up to 0.1 s, GOOD beyond. Bars, gauge and flags are untouched. |
| Judgment.GainSp | script.js:1116-1132 | Bars, tallies and flags are untouched. A special note empties the gauge and clears the queued flag. Any other note sets `sp = min(100, sp+10)`. The list changes only when the golden note is due, and then it is the sorted list with that note added. |
| Judgment.ScoreHit | script.js:1133-1143 | Exactly the counter of the given tier grows by one. Notes, gauge and the combo are untouched, `lastNoteHit` is set, the score grows by the tier's points, the best combo covers the combo, a GOOD leaves the bars alone, and bars in range stay in range. |
| Judgment.AcceptHit | script.js:1074-1143 | The combo grows by one, the consecutive-miss count restarts, no miss is counted, `lastNoteHit` is set, no note is lost and bars in range stay in range. |
| Judgment.RejectPress | script.js:1144-1151 | Every note is left as it was, `lastNoteHit` is cleared, the combo is broken and one miss is counted. |
| Judgment.Decide | script.js:1069-1074 | Whatever the press judges is a pending note of the lane that has its element. |
| Judgment.OnKeySpec | script.js:1037-1152 | Before the start nothing changes. Space is `damageEnemy(8)`. A key outside D, F, J, K changes nothing. Any press either counts no miss, or counts exactly one, breaks the combo and leaves every note as it was. |
| Judgment.AcceptHitTally | script.js:1074-1143 | An accepted hit adds 1 to the combo and resets the consecutive-miss count. The best combo becomes `max(best, combo)`. The score grows by 1000/700/450 by the strict tier. The three tier counters grow by exactly 2 in all: each counter grows once for the display tier (0.05/0.1 s) and once for the scoring tier (0.03/0.06 s) it falls in. The miss count is unchanged. The bars move by 3/2 (plus 12 for the special note). A GOOD hit on an ordinary note leaves the bars untouched. `lastNoteHit` is set. |
| Judgment.AcceptHitGauge | script.js:1116-1132 | A hit on the special note empties the gauge, clears the queued flag and counts the special. Any other hit sets `sp = min(100, sp+10)`. The list grows by one note exactly when the gain fills the gauge from below 100 with none queued. Then the flag is set and the list is a sorted permutation of the marked list plus the new note. Otherwise the list is the marked list. |
| Judgment.GoldenNoteAfterTies | script.js:1126-1131 | When a hit queues the golden note, the notes at the golden note's time are the ones already there, in their order, followed by the golden note. |
| Judgment.RejectPressEffects | script.js:1144-1151 | A rejected press leaves every note as it was, so the note stays pending. It clears the combo, counts a miss, clears `lastNoteHit` and costs 3 health, plus 6 more on a fifth consecutive miss. |
| Judgment.RejectedGoldenNoteStaysPending | script.js:1144-1151 | A rejected press on a pending golden note, with the player above 3 health, clears `_spQueued` and leaves the golden note pending. A further gauge fill can then queue a second one. |
| Judgment.WellFormedAfterHit | script.js:1074-1132 | After a hit on a pending note, every note is still in a lane 0..3 and none is both hit and missed. |
| Judgment.AcceptHitInv | script.js:1074-1143 | An accepted hit on a pending note keeps the battle invariant. |
| Judgment.OnKeyInv | script.js:1037-1152 | Every key press keeps the battle invariant. |
| Judgment.SweepNote | script.js:935-954 | A note keeps its time, lane, kind and hit flag. It is missed exactly when it was missed or times out. It is removed exactly when it was removed, times out, or has scrolled more than 40 px past the lane. It has its element exactly when it had one or was not yet removed. |
| Judgment.Sweep | script.js:935-954 | The sweep keeps the number of notes. |
| Judgment.SweepFlags | script.js:935-954 | The sweep never sets or clears `hit`, never clears `missed` or `removed`, and sets `missed` exactly on the pending, unremoved notes whose hit window has passed. It removes exactly those notes and the ones more than 40 px past the lane, and gives every note it visits its element. |
| Judgment.MissTags | script.js:944-950 | The sweep schedules at most one damageSelf call per note. |
| Judgment.MissTagsCount | script.js:944-950 | The sweep schedules exactly one damageSelf(6) per timed-out note. |
| Judgment.ApplyMisses | script.js:948-950 | The scheduled damageSelf(6) calls leave the notes alone, add one miss per call and, when there is any call, break the combo. |
| Judgment.ApplyMissesCounts | script.js:944-950 | The scheduled calls add one miss each, leave notes, score and best combo alone, break the combo if there is any, and keep the bars in range. |
| Judgment.ApplyMissesInv | script.js:948-950 | The scheduled calls keep the battle invariant. |
| Judgment.ApplyMissesStatus | script.js:944-950 | The scheduled calls never clear `finished` or `_ending` and never change an outcome already handed on. |
| Judgment.UpdateNotesSpec | script.js:928-966 | A tick keeps the number of notes and counts one miss per scheduled damageSelf call. |
| Judgment.UpdateNotesEffects | script.js:928-966 | A tick keeps the invariant and the number of notes, and counts exactly one miss per timed-out note. At `t > duration + 1.5` an unfinished battle becomes finished and ended, and one not already ended is handed the outcome `hpSelf >= hpEnemy` of the bars the frame found; the scheduled misses cannot change it. |
| Judgment.TallLaneDropsNote | script.js:935-954 | On a 1080 px lane, the frame 0.23 s after a note's time removes the note unjudged. No later frame touches it or times it out, so it is never counted as a miss. |
| Pattern.ClimaxNotes | script.js:572-578 | The climax run is exactly 10 notes in one lane, starting at the step's time, 0.3 beat apart. |
| Pattern.Expand | script.js:572-609 | A climax step emits 10 notes and a tap step one note per lane plus the optional follow-up; the first note is at the step's start in its base lane. |
| Pattern.TapNotes | script.js:601-609 | A tap step emits the base note and its chord notes at the step's time. The quick follow-up comes 0.5 beat later in lane `(base+1) % 4`. |
| Pattern.ChartAppend | script.js:567-611 | Appending a well-formed step that starts at the current time keeps the loop's chart invariant, the at-most-one-climax condition included. |
| Pattern.Without | script.js:603 | `lanes.filter(l => l !== baseLane)` keeps exactly the other lanes, keeps them distinct and drops exactly one when the base is present. |
| Pattern.OtherLanes | script.js:603 | Filtering the base lane out of `[0,1,2,3]` leaves three distinct lanes in 0..3, none of them the base lane. |
| Pattern.RemoveAt | script.js:604 | `avail.splice(j, 1)` shortens the list by one and leaves distinct lanes other than the removed one. |
| Pattern.RandomIndex | script.js:596-606 | `Math.floor(r·n)` with `r` in [0,1) is an index below `n`. |
| Pattern.BeatTimeStep | script.js:564-610 | One step of the beat counter moves the time by one beat, and the climax's two-step jump moves it by two. |
| Pattern.StepBeforeEnd | script.js:564-567 | While `b < floor(duration/beat) − 4`, the step's time is at least three beats before the end. |
| Pattern.FlattenAppend | script.js:567-611 | The notes of a sequence of steps extended by one step are the old notes followed by that step's notes. |
| Pattern.FlattenInSong | script.js:563-613 | Every note of well-formed steps lies in a lane 0..3 and between two beats in and the song's end. |
| Pattern.DrawChord | script.js:597-606 | The chord lanes are one or two, each in 0..3, pairwise distinct and distinct from the base lane. |
| Pattern.DrawTap | script.js:594-609 | A drawn tap step sits at the step's time with at most three distinct lanes in 0..3. |
| Pattern.GeneratePattern | script.js:563-613 | Terminates, with invariant `t == (b+2)·beat`. At most one climax. Steps strictly ordered in time. Chord lanes pairwise distinct. Every lane in 0..3. Every note time in `[2·beat, duration)`. The notes are exactly the steps' notes in order. |
| Session.JsRem | script.js:667 | JavaScript's `%`: the remainder differs from the dividend by a multiple of the divisor, has the dividend's sign and is smaller in magnitude than the divisor, which fixes it. |
| Session.ToNote | script.js:667 | A chart note becomes a pending, ordinary battle note without an element at the same time. A non-negative lane is reduced modulo 4 into 0..3 and a lane already in 0..3 is kept. |
| Session.StartBattle | script.js:646-667 | The end guard is re-armed. Flags, bars (50/50), tallies and gauge start over, except `_consecMiss` and `skipPressed`, which are kept. Tempo and length come from the scene. The notes are the chart's times and lanes, pending and without elements. |
| Session.StartBattleInv | script.js:646-667 | A battle started from a record with fewer than five pending consecutive misses, and with a non-negative chart, satisfies the invariant. |
| Session.Step | script.js:673-1367 | The timer at 0 always leaves the battle ended. The song's end finishes and ends an unfinished battle. The skip button on a running battle finishes and ends it, sets `skipPressed`, clears `lastNoteHit`, and hands on a loss when it had not ended. The end of the countdown starts play. A frame before the start changes nothing. |
| Session.OnKeyKeepsEnding | script.js:1037-1152 | No key press clears `_ending` or changes the outcome already handed on. |
| Session.StepKeepsEnding | script.js:771-775 | Once `_ending` is set, no event of the battle (key press, frame, timer at 0, song end, skip button, start of play) clears it or changes the outcome. |
| Session.StepInv | script.js:928-1152 | Every event keeps the battle invariant. |
| Session.EndFiresAtMostOnce | script.js:771-775 | In any run of events, endBattle's body runs at most once, whichever of timer, song end, tick, zero health or skip reaches it first. It never runs once `_ending` is set, and the outcome then stays. |
| Session.RunInv | script.js:928-1152 | Any run of events from a valid record keeps the invariant. |
| Session.SkipThenTimerStaysLost | script.js:1367 | The skip button loses the battle even when the player leads, and a later timer expiry cannot turn it into a win. |
| Engine.Game.constructor | script.js:316 | The object starts as the record the page loads. |
| Engine.Game.DamageEnemy | script.js:1031-1033 | Leaves the object exactly as `Economy.DamageEnemy` describes. |
| Engine.Game.EndBattle | script.js:771-775 | Leaves the object exactly as `Economy.EndBattle` describes. |
| Engine.Game.DetermineWinner | script.js:967-976 | Leaves the object exactly as `Economy.DetermineWinner` describes. |
| Engine.Game.DamageSelf | script.js:977-1022 | The in-place steps leave the object exactly as `Economy.DamageSelf` describes. |
| Engine.Game.FindNearest | script.js:1068 | The search loop returns exactly the pick `Judgment.Scan` makes over the whole list. |
| Engine.Game.MarkHit | script.js:1075-1112 | Marks the note, updates combo, consecutive misses and display tier, as `Judgment.MarkHit` describes. |
| Engine.Game.GainSp | script.js:1116-1132 | Applies the gauge, the push and the in-place sort as `Judgment.GainSp` describes. |
| Engine.Game.ScoreHit | script.js:1133-1143 | Applies the second tier count, best combo, score and damage as `Judgment.ScoreHit` describes. |
| Engine.Game.Accept | script.js:1074-1143 | The accept branch leaves the object as `Judgment.AcceptHit` describes. |
| Engine.Game.Reject | script.js:1144-1151 | The reject branch leaves the object as `Judgment.RejectPress` describes. |
| Engine.Game.OnKey | script.js:1037-1152 | A key press leaves the object as `Judgment.OnKeySpec` describes. |
| Engine.Game.SweepNotes | script.js:935-954 | The sweep loop leaves the notes as `Judgment.Sweep` describes, changes nothing else, and returns the scheduled damage tags of `Judgment.MissTags`. |
| Engine.Game.RunScheduledMisses | script.js:948-950 | Running the scheduled damageSelf(6) calls one after another leaves the object as `Judgment.ApplyMisses` describes. |
| Engine.Game.UpdateNotes | script.js:928-966 | The sweep loop, the song-end check and the scheduled damage loop leave the object as `Judgment.UpdateNotesSpec` describes. |
| Engine.Game.Frame | script.js:1156 | One `loop()` frame is the frame event of `Session.Step`. |
| Engine.Game.TimerExpired | script.js:706-707 | The timer reaching 0 is the timer event of `Session.Step`. |
| Engine.Game.SongEnded | script.js:673 | The audio's `onended` is the song-end event of `Session.Step`. |
| Engine.Game.SkipClicked | script.js:1367 | The skip button is the skip event of `Session.Step`. |
| Engine.Game.CountdownDone | script.js:761 | The start of play is the countdown event of `Session.Step`. |
| Engine.Game.StartBattle | script.js:646-667 | Resets the object as `Session.StartBattle` describes, with a generated chart whose lanes are in 0..3, and leaves the invariant holding. |
| Scenes.AllScenes | script.js:283-314 | The scene list has eight entries. |
| Scenes.BattleScenesPlayable | script.js:283-314 | The only battles are entries 3 (stage 1, FIX, 133 BPM, 135 s) and 6 (stage 2, GL!TCH, 149 BPM, 151 s). Both have positive tempo and length, as the generator requires. |
| Scenes.NextBattle | script.js:525-526 | The scan stops at the first battle at or after its start, passes only non-battles, and reaches the end only when none is left. |
| Scenes.NextScene | script.js:1354-1365 | The cursor grows by exactly 1. The scene under it is shown exactly when there is one, and nothing runs past the end. |
| Scenes.PrevScene | script.js:1366 | The cursor steps back and is floored at −1. The start screen runs exactly when no scene is under it. A dialog, battle or ending is re-shown. The start and prologue scenes start nothing. |
| Scenes.NextThenPrev | script.js:1354-1366 | prevScene undoes nextScene's cursor move from any cursor ≥ −1. nextScene undoes prevScene's from any cursor ≥ 0. |
| Scenes.DialogSkip | script.js:515-527 | The cursor always moves forward. With a battle ahead it lands on a battle and shows it. With none ahead it moves by one, as nextScene. |
| Scenes.DialogSkipStartsNextBattle | script.js:515-527 | The dialog skip leaves the cursor on the first battle after it and starts that battle, never the entries between. |
| Scenes.DialogSkipInGame | script.js:515-527 | In the game's list, each dialog's skip starts the battle right after it. A skip from the ending has no battle to go to and runs nothing. |
| Scenes.PrologueSkip | script.js:1340-1342 | The cursor moves by one and a scene is shown exactly when one is there. With a battle ahead, the stored index is that battle's, beyond the cursor. With none, the stored value is kept. |
| Scenes.PrologueSkipIsNextScene | script.js:1340-1342 | The prologue skip moves exactly as nextScene does, whatever is stored. It stores a battle index exactly when one lies ahead; otherwise the old value stays. |
| Scenes.PrologueSkipInGame | script.js:1340-1342 | From the two prologues the skip stores battles 3 and 6 but shows the dialogs 2 and 5. |
| Scenes.Retry | script.js:1268 | Retry on a battle restarts it without moving the cursor. Anywhere else it is nextScene: the cursor moves by one and a scene is shown exactly when one is there. |
| Scenes.ResolvesAtMostOnce | script.js:557 | The wait resolves at most once, never after it has resolved, and, starting unresolved, exactly when some press comes at or after the suppression deadline. |
| Scenes.KeyOrClickWait.Input | script.js:557 | A press fires exactly when the wait is unresolved and the press is not suppressed. Afterwards the wait is resolved exactly when it was before or this press fired. |
| Navigation.Sequencer.constructor | script.js:315 | The cursor starts at −1 with nothing stored. |
| Navigation.Sequencer.NextScene | script.js:1354-1365 | The cursor and dispatch are those of `Scenes.NextScene`. |
| Navigation.Sequencer.PrevScene | script.js:1366 | The cursor and dispatch are those of `Scenes.PrevScene`. |
| Navigation.Sequencer.FindBattle | script.js:525-526 | The source's scanning loop returns `Scenes.NextBattle`. |
| Navigation.Sequencer.DialogSkip | script.js:515-527 | The cursor and dispatch are those of `Scenes.DialogSkip`. |
| Navigation.Sequencer.PrologueSkip | script.js:1340-1342 | The cursor, dispatch and stored index are those of `Scenes.PrologueSkip`. |
| Navigation.Sequencer.Retry | script.js:1268 | The cursor and dispatch are those of `Scenes.Retry`. |

## Left out

- DOM, audio, video, asset loading, banners, effects, the typewriter and comic timing, and touch support. These are presentation only and write no state the model keeps. The post-battle and result screens do read it (`skipPressed`, tallies, bars).
- Real time. `now()`, the lane height and each `Math.random()` call are parameters. `setTimeout` and `requestAnimationFrame` scheduling is not modelled. The countdown timer is one "expired" event, without its per-second ticks. The 50 ms delay in nextScene is dropped.
- Ordering of deferred calls. The damageSelf(6) calls that updateNotes schedules are applied after the sweep and the song-end check of the same frame. They run in note order and before any other event. The special's deferred damageEnemy(12) is applied at the end of the accept branch. Both clamped transfers commute with the other bar changes of the branch.
- Early returns on a missing lane element. onKey and updateNotes return early when no `.lane` element exists. A lane of height 0 makes them use the playfield's `clientHeight`, and 720 px only when there is no playfield. The model takes `laneH` as given.
- JavaScript note identity and aliasing. Notes are values in a sequence, so the note objects the DOM elements refer to are not modelled.
- Judgment.SpecialNote: the golden note is timed at the press's `t + 0.8`. The source reads `now()` again when it pushes the note, a moment after the press; the model uses one clock reading per press.
- IEEE-754 floating point. Times, positions and draws are exact reals.
- Judgment.AcceptHitGauge: "at most one golden note is outstanding" is not proved, because it does not hold. A rejected press on the golden note clears `_spQueued` through damageSelf("MISS_SP") but leaves the note pending, so a second one can be queued. Only "pushed only while none is queued" is proved; `Judgment.RejectedGoldenNoteStaysPending` shows the case.
- Pattern.GeneratePattern requires a positive tempo and length. The source computes with any values; both battles in the scene list satisfy this (`Scenes.BattleScenesPlayable`).
- Session.StartBattleInv requires fewer than five pending consecutive misses and non-negative chart lanes. Neither the source nor the model ever breaks either.
- Helpers nothing calls: `computeGrade`, `computeGradeByMisses` and `damageSelfSilent`. Also the dev navigation buttons and `location.reload` on replay.
- The dialog line texts, character art and asset tables. A dialog keeps only its background, speakers and line count.
- Post-battle screens. What `endBattle`'s body starts after the guard (result screen, grade sound, stage transitions) is reduced to the outcome it is handed.
