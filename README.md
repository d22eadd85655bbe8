# 9×9 math game: progression and stage logic

This project models the game logic of the 9×9 multiplication quiz in `game.js`. It leaves out the browser parts. The model has three pieces.

- **Character** (`character.dfy`, module `Characters`) is a class with the fields `level`, `exp`, `maxHP`, `currentHP` and `equipment`.
  - `AddExp` runs the level-up loop of `addExp`. Each pass subtracts the threshold `level * 100`, raises the level and appends that level's entry from the equipment table. The loop stops at level 10 and keeps any experience left over.
  - `TakeDamage`, `Heal` and `ResetHP` keep hit points within 0..`maxHP`.
  - The invariant `Valid()` says four things. The level is in 1..10. Experience is below the threshold except at level 10. Hit points are in 0..100. The equipment list is exactly the table entries of levels 2..level, in ascending order.
- **Stage** (`stage.dfy`, module `Stages`) is one 10-question session of the times table of its number.
  - It holds the current question `a × b`, the number of questions answered and the number answered right.
  - `GetProgress` gives the label `asked/total`. The model proves that both counts can be read back from that label.
- **GameManager** (`game_manager.dfy`, module `Manager`) holds the decisions of the controller as a small state machine.
  - Its state is the screen (`Start`, `StageSelect`, `InStage`, `Victory`, `Defeat`), the current stage and the character.
  - Its methods are the range guard of `showGame`, `exitGame`, the branching of `submitAnswer`, `nextStage` and `retryStage`.
  - The victory and defeat modals are shown over the game screen. They appear as the screens `Victory` and `Defeat`.
  - Delayed transitions (`setTimeout`) take effect as soon as the decision is made.

The static unlock table `EQUIPMENT_DATA` is in `equipment.dfy` (module `EquipmentTable`). It keeps each entry's name, icon, slot type and style tag, with the same strings as game.js.

The figures: experience per right answer is a flat 20, damage per wrong answer is 15, hit points are 100, and the level cap is 10.

A stage's random operand `b` (`Math.floor(Math.random() * 9) + 1`) is a parameter `draw` that must be in 1..9. The answer box is an `Entry`:
- `Blank` means the box is empty after trimming. `submitAnswer` rejects this before scoring.
- `Typed(parsed)` holds what `parseInt` read. `Typed(None)` stands for `NaN`, which never equals the expected answer.

Some descriptions of this game mention mechanics that `game.js` does not have. `game.js` has no experience multiplier, no equipment experience bonus, no run timer or best-time record, no "ultimate victory" state, no run-wide correct/asked totals and no restart-run action. The model follows the code and has none of these. The code shows the exact leftover arithmetic. A level-1 character that gains 350 experience in all crosses two levels (100, then 200) and ends at level 3 with 50 left over (`LargeGainFromLevelOne`).

## Model

| member | source | states |
|---|---|---|
| `EquipmentTable.EntryFor` | game.js:4-14 | the unlock table has an entry exactly for levels 2..10 |
| `EquipmentTable.EntriesDistinct` | game.js:4-14 | two levels never unlock the same piece of equipment |
| `EquipmentTable.UnlocksBetweenSplit` | game.js:35-45 | leveling through two consecutive ranges appends what leveling through the whole range appends |
| `EquipmentTable.UnlocksBetweenAt` | game.js:37-44 | leveling from `from` to `to` (within 1..10) appends exactly `to - from` entries, and the i-th is the entry of level `from + 1 + i`: no level is skipped, each is appended once and they come in ascending order |
| `EquipmentTable.UnlockedNoDuplicates` | game.js:37-44 | the equipment of a character that started at level 1 holds no duplicate |
| `Characters.CostBetweenSplit` | game.js:35-37 | the experience spent leveling through two consecutive ranges adds up to what the whole range costs |
| `Characters.CostBetweenClosedForm` | game.js:27-29 | leveling from `from` to `to` costs `50 * (to*(to-1) - from*(from-1))` experience, the sum of the thresholds `k * 100` of the levels left behind |
| `Characters.CostAtLeastFirstThreshold` | game.js:35-37 | leaving a level, however far one goes, costs at least that level's threshold |
| `Characters.SettledUnique` | game.js:35-45 | the level and experience at which the level-up loop stops are fully determined by the starting level and the total experience, so the contract of `AddExp` describes exactly one outcome |
| `Characters.SettledCompose` | game.js:31-45 | gaining experience in two calls leaves the same level and experience as gaining the sum in one call |
| `Characters.FirstLevelUp` | game.js:31-45 | a level-1 character with 100 experience in all is at level 2 with 0 experience |
| `Characters.LargeGainFromLevelOne` | game.js:31-45 | a level-1 character given 350 in all ends at level 3 with 50 experience |
| `Characters.ReachesCap` | game.js:35 | from level 1, level 10 is reached exactly when 4500 experience has been gained in all |
| `Characters.SettlingKeepsProgressValid` | game.js:31-45 | settling a non-negative gain from a valid level gives a level in 1..10 and experience in 0..threshold (except at the cap); the appended entries complete the unlock list of the new level |
| `Characters.Character.constructor` | game.js:18-25 | a new character is at level 1 with 0 experience, full hit points (100) and no equipment |
| `Characters.Character.ExpToNextLevel` | game.js:27-29 | the threshold is what leaving the current level costs: 100 to 1000 for levels 1..10 |
| `Characters.Character.AddExp` | game.js:31-49 | the new level only rises, and never past 10 unless it already was; when it stays below 10 the leftover is below `level*100`; new exp plus the thresholds of the levels left behind equals old exp plus the amount; at level 10 or above nothing levels and the leftover is kept; the returned list is the entries of the levels reached, in order, and equals what was appended to `equipment`; `Valid()` is kept for a non-negative amount |
| `Characters.Character.TakeDamage` | game.js:51-55 | hit points become `max(0, hp - amount)`, and the result is true exactly when they reached 0 |
| `Characters.Character.Heal` | game.js:57-60 | hit points become `min(maxHP, hp + amount)` |
| `Characters.Character.ResetHP` | game.js:62-65 | hit points become exactly `maxHP` |
| `Characters.SeventhHitIsFatal` | game.js:51-55 | from full health, 15 damage at a time, the first six hits report alive and the seventh reports defeat |
| `Stages.Stage.constructor` | game.js:91-98 | a new stage drills its own number, has ten questions, starts both counters at 0 and has its first question drawn |
| `Stages.Stage.GenerateQuestion` | game.js:100-107 | the question becomes `a = number`, `b = draw` in 1..9, answer `a * b` |
| `Stages.Stage.CheckAnswer` | game.js:109-116 | the answer is right exactly when it equals the expected answer; the asked count rises by exactly 1, the right count rises by 1 exactly when the answer is right, and `correctAnswers <= currentQuestion` is kept |
| `Stages.Stage.GetProgress` | game.js:122-124 | the label `asked/total` reads back as the two counts |
| `Stages.ProgressLabelRoundTrip` | game.js:122-124 | reading back the label of any two counts gives those counts |
| `Decimal.NatToString` | game.js:123 | the decimal spelling of a count is a non-empty string of digits without a leading zero |
| `Decimal.ParseNatToString` | game.js:123 | reading the decimal spelling of a count gives the count back |
| `Stages.PlayStage` | game.js:118-120 | playing a stage as the game does, it is incomplete after each of the first nine answers and complete right after the tenth; the score is the number of answers equal to number × draw |
| `Manager.GameManager.constructor` | game.js:129-139 | a new game has a fresh character, no stage and the start screen |
| `Manager.GameManager.ShowStart` | game.js:142-145 | the start screen is shown |
| `Manager.GameManager.ShowStageSelect` | game.js:147-152 | the stage-select screen is shown and the stage is kept |
| `Manager.GameManager.ShowGame` | game.js:154-165 | a number outside 1..9 changes nothing; otherwise hit points become full and a fresh stage of that number is entered, with level, experience and equipment untouched |
| `Manager.GameManager.ExitGame` | game.js:167-170 | the stage is dropped and the stage-select screen is shown |
| `Manager.GameManager.SubmitAnswer` | game.js:374-418 | with no stage or a blank entry nothing changes; otherwise the stage counts the answer; a right one settles +20 exp and returns what it unlocked, a wrong one costs 15 HP; a fatal wrong answer shows defeat without consulting completion; otherwise a complete stage shows victory and an incomplete one gets the next question; the game invariant is kept |
| `Manager.GameManager.ApplyAnswer` | game.js:387-403 | the character's side of an answer: `addExp(20)` when right, `takeDamage(15)` when wrong, and only a wrong answer that empties the hit points is fatal |
| `Manager.GameManager.NextStage` | game.js:468-475 | after stages 1..8 the next stage is entered fresh; after stage 9, or with no stage, the stage-select screen is shown |
| `Manager.GameManager.RetryStage` | game.js:477-482 | the same stage number is entered fresh with full hit points; with no stage nothing changes |
| `Manager.DefeatOnSeventhWrongAnswer` | game.js:395-402 | in stage 9 from full health, six wrong answers keep the game on the stage and the seventh shows defeat |
| `Manager.VictoryWithTenRightAnswers` | game.js:385-410 | ten right answers in stage 1 of a new game show victory, with the character at level 2, 100 exp and only the wooden sword |

## Left out

- `saveProgress` and `loadProgress` (game.js:67-86) use `localStorage` and JSON. Persistence stores the four fields `level`, `exp`, `currentHP` and `equipment` (the `Snapshot` datatype). A new character is modelled as if nothing had been saved, so a reload of corrupt or foreign data, which could break `Valid()`, is not modelled.
- The random draw (`Math.random`) is a parameter. The exact string semantics of `trim` and `parseInt` are not modelled: the entry arrives already classified as blank or as `parseInt`'s result.
- `setTimeout` pacing (game.js:393, 400, 409, 412) is not modelled. Each delayed transition happens at once, so a second submission during a feedback delay is not modelled either.
- DOM rendering is not modelled because it is presentation only. This covers `hideAllScreens`, `renderStageGrid`, `getStageIcon`, `updatePlayerStatus`, `updateGameUI`, `updateHP`, `updateExp`, `updateEquipmentDisplay`, the CSS of `updateCharacterAppearance`, `renderQuestion`, `showFeedback`, `showLevelUpModal`, `closeLevelUpModal`, `showVictoryModal`, `showDefeatModal` and `updateUI`. The level-up modal appears only as the `unlocked` list that `SubmitAnswer` returns. The percentages for the HP and exp bars are display-only floating point.
- `achievementsList` is not modelled: it is initialised and never used.
- sw.js is not part of this model. It is service-worker caching over the Cache and Fetch APIs.
- Characters.Character.AddExp: keeps `Valid()` only for a non-negative amount, because a negative one can leave experience below 0, as it would in game.js. The game only adds 20.
- Characters.Character.TakeDamage: keeps `Valid()` only for a non-negative amount, because a negative one can raise hit points above 100, as it would in game.js. The game only deals 15.
- Characters.Character.Heal: keeps `Valid()` only for a non-negative amount, because a negative one can take hit points below 0, as it would in game.js. The game never heals.
