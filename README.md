# EcoLearn game and points core in Dafny

This project models the parts of the EcoLearn web application that hold sequential logic:

- **Carbon Catcher** (`carbon_game.dfy`, module `CarbonGame`). This is the falling-object catch game. It has a round state (score, lives, speed multiplier, running and completed flags), keyboard movement clamped to the canvas, an axis-aligned collision test, a particle buffer aged and spliced backwards every frame, a falling-object list whose `forEach` splices while it iterates, an object-id counter, and a persisted high score. Each transition is a function on a snapshot `Game`; the properties are lemmas about those functions. The class `CarbonCatcher` keeps the component's state and refs in fields and runs the same transitions in place, with the source's loops. Each method is proved to produce the result of its transition function.
- **Points ledger** (`points_context.dfy`, module `PointsContext`). This is a counter with a copy in local storage (modelled as a map field). `addPoints` writes the new total as decimal text. Loading reads it back with `parseInt`.
- **JavaScript number text** (`js_number.dfy`, module `JsNumber`). This covers `Number.prototype.toString()` and the global `parseInt`: whitespace skipping, sign, `0x` prefix, longest digit run, and `NaN`. A stored value that does not parse makes the source hold `NaN`, so totals and high scores are written `Num = Int(n) | NaN`.
- **Daily challenges** (`challenges_page.dfy`, module `ChallengesPage`). `submitChallenge` awards a challenge's points at most once. The today and previous lists split the challenges by date.
- **Leaderboard** (`leaderboard_page.dfy`, module `LeaderboardPage`). It sorts a copy of the users by points, highest first, with a stable sort. It numbers ranks 1..n, appends generated users, and applies bounded random point increases.

Calls from the game to `addPoints` are recorded in the field `awards`, one entry per call. Random draws (spawn position, kind and icon, particle velocity and size, new-user points, update choices and bonuses) are parameters. Their ranges are preconditions. The distance an object falls in a frame is a parameter `fall >= 0`. It stands for `2.5 * (1 + gameTime * 0.01) * deltaTime / 16.67` and is multiplied by the current speed multiplier.

The model follows the code as written, including these behaviours a reader may not expect:
- Lives are not clamped at 0. Several losses in one frame can take them below 0.
- `exitGame` awards the score but does not set the completed flag. So a game over after an exit would award again (`ExitThenGameOverAwardsTwice`).
- A good object caught while it is already past the bottom edge scores a point and also costs a life. Its second splice removes the next object, which is never visited (`CaughtPastBottomSplicesTwice`).
- Every splice inside the `forEach` makes the pass skip the element that moves into the removed one's place (`SpliceSkipsNext`).

Sorting works on a copy: `SortByPoints` is a function of the user list and does not change it.

## Model

| member | source | states |
|---|---|---|
| `JsNumber.ParseIntToText` | src/context/PointsContext.tsx:16-28 | `ParseInt` (`parseInt`) of `ToText` (`toString`) of a number is that number again, for every integer and for NaN |
| `JsNumber.NatToTextDigits` | src/context/PointsContext.tsx:28 | the decimal text of a natural number is non-empty, all digits, and its digit value is the number |
| `JsNumber.ParseIntOfDigits` | src/context/PointsContext.tsx:20 | `ParseInt` of a digit string, with or without a leading minus, is its signed decimal value |
| `JsNumber.TrimStart` | src/context/PointsContext.tsx:20 | the text `parseInt` reads is the input with its whole leading run of whitespace removed: a suffix of the input, everything before it whitespace, and its first character not whitespace |
| `JsNumber.DigitPrefix` | src/context/PointsContext.tsx:20 | the run `parseInt` converts is the longest prefix of the text made of digits of the radix: a prefix, all digits, and the next character, if any, not a digit |
| `PointsContext.PointsLedger.constructor` | src/context/PointsContext.tsx:12-14 | a mounted provider starts with total 0 and `loading` true |
| `PointsContext.PointsLedger.LoadFromStorage` | src/context/PointsContext.tsx:16-23 | a present, non-empty stored value is read with `parseInt`; otherwise the total stays; loading ends; over a fresh total the ledger then mirrors storage |
| `PointsContext.PointsLedger.AddPoints` | src/context/PointsContext.tsx:25-31 | the total becomes old total + points, the stored `totalPoints` becomes its decimal text, and storage mirrors memory |
| `PointsContext.PointsLedger.ResetPoints` | src/context/PointsContext.tsx:33-36 | the total becomes 0 and the stored key is removed, so memory and storage still agree |
| `PointsContext.AddAllIsSum` | src/context/PointsContext.tsx:25-30 | a sequence of `addPoints` calls adds the sum of their amounts (NaN stays NaN) |
| `PointsContext.StoredTotalAfterWrite` | src/context/PointsContext.tsx:16-23 | `StoredTotal`, the value loading reads, recovers exactly the total that `addPoints` wrote |
| `PointsContext.UsePoints` | src/context/PointsContext.tsx:45-51 | fails with the provider error exactly when there is no provider, and returns the provider's ledger otherwise |
| `ChallengesPage.FindById` | src/pages/ChallengesPage.tsx:60 | returns the index of the first challenge with the id, or none exactly when no challenge has it |
| `ChallengesPage.MarkCompleted` | src/pages/ChallengesPage.tsx:66-72 | keeps the length; every challenge with the id becomes completed and every other one is unchanged |
| `ChallengesPage.Submit` | src/pages/ChallengesPage.tsx:59-80 | after any submission no challenge is selected and no image is uploaded |
| `ChallengesPage.SubmitAwardsPoints` | src/pages/ChallengesPage.tsx:59-72 | submitting an existing, uncompleted challenge awards exactly its points and marks it completed |
| `ChallengesPage.SubmitChangesOnlyMatching` | src/pages/ChallengesPage.tsx:66-72 | submission keeps the length and order and changes nothing but the completed flag of matching entries |
| `ChallengesPage.SubmitUpdatesOneEntry` | src/pages/ChallengesPage.tsx:66-72 | with distinct ids, a successful submission changes exactly the submitted entry |
| `ChallengesPage.SubmitUnknownOrCompleted` | src/pages/ChallengesPage.tsx:60-61 | an unknown id or an already-completed challenge awards nothing and leaves the list as it was |
| `ChallengesPage.SubmitTwice` | src/pages/ChallengesPage.tsx:59-72 | submitting again awards nothing and changes nothing, so a challenge pays at most once |
| `ChallengesPage.FilterByDateMembers` | src/pages/ChallengesPage.tsx:82-83 | `FilterByDate` (and so `TodaysChallenges` and `PreviousChallenges`) keeps exactly the challenges on its side of the date test |
| `ChallengesPage.FilterByDateAppend` | src/pages/ChallengesPage.tsx:82-83 | filtering keeps the original order: the filter of a concatenation is the concatenation of the filters |
| `ChallengesPage.TodayPreviousPartition` | src/pages/ChallengesPage.tsx:82-83 | today's and previous challenges together are the list as a multiset, and each challenge is in exactly one of them |
| `ChallengesPage.InitialSplit` | src/pages/ChallengesPage.tsx:7-40 | on the initial data, today holds challenges 1 and 2, and previous holds 3 and 4 |
| `LeaderboardPage.SortByPointsCorrect` | src/pages/LeaderboardPage.tsx:21 | `SortByPoints`, the sorted copy, is a permutation of the users in non-increasing order of points, and users with equal points keep their original order |
| `LeaderboardPage.LeaderboardTable` | src/pages/LeaderboardPage.tsx:75-89 | `Rows`, the rendered table, has one row per user, rank i+1 at row i, ranks in non-increasing order of points, over the same users |
| `LeaderboardPage.AddUser` | src/pages/LeaderboardPage.tsx:24-31 | existing users are untouched; one user is appended with id n+1, username `User{n+1}` and points in [0, 399] |
| `LeaderboardPage.UpdatePoints` | src/pages/LeaderboardPage.tsx:34-42 | length, ids and usernames are kept; each user's points rise by 0 to 49 |
| `LeaderboardPage.RunKeepsIdsPositions` | src/pages/LeaderboardPage.tsx:24-42 | if every user's id is its position + 1, any run of additions and updates keeps that |
| `LeaderboardPage.IdsStayDistinct` | src/pages/LeaderboardPage.tsx:12-18 | starting from the five initial users, ids stay pairwise distinct under any run of additions and updates |
| `CarbonGame.OverlapsIffCommonPoint` | src/components/CarbonGame.tsx:245-250 | two boxes of positive size collide exactly when some point lies strictly inside both |
| `CarbonGame.OverlapsSymmetricAndStrict` | src/components/CarbonGame.tsx:245-250 | the box test `Overlaps` behind `Collides` is symmetric, and boxes that only share an edge do not collide |
| `CarbonGame.MoveX` | src/components/CarbonGame.tsx:117-123 | the arrow keys keep a position in [0, 440] inside it; they move by exactly 9 when that stays in [0, 440], and otherwise clamp to the edge; other keys leave it |
| `CarbonGame.KeysTouchOneThing` | src/components/CarbonGame.tsx:117-128 | `KeyDown`: keys 1, 2 and 3 change only the icon; the arrow keys change only the position |
| `CarbonGame.LoseLifeEffect` | src/components/CarbonGame.tsx:84-107 | `LostLife`: one life less; speed 0.8 at 2 lives and 0.6 at 1, otherwise unchanged; at 0 or below the round stops, completes, and awards the score only if not completed before; nothing else changes |
| `CarbonGame.ThreeLossesEndTheRound` | src/components/CarbonGame.tsx:84-107 | from three lives, three losses give lives 2, 1, 0 and speeds 0.8, 0.6; the third ends the round and awards the score once |
| `CarbonGame.ResetProperties` | src/components/CarbonGame.tsx:303-332 | `Reset` sets score 0, time 0, lives 3, speed 1, no objects or particles, x = 200, not completed, not running; it is idempotent; `Start` is reset followed by running |
| `CarbonGame.ExitEffect` | src/components/CarbonGame.tsx:320-326 | `Exit` awards the score exactly when running and not completed, leaves the completed flag, and changes nothing else |
| `CarbonGame.ExitThenGameOverAwardsTwice` | src/components/CarbonGame.tsx:96-103 | a game over right after an exit awards the same score a second time, because exit does not set the completed flag |
| `CarbonGame.SaveHighScoreProperties` | src/components/CarbonGame.tsx:42-55 | after `SaveHighScore` a numeric high score is at least the score and at least the old high score; a NaN high score never changes; a new high score reads back from storage through `LoadHighScore` |
| `CarbonGame.SpawnKeeps` | src/components/CarbonGame.tsx:130-150 | `Spawn` appends one object whose id is the counter's value and advances the counter by 1, keeping the invariant |
| `CarbonGame.BurstShape` | src/components/CarbonGame.tsx:70-82 | a `Burst` has one particle per draw, each at the given point and colour with life 30 and the drawn velocity and size |
| `CarbonGame.SurvivorsAppend` | src/components/CarbonGame.tsx:195-204 | the particle pass treats each particle on its own and keeps the survivors in their order |
| `CarbonGame.SurvivorsMembers` | src/components/CarbonGame.tsx:195-204 | `Survivors`, the particle pass, keeps exactly the aged particles that had more than one frame of life, so expired neighbours are all removed |
| `CarbonGame.ParticlesExpire` | src/components/CarbonGame.tsx:195-204 | particles with at most m frames of life are all gone after m particle passes |
| `CarbonGame.VisitOutcome` | src/components/CarbonGame.tsx:244-283 | `Visit`, one `forEach` callback: a caught good object adds exactly 1 to the score; a caught bad one costs exactly one life; a good one past the bottom costs one life; each outcome that applies splices one element at the index; a catch appends one burst and keeps the old particles |
| `CarbonGame.CaughtOutcome` | src/components/CarbonGame.tsx:251-275 | `Caught`, the collision branch: a good object scores 1, a bad one costs a life; the burst appended is `Burst` at the player's centre in the catch colour or the hit colour; one splice at the index |
| `CarbonGame.EscapedOutcome` | src/components/CarbonGame.tsx:278-283 | `Escaped`, the bottom-edge branch: a good object costs a life, a bad one nothing; score and particles stay; one splice at the index |
| `CarbonGame.SpliceSkipsNext` | src/components/CarbonGame.tsx:215-275 | after the first of two objects is caught, the second is never visited and stays unmoved |
| `CarbonGame.CaughtPastBottomSplicesTwice` | src/components/CarbonGame.tsx:245-283 | a good object caught below the bottom edge scores a point and costs a life, and the next object is removed unvisited |
| `CarbonGame.PassFromProgress` | src/components/CarbonGame.tsx:215-284 | `PassFrom`, the object pass, never lowers the score, never raises lives, and adds at most one award |
| `CarbonGame.PassFromInv` | src/components/CarbonGame.tsx:215-284 | `PassFrom`, the object pass, keeps the invariant: position in the field, ascending ids below the counter, particle lives in 1..30 |
| `CarbonGame.FrameKeeps` | src/components/CarbonGame.tsx:152-287 | `Frame`, the particle pass then the object pass, never lowers the score, never raises lives, adds at most one award, and keeps the invariant |
| `CarbonGame.RoundAwardsAtMostOnce` | src/components/CarbonGame.tsx:84-287 | within a round, whatever the key presses, spawns, frames, high-score checks and pauses, the score never falls, lives never rise, `addPoints` is called at most once and never after completion, and the invariant holds |
| `CarbonGame.CarbonCatcher.constructor` | src/components/CarbonGame.tsx:11-26 | the initial state: score 0, lives 3, speed 1, not running, tutorial shown, x = 200, nothing falling, counter 0 |
| `CarbonGame.CarbonCatcher.LoadStoredHighScore` | src/components/CarbonGame.tsx:42-46 | a present, non-empty stored high score is read with `parseInt` |
| `CarbonGame.CarbonCatcher.SaveHighScoreEffect` | src/components/CarbonGame.tsx:49-55 | a score above the high score becomes the high score and is stored as decimal text |
| `CarbonGame.CarbonCatcher.HandleKeyDown` | src/components/CarbonGame.tsx:117-128 | the key handler's new position and icon are `MoveX` and the icon choice, and the position stays in [0, 440] |
| `CarbonGame.CarbonCatcher.SpawnObject` | src/components/CarbonGame.tsx:130-150 | appends the new object with the counter's id and increments the counter |
| `CarbonGame.CarbonCatcher.CreateParticles` | src/components/CarbonGame.tsx:70-82 | the loop appends exactly one particle per draw, and nothing else changes |
| `CarbonGame.CarbonCatcher.LoseLife` | src/components/CarbonGame.tsx:84-107 | performs the life-loss transition on the fields |
| `CarbonGame.CarbonCatcher.UpdateParticles` | src/components/CarbonGame.tsx:195-204 | the backward splicing loop leaves exactly the survivors of the particle pass, in order, and nothing else changes |
| `CarbonGame.CarbonCatcher.CatchObject` | src/components/CarbonGame.tsx:251-275 | the collision branch: score or a lost life, one burst of 15 particles, and a splice at the index |
| `CarbonGame.CarbonCatcher.DropObject` | src/components/CarbonGame.tsx:278-283 | the bottom-edge branch: a lost life for a good object, and a splice at the index |
| `CarbonGame.CarbonCatcher.VisitObject` | src/components/CarbonGame.tsx:215-284 | one `forEach` callback: move the object by fall times speed, then the collision branch, then the bottom-edge branch |
| `CarbonGame.CarbonCatcher.UpdateObjects` | src/components/CarbonGame.tsx:215-284 | the `forEach` with in-loop splices produces exactly the object pass, including the skipped indices |
| `CarbonGame.CarbonCatcher.Update` | src/components/CarbonGame.tsx:152-287 | one frame is the particle pass followed by the object pass; it keeps the invariant and the round's progress |
| `CarbonGame.CarbonCatcher.ResetGame` | src/components/CarbonGame.tsx:303-318 | performs the reset on the fields and keeps the invariant |
| `CarbonGame.CarbonCatcher.StartGame` | src/components/CarbonGame.tsx:328-332 | reset, then running, tutorial hidden |
| `CarbonGame.CarbonCatcher.PauseGame` | src/components/CarbonGame.tsx:419-425 | the pause button gives `Pause`: it stops the round and changes nothing else |
| `CarbonGame.CarbonCatcher.ExitGame` | src/components/CarbonGame.tsx:320-326 | awards the score when running and not completed, and leaves every other field as it was |

## Left out

- Canvas drawing is pure rendering: gradients, shadows, `roundRect`, text, particle alpha, the colour of the player box, the shake transform and its reset.
- Timers and event plumbing are left out: `requestAnimationFrame`, the spawn `setInterval`, the game-time timer, and attaching and detaching the key listener. Each callback is one atomic method call, so the model does not say that keys, spawns and frames happen only while the round runs.
- The game-time timer needs a clock. `gameTime` is only reset.
- Frame-rate-scaled motion uses floating point. The fall distance of a frame is the parameter `fall`, and the model uses exact reals.
- React batching and stale closures are not modelled. The model runs each state update at once, in program order. In the source, `score` and `gameCompleted` are captured inside the `setLives` updater, and `users.length` inside `addUser`.
- JavaScript numbers are modelled as unbounded integers or NaN. Precision loss above 2^53 and exponent notation in `toString` are not modelled.
- Local storage is a map field. The ledger and the game each get their own map; the model does not share one map between them.
- Navigation (`navigate('/games')`), `alert`, `FileReader` uploads, the cancel button of the upload dialog and the icon-preload DOM code are foreign or I/O calls.
- `addUser` is not wired to any element of the page. It is modelled as written.
- Not modelled: the other pages and components, routing, authentication, and the type declarations. They hold static content, UI wiring or shapes only.
