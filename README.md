# Task wheel: a verified model of its state

The application keeps a roster of players, a list of tasks and a completion
ledger. A player is picked at random, and a wheel with one wedge per task is
spun to pick a task. The completed task is then credited to that player.
This project models in Dafny the state behind that page (`script.js`) and
the logic that changes it:

- `Roster` (roster.dfy): JavaScript's `trim`, the append-if-new rule shared by
  `addPlayer` and `addTask`, and the one-element `splice` of `deleteTask`.
- `Wheel` (wheel.dfy): the ease-out curve `(t - 1)^3 + 1`, the animation
  progress `min(elapsed / 2000, 1)`, the random spin angle and player
  position, the `%` on angles, and the settle formula
  `n - floor(((angle % 360) / 360) * n) - 1`.
- `Scoring` (scoring.dfy): the ledger `scores`, both as written and as
  evidently intended (see Findings).
- `App` (app.dfy): the class `TaskWheel`. Its fields are the module-level
  variables `players`, `tasks`, `scores`, `selectedPlayer`, `selectedTask`,
  `angle` and `spinning`, plus the running spin's `spinAngle` and its wedge
  count `wedges` (the `arc` its frames draw with). Each
  operation is a method whose `modifies` clause names only the fields it may
  change.

`Math.random()` is a parameter `rand` with `0 <= rand < 1`.
`requestAnimationFrame` and `performance.now()` are replaced by `Tick(elapsed)`,
one animation frame `elapsed` milliseconds after the spin began, and by
`Animate`, which delivers a sequence of frames until the spin settles.

The main results:

- The settled position is always a valid task position. When the task list
  has not changed in length since the spin began, it is exactly the task
  whose drawn wedge covers the canvas's 0° ray, and a rotation on a wedge
  boundary resolves to one wedge only.
- The ease-out curve stays within [0, 1] and never decreases. It
  decelerates, and it ends exactly at 1, so the wheel stops exactly at
  `spinAngle`.
- Every player can be reached by the random pick.
- The rosters stay free of duplicates if they start that way.
- Crediting a task appends it to that player's list and leaves every other
  player unchanged. Crediting twice records it twice.

Facts about script.js that the model keeps:

- The selection stores the task's label (line 106).
- The settle formula measures from the canvas's 0° ray (line 105).
- A spin always lasts 2000 ms (line 74) and turns `rand * 360 + 720` degrees in all (line 72).
- Marking a task complete twice adds two ledger entries (line 123).

## Model

| member | source | states |
|---|---|---|
| `Roster.TrimStart` | script.js:11 | the result is a suffix of the input; everything cut off is white space, and the result is empty or starts with non-space |
| `Roster.TrimEnd` | script.js:11 | the result is a prefix of the input; everything cut off is white space, and the result is empty or ends with non-space |
| `Roster.Trim` | script.js:28 | the result is a contiguous slice of the input with only white space outside it, and it neither starts nor ends with white space |
| `Roster.TrimEmptyIffAllSpace` | script.js:12 | a trimmed name is empty (falsy) exactly when the input is all white space |
| `Roster.TrimIdempotent` | script.js:11 | trimming an already trimmed name changes nothing |
| `Roster.AddIfNew` | script.js:12-13 | the list grows by one exactly when the name is non-empty and absent, the new name goes at the end, the old entries keep their order, membership is old members plus that name, and a duplicate-free list stays duplicate-free |
| `Roster.SpliceStart` | script.js:38 | the position `splice(index, 1)` acts on is within [0, len]; an in-range index is itself, a negative index counts from the end and below `-len` gives 0, and a too-large index means nothing is removed |
| `Roster.RemoveAt` | script.js:38 | the length drops by one, the remaining elements keep their relative order, and the multiset loses exactly the removed element |
| `Roster.RemoveAtDistinct` | script.js:38 | removing a position from a duplicate-free list keeps it duplicate-free, and every element stays a member exactly when it is not the one removed |
| `Wheel.EaseOut` | script.js:115-117 | the curve is 0 at progress 0 and 1 at progress 1 |
| `Wheel.EaseOutBounds` | script.js:115-117 | on [0, 1] the curve stays within [0, 1] |
| `Wheel.EaseOutMonotone` | script.js:115-117 | the curve never decreases, so the wheel only turns forward |
| `Wheel.EaseOutDecelerates` | script.js:79 | equal stretches of progress later in the spin turn the wheel no further than earlier ones |
| `Wheel.Progress` | script.js:78 | progress is at most 1, is 1 exactly when 2000 ms have elapsed, is non-negative for non-negative elapsed time, and before 2000 ms is elapsed time over 2000 (negative times included) |
| `Wheel.SettleFrame` | script.js:102-104 | every frame before the returned one has progress below 1, and the returned frame, if any, has progress 1 |
| `Wheel.SpinAngle` | script.js:72 | a spin turns the wheel between 720 and 1080 degrees |
| `Wheel.RandomIndex` | script.js:21 | `floor(rand * n)` is a position in [0, n) |
| `Wheel.RandomIndexOnto` | script.js:21 | every position in [0, n) is the pick for some random value in [0, 1) |
| `Wheel.Mod360` | script.js:105 | a non-negative angle's remainder lies in [0, 360) |
| `Wheel.Mod360Unique` | script.js:105 | the remainder is the unique angle in [0, 360) that differs from the input by whole turns |
| `Wheel.SettleIndex` | script.js:105 | with n >= 1 tasks the settled position lies in [0, n); with none it is -1 |
| `Wheel.SettleIndexCovers` | script.js:84-105 | for the same wedge count n, the settle formula picks position i exactly when wedge i, drawn from `angle + i * 360 / n`, covers the 0° ray, near edge excluded and far edge included |
| `Scoring.RecordAsWritten` | script.js:121-123 | the update fails exactly for an inherited property name with no own entry; whenever it succeeds (every other name, and inherited names with an own entry) it agrees with `Scoring.Record` |
| `Scoring.ConstructorPlayerThrows` | script.js:122-123 | a player named "constructor" with no entry cannot be credited by the code as written |
| `Scoring.Record` | script.js:122-123 | the credited player's list, or an empty one if missing, gains the task at its end; the key set gains that player, and every other entry is unchanged |
| `Scoring.RecordTwiceDuplicates` | script.js:123 | crediting the same task twice leaves two copies at the end of the player's list, so recording is not idempotent |
| `App.Lookup` | script.js:106 | an index reads a label exactly when it is in range, and that label is a task |
| `App.TaskWheel.constructor` | script.js:1-6 | rosters and ledger are as stored, nothing is selected, the angle is 0 and no spin runs |
| `App.TaskWheel.AddPlayer` | script.js:9-17 | only `players` changes, and it becomes the add-if-new of the trimmed input; the roster stays duplicate-free |
| `App.TaskWheel.PickRandomPlayer` | script.js:19-23 | with no players nothing changes; otherwise the player at `floor(rand * n)` is selected, and it is a roster member |
| `App.TaskWheel.AddTask` | script.js:26-35 | only `tasks` changes, and it becomes the add-if-new of the trimmed input; the list stays duplicate-free |
| `App.TaskWheel.DeleteTask` | script.js:37-41 | only `tasks` changes; an in-range index gives `tasks[..i] + tasks[i+1..]`, a too-large index changes nothing, a negative index counts from the end, and the list stays duplicate-free |
| `App.TaskWheel.SpinWheel` | script.js:61-72 | while spinning or with no tasks nothing changes; otherwise a spin starts with a total rotation in [720, 1080), drawing one wedge per current task |
| `App.TaskWheel.Tick` | script.js:77-109 | the angle becomes the eased fraction of the total rotation and stays within [0, spinAngle]; before 2000 ms the spin continues and the selection is unchanged; at 2000 ms the angle equals spinAngle, the spin ends, and the task at the settle position of the current list is selected (none if the list was emptied) |
| `App.TaskWheel.Animate` | script.js:77-112 | frames run up to and including the first settling frame and no further; with no frame the angle is unchanged; the spin has ended exactly when such a frame exists, and then it rests at spinAngle with the settled task selected, whose wedge covers the 0° ray if the list length is unchanged |
| `App.TaskWheel.MarkTaskComplete` | script.js:120-126 | with a non-empty selected player and task, only `scores` changes and the task is credited to that player by the corrected ledger update; otherwise nothing changes |

## Left out

- The DOM is not modelled. This covers reading and clearing the input fields, the "Selected:" and "Task:" labels, and building the task and score lists in `renderTasks` and `renderScores`. They only display the state.
- `localStorage` and JSON encoding are not modelled. The constructor takes the stored rosters and ledger as arbitrary values.
- Canvas drawing of the wedges, colours and labels is not modelled. The wedge layout appears only in `Wheel.WedgeCovers`, which ties the settle formula to it.
- `requestAnimationFrame` and `performance.now()` are not modelled. A frame is given by its elapsed time. Frames arrive only while a spin runs, so `Tick` and `Animate` require `spinning`.
- Floating point is modelled by exact reals. Rounding of `Math.floor`, `%` and the ease-out arithmetic is not captured.
- JavaScript's `%` is modelled only for non-negative angles, the only ones the code settles on.
- App.TaskWheel.MarkTaskComplete: follows the corrected ledger update `Scoring.Record`. For a player named after an inherited property (e.g. "constructor") with no entry of their own, script.js throws a TypeError and leaves `scores` unchanged, but the model credits the task (see Findings; `Scoring.RecordAsWritten` models the code as written).
- App.TaskWheel.Animate: the settled task is tied to the drawn wedges only when the task list has as many entries as when the spin began. `addTask` and `deleteTask` may run mid-spin: the frames keep the wedge width fixed at the start (line 68), while the settle formula uses the count at the end (line 105), and then the model promises only that the settled position is a valid one.
- App.TaskWheel.Tick: the bound `0 <= angle <= spinAngle` is stated only for non-negative elapsed time. A frame timestamp earlier than the spin's start would give negative progress and briefly a negative angle. The settle step is unaffected.

## Findings

| source | as written | input that shows it | evidently intended | confidence | as-written member | corrected member |
|---|---|---|---|---|---|---|
| script.js:122-123 | `if (!scores[selectedPlayer])` looks the name up through the object's prototype chain. An inherited member such as `Object.prototype.constructor` is truthy, so no list is created, and `.push` then throws a TypeError. | A selected player named "constructor" (likewise "toString", "valueOf", "__proto__", …) with no ledger entry yet, then `markTaskComplete` | Any player name gets a fresh list on its first completion, as with an own-property test | high; not executed | `Scoring.RecordAsWritten` (`Scoring.ConstructorPlayerThrows`) | `Scoring.Record` |
