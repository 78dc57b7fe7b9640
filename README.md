# Daily health-metric state of the titan-os dashboard

This project models the state engine inside the dashboard component of
titan-os (`src/App.tsx`). The dashboard keeps seven numbers for the day:
water (ml), sleep (hours), energy (the 0-10 slider), calories, protein,
carbs and fat. They change in these ways:

- **Start-up.** Each number is read lazily from local storage, or takes its
  default: 5 for energy and 0 for the rest.
- **Manual steps.** The buttons add or remove 250 ml of water or 0.5 h of
  sleep. A decrement never goes below 0.
- **Energy slider.** The slider overwrites energy outright.
- **Reset Day.** After the user confirms, all seven numbers return to their
  defaults.
- **Voice commands.** A command already parsed into a `VoiceAction` is
  applied by a switch on its `action` tag (`add_water`, `add_sleep`,
  `log_food`). Each field is guarded on its own.
- **Image analysis.** A `NutritionData` record is added to the four
  nutrition totals.
- **Write-through.** One persistence effect per number writes it to local
  storage under its own key whenever it changes.

Files:

- `wrappers.dfy`: `Option`, for JSON fields that may be absent.
- `metrics.dfy` (module `Metrics`): the `Metric` enumeration, the `Day`
  record of seven values, the storage keys and defaults, the lazy
  initialisers (`Initial`), and the write-through (`Persist`, `Mirrors`).
  It proves that reloading from storage gives back the day that was written.
- `updates.dfy` (module `Updates`): the updater lambdas and the two
  AI-result blocks, as pure functions on a `Day`. Each contract says which
  metric changes, by how much, and that the rest stay as they were.
- `app.dfy` (module `App`): class `Dashboard`. It has the seven state cells
  as fields and a `storage` map standing in for local storage. Each handler
  updates the fields and writes the changed ones through. Each is proved to
  produce the `Updates` result, to leave storage mirroring all seven cells,
  and to keep every other storage key.
- `session.dfy` (module `Session`): a day as a sequence of events folded
  through the handlers. Induction lemmas prove:
  - energy ends at the last level set;
  - accumulating metrics end at the start value plus every delta, in any
    order, so no update is lost;
  - water and sleep stay non-negative unless a voice command adds a
    negative amount;
  - a confirmed reset forgets all history.

Numbers are Dafny `real`s, so the arithmetic is exact addition and maximum.
Local storage is a `map<string, real>`, which holds the values the
component writes with `String(...)` and reads back with `parseFloat`.

## Behaviour of the code as written

- No validation follows `JSON.parse` of the AI reply (src/App.tsx:332):
  `applyVoiceAction` receives whatever object was parsed.
  - An unknown tag changes nothing.
  - `value` is used only when it is truthy, so an absent value or 0 changes
    nothing.
  - A negative `value` is added without a floor.
  - Each `log_food` field is added when present and skipped when absent;
    there is no all-or-nothing rule.
- The energy setter does not clamp (src/App.tsx:635). Energy stays from 0 to
  10 only because the slider's inputs do. `Session.EnergyStaysOnScale` and
  `Session.EnergyNotClamped` state both halves.
- `applyVoiceAction` returns nothing (src/App.tsx:346-384); no record of
  what changed is produced, and the model produces none.

## Model

| member | source | states |
|---|---|---|
| `Metrics.Defaults` | src/App.tsx:30-57 | every metric is at its default: 5 for energy, 0 for the other six |
| `Metrics.Initial` | src/App.tsx:30-57 | each metric starts at the value stored under its own key when that key is present, and at its default when it is absent |
| `Metrics.NothingStoredGivesDefaults` | src/App.tsx:30-57 | with no metric key stored, the day starts with water 0, sleep 0, energy 5 and all nutrition 0 |
| `Metrics.KeysDistinct` | src/App.tsx:79-118 | the seven storage keys are pairwise distinct, so each metric is persisted under its own key |
| `Metrics.Persist` | src/App.tsx:79-118 | after writing through, storage holds every metric under its key, and every key that is not a metric's is unchanged |
| `Metrics.WriteThrough` | src/App.tsx:79-118 | writing one metric's key mirrors that metric and keeps every already-mirrored metric and every non-metric key |
| `Metrics.ReloadRoundTrip` | src/App.tsx:30-118 | lazily loading from storage that mirrors a day gives back exactly that day |
| `Metrics.PersistThenLoad` | src/App.tsx:30-118 | write-through followed by start-up reload restores the day that was written |
| `Updates.IncrementWater` | src/App.tsx:139 | water goes up by exactly 250 and no other metric changes |
| `Updates.DecrementWater` | src/App.tsx:140 | water goes down by 250 when it had at least 250, otherwise becomes 0; never negative; no other metric changes |
| `Updates.IncrementSleep` | src/App.tsx:142 | sleep goes up by exactly 0.5 and no other metric changes |
| `Updates.DecrementSleep` | src/App.tsx:143 | sleep goes down by 0.5 when it had at least 0.5, otherwise becomes 0; never negative; no other metric changes |
| `Updates.SetEnergy` | src/App.tsx:635 | energy becomes the slider's level, unclamped; no other metric changes |
| `Updates.ResetDay` | src/App.tsx:121-137 | confirmed: all seven metrics are at their defaults; not confirmed: the day is unchanged |
| `Updates.ApplyVoiceAction` | src/App.tsx:346-384 | `add_water` and `add_sleep` add the value, or nothing when it is absent or 0, to their one metric only. `log_food` adds each present field to its own total, leaves absent ones alone and never touches water, sleep or energy. Any other tag changes nothing |
| `Updates.AddNutrition` | src/App.tsx:474-481 | the four nutrition totals grow by the analysed amounts; water, sleep and energy are unchanged |
| `Updates.ImageIsFullFoodLog` | src/App.tsx:474-481 | image analysis updates the day exactly as a voice `log_food` command carrying the same four amounts |
| `Updates.VoiceIgnoresNameAndUnit` | src/App.tsx:346-384 | the food name and unit of a voice command never affect the metrics |
| `Updates.SliderOverwrites` | src/App.tsx:635 | two slider moves leave energy at the second level: the setting does not accumulate |
| `Updates.DecrementUndoesIncrementWater` | src/App.tsx:139-140 | from a non-negative amount, a water increment followed by a decrement restores the day |
| `Updates.DecrementUndoesIncrementSleep` | src/App.tsx:142-143 | from a non-negative amount, a sleep increment followed by a decrement restores the day |
| `Updates.DecrementWaterAtZeroStays` | src/App.tsx:140 | with water at 0, decrementing water leaves the day unchanged |
| `Updates.DecrementSleepAtZeroStays` | src/App.tsx:143 | with sleep at 0, decrementing sleep leaves the day unchanged |
| `Updates.VoiceAddsNegativeWater` | src/App.tsx:350-355 | a negative voice amount is added as it is and can take water below 0 |
| `App.Dashboard.constructor` | src/App.tsx:30-118 | the cells are the lazily loaded day; afterwards storage mirrors every cell and keeps every other key |
| `App.Dashboard.Save` | src/App.tsx:79-118 | one persistence effect writes its cell's current value under that cell's key and changes nothing else |
| `App.Dashboard.SaveAll` | src/App.tsx:79-118 | the seven effects together leave storage mirroring every cell and keep every other key |
| `App.Dashboard.Add` | src/App.tsx:352 | a functional setter `prev => prev + amount` on one cell, with its write-through |
| `App.Dashboard.AddIfPresent` | src/App.tsx:363-378 | one guarded `log_food` step: adds the field to its cell only when the field is present |
| `App.Dashboard.IncrementWater` | src/App.tsx:139 | the handler's new cells are `Updates.IncrementWater` of the old ones; storage mirrors them |
| `App.Dashboard.DecrementWater` | src/App.tsx:140 | the handler's new cells are `Updates.DecrementWater` of the old ones; storage mirrors them |
| `App.Dashboard.IncrementSleep` | src/App.tsx:142 | the handler's new cells are `Updates.IncrementSleep` of the old ones; storage mirrors them |
| `App.Dashboard.DecrementSleep` | src/App.tsx:143 | the handler's new cells are `Updates.DecrementSleep` of the old ones; storage mirrors them |
| `App.Dashboard.SetEnergy` | src/App.tsx:635 | the slider handler's new cells are `Updates.SetEnergy` of the old ones; storage mirrors them |
| `App.Dashboard.ResetDay` | src/App.tsx:121-137 | the new cells are `Updates.ResetDay` of the old ones for the user's answer; storage mirrors them |
| `App.Dashboard.ApplyVoiceAction` | src/App.tsx:346-384 | the new cells are `Updates.ApplyVoiceAction` of the old ones; storage mirrors them and keeps other keys |
| `App.Dashboard.AddNutrition` | src/App.tsx:477-481 | the new cells are `Updates.AddNutrition` of the old ones; storage mirrors them and keeps other keys |
| `Session.ResetForgetsHistory` | src/App.tsx:121-137 | whatever happened before, a confirmed reset leaves the day at its defaults |
| `Session.StepEnergy` | src/App.tsx:635 | an event leaves energy alone unless it is a slider move (its level) or a confirmed reset (5) |
| `Session.RunEnergy` | src/App.tsx:121-137 | at the end of any sequence of events, energy is the level set last, or the starting level if none was set |
| `Session.EnergyStaysOnScale` | src/App.tsx:630-635 | if the start and every slider level are within 0 to 10, energy stays within 0 to 10 |
| `Session.EnergyNotClamped` | src/App.tsx:635 | a level of 11 is stored as 11: the setter does not clamp |
| `Session.StepAccumulates` | src/App.tsx:346-384 | an event that does not reset or decrement a metric changes it by exactly its delta |
| `Session.RunAccumulates` | src/App.tsx:139-143 | over such events, a metric ends at its start plus the sum of all deltas: no update is lost |
| `Session.TotalDeltaAppend` | src/App.tsx:346-384 | the deltas of two batches of events add up |
| `Session.AccumulationOrderFree` | src/App.tsx:346-384 | a manual press and a voice or image update give the same total in either order |
| `Session.TwoWaterPressesBothCount` | src/App.tsx:139 | two water presses add 500 ml |
| `Session.StepKeepsFloor` | src/App.tsx:139-143 | no event except a negative voice amount takes water or sleep below 0 |
| `Session.RunKeepsFloor` | src/App.tsx:139-143 | without negative voice amounts, water and sleep stay non-negative over any sequence of events |
| `Session.NegativeVoiceBreaksFloor` | src/App.tsx:350-355 | a voice `add_water` of -250 from the defaults leaves water negative |

## Left out

- Rendering, CSS and progress-bar widths (src/App.tsx:499-843) are presentation only.
- Microphone and camera capture and the webcam screenshot are device I/O.
- The HTTP calls to the transcription and chat services, their prompts and
  response envelopes are network I/O. Their error paths throw before any
  metric is touched, so they leave the state as it was.
- `JSON.parse` of the AI text is left out. The model starts from the parsed
  `VoiceAction` or `NutritionData`.
- `parseFloat` and `String` on stored values are left out. Storage holds
  numbers, and a missing key stands for a missing or empty stored string.
- Non-numeric JSON fields are not modelled. In JavaScript, `prev + "550"`
  concatenates strings. NaN and floating-point rounding are not modelled
  either.
- An image result that lacks a field is not modelled. In the code, adding
  `undefined` to a total makes it NaN. `NutritionData` always has all four
  amounts.
- The `nutritionData` display cell, the loading and error flags, and console
  logging are not metric state.
- `window.confirm` becomes the `confirmed` argument.
- `getCurrentDate` and date formatting are left out.
- React's batching and scheduling of functional updates are left out. Each
  updater is applied atomically, in order.
