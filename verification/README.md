# Desktop pet: status record and animation selection

A Dafny model of the two stateful parts of the desktop pet application.

- **The status record** (`pet_status.py`, module `StatusStore`, class
  `PetStatus`). It holds mood, health, experience, level, the times of the last
  interaction and the last feed, a chat counter, an ordered list of status
  effects and an append-only interaction log. The database row becomes the
  object's fields.
  - `UpdateStatus` clamps mood and health into [0, 100] and runs the levelling
    loop.
  - `GetStatus` folds in the decay due since the two timestamps.
  - The effect methods append effects, purge expired ones and apply the summed
    boosts.
  - The actions (`Feed`, `Play`, `Chat`, `PlayMusic`, `ChangeStrings`,
    `Maintenance`, `Practice`) pass fixed delta triples to `UpdateStatus`.
  - Time is an integer number of seconds passed in as `now`.
- **The animation selection** (`desktop_pet.py`, module `AnimationMachine`,
  class `DesktopPet`). It holds the current animation, the drag flag and
  offset, the time of the last animation change, and the deadlines of the
  armed return-to-idle timers.
  - Left presses, moves, releases and timer expiry drive the animation.
  - The animation table is the one in `config.py:6-13`.
  - Time is one monotone millisecond clock passed in as `now`.

The three loops of `pet_status.py` are separate read-only methods. Each is
proved against a specification function, and the class methods call them:

- the levelling `while` is `Promote`, specified by `LevelUp`;
- the expiry filter is `KeepActive`, specified by `Active`;
- the boost sum is `SumBoosts`, specified by `TotalBoost`.

Each state-changing method states its whole new state through `Snapshot()`,
the record as a value. `ApplyUpdate` is the record `update_status` writes, and
`Decayed` is the record `get_status` returns.

Behaviour of the code the model keeps:

- Ties between the horizontal and vertical offsets go vertical, because the
  test is a strict `>`.
- Every left press arms its own timer. Timers are neither re-armed nor
  cancelled, so the first one ends the click animation
  (`SecondPressDoesNotExtendClick`).
- The chat pipeline of the window is commented out
  (desktop_pet.py:52-54, 162-165), and no status method is called from the
  window code, so the two parts are independent.
- `get_status` does not reset the timestamps, so each read applies the full
  decay again (`DecayReapplied`).
- `apply_status_effects` re-applies the full boosts on every call
  (`ReapplyingSeesSameTotals`).
- `exp` is not kept non-negative: `update_status` accepts any experience
  gain. The class invariant is only `exp < level * 100`. Non-negative exp stays
  non-negative under a non-negative gain: `LevelUp`, `ApplyUpdate`,
  `UpdateStatus` and every action method, all of whose gains are non-negative,
  state this.

## Model

| member | source | states |
|---|---|---|
| `StatusStore.Clamp` | pet_status.py:120-121 | the result lies in [0, 100], equals the input when it is already there, and is the nearer bound otherwise |
| `StatusStore.LevelUp` | pet_status.py:125-130 | the levelling loop ends with exp below the new level's threshold; the level never decreases; the old exp plus gain equals the new exp plus the thresholds of all levels passed; the level is unchanged exactly when the exp was below the first threshold; non-negative exp stays non-negative |
| `StatusStore.Promote` | pet_status.py:126-130 | the `while` loop computes exactly `LevelUp` of the summed exp and the old level |
| `StatusStore.ApplyUpdate` | pet_status.py:116-137 | the written record has mood and health in [0, 100], the levelling postcondition, exp conservation over the levels passed, non-negative exp when old exp plus gain is non-negative, mood and health equal to `Clamp` of the old value plus the change (so an out-of-range sum saturates at the nearer bound and an in-range delta applies exactly), last interaction = now, and last feed, chat count and effects unchanged |
| `StatusStore.Logged` | pet_status.py:139-145 | exactly one entry is appended, holding the requested unclamped deltas, iff the action type is non-empty; otherwise the log is unchanged |
| `StatusStore.TruncDiv` | pet_status.py:80-82 | integer division truncating toward zero, the way `int()` truncates a quotient, bounded on both sides for either sign |
| `StatusStore.MoodDecay` | pet_status.py:76-80 | for elapsed seconds s ≥ 0, the decay is the whole number of 5-point steps per 12 hours; it is positive iff at least 8640 s have elapsed |
| `StatusStore.HealthDecay` | pet_status.py:77-82 | for elapsed seconds s ≥ 0, the decay is the whole number of 3-point steps per 24 hours; it is positive iff at least 28800 s have elapsed |
| `StatusStore.DecayDue` | pet_status.py:84 | decay is due when the mood decay or the health decay is positive; its meaning comes from the iff clauses of `MoodDecay` and `HealthDecay` (8640 s or 28800 s elapsed) |
| `StatusStore.Decayed` | pet_status.py:84-104 | only mood and health may change; with no decay due the record is returned unchanged; otherwise mood becomes the clamped old mood minus `MoodDecay` of the seconds since the last interaction, and health the clamped old health minus `HealthDecay` of the seconds since the last feed, both in [0, 100]; in-range values never rise when the clock has moved forward |
| `StatusStore.NoDecayWithinPeriods` | pet_status.py:84 | within 8640 s of the last interaction and 28800 s of the last feed, reading once or twice returns the stored record |
| `StatusStore.DecayReapplied` | pet_status.py:84-102 | the timestamps are not reset, so a second read at the same moment is still due and subtracts the same decay again from the already decayed values |
| `StatusStore.SecondReadLowersMoodAgain` | pet_status.py:84-87 | when the mood decay is due and the first read leaves mood above 0, a second read lowers it further |
| `StatusStore.IsActive` | pet_status.py:303-305 | an effect is active while now - start_time < duration; `Active` and its lemmas state what follows from it |
| `StatusStore.Active` | pet_status.py:299-306 | the kept effects are exactly those of the input with now - start_time < duration, and no more of them than the input |
| `StatusStore.ActiveAppend` | pet_status.py:302-306 | filtering a concatenation is the concatenation of the filtered parts, so the kept effects stay in their original order |
| `StatusStore.ActiveKeepsLive` | pet_status.py:302-306 | a list whose effects are all active is kept whole |
| `StatusStore.ActiveIdempotent` | pet_status.py:289-316 | purging twice at the same moment gives the same list as purging once |
| `StatusStore.KeepActive` | pet_status.py:298-306 | the `for` loop builds exactly `Active` of the stored effects |
| `StatusStore.Boost` | pet_status.py:335-337 | an effect's boost for a key, 0 when the key is missing, as `.get(key, 0)`; `TotalBoostAbsent` states the missing-key case over a list |
| `StatusStore.TotalBoost` | pet_status.py:334-337 | the sum of one boost over the effect list, left to right; its properties are stated by `TotalBoostAppend` (sums over concatenations add up) and `TotalBoostAbsent` (effects without the key count 0), and `SumBoosts` is proved equal to it |
| `StatusStore.TotalBoostAppend` | pet_status.py:334-337 | the boost total over a concatenation is the sum of the two totals |
| `StatusStore.TotalBoostAbsent` | pet_status.py:335-337 | effects that lack a key count 0 toward that key's total |
| `StatusStore.SumBoosts` | pet_status.py:331-337 | the accumulating loop yields the total mood boost and the total health boost of the list |
| `StatusStore.ReapplyingSeesSameTotals` | pet_status.py:318-347 | a second application at the same moment sees the same totals, so the boosts are applied in full again |
| `StatusStore.NewestFirst` | pet_status.py:197-202 | the log reversed: same length, entry i is the i-th most recent |
| `StatusStore.NewestRowIsLastUpdate` | pet_status.py:193-205 | after an update with an action type, the newest history row is that update's request |
| `StatusStore.PetStatus.constructor` | pet_status.py:43-49 | the first row: mood 100, health 100, exp 0, level 1, both timestamps now, no chats, no effects, empty log |
| `StatusStore.PetStatus.GetStatus` | pet_status.py:54-104 | returns `Decayed` of the stored record and stores it; with no decay due nothing is written; the log is untouched |
| `StatusStore.PetStatus.UpdateStatus` | pet_status.py:110-148 | the new record is `ApplyUpdate` of the old one and the log is `Logged`; the class invariant (bounds, level ≥ 1, exp below threshold) is kept; non-negative exp stays non-negative under a non-negative gain |
| `StatusStore.PetStatus.Feed` | pet_status.py:150-164 | the update (+10, +15, +5), then last feed = now, with one "feed" log entry; non-negative exp stays non-negative |
| `StatusStore.PetStatus.Play` | pet_status.py:166-175 | the update (+15, −5, +10) with one "play" log entry; non-negative exp stays non-negative |
| `StatusStore.PetStatus.Chat` | pet_status.py:177-191 | the chat count rises by exactly 1, then the update (+5, 0, +3) with one "chat" log entry; non-negative exp stays non-negative |
| `StatusStore.PetStatus.PlayMusic` | pet_status.py:207-215 | the update (+15, 0, +10) with one "play_music" log entry; non-negative exp stays non-negative |
| `StatusStore.PetStatus.ChangeStrings` | pet_status.py:217-225 | the update (0, +15, +20) with one "change_strings" log entry; non-negative exp stays non-negative |
| `StatusStore.PetStatus.Maintenance` | pet_status.py:227-236 | the update (+5, +20, +5) with one "maintenance" log entry; non-negative exp stays non-negative |
| `StatusStore.PetStatus.Practice` | pet_status.py:238-247 | the update (+10, −5, +25) with one "practice" log entry; non-negative exp stays non-negative |
| `StatusStore.PetStatus.GetInteractionHistory` | pet_status.py:193-205 | the most recent `limit` entries (10 when no limit is given), newest first; all of them when the limit is negative or at least the log's length |
| `StatusStore.PetStatus.AddStatusEffect` | pet_status.py:249-287 | exactly one effect is appended at the end, stamped with now; earlier effects and everything else are unchanged; there is no de-duplication by name |
| `StatusStore.PetStatus.RemoveExpiredEffects` | pet_status.py:289-316 | the effect list becomes `Active` of the old one; nothing else changes |
| `StatusStore.PetStatus.ApplyStatusEffects` | pet_status.py:318-349 | purges first; if either boost total of the remaining effects is non-zero, applies them as the update (mood total, health total, 0) with one "status_effect" log entry; otherwise only the purge happens |
| `StatusStore.PetStatus.GetActiveEffects` | pet_status.py:351-362 | purges and returns the remaining effects |
| `StatusStore.FourPracticesFromStart` | pet_status.py:238-247 | four practices from the initial record give mood 100, health 80, exp 0, level 2 |
| `AnimationMachine.LookRequest` | desktop_pet.py:111-128 | idle iff both offsets from the centre are within 40 px; otherwise horizontal iff abs(dx) > abs(dy) strictly; left iff x < centre x; up iff y < centre y |
| `AnimationMachine.TiesGoVertical` | desktop_pet.py:113-124 | equal offsets beyond the threshold give look_up or look_down |
| `AnimationMachine.MirrorSwapsLeftRight` | desktop_pet.py:113-118 | mirroring a look-left position across the centre line gives look-right |
| `AnimationMachine.Resolve` | desktop_pet.py:138-155 | the same name changes nothing; a table name is shown; any other name falls back to idle; a table key stays a table key |
| `AnimationMachine.MoveAlwaysEndsIdle` | desktop_pet.py:111-128 | as written, every request of the move handler resolves to idle, because the look_* names are not in the table |
| `AnimationMachine.IntendedLook` | desktop_pet.py:116-124 | the evidently intended request always names a table animation; it is idle iff the mouse is within the threshold, and eye_left, eye_right, eye_up or eye_down exactly when the handler chose look_left, look_right, look_up or look_down |
| `AnimationMachine.IntendedLookIsShown` | desktop_pet.py:116-124 | with the intended names, an off-centre move shows an eye animation, and it is the eye animation of the direction chosen, for each of the four directions |
| `AnimationMachine.DesktopPet.constructor` | desktop_pet.py:9-15 | starts idle, not dragging, with no offset, last change at 0 and no armed timers |
| `AnimationMachine.DesktopPet.ChangeAnimation` | desktop_pet.py:138-155 | the new animation is `Resolve` of the old one and the name, so it is always a table key |
| `AnimationMachine.DesktopPet.ReturnToIdle` | desktop_pet.py:158-160 | the animation becomes idle |
| `AnimationMachine.DesktopPet.MousePress` | desktop_pet.py:73-83 | a left press records the offset, starts dragging, shows click and arms a timer for now + 1000 ms; any other button changes no animation or drag state |
| `AnimationMachine.DesktopPet.MouseMove` | desktop_pet.py:85-131 | a drag, a move within 150 ms of the last change, or a move during click changes neither the animation nor the change time; any other move resolves the look request, which leaves idle, and stamps the change time with now |
| `AnimationMachine.DesktopPet.MouseRelease` | desktop_pet.py:133-135 | dragging stops and nothing else changes |
| `AnimationMachine.DesktopPet.TimeoutFires` | desktop_pet.py:83 | the earliest armed timer fires and forces idle whatever the state; the other timers stay armed |
| `AnimationMachine.SecondPressDoesNotExtendClick` | desktop_pet.py:80-83 | two presses 500 ms apart leave two timers; the first one already ends the click animation |
| `AnimationMachine.ClickSuppressesLook` | desktop_pet.py:109-129 | during the click animation a move past the rate limit changes neither the animation nor the change time |

## Findings

| source | as written | input that shows it | evidently intended | confidence | as-written member | corrected member |
|---|---|---|---|---|---|---|
| desktop_pet.py:116-124 | the move handler requests `look_left`, `look_right`, `look_up` or `look_down`, but the animation table of config.py:6-13 holds `eye_left`, `eye_right`, `eye_up` and `eye_down`; the lookup fails and `change_animation` falls back to idle | the pet is idle and its last change was 150 ms or more ago; the mouse moves to (10, 120), off the centre; the pet stays idle instead of looking left | request the `eye_*` animation of the chosen direction | high; not executed | `AnimationMachine.MoveAlwaysEndsIdle` | `AnimationMachine.IntendedLookIsShown` |

The `DesktopPet` class keeps the request as written, so that the state
machine's behaviour matches the code. `IntendedLook` is the corrected
request, and `IntendedLookIsShown` proves the intended behaviour for it.

## Left out

- Persistence: the SQLite tables and the JSON encoding of the effect list.
  The model holds the row in object fields. Connection handling, commits and
  storage errors are not modelled, and neither is the separate second write
  in `feed` and `chat`.
- Wall-clock time: each operation takes `now` as an integer. The code calls
  `datetime.now()` more than once inside `feed`, `chat` and `update_status`;
  the model uses one instant per operation.
- The unused `reason` argument of `update_status` is not modelled.
- `StatusStore.MoodDecay` and `StatusStore.HealthDecay` use exact rational
  arithmetic on whole seconds. The code divides floating-point hours, so its
  rounding at exact step boundaries may differ.
- `StatusStore.PetStatus.GetInteractionHistory` returns the log in reverse
  insertion order. The code orders by the ISO timestamp text, which gives the
  same order only while the clock never goes back and no two entries share a
  timestamp.
- `get_status` also converts the stored timestamps and the effect list from
  text. The model returns them as values, and the effects are not purged, as
  in the code.
- The millisecond time of day in `mouseMoveEvent` wraps at midnight. The model
  uses one monotone clock, so `MousePress` and `MouseMove` require
  `now >= clock`. Qt's timers run on their own clock; `TimeoutFires` takes the
  earliest deadline and does not model how late a timer fires.
- A press at exactly (0, 0) records a null point, which Python may treat as
  false in the drag test. The model treats any recorded offset as set.
- Rendering: QMovie start and stop, label sizes, the window move during a
  drag, the saved window position and the context menu are not modelled. When
  a request falls back to idle, the code has already stopped the current
  movie without restarting it, so the idle GIF freezes. That is not visible
  in this model.
- The effect data is typed, so `duration`, `start_time` and `effects` are
  always present, as the documented dictionary shape (pet_status.py:254-263)
  has them. In the code, an effect stored without `duration` or without
  `effects` raises KeyError (pet_status.py:304, 335). Because the effect is
  already stored, every later purge, apply or active-effects call then raises
  too. The model does not capture that failure.
- `add_status_effect` also writes the start time into the caller's own
  dictionary (pet_status.py:273). The model passes the effect data by value,
  so that side effect on the caller is not captured.
- The `except` branch of `mouseMoveEvent` cannot be reached, because
  `change_animation` catches its own lookup failure. It is not modelled.
- `chat_window.py`, `eye_tracking.py` and the chat backend are not part of
  this model. They hold dialog presentation, a float angle computation with a
  no-op body, and a commented-out text-generation pipeline. `config.py` enters
  only through its animation table.
