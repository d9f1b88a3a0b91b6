# Ultimate Speed Boost Manager: a verified model of its core

The Ultimate Speed Boost Manager is a game mod. Each frame it tunes the
player's jump and movement from controller input. Its core is made of three
managers, and each is modelled here together with its state and its
persisted configuration:

- **Speed-boost manager** (`USBM.cs`, module `BoostManager`).
  - A dictionary of nine `BoostSettings` records, each holding a multiplier,
    a max speed and an is-active flag. They are labelled "Left Primary" …
    "Right Joystick" and "Defaults".
  - Each record is created from the configuration file. A missing entry
    falls back to 1.2 and 8.0.
  - A fixed-priority selector maps eight controller buttons to one record.
  - The apply step copies the selected record into the player's
    `maxJumpSpeed`/`jumpMultiplier` and marks it as the only active record.
  - Reset-to-defaults, the quick preset buttons of each record, and saving
    and loading under keys made by removing the spaces from the labels.
- **Prediction manager** (`Prediction.cs`, module `Prediction`).
  - Each frame, while there is a player and the strength is above 0.01,
    the velocity of each hand relative to the body is smoothed by an
    exponential moving average.
  - The displayed hand position is then moved ahead along that velocity by
    `strength * 0.005` seconds.
  - It also covers the status line (OFF / Low / Medium / High), the strength
    presets, saving and loading, and reset.
- **Speed manager** (`PSA.cs`, module `SpeedManager`).
  - A forward-speed value edited from a main panel (slider in [1, 20],
    clamping Decrease/Increase, Reset 10 and Legit 6.7) and from a mini bar
    (unclamped -/+).
  - A visibility flag, and a fade value that follows the flag and is clamped
    to [0, 1] on every `DrawGUI` call.
  - The per-frame push along the body's forward direction while the right
    primary button is held.

Supporting modules:

- `Config`: the plugin's configuration file, as two maps from (section,
  key) to a numeric or boolean value. Binding an entry reads it, or creates
  it with the default; writing sets it.
- `Host`: the button states and the player fields the plugin reads and
  writes, as plain records.
- `Vectors`: 3-vectors over `real`.
- `Widgets`: `Mathf.Clamp` and the slider, as functions.
- `Wrappers`: `Option`.

How the source's form is kept:

- The records and the three managers are classes whose methods update
  fields in place, as the source does. Each method is proved against a
  function of the old state, such as `Table() == Reset(old(Table()))`.
- The properties promised by the source are lemmas about those functions.
- The player is `Option<Player>`, where `None` is the host's player not
  existing yet.
- The prediction manager's static fields are fields of one
  `PredictionManager` object.
- The frame time is a `real` parameter `dt`.
- One GUI frame is modelled as an optional slider drag and at most one
  pressed button.

`ResetToDefaults` in `USBM.cs` touches only the boost table. Only the
superseded single-file version also resets the prediction settings.

A record is marked active only by an apply step with a player present, and
that step leaves exactly the selected record active. The table starts with
no record active, and a frame without a player changes nothing.

## Model

| member | source | states |
|---|---|---|
| BoostManager.StripSpaces | ultimate-Speed-Boost-Manager/USBM.cs:74 | The persisted key contains no space, and a label without spaces is its own key. |
| BoostManager.StripSpacesKeepsOthers | ultimate-Speed-Boost-Manager/USBM.cs:74 | `Replace(" ", "")` keeps every other character, as often as it occurs, and removes every space. |
| BoostManager.StripSpacesConcat | ultimate-Speed-Boost-Manager/USBM.cs:74 | Removing spaces from a concatenation removes them from each part. |
| BoostManager.TwoWordKey | ultimate-Speed-Boost-Manager/USBM.cs:65-66 | A two-word label "A B" is persisted under the key "AB". |
| BoostManager.LabelKey0 | ultimate-Speed-Boost-Manager/USBM.cs:42 | "Left Primary" is saved and loaded under the key "LeftPrimary", which is the key its record was created under. |
| BoostManager.LabelKey1 | ultimate-Speed-Boost-Manager/USBM.cs:43 | "Left Secondary" is persisted under its creation key "LeftSecondary". |
| BoostManager.LabelKey2 | ultimate-Speed-Boost-Manager/USBM.cs:44 | "Left Grab" is persisted under its creation key "LeftGrab". |
| BoostManager.LabelKey3 | ultimate-Speed-Boost-Manager/USBM.cs:45 | "Left Joystick" is persisted under its creation key "LeftJoystick". |
| BoostManager.LabelKey4 | ultimate-Speed-Boost-Manager/USBM.cs:46 | "Right Primary" is persisted under its creation key "RightPrimary". |
| BoostManager.LabelKey5 | ultimate-Speed-Boost-Manager/USBM.cs:47 | "Right Secondary" is persisted under its creation key "RightSecondary". |
| BoostManager.LabelKey6 | ultimate-Speed-Boost-Manager/USBM.cs:48 | "Right Grab" is persisted under its creation key "RightGrab". |
| BoostManager.LabelKey7 | ultimate-Speed-Boost-Manager/USBM.cs:49 | "Right Joystick" is persisted under its creation key "RightJoystick". |
| BoostManager.LabelKey8 | ultimate-Speed-Boost-Manager/USBM.cs:50 | "Defaults" is persisted under its creation key "Defaults". |
| BoostManager.PersistedKeysAreCreationKeys | ultimate-Speed-Boost-Manager/USBM.cs:42-50 | For every label, the key used by saving and loading equals the name the record was created under. |
| BoostManager.CreationKeysDistinct | ultimate-Speed-Boost-Manager/USBM.cs:42-50 | The nine creation names are pairwise different. |
| BoostManager.PersistedKeysDistinct | ultimate-Speed-Boost-Manager/USBM.cs:65-66 | No two labels share a persisted key, so saving one record never overwrites another's entries. |
| BoostManager.WithDefaults | ultimate-Speed-Boost-Manager/USBM.cs:75-76 | Binding both keys of some names adds exactly those keys and keeps every existing entry's value. |
| BoostManager.Created | ultimate-Speed-Boost-Manager/USBM.cs:54-59 | The record `LoadOrCreateSettings` builds from the file: the values bound under the name's two keys (1.2 and 8.0 when missing), inactive. Its properties are `InitialTableFromConfig`, `CreatedFromDefaults` and `LoadOrCreateSettings`. |
| BoostManager.InitialTable | ultimate-Speed-Boost-Manager/USBM.cs:40-51 | The table the start-up dictionary holds, one created record per label. Its properties are `InitialTableShape`, `InitialTableAt` and `InitialTableFromConfig`. |
| BoostManager.KeysOfSnoc | ultimate-Speed-Boost-Manager/USBM.cs:72-77 | Loading one more record adds exactly its multiplier key and its max-speed key. |
| BoostManager.DefaultsOnlyKeys | ultimate-Speed-Boost-Manager/USBM.cs:72-77 | Entries that keep the old ones, add only defaults, and have exactly the bound keys are the entries after binding those names. |
| BoostManager.WithDefaultsTwice | ultimate-Speed-Boost-Manager/USBM.cs:72-77 | Binding the keys of one set of names and then another is the same as binding their union. |
| BoostManager.LookupWithDefaults | ultimate-Speed-Boost-Manager/USBM.cs:75-76 | Creating entries with their defaults never changes the record a later binding yields. |
| BoostManager.InitialTableShape | ultimate-Speed-Boost-Manager/USBM.cs:40-51 | The start-up table holds exactly the nine labels, and none of them is active. |
| BoostManager.InitialTableAt | ultimate-Speed-Boost-Manager/USBM.cs:42-50 | The i-th label's record is created from the i-th creation name. |
| BoostManager.InitialTableFromConfig | ultimate-Speed-Boost-Manager/USBM.cs:54-59 | Each start-up record holds the values stored under its label's key. When neither entry exists, it holds (1.2, 8.0) and is inactive. |
| BoostManager.FirstPressedIsFirst | ultimate-Speed-Boost-Manager/USBM.cs:246-253 | Reference rule: when flag k is the first set flag, its label is chosen. |
| BoostManager.NonePressed | ultimate-Speed-Boost-Manager/USBM.cs:255 | Reference rule: when no flag is set, the fall-back is chosen. |
| BoostManager.ActiveLabel | ultimate-Speed-Boost-Manager/USBM.cs:244-256 | The selector's if-chain, as the label it returns. It is total and always names a record of the table. `ActiveLabelIsFirstPressed` ties it to the reference rule. |
| BoostManager.FirstHeld | ultimate-Speed-Boost-Manager/USBM.cs:246-253 | If any flag up to k is set, there is a first set flag at or before k. |
| BoostManager.ActiveLabelIsFirstPressed | ultimate-Speed-Boost-Manager/USBM.cs:246-255 | The selector picks the first pressed button in the order left-joystick, right-joystick, left-primary, left-secondary, left-grab, right-primary, right-secondary, right-grab, else "Defaults". |
| BoostManager.DefaultsIffNothingPressed | ultimate-Speed-Boost-Manager/USBM.cs:246-255 | "Defaults" is chosen exactly when none of the eight buttons is held. |
| BoostManager.FirstHeldButtonWins | ultimate-Speed-Boost-Manager/USBM.cs:246-253 | The first held button in priority order wins, whatever the buttons below it are. |
| BoostManager.LowerButtonsIgnored | ultimate-Speed-Boost-Manager/USBM.cs:246-253 | Two button states that agree up to and including a held button select the same record. |
| BoostManager.ApplyMarksOnlySelected | ultimate-Speed-Boost-Manager/USBM.cs:228-242 | With a player present, the table keeps its nine labels and exactly the selected record is active. No record's multiplier or max speed changes. The player's maxJumpSpeed and jumpMultiplier become the selected record's, and no other player field changes. |
| BoostManager.ApplyWithoutPlayer | ultimate-Speed-Boost-Manager/USBM.cs:230 | Without a player, applying changes neither the table nor the player. |
| BoostManager.Boosted | ultimate-Speed-Boost-Manager/USBM.cs:233-234 | The player with the selected record copied into `maxJumpSpeed` and `jumpMultiplier`. `ApplyMarksOnlySelected` states its effect. |
| BoostManager.Activated | ultimate-Speed-Boost-Manager/USBM.cs:237-241 | Every record's flag cleared, then the selected record's set. `ApplyMarksOnlySelected` proves exactly one record is active afterwards. |
| BoostManager.ApplyStep | ultimate-Speed-Boost-Manager/USBM.cs:228-242 | One apply step on the table and the player: no change without a player, else `Boosted` and `Activated`. Its properties are `ApplyMarksOnlySelected` and `ApplyWithoutPlayer`. |
| BoostManager.Reset | ultimate-Speed-Boost-Manager/USBM.cs:258-265 | Every record set to (1.2, 8.0) with its flag kept. `ResetRestoresDefaults` states its properties, idempotence included. |
| BoostManager.ResetRestoresDefaults | ultimate-Speed-Boost-Manager/USBM.cs:258-265 | Reset keeps the labels and every active flag, and sets every record to (1.2, 8.0). Resetting twice is the same as resetting once. |
| BoostManager.PersistedNamesSnoc | ultimate-Speed-Boost-Manager/USBM.cs:72-77 | Visiting one more label adds its persisted key to the keys visited. |
| BoostManager.LabelsHaveDistinctNames | ultimate-Speed-Boost-Manager/USBM.cs:63-67 | The labels visited by saving have pairwise different persisted keys. |
| BoostManager.SavedAllSnoc | ultimate-Speed-Boost-Manager/USBM.cs:63-67 | Saving one more record writes that record after the earlier ones. |
| BoostManager.SavedAllAt | ultimate-Speed-Boost-Manager/USBM.cs:63-67 | After saving, each saved record's multiplier and max speed sit under its persisted keys. |
| BoostManager.SavedAllUnchanged | ultimate-Speed-Boost-Manager/USBM.cs:63-67 | Saving values the file already holds leaves the file unchanged. |
| BoostManager.Written | ultimate-Speed-Boost-Manager/USBM.cs:65-66 | The two writes of one record under its label's stripped keys. `SavedAllAt` states where the values end up. |
| BoostManager.SavedAll | ultimate-Speed-Boost-Manager/USBM.cs:63-67 | The writes of the listed records, in order. Its properties are `SavedAllSnoc`, `SavedAllAt` and `SavedAllUnchanged`. |
| BoostManager.Saved | ultimate-Speed-Boost-Manager/USBM.cs:61-68 | The file after saving the whole table, visiting the labels in the dictionary literal's order. Its round trips are `SaveThenLoad` and `LoadThenSave`. |
| BoostManager.Loaded | ultimate-Speed-Boost-Manager/USBM.cs:70-78 | Each record re-read from its stripped keys, with its flag kept. Its properties are `SaveThenLoad`, `LoadMatchesCreation` and `LoadTwice`. |
| BoostManager.SaveThenLoad | ultimate-Speed-Boost-Manager/USBM.cs:61-78 | Saving and then loading restores every record exactly. |
| BoostManager.LoadMatchesCreation | ultimate-Speed-Boost-Manager/USBM.cs:70-78 | Loading a table with no active record yields the table that start-up would create from the same file. |
| BoostManager.LoadThenSave | ultimate-Speed-Boost-Manager/USBM.cs:61-78 | Saving right after loading writes back exactly the entries that loading left. |
| BoostManager.LoadTwice | ultimate-Speed-Boost-Manager/USBM.cs:70-78 | Loading a second time changes neither the table nor the file. |
| BoostManager.PresetsWin | ultimate-Speed-Boost-Manager/USBM.cs:205-224 | Each preset sets its fixed (max speed, multiplier) pair whatever the sliders did: Default (8, 1.2), Low (5, 0.8), Medium (10, 1.5), High (15, 2.0). Every pair lies on the slider tracks. |
| BoostManager.EditingStaysOnTrack | ultimate-Speed-Boost-Manager/USBM.cs:193-224 | A record whose values lie on the tracks [0, 20] and [0, 3] stays on them after a frame of its panel, and its active flag is kept. |
| BoostManager.PresetValues | ultimate-Speed-Boost-Manager/USBM.cs:205-224 | The (max speed, multiplier) pair of each preset button. `PresetsWin` states the four pairs. |
| BoostManager.Edited | ultimate-Speed-Boost-Manager/USBM.cs:193-224 | A record after one frame of its panel: the two sliders, then any preset. Its properties are `PresetsWin` and `EditingStaysOnTrack`. |
| BoostManager.BoostSettings.constructor | ultimate-Speed-Boost-Manager/USBM.cs:275-280 | A new record holds the given multiplier and max speed, and is inactive. |
| BoostManager.BoostSettings.DrawControlSetSliders | ultimate-Speed-Boost-Manager/USBM.cs:180-226 | The record after one frame is the edited record: slider drags first, then any preset. |
| BoostManager.CreatedFromDefaults | ultimate-Speed-Boost-Manager/USBM.cs:54-59 | Entries that only gained defaults build the same records. |
| BoostManager.BindEntries | ultimate-Speed-Boost-Manager/USBM.cs:56-57 | The two bindings yield the stored values or the defaults. They add exactly the two keys and change no existing entry. |
| BoostManager.LoadOrCreateSettings | ultimate-Speed-Boost-Manager/USBM.cs:54-59 | The new record holds the stored values or (1.2, 8.0) and is inactive. The file gains exactly the record's two keys, holding defaults. |
| BoostManager.CreationNames | ultimate-Speed-Boost-Manager/USBM.cs:42-50 | Start-up creates records for exactly the nine names from LeftPrimary to Defaults. |
| BoostManager.KeysOfNine | ultimate-Speed-Boost-Manager/USBM.cs:40-51 | Nine creations in sequence add the two keys of each name. |
| BoostManager.CreationKeySet | ultimate-Speed-Boost-Manager/USBM.cs:40-51 | The keys added by start-up are exactly the two keys of every creation name. |
| BoostManager.InitialRecordsShape | ultimate-Speed-Boost-Manager/USBM.cs:40-51 | The dictionary literal holds one record per label, stored under that label. |
| BoostManager.InitialRecordsTable | ultimate-Speed-Boost-Manager/USBM.cs:40-51 | What the dictionary literal holds is the start-up table. |
| BoostManager.CreateRecords | ultimate-Speed-Boost-Manager/USBM.cs:42-50 | The nine creations yield fresh records, each built from its name's entries. The file gains exactly their keys, holding defaults. |
| BoostManager.InitializeSettings | ultimate-Speed-Boost-Manager/USBM.cs:38-52 | The settings dictionary holds exactly the nine labels, with the start-up table built from the file. The file gains only default entries for the creation keys. |
| BoostManager.USBManager.constructor | ultimate-Speed-Boost-Manager/USBM.cs:32-36 | The manager starts with the start-up table built from the file. |
| BoostManager.USBManager.SaveSettings | ultimate-Speed-Boost-Manager/USBM.cs:61-68 | Every record is written under its persisted keys. The flags are untouched. |
| BoostManager.USBManager.LoadSettings | ultimate-Speed-Boost-Manager/USBM.cs:70-78 | Every record is re-read from its persisted keys and keeps its active flag. The file gains only default entries. |
| BoostManager.USBManager.LoadLabels | ultimate-Speed-Boost-Manager/USBM.cs:72-77 | The loop re-reads exactly the listed records, keeps all active flags, and leaves the others unchanged. |
| BoostManager.USBManager.LoadRecord | ultimate-Speed-Boost-Manager/USBM.cs:74-76 | One record is re-read from its label's keys, and every other record is left unchanged. The file gains exactly those two keys. |
| BoostManager.USBManager.GetActiveBoostSettings | ultimate-Speed-Boost-Manager/USBM.cs:244-256 | The selected record object: one of the dictionary's records, namely the one stored under `ActiveLabel(input)`. |
| BoostManager.USBManager.ApplySettings | ultimate-Speed-Boost-Manager/USBM.cs:228-242 | Table and player after the call are the apply step of the old table. |
| BoostManager.USBManager.MarkOnlyActive | ultimate-Speed-Boost-Manager/USBM.cs:237-241 | After the loop and the final assignment, only the selected record is active. No value changes. |
| BoostManager.USBManager.ResetToDefaults | ultimate-Speed-Boost-Manager/USBM.cs:258-265 | The table after the call is the reset of the old table. |
| BoostManager.USBManager.ResetLabels | ultimate-Speed-Boost-Manager/USBM.cs:260-264 | Exactly the listed records are set to (1.2, 8.0). Active flags and the other records are unchanged. |
| Prediction.SmoothedIsConvex | ultimate-Speed-Boost-Manager/Prediction.cs:197-198 | With a weight in [0, 1], each component of the new average lies between the raw relative velocity and the previous average. |
| Prediction.SmoothedFixedPoint | ultimate-Speed-Boost-Manager/Prediction.cs:197-198 | A sample equal to the previous average leaves it unchanged. |
| Prediction.SmoothingNeverOvershoots | ultimate-Speed-Boost-Manager/Prediction.cs:197-198 | Over any number of frames with the same sample, the average stays between its start and the sample. |
| Prediction.SmoothedGap | ultimate-Speed-Boost-Manager/Prediction.cs:197-198 | One frame multiplies the distance from the average to the sample by `1 - s`. |
| Prediction.SmoothingConverges | ultimate-Speed-Boost-Manager/Prediction.cs:197-198 | After n frames with the same sample, the distance to the sample is the initial distance times `(1 - s)^n`. |
| Prediction.DecayFactorBounds | ultimate-Speed-Boost-Manager/Prediction.cs:93 | With a weight in (0, 1], as the smoothing slider's [0.01, 0.5] track gives, `(1 - s)^n` lies in [0, 1], and below 1 once a frame has passed. So the distance never grows and strictly shrinks. |
| Prediction.RelativeVelocity | ultimate-Speed-Boost-Manager/Prediction.cs:197-198 | `(position - lastPosition) / dt - bodyVelocity`, defined only for `dt != 0`. `StepRemembersReadPositions` and `StillHandStaysPut` state its use. |
| Prediction.Smoothed | ultimate-Speed-Boost-Manager/Prediction.cs:197-198 | The moving-average step. Its properties are `SmoothedIsConvex`, `SmoothedFixedPoint`, `SmoothedGap` and `SmoothingConverges`. |
| Prediction.PredictionOffset | ultimate-Speed-Boost-Manager/Prediction.cs:207-210 | Strength 0 or zero velocity gives the position itself, and the offset is proportional to the strength. |
| Prediction.PredictFuturePosition | ultimate-Speed-Boost-Manager/Prediction.cs:207-210 | The position moved along the velocity for `strength * 0.005` seconds. `PredictionOffset` states its properties. |
| Prediction.PredictStep | ultimate-Speed-Boost-Manager/Prediction.cs:183-205 | One prediction frame on the tracking state and the player. Its properties are `StepGatedOff`, `StepRemembersReadPositions`, `StillHandStaysPut` and `ResetSwitchesOff`. |
| Prediction.StepGatedOff | ultimate-Speed-Boost-Manager/Prediction.cs:183-189 | Without a player, or at strength at or below 0.01, a frame changes neither the tracking state nor the player. |
| Prediction.StepRemembersReadPositions | ultimate-Speed-Boost-Manager/Prediction.cs:191-205 | A running frame remembers the hand positions read, not the ones written. The new velocities are the smoothed relative velocities, computed separately for each hand. The written hands are the predictions, and nothing else of the player changes. |
| Prediction.StillHandStaysPut | ultimate-Speed-Boost-Manager/Prediction.cs:197-200 | A hand that moved with the body, from a zero velocity estimate, keeps a zero estimate and is not displaced. |
| Prediction.StatusIntervals | ultimate-Speed-Boost-Manager/Prediction.cs:159-178 | OFF holds exactly at or below 0.01, Low exactly in (0.01, 5), Medium exactly in [5, 20), and High exactly from 20 on. |
| Prediction.StatusMonotone | ultimate-Speed-Boost-Manager/Prediction.cs:159-178 | A stronger setting never shows a lower status. |
| Prediction.StatusMatchesGate | ultimate-Speed-Boost-Manager/Prediction.cs:159-186 | With a player present, the status reads OFF exactly when the frame does not predict. |
| Prediction.StatusOf | ultimate-Speed-Boost-Manager/Prediction.cs:159-178 | The status line's classification. Its properties are `StatusIntervals`, `StatusMonotone` and `StatusMatchesGate`. |
| Prediction.PresetStatuses | ultimate-Speed-Boost-Manager/Prediction.cs:107-178 | Every preset lies on the [0, 100] track. Off shows OFF; Very Low, Low and Valve show Low; Pico, RiftS and Medium show Medium; High and Extreme show High. |
| Prediction.EditedStrengthOnTrack | ultimate-Speed-Boost-Manager/Prediction.cs:85-151 | A touched strength control ends in [0, 100], and a preset overrides the slider. An untouched control leaves the strength unchanged. |
| Prediction.PresetStrength | ultimate-Speed-Boost-Manager/Prediction.cs:107-151 | The strength each of the nine preset buttons sets. `PresetStatuses` states their track and their statuses. |
| Prediction.EditedStrength | ultimate-Speed-Boost-Manager/Prediction.cs:85-151 | The strength after one frame: the slider, then any preset. `EditedStrengthOnTrack` states its properties. |
| Prediction.SavedPrediction | ultimate-Speed-Boost-Manager/Prediction.cs:45-50 | Saving adds or overwrites exactly the strength and smoothing keys. |
| Prediction.SaveThenLoad | ultimate-Speed-Boost-Manager/Prediction.cs:38-50 | Loading after saving gives back the saved strength and smoothing, and saving leaves every other entry unchanged. |
| Prediction.LoadFromEmpty | ultimate-Speed-Boost-Manager/Prediction.cs:38-43 | Loading from an empty file gives strength 0 and smoothing 0.1, and the status reads OFF. |
| Prediction.LoadedPrediction | ultimate-Speed-Boost-Manager/Prediction.cs:38-43 | The two loaded values, stored or defaults. `SaveThenLoad` and `LoadFromEmpty` state its properties. |
| Prediction.PredictionManager.constructor | ultimate-Speed-Boost-Manager/Prediction.cs:27-36 | The four tracking vectors start at zero, and the settings start at 0 and 0.1. |
| Prediction.PredictionManager.LoadSettings | ultimate-Speed-Boost-Manager/Prediction.cs:38-43 | The settings become the stored values, or the defaults. Both entries are bound, and the tracking state is untouched. |
| Prediction.PredictionManager.SaveSettings | ultimate-Speed-Boost-Manager/Prediction.cs:45-50 | The file holds the current strength and smoothing. |
| Prediction.PredictionManager.DrawGUI | ultimate-Speed-Boost-Manager/Prediction.cs:85-178 | The strength is edited by its slider and presets, and smoothing stays on [0.01, 0.5] when dragged. The status shown is that of the new strength. |
| Prediction.PredictionManager.ApplySettings | ultimate-Speed-Boost-Manager/Prediction.cs:183-189 | The tracking state and player after the frame are the prediction step of the old state. The settings are unchanged. |
| Prediction.PredictionManager.ApplyPrediction | ultimate-Speed-Boost-Manager/Prediction.cs:191-205 | The new tracking state holds the read positions, the new smoothed velocities, the body velocity and dt. The hands are written with the predictions. |
| Prediction.PredictionManager.ResetSettings | ultimate-Speed-Boost-Manager/Prediction.cs:212-216 | Strength becomes 0 and smoothing 0.1. The tracking state is kept. |
| Prediction.ResetSwitchesOff | ultimate-Speed-Boost-Manager/Prediction.cs:212-216 | After a reset the status reads OFF and the next frame changes nothing. |
| SpeedManager.Max | ultimate-Speed-Boost-Manager/PSA.cs:78 | `Mathf.Max` is the larger of its arguments. |
| SpeedManager.Min | ultimate-Speed-Boost-Manager/PSA.cs:83 | `Mathf.Min` is the smaller of its arguments. |
| SpeedManager.StepButtonsClamp | ultimate-Speed-Boost-Manager/PSA.cs:76-84 | Decrease never goes below 1 and lowers by exactly 1 when it can; otherwise it gives 1. Increase never goes above 20 and raises by exactly 1 when it can; otherwise it gives 20. |
| SpeedManager.MainPanelKeepsRange | ultimate-Speed-Boost-Manager/PSA.cs:71-98 | A speed in [1, 20], or a drag, ends the frame in [1, 20]. Reset and Legit always land in it. An untouched panel leaves the speed unchanged. |
| SpeedManager.ResetAndLegitAgree | ultimate-Speed-Boost-Manager/PSA.cs:90-140 | Reset gives exactly 10 and Legit exactly 6.7, on both panels and from any speed. |
| SpeedManager.MiniBarLeavesRange | ultimate-Speed-Boost-Manager/PSA.cs:120-130 | The mini bar's - and + change the speed by exactly 1 with no clamp, so 1 can go to 0 and 20 can go to 21. The main Increase keeps 20. |
| SpeedManager.MinusPlusCancel | ultimate-Speed-Boost-Manager/PSA.cs:120-130 | On the mini bar, - followed by + changes nothing. On the main panel this also holds inside [2, 20], but not at 1. |
| SpeedManager.MainButtonResult | ultimate-Speed-Boost-Manager/PSA.cs:76-98 | The four main-panel buttons. `StepButtonsClamp` and `ResetAndLegitAgree` state their properties. |
| SpeedManager.MainPanel | ultimate-Speed-Boost-Manager/PSA.cs:71-98 | The speed after one frame of the main panel: the slider, then a button. `MainPanelKeepsRange` states its properties. |
| SpeedManager.MiniButtonResult | ultimate-Speed-Boost-Manager/PSA.cs:120-140 | The four mini-bar buttons. `MiniBarLeavesRange`, `MinusPlusCancel` and `ResetAndLegitAgree` state their properties. |
| SpeedManager.FadeStep | ultimate-Speed-Boost-Manager/PSA.cs:52-61 | The fade ends every frame in [0, 1]. With dt >= 0 it moves toward 1 when visible and toward 0 when hidden, by exactly dt up to the bound. |
| SpeedManager.FadeOneMore | ultimate-Speed-Boost-Manager/PSA.cs:52-61 | One more frame after t seconds of fading adds dt to the elapsed time. |
| SpeedManager.FadeAfterElapsed | ultimate-Speed-Boost-Manager/PSA.cs:52-61 | After n frames the fade has moved by the elapsed time, up to the bound. |
| SpeedManager.FadeAfterFrames | ultimate-Speed-Boost-Manager/PSA.cs:52-61 | After n frames of length dt, the fade is min(1, fade + n*dt) when visible and max(0, fade - n*dt) when hidden. |
| SpeedManager.Clamp01 | ultimate-Speed-Boost-Manager/PSA.cs:61 | `Mathf.Clamp01`, as a clamp to [0, 1]. |
| SpeedManager.Faded | ultimate-Speed-Boost-Manager/PSA.cs:52-61 | The fade after one `DrawGUI` call. `FadeStep` and `FadeAfterFrames` state its properties. |
| SpeedManager.PushedMovesForward | ultimate-Speed-Boost-Manager/PSA.cs:148-155 | The player moves only when present and the right primary button is held, by forward*speed*dt. Nothing else of the player changes, and two frames add up. |
| SpeedManager.Pushed | ultimate-Speed-Boost-Manager/PSA.cs:148-155 | The player after one frame of the push. `PushedMovesForward` states its properties. |
| SpeedManager.LoadDefaultsAndRoundTrip | ultimate-Speed-Boost-Manager/PSA.cs:26-36 | An empty file loads speed 10 and visible, and a saved speed and visibility load back unchanged. |
| SpeedManager.LoadedSpeed | ultimate-Speed-Boost-Manager/PSA.cs:26-30 | The loaded speed and visibility, stored or defaults. `LoadDefaultsAndRoundTrip` states its properties. |
| SpeedManager.SpeedManager.constructor | ultimate-Speed-Boost-Manager/PSA.cs:11-24 | The manager starts with speed 10, visible, and fade 1. |
| SpeedManager.SpeedManager.LoadSettings | ultimate-Speed-Boost-Manager/PSA.cs:26-30 | Speed and visibility become the stored values or the defaults, and both entries are bound. |
| SpeedManager.SpeedManager.SaveSettings | ultimate-Speed-Boost-Manager/PSA.cs:32-36 | The two entries are written, and loading them gives back the current values. |
| SpeedManager.SpeedManager.ToggleVisibility | ultimate-Speed-Boost-Manager/PSA.cs:38-41 | The visibility flag is negated, so toggling twice restores it. Nothing else changes. |
| SpeedManager.SpeedManager.DrawGUI | ultimate-Speed-Boost-Manager/PSA.cs:52-98 | The fade takes one step and ends in [0, 1]. The speed is what the main panel makes of it. Visibility is kept. |
| SpeedManager.SpeedManager.DrawMiniGUI | ultimate-Speed-Boost-Manager/PSA.cs:108-146 | The bar is drawn exactly when it is visible or still fading, and the speed changes only through a button of a drawn bar. |
| SpeedManager.SpeedManager.ApplySettings | ultimate-Speed-Boost-Manager/PSA.cs:148-155 | The player after the frame is the push of the current speed. |
| Config.Bound | ultimate-Speed-Boost-Manager/USBM.cs:56-57 | Binding adds the key if missing, with the value a binding yields, and keeps every other entry. |
| Config.ConfigFile.BindReal | ultimate-Speed-Boost-Manager/USBM.cs:56 | A numeric binding yields the stored value or the default, and creates the missing entry. |
| Config.ConfigFile.SetReal | ultimate-Speed-Boost-Manager/USBM.cs:65 | Assigning a bound numeric entry stores the value under its key. |
| Config.ConfigFile.BindFlag | ultimate-Speed-Boost-Manager/PSA.cs:29 | A boolean binding yields the stored value or the default, and creates the missing entry. |
| Config.ConfigFile.SetFlag | ultimate-Speed-Boost-Manager/PSA.cs:35 | Assigning a bound boolean entry stores the value under its key. |
| Widgets.Clamp | ultimate-Speed-Boost-Manager/PSA.cs:61 | The result lies in [lo, hi], equals the value when it is inside, and equals the nearer bound otherwise. |
| Widgets.Slider | ultimate-Speed-Boost-Manager/PSA.cs:71 | A drag yields a value on the track. An untouched slider keeps the current value. |

## Left out

- Drawing is not modelled. That covers `GUILayout`/`GUI` calls, styles,
  colours, the rainbow header, the scroll position and the expanded-section
  dictionary of the boost panel. None of these has behaviour beyond the
  values it displays. Button presses and slider drags are inputs of the
  modelled methods instead.
- The configuration library and `PlayerPrefs` internals are not modelled.
  The file is two maps, and `Bind(...).Value = v` is a plain write. The
  description strings passed to `Bind` are dropped.
- Host objects (`GTPlayer.Instance`, `ControllerInputPoller`,
  `SteamVR_Actions`, the controller transforms) are plain records passed in
  and returned. `Time.deltaTime` is the parameter `dt`.
- Floating point is modelled over `real`: there is no rounding, NaN or
  infinity, and constants such as 6.7 and 7.34 are exact decimals.
- Prediction.PredictionManager.ApplySettings: requires `dt != 0` whenever
  the frame predicts. The source divides by the frame time unguarded and
  would produce infinities or NaN, which `real` cannot express.
- Prediction.PredictionManager.ApplyPrediction: requires `dt != 0` for the
  same reason.
- BoostManager.USBManager.SaveSettings: the dictionary is visited in the
  order its literal lists the labels. .NET does not promise this order. The
  persisted keys are pairwise different, so the result does not depend on
  it.
- BoostManager.USBManager.ApplySettings: the records are mutable objects in
  a dictionary, as in the source. Each record carries a proof-only label,
  which lets the proofs tell the nine objects apart.
- BoostManager.BoostSettings.DrawControlSetSliders: models at most one
  preset button per frame. If several were pressed in one frame, the last
  would win.
- Prediction.PredictionManager.DrawGUI: models at most one preset button per
  frame.
- SpeedManager.SpeedManager.DrawGUI: models at most one button per frame.
- SpeedManager.SpeedManager.DrawMiniGUI: models at most one button per
  frame.
- Widgets.Slider: Unity's slider does not clamp a value it is not dragging.
  The model keeps that value, and promises a value on the track only for a
  drag.
- The prediction manager's fields are static, so every instance shares
  them. The model keeps them in one `PredictionManager` object.
- `colorChangeSpeed` is not modelled; it only feeds the header colour.
- `GUI.cs` is not part of this model. It only holds the tab selection and
  forwards Load/Save/Apply/Draw to the three managers.
- `PitGeo.cs` is not part of this model. It is scene-object lookups and a
  network room-join call on the host.
- `ultimate-Speed-Boost-Manager.cs` is not part of this model. It is the
  superseded single-file version. Its `ResetToDefaults`, unlike `USBM.cs`,
  also resets and saves the prediction settings.
- The log output is not modelled. The Tab-key input action belongs to
  `GUI.cs` and toggles the main window, not the speed bar. No source file
  calls `SpeedManager.ToggleVisibility`; the "Press P" text at `PSA.cs:103`
  is only a label. The model keeps `ToggleVisibility` as the public
  operation it is.
- The fade steps only when `DrawGUI` runs, which `GUI.cs` does only while
  the speed tab is shown. The model states the step per `DrawGUI` call.
