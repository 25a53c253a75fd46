# ROG Spatha X controller: a Dafny model of its configuration logic

The controller is a PyQt6 desktop application that configures a gaming mouse: DPI,
polling rate, a function and a parameter for each of the twelve programmable buttons,
recorded key macros, and named profiles saved as JSON files. Under the widgets there are
four pieces of logic, and this project models each of them with its widget values
treated as plain fields:

- **Macro recorder** (`Macros`, class `MacroRecorderDialog`). The dialog has a
  `recording` flag, the list of recorded key names, the lines of its read-only display
  and the caption of its record button. `ToggleRecording`, `ClearMacro` and
  `EventFilter` change these in place. The class invariant says that the list never
  holds a duplicate or an empty name, that the display shows one `Key: <name>` line per
  recorded key, and that the caption matches the flag. `GetMacro` gives the
  `" + "`-join. `Split` is Python's `str.split(" + ")`, and `SplitJoin` proves that it
  recovers the keys. `RecordAll` is the list after a whole series of key presses. The
  lemmas about it prove that the list keeps its old names in front, gains exactly the
  non-empty new names, and adds them in the order they were first pressed.
- **Button configuration** (`Buttons`, class `ButtonConfigWidget`). The widget holds
  the `{function, parameter}` dictionary as the fields `func` and `parameter`. (In
  Dafny `function` is a keyword, so the field is named `func`.) It also holds the
  visibility of the parameter input and of the record button, and the input's hint
  text. `UpdateFunction` sets the function, keeps a possibly stale parameter and
  applies the visibility rule: the parameter input is shown exactly for Keystroke,
  Application and Macro, and the record button exactly for Macro. `UpdateParameter`
  and an accepted `RecordMacro` change only the parameter. `SetConfig` applies an entry
  read from a profile, with the defaults `"Left Click"` and `""`. A new widget shows
  its parameter input even though its function is Left Click, because nothing hides
  the input before the first change of function. So the visibility rule holds from
  the first `UpdateFunction` or `SetConfig` on, and the constructor states the real
  initial state.
- **Apply summary** (`Controller`, class `MouseController`). The main window holds the
  DPI, the polling rate and twelve distinct button widgets. `ApplyAllSettings` counts
  the configured buttons with a loop. A button is configured when its function is not
  Left Click or its parameter is non-empty. The method returns the status text
  `Applied: DPI=…, Polling Rate=…`, which gets `, N buttons configured` appended only
  when N > 0. `ConfiguredCount` is the count as a function. It is proved equal to the
  number of configured indices and to be zero exactly when every button is at its
  default.
- **Profiles** (`Profiles`, class `ProfileManager`). `FileName` is
  `"profile_" + name.lower().replace(' ', '_') + ".json"`, and save and load both use
  it. `Snapshot` is the dictionary that "Save Profile" builds, with the buttons keyed
  by integer index. `Serialize` stands for `json.dump` followed by `json.load`: every
  key is present, and each integer key has become its decimal string, so button `i`
  is found again under `str(i)`. `Restore` is what "Load Profile" does with a
  document. It uses the document's description, DPI and polling rate, or the
  defaults `""`, `800` and `"1000Hz"`, and it replaces button `i` only when the key
  `str(i)` is present. `SaveThenLoad` proves the round trip. The methods
  `SaveProfile` and `LoadProfileFile` work on a `Disk` object whose `files` map stands
  for the working directory. A missing file is reported and changes nothing.

Loading takes `.get('function', 'Left Click')` whatever the name is. Files that
cannot be parsed are not modelled (see "Left out"). DPI and polling rate are stored as
the document holds them.

## Model

| member | source | states |
|---|---|---|
| Text.IntToStringInjective | mouse_controller.py:207-235 | distinct integers have distinct `str()` renderings, so the JSON string key of a button index names that index alone |
| Text.NatToStringInjective | mouse_controller.py:235 | distinct natural numbers have distinct decimal digit strings |
| Macros.MacroRecorderDialog.constructor | mouse_controller.py:51-53 | a new dialog is not recording and has no keys and an empty display |
| Macros.MacroRecorderDialog.ToggleRecording | mouse_controller.py:55-65 | starting sets `recording` and empties the keys and display; stopping clears `recording` and keeps the keys; the invariant (no duplicates, no empty names, display in step) is kept |
| Macros.MacroRecorderDialog.ClearMacro | mouse_controller.py:67-69 | the keys and display are emptied and the recording flag is untouched |
| Macros.MacroRecorderDialog.EventFilter | mouse_controller.py:71-78 | a key press while recording is consumed and appends its name once if it is non-empty and new; anything else is passed on and leaves the keys unchanged |
| Macros.MacroRecorderDialog.GetMacro | mouse_controller.py:80-81 | the macro is `""` for no keys, and otherwise splits back on `" + "` into the recorded keys when no key name holds a space |
| Macros.Join | mouse_controller.py:81 | joining no names gives ""; otherwise the result is as long as all the names plus three characters per separator, and starts with the first name; `JoinAppend` gives the content |
| Macros.SplitJoin | mouse_controller.py:80-81 | `Split(Join(keys)) == keys` for a non-empty list of space-free names: the joined macro loses nothing |
| Macros.JoinAppend | mouse_controller.py:74-81 | recording one more key extends the macro text by `" + "` and that key |
| Macros.AddKey | mouse_controller.py:74-75 | one press adds exactly the pressed name when it is non-empty and new, keeps the old list in front, and keeps no-duplicates and no-empty-names |
| Macros.RecordAll | mouse_controller.py:71-78 | the list after a series of key presses while recording grows by at most one name per press; its partner lemmas below state what it holds |
| Macros.RecordAllKeepsInvariant | mouse_controller.py:71-78 | after any series of presses the old keys are still in front and the list has no duplicates and no empty names |
| Macros.RecordAllMembers | mouse_controller.py:71-78 | after any series of presses the list holds exactly the old keys and the non-empty pressed names |
| Macros.RecordAllNewNames | mouse_controller.py:74-75 | every name a series of presses adds was pressed and was not recorded before |
| Macros.RecordAllFirstPressOrder | mouse_controller.py:74-75 | the names a series of presses adds appear in the order of their first press |
| Buttons.FromEntry | mouse_controller.py:157-160 | an entry without a function gives Left Click, and one without a parameter gives the empty parameter |
| Buttons.ToEntry | mouse_controller.py:154-160 | a saved configuration read back through `set_config`'s defaults is the same configuration |
| Buttons.MacroButtonNeedsParameterInput | mouse_controller.py:129-142 | whenever the record button is shown, the parameter input is shown too |
| Buttons.ParameterFunctions | mouse_controller.py:99-103 | of the eleven selector entries, exactly Keystroke, Macro and Application show the parameter input |
| Buttons.Placeholder | mouse_controller.py:129-142 | a function that takes a parameter gets one of the three hints; any other keeps the previous hint |
| Buttons.ConfiguredIffNotDefault | mouse_controller.py:120-123 | a button counts as configured exactly when it differs from the initial (Left Click, empty) configuration |
| Buttons.ButtonConfigWidget.GetConfig | mouse_controller.py:154-155 | the copy holds the widget's current function and parameter; being a value, later edits to the widget do not change it |
| Buttons.ButtonConfigWidget.constructor | mouse_controller.py:107-123 | a new widget holds (Left Click, ""), its parameter input shown with hint "Enter parameter..." and its record button hidden |
| Buttons.ButtonConfigWidget.UpdateFunction | mouse_controller.py:125-142 | the function is set and the parameter kept; the parameter input is shown iff the function is Keystroke, Application or Macro, and the record button iff it is Macro |
| Buttons.ButtonConfigWidget.UpdateParameter | mouse_controller.py:144-145 | only the parameter changes |
| Buttons.ButtonConfigWidget.RecordMacro | mouse_controller.py:147-152 | an accepted recording sets the parameter to the dialog's macro and nothing else; a cancelled one changes nothing |
| Buttons.ButtonConfigWidget.SetConfig | mouse_controller.py:157-160 | the configuration becomes the entry's function and parameter with defaults Left Click and "", with visibility following the function |
| Controller.ConfiguredCount | mouse_controller.py:453-454 | the configured count never exceeds the number of buttons |
| Controller.ConfiguredCountIsCardinality | mouse_controller.py:453-454 | the count equals the number of indices whose button has a function other than Left Click or a non-empty parameter |
| Controller.ConfiguredCountZero | mouse_controller.py:453-457 | the count is zero exactly when every button is (Left Click, "") |
| Controller.OneRemappedButton | mouse_controller.py:403-454 | twelve buttons with only the first set to Right Click give a count of one |
| Controller.Summary | mouse_controller.py:450-457 | the summary starts with the DPI and polling rate part and is longer than it exactly when the count is positive |
| Controller.SummaryDeterminesCount | mouse_controller.py:450-457 | for the same DPI and polling rate, different counts give different summaries |
| Controller.MouseController.constructor | mouse_controller.py:357-406 | start-up state is DPI 800, polling rate "1000Hz" and twelve fresh, distinct widgets numbered 0..11 in the default configuration |
| Controller.MouseController.ApplyAllSettings | mouse_controller.py:445-459 | returns the number of configured buttons (at most the number of buttons, equal to the number of configured indices) and the summary for that count |
| Profiles.FileName | mouse_controller.py:210 | the file name has no spaces and no upper-case ASCII letters, is 13 characters longer than the name, and has the fixed prefix and suffix |
| Profiles.FileNameCollision | mouse_controller.py:210-222 | two names share a file exactly when they have equal length and agree character by character after lower-casing and replacing spaces by underscores |
| Profiles.CustomNamesCollide | mouse_controller.py:174-210 | the catalog name "Custom 1" and the name "custom_1" are stored in the same file |
| Profiles.Snapshot | mouse_controller.py:197-207 | the saved dictionary holds name, description, DPI and polling rate, and exactly the keys 0..n-1 with button i's configuration under key i |
| Profiles.Serialize | mouse_controller.py:207-235 | after the JSON round trip, button `i` is found under key `str(i)` with its function and parameter, and every key comes from some index |
| Profiles.RestoreOnlyPresent | mouse_controller.py:232-236 | loading overwrites button `i` from its entry when key `str(i)` is present and leaves it unchanged otherwise |
| Profiles.Restore | mouse_controller.py:224-236 | the load transform keeps the number of buttons; `RestoreOnlyPresent`, `RestoreDefaults`, `RestoreIdempotent` and `SaveThenLoad` state what it does |
| Profiles.RestoreDefaults | mouse_controller.py:228-233 | each key is defaulted on its own: a document without description gives "", without DPI 800, without polling rate "1000Hz", without buttons unchanged buttons |
| Profiles.RestoreIdempotent | mouse_controller.py:224-236 | loading the same document twice gives the same settings as loading it once |
| Profiles.SaveThenLoad | mouse_controller.py:194-236 | saving settings and loading them back restores description, DPI, polling rate and every button, whatever was on screen before the load |
| Profiles.ProfileManager.constructor | mouse_controller.py:173-192 | the selector starts at "Default" and the description is empty |
| Profiles.ProfileManager.SaveProfile | mouse_controller.py:194-214 | the profile's file now holds the serialized snapshot of the on-screen settings and no other file changes |
| Profiles.ProfileManager.LoadProfileFile | mouse_controller.py:219-241 | with the file present the settings become `Restore` of it, only the buttons with an entry are touched, and those get visibility and hint from their new function; with it absent nothing changes and "Profile file not found" is reported |
| Profiles.ProfileManager.SelectProfile | mouse_controller.py:175-247 | choosing a profile name loads that profile's file at once, with the same outcome, per-button effects and status text as "Load Profile" |
| Profiles.SaveThenLoadRestores | mouse_controller.py:194-241 | "Save Profile" followed by "Load Profile" leaves the on-screen settings as they were |

## Left out

- Widget construction, layouts, the style sheet, tabs, the DPI label's font and the description box's placeholder text, the status bar's display durations, message boxes and `main()`: these are presentation over a toolkit that is not modelled. The status texts are returned as strings instead.
- Real file I/O and `json.dump`/`json.load`: the working directory is the `files` map of a `Disk` object, and `Serialize` models the JSON round trip.
- Save failures (the "Save Error" message box) and load failures other than a missing file: malformed JSON, a wrong value type, or a button entry that is not a dictionary. These raise midway in the source and can leave the settings partly updated.
- `QKeySequence(event.key()).toString()`: the key name reaches `EventFilter` as an input string.
- Macros.MacroRecorderDialog.EventFilter: the result of the base class's `eventFilter` for events it does not consume is taken to be false. Installing and removing the event filter is not modelled separately, because the filter itself checks `recording`.
- Buttons.ButtonConfigWidget.SetConfig: assumes the selector and the input always signal a change. In Qt no signal fires when the text is already the same. An entry without a "function" key loaded into a widget already at Left Click would then leave the dictionary without a "function" key, and the visibility would not be recomputed.
- Profiles.ProfileManager.SelectProfile: loads whenever it is called, also for the name already selected. In the source, the selector's `currentTextChanged` signal does not fire for an unchanged text, so no load happens then.
- Buttons.ButtonConfigWidget.RecordMacro: the dialog is run by the user; the model takes the dialog after the run and whether it was accepted.
- Qt's own checks: the DPI slider clamping to 400..19000, and the non-editable selectors ignoring text that is not one of their entries. The model stores the value it is given.
- Full Unicode `str.lower()`: only ASCII letters are lower-cased.
- `update_dpi` and `update_polling_rate`: they print and show a status message, and `update_dpi` also sets the DPI label's text to `DPI: <value>`. The model has no DPI label.
- DPI stages, angle snapping and surface calibration: they hold no logic and are never saved.
- The window's reference to its profile manager is not modelled. The manager holds the controller it reads and updates.
