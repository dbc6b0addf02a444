# Pad configurator core, modelled in Dafny

This project models the state-handling core of a desktop configurator for a dance-pad controller. The configurator talks to a Teensy microcontroller over a serial bridge. It lets the user view live sensor readings and edit the pad configuration: panels, their analog sensors and thresholds, and digital buttons. The model covers these parts:

- **Pad-configuration store** (`PadConfig`, `pad_config.dfy`). An open key→value record with these reducers:
  - set, clear, set one threshold, apply the Settings form;
  - the `backupConfig` edit transaction (backup, then restore).
  It also models the count and threshold selectors.
- **Live-values store** (`PadValues`, `pad_values.dfy`). Readings of panels and buttons:
  - replace and clear;
  - point updates;
  - reshape to zero readings;
  - the sensor selectors with their defaults.
- **Settings dialog** (`SettingsPage`, `settings.dfy`). The form is seeded from the configuration. When a count changes, the panel, sensor and button lists are regenerated, taking each element from the form, else the device configuration, else a default. The form events are dispatched on the input's name.
- **Pin tables** (`Pins`, `pins.dfy`). The Teensy 4.0/4.1 analog and digital pin tables, and the entries the pin selector offers.
- **App-settings store** (`AppSettings`, `app_settings.dfy`). Four setters and their selectors.
- **Legacy pad-configuration store** (`LegacyPadConfig`, `legacy_pad_config.dfy`). The older reducer set.
- **Serial connection object** (`Connection`, `serial_connection.dfy`). It holds these fields:
  - `connected`, `currentPort` and `availablePorts`;
  - the registered state-change callback;
  - an ordered trace of bridge calls and callback calls.
  Its methods are the poll tick, listing, connecting, disconnecting and the inbound-line decode.
- **Serial port selector** (`Selector`, `serial_selector.dfy`). The `refresh` auto-selection rule and `onSelect`.

`values.dfy` (`Values`) holds the JavaScript values the stores hold. It also holds the bits of JavaScript semantics the code relies on:
- a missing property reads as `undefined`;
- a strict-mode property write throws a TypeError on `undefined` and on primitives;
- `??`, `?.`, `.length` and `Object.keys`.

How state and failures are modelled:
- **Reducers.** A store is a class whose method computes the reducer on a draft and commits it. A reducer that throws leaves the store as it was, as Redux with Immer does. Every reducer method is proved equal to a specification function of the old state. Its `Reduced` ensures names both the new state and the outcome.
- **Bridge calls.** What the serial bridge answers is a parameter of the method waiting for the answer: the port list, the open response, whether a close or send is rejected. `JSON.parse` is a parameter too: the parsed value, or `None`.

## Model

| member | source | states |
|---|---|---|
| PadConfig.SetPadConfigResult | src/slices/padConfig.js:7-12 | every payload key gets the payload's value; other keys keep theirs; `backupConfig` is `{}` unless the payload brings its own |
| PadConfig.ClearPadConfigResult | src/slices/padConfig.js:13-17 | the key set is unchanged, `backupConfig` included, and every value is `undefined` |
| PadConfig.WithThreshold | src/slices/padConfig.js:19 | exactly one sensor's threshold is replaced; all other panels, sensors and fields are equal |
| PadConfig.SetPadThresholdResult | src/slices/padConfig.js:18-20 | succeeds exactly when the panel and sensor indices are in range; it then changes only that threshold; otherwise it is a TypeError |
| PadConfig.GeneralWithName | src/slices/padConfig.js:22-23 | a missing `general` becomes `{name}`; an existing record gets `name` and keeps its other fields; a primitive `general` throws |
| PadConfig.UpdatePadConfigFromSettingsResult | src/slices/padConfig.js:21-26 | `general.name` is set (creating `general`); `panels` and `buttons` are replaced; all other keys are kept; it fails exactly when `general` cannot take a property |
| PadConfig.BackupEntries | src/slices/padConfig.js:28-31 | the entries copied are the payload's, minus `backupConfig` |
| PadConfig.BackupPadConfigResult | src/slices/padConfig.js:27-33 | every non-backup payload entry goes into `backupConfig`; the rest of the state and the other backup entries stay; it throws a TypeError exactly when there is no backup record and something to copy |
| PadConfig.RestoreBackupPadConfigResult | src/slices/padConfig.js:34-46 | non-backup keys not in the backup become `undefined`; backed-up keys take the payload's value; `backupConfig` becomes `{}`; a missing backup throws |
| PadConfig.SelectPadName | src/slices/padConfig.js:51 | `general.name`, or `undefined` without a `general` record; the legacy `selectPadName` (`src/actions/padConfig.js:23`) is the same expression and is modelled by this member |
| PadConfig.SelectPanelsCount | src/slices/padConfig.js:52 | the panel list's length, 0 when `panels` is missing |
| PadConfig.SelectConfigPanels | src/slices/padConfig.js:53 | the panels, or `[]` when missing |
| PadConfig.SelectSensorsCount | src/slices/padConfig.js:54 | the first panel's sensor count, 0 unless there is a first panel |
| PadConfig.SelectPadConfigSensors | src/slices/padConfig.js:56-60 | the indexed panel's sensors, `[]` when the panel is absent |
| PadConfig.SelectPadConfigSensorThreshold | src/slices/padConfig.js:61-66 | the indexed threshold, 0 when the sensor is absent; a TypeError exactly when `panels` is missing |
| PadConfig.BackupRestoreRoundTrip | src/slices/padConfig.js:27-46 | backup(C) then restore(C) gives every key of C its value from C, an empty backup, and `undefined` for keys named nowhere |
| PadConfig.EditCancelRestoresConfig | src/slices/padConfig.js:18-46 | backup, a threshold edit, then restore with the same snapshot gives back exactly the original state |
| PadConfig.BackupAfterClearThrows | src/slices/padConfig.js:13-33 | after `clearPadConfig`, backing up any non-backup key throws a TypeError |
| PadConfig.BackupAfterSetPadConfigSucceeds | src/slices/padConfig.js:7-33 | after `setPadConfig` with a payload without `backupConfig`, backing up always succeeds |
| PadConfig.CountsAfterUpdateFromSettings | src/slices/padConfig.js:21-26 | the name and count selectors read back what `updatePadConfigFromSettings` stored |
| PadConfig.SelectorsAfterClear | src/slices/padConfig.js:13-17 | after clearing, every selector gives its default, and the threshold selector throws |
| PadConfig.Store.SetPadConfig | src/slices/padConfig.js:7-12 | the loop over the payload leaves the specified state |
| PadConfig.Store.ClearPadConfig | src/slices/padConfig.js:13-17 | the loop over the keys leaves the specified state |
| PadConfig.Store.SetPadThreshold | src/slices/padConfig.js:18-20 | the new state and outcome are those of `SetPadThresholdResult` |
| PadConfig.Store.UpdatePadConfigFromSettings | src/slices/padConfig.js:21-26 | the new state and outcome are those of `UpdatePadConfigFromSettingsResult` |
| PadConfig.Store.BackupPadConfig | src/slices/padConfig.js:27-33 | the copy loop leaves the state of `BackupPadConfigResult`, or the old state if a write throws |
| PadConfig.Store.RestoreBackupPadConfig | src/slices/padConfig.js:34-46 | the two loops and the reset leave the state of `RestoreBackupPadConfigResult` |
| PadValues.ArrayLength | src/slices/padValues.js:27-36 | `Array(x)` gets length x for 0 ≤ x < 2^32, a RangeError for other numbers, and length 1 for a non-number |
| PadValues.SetPadValuesResult | src/slices/padValues.js:10-13 | `panels` and `buttons` are the payload's, missing ones included |
| PadValues.SetPadValueResult | src/slices/padValues.js:18-20 | it succeeds exactly when the sensor exists; only that reading's `value` changes; otherwise a TypeError |
| PadValues.SetButtonValueResult | src/slices/padValues.js:21-23 | it succeeds exactly when the button exists; only its `pressed` changes; otherwise a TypeError |
| PadValues.ZeroPanels | src/slices/padValues.js:24-33 | `panelCount` plain lists of `sensorCount` zero readings, with no `sensors` field, or a RangeError |
| PadValues.SetPanelCountResult | src/slices/padValues.js:24-33 | `panels` becomes the zero panels and `buttons` stays |
| PadValues.SetButtonCountResult | src/slices/padValues.js:34-39 | as written: `panels` becomes `payload.panelCount` released entries and `buttons` stays |
| PadValues.IntendedButtonCountResult | src/slices/padValues.js:34-39 | corrected: `buttons` becomes `buttonCount` released buttons and `panels` stays |
| PadValues.SetButtonCountMissesButtons | src/slices/padValues.js:34-39 | for `{buttonCount: 3}` the reducer as written leaves the buttons alone and replaces the panels |
| PadValues.SelectPadValuesSensors | src/slices/padValues.js:45-49 | the panel's sensors, or `[]`; a TypeError when `panels` is `undefined` |
| PadValues.SelectPadValuesSensor | src/slices/padValues.js:50-58 | the indexed reading, or `{pressed: false, value: 0}` when absent; a TypeError when `panels` is `undefined` |
| PadValues.SelectAfterSetPadValues | src/slices/padValues.js:10-13 | after `setPadValues` a sensor selects as the payload's reading, the zero reading where the payload has none, and throws when the payload has no `panels` |
| PadValues.SelectAfterSetPadValue | src/slices/padValues.js:18-20 | after a write, the written sensor selects the new value and every other sensor selects as before |
| PadValues.PanelCountHidesReadings | src/slices/padValues.js:24-33 | after `setPanelCount` no sensor is visible to the selector and no reading can be written |
| PadValues.SelectorsAfterClear | src/slices/padValues.js:5-17 | the initial (cleared) state selects zero readings and refuses writes |
| PadValues.Store.SetPadValues | src/slices/padValues.js:10-13 | the state becomes `SetPadValuesResult` |
| PadValues.Store.ClearPadValues | src/slices/padValues.js:14-17 | the state becomes the initial `{panels: [], buttons: []}` |
| PadValues.Store.SetPadValue | src/slices/padValues.js:18-20 | the new state and outcome are those of `SetPadValueResult` |
| PadValues.Store.SetButtonValue | src/slices/padValues.js:21-23 | the new state and outcome are those of `SetButtonValueResult` |
| PadValues.Store.SetPanelCount | src/slices/padValues.js:24-33 | the new state and outcome are those of `SetPanelCountResult` |
| PadValues.Store.SetButtonCount | src/slices/padValues.js:34-39 | the new state and outcome are those of `SetButtonCountResult`, as written |
| AppSettings.KeyOf | src/slices/appSettings.js:12-26 | only the editing setting uses the key `isEditing` |
| AppSettings.Assign | src/slices/appSettings.js:12-23 | a setter writes its own key and keeps every other key |
| AppSettings.Select | src/slices/appSettings.js:26-29 | a selector reads its key, `undefined` while the key was never set |
| AppSettings.InitialSelections | src/slices/appSettings.js:5-10 | initially dark mode and numeric thresholds are on and the panel height is 400; `editing` is false, yet `selectIsEditing` gives `undefined` |
| AppSettings.SelectAfterAssign | src/slices/appSettings.js:12-29 | select-after-set gives the set value; the other selectors are unaffected |
| AppSettings.AssignsCommute | src/slices/appSettings.js:12-23 | setters of different fields commute |
| AppSettings.Store.SetIsEditing | src/slices/appSettings.js:12-14 | the state becomes `Assign(IsEditing)` |
| AppSettings.Store.SetDarkMode | src/slices/appSettings.js:15-17 | the state becomes `Assign(DarkMode)` |
| AppSettings.Store.SetShowNumericThresholds | src/slices/appSettings.js:18-20 | the state becomes `Assign(ShowNumericThresholds)` |
| AppSettings.Store.SetPanelHeight | src/slices/appSettings.js:21-23 | the state becomes `Assign(PanelHeight)` |
| LegacyPadConfig.CreatedThresholdAction | src/actions/padConfig.js:10-12 | the action creator puts its argument in `payload`; the top-level indices and threshold are `undefined` |
| LegacyPadConfig.SetPadThresholdResult | src/actions/padConfig.js:10-12 | with numeric top-level indices it is the current threshold update; otherwise a TypeError |
| LegacyPadConfig.CreatedThresholdActionThrows | src/actions/padConfig.js:10-12 | every action the creator makes throws |
| LegacyPadConfig.Spread | src/actions/padConfig.js:16-17 | `[...v]` of a list is an element-wise-equal list; anything else throws |
| LegacyPadConfig.UpdatePadConfigFromSettingsResult | src/actions/padConfig.js:13-18 | it fails exactly when `general` cannot take a property or a payload list is not a list |
| LegacyPadConfig.UpdateAgreesWithCurrent | src/actions/padConfig.js:13-18 | where the legacy reducer succeeds it equals the current one; it fails exactly where the current one fails or a list is not iterable |
| LegacyPadConfig.Store.SetPadConfig | src/actions/padConfig.js:7-9 | the stored configuration is unchanged |
| LegacyPadConfig.Store.SetPadThreshold | src/actions/padConfig.js:10-12 | the new state and outcome are those of `SetPadThresholdResult` |
| LegacyPadConfig.Store.UpdatePadConfigFromSettings | src/actions/padConfig.js:13-18 | the new state and outcome are those of the legacy update |
| Pins.PinsOf | src/components/MicrocontrollerPinSelect.js:18-33 | the static pin tables of the two known controllers, `undefined` for any other; `Teensy40Table`, `Teensy41Table` and `KnownTablesOrdered` state their contents |
| Pins.MenuEntries | src/components/MicrocontrollerPinSelect.js:52-84 | the menu: the analog header and items, then the digital header and items, each behind its flag and `?.`; `MenuOffersTablePins` states the values offered |
| Pins.Teensy40Table | src/components/MicrocontrollerPinSelect.js:19-25 | 14 analog pins A0..A13 at 14..27 and digital pins 0..39 |
| Pins.Teensy41Table | src/components/MicrocontrollerPinSelect.js:26-32 | 18 analog pins A0..A17 at 14..31 and digital pins 0..54 |
| Pins.KnownTablesOrdered | src/components/MicrocontrollerPinSelect.js:18-33 | in a known table the first analog value is 14; the analog values and the digital pins strictly increase; the labels are distinct |
| Pins.ItemValuesAppend | src/components/MicrocontrollerPinSelect.js:52-84 | the pins offered by two concatenated entry lists are the two lists' pins in order |
| Pins.MenuOffersTablePins | src/components/MicrocontrollerPinSelect.js:52-84 | the offered pins are the analog values if shown, then the digital pins if shown; none for an unknown controller |
| Pins.FirstAnalogPin | src/pages/Settings.js:135 | defined exactly for a known controller, and then 14 |
| SettingsPage.IterationBound | src/pages/Settings.js:109 | the iteration count of `i < count`: a non-negative number itself, `true` 1, anything else 0 |
| SettingsPage.PanelChoice | src/pages/Settings.js:110-122 | the form's panel, else the configuration's, else the default; a TypeError exactly when a missing list is indexed |
| SettingsPage.DefaultSensorPin | src/pages/Settings.js:135 | defined exactly when `general` has a controller name; then 14 for a known one |
| SettingsPage.SensorChoice | src/pages/Settings.js:128-136 | the form's sensor, else the configuration's, else threshold 30 at the first analog pin; a TypeError exactly when a lookup fails |
| SettingsPage.ButtonChoice | src/pages/Settings.js:153-161 | the form's button, else the configuration's, else `{0, 0}`; a TypeError exactly when a missing list is indexed |
| SettingsPage.GeneratedPanels | src/pages/Settings.js:106-142 | on success exactly n panels, each its chosen panel with exactly m chosen sensors; a TypeError exactly when some choice fails |
| SettingsPage.GenerateUpdatedPanels | src/pages/Settings.js:106-142 | the two loops compute `GeneratedPanels` for the loop bounds of the counts |
| SettingsPage.FillSensors | src/pages/Settings.js:126-138 | the inner loop yields m sensors, each its chosen one, or a TypeError where a choice fails |
| SettingsPage.SensorOf | src/pages/Settings.js:128-136 | one sensor step: the chosen sensor |
| SettingsPage.GeneratedButtons | src/pages/Settings.js:149-165 | on success exactly k buttons, each its chosen button; a TypeError exactly when some choice fails |
| SettingsPage.GenerateUpdatedButtons | src/pages/Settings.js:149-165 | the loop computes `GeneratedButtons` for the loop bound of the count |
| SettingsPage.RegenerationKeepsFormPrefix | src/pages/Settings.js:106-142 | shrinking the counts keeps the form's own panels and sensors, truncated |
| SettingsPage.RegenerationWithSameCountsIsIdentity | src/pages/Settings.js:106-142 | regenerating a uniform form with its own counts gives the same panels |
| SettingsPage.ButtonRegenerationKeepsFormPrefix | src/pages/Settings.js:149-165 | shrinking the button count keeps the form's own buttons, truncated |
| SettingsPage.GrownPanelsAreDefaults | src/pages/Settings.js:114-137 | panels beyond both lists are the default panel with default sensors |
| SettingsPage.MountGeneratesNothing | src/pages/Settings.js:213-215 | the mount call reads counts the component state does not have, so it generates no panel |
| SettingsPage.OpenedForm | src/pages/Settings.js:64-78 | the opened form holds the configuration's name, panels and buttons, the panel count, the first panel's sensor count, the button count and the two `general` fields |
| SettingsPage.WithGamepadButton | src/pages/Settings.js:202-203 | only the addressed panel's `gamepadButton` changes, or a TypeError when it is absent |
| SettingsPage.WithSensorPin | src/pages/Settings.js:204-205 | only the addressed sensor's `teensyPin` changes, or a TypeError when it is absent |
| SettingsPage.FieldOf | src/pages/Settings.js:172-208 | an event without a target is not handled |
| SettingsPage.FieldNames | src/pages/Settings.js:172-208 | the eight handled names map to their fields; the two button editors' names map to no field |
| SettingsPage.Reshaped | src/pages/Settings.js:176-190 | a regeneration changes at most the panel list |
| SettingsPage.ReshapedButtons | src/pages/Settings.js:194-198 | a button regeneration changes at most the button list |
| SettingsPage.FormValueUpdateResult | src/pages/Settings.js:167-211 | the new form and the outcome of one form event; `FormValueUpdateCases`, `ButtonEditsChangeNothing` and `PanelCountEventReshapes` state its effect per field |
| SettingsPage.FormValueUpdateCases | src/pages/Settings.js:172-208 | each handled event changes exactly its field; a count event regenerates only when the value differs; list edits write into the addressed element or throw; other events change nothing |
| SettingsPage.ButtonEditsChangeNothing | src/pages/Settings.js:172-208 | as written: a `buttonGamepadButton` or `buttonPinSelect` event leaves the form as it was |
| SettingsPage.WithButtonField | src/pages/Settings.js:434-450 | corrected: only the addressed button's field changes, or a TypeError when it is absent |
| SettingsPage.IntendedFormValueUpdateResult | src/pages/Settings.js:167-211 | corrected: button edits write the addressed button; every other event is handled as before |
| SettingsPage.IntendedButtonPinEditIsKept | src/pages/Settings.js:445-450 | corrected: a pin edit of an existing button is kept, and nothing else changes |
| SettingsPage.PanelCountEventReshapes | src/pages/Settings.js:174-182 | a new panel count gives exactly that many panels with the stored sensor count, or throws and keeps the panels |
| SettingsPage.DefaultPropsPanelCountThrows | src/pages/Settings.js:41-44 | with the default `padConfig: {}` the opened form has no panels, and a positive panel count throws after it was stored |
| SettingsPage.OpenThenSaveKeepsConfig | src/pages/Settings.js:64-85 | opening and saving unchanged, then `updatePadConfigFromSettings`, gives back the configuration |
| SettingsPage.OpenedCountsRegenerateConfig | src/pages/Settings.js:64-78 | right after opening, repeating the panel count changes nothing, and regeneration reproduces the configuration |
| SettingsPage.Settings.HandleSettingsIconClick | src/pages/Settings.js:64-78 | the dialog opens with the form derived from the configuration |
| SettingsPage.Settings.HandleSaveButtonClick | src/pages/Settings.js:80-85 | the dialog closes; the form goes to `onChange` exactly when one was given |
| SettingsPage.Settings.HandleCancelButtonClick | src/pages/Settings.js:87-91 | the dialog closes and the form is kept |
| SettingsPage.Settings.HandleFormValueUpdate | src/pages/Settings.js:167-211 | the new form and outcome are those of `FormValueUpdateResult`; `open` is unchanged |
| SettingsPage.Settings.ReshapePanels | src/pages/Settings.js:178-190 | the form gets the regenerated panels, or keeps them on a throw |
| SettingsPage.Settings.ReshapeButtons | src/pages/Settings.js:196-198 | the form gets the regenerated buttons, or keeps them on a throw |
| SettingsPage.Settings.ComponentDidMount | src/pages/Settings.js:213-215 | the dialog state is unchanged |
| Connection.NotifyResult | src/services/SerialConnection.js:47-52 | the callback call: one notice in the trace, a TypeError with no callback; `NotifyKeepsConsistent` states that it keeps the invariant |
| Connection.TickResult | src/services/SerialConnection.js:17-23 | the poll body; `TickSendsOnlyWhenConnected` states its effect |
| Connection.ListedPorts | src/services/SerialConnection.js:28-33 | what the `try`/`catch` and `?? []` store for each bridge answer; `ListPortsStoresReply` states it per answer |
| Connection.ListPortsResult | src/services/SerialConnection.js:27-35 | the state after `listPorts`; `ListPortsStoresReply` states that only the list and the trace change |
| Connection.DisconnectResult | src/services/SerialConnection.js:43-48 | the state and outcome of `disconnect`; `DisconnectClearsConnected` states them |
| Connection.UnexpectedDisconnectResult | src/services/SerialConnection.js:50-52 | the state and outcome of `unexpectedDisconnect`; `UnexpectedDisconnectKeepsConnected` states them |
| Connection.OpenedResult | src/services/SerialConnection.js:60-70 | what follows the open request: the `response === 'ok'` test, a TypeError on an `undefined` result; `ConnectSucceeds` and `ConnectFailureKeepsPort` state it |
| Connection.ConnectResult | src/services/SerialConnection.js:55-71 | the state and outcome of `connect`; `ConnectClosesFirst`, `ConnectSucceeds`, `ConnectFailureKeepsPort` and `ConnectKeepsConsistent` state them |
| Connection.SendDataResult | src/services/SerialConnection.js:81-84 | the state and outcome of `sendData`; `SendDataRecordsOneSend` states them |
| Connection.SendDataRecordsOneSend | src/services/SerialConnection.js:81-84 | `sendData` adds exactly one send of its value, changes nothing else, throws exactly on a rejected send, and keeps the invariant |
| Connection.DeliverLine | src/services/SerialConnection.js:86-96 | as written: one or two handler calls, two exactly when the line parses and the handler throws on the parsed value; of two calls the first carries the parsed value and the second the raw line; the last call is the raw line unless only the parsed value was delivered |
| Connection.IntendedDeliverLine | src/services/SerialConnection.js:86-96 | corrected: exactly one call, with the parsed value or the raw line |
| Connection.ThrowingHandlerSeesLineTwice | src/services/SerialConnection.js:89-94 | for a parsable line and a handler that throws on objects, the handler runs twice |
| Connection.DeliveriesAgreeWithoutHandlerFailure | src/services/SerialConnection.js:86-108 | both wrappers agree unless the handler throws on the parsed value |
| Connection.LastOpen | src/services/SerialConnection.js:60 | the port of the most recent open request occurs in the trace |
| Connection.TickSendsOnlyWhenConnected | src/services/SerialConnection.js:17-24 | a tick sends one `requestValues` message when connected and does nothing otherwise |
| Connection.ListPortsStoresReply | src/services/SerialConnection.js:27-35 | `listPorts` stores the bridge's list, the bridge's `{err}` object unchanged (`??` lets it through), or `[]` on `null`/`undefined` or a rejection; nothing else changes |
| Connection.DisconnectClearsConnected | src/services/SerialConnection.js:43-48 | close is always called; unless it is rejected, `connected` becomes false and the callback gets no argument; the port is kept |
| Connection.UnexpectedDisconnectKeepsConnected | src/services/SerialConnection.js:50-52 | the fields are unchanged; the callback gets `{unexpected: true}`, a TypeError without one |
| Connection.ConnectClosesFirst | src/services/SerialConnection.js:55-60 | on a connected object, connect closes and notifies before it opens |
| Connection.ConnectSucceeds | src/services/SerialConnection.js:55-71 | connect succeeds exactly on an `'ok'` response, a needed close that went through, and a registered callback; it then holds `connected` and the port, and its last effect notifies the callback of the state change |
| Connection.ConnectFailureKeepsPort | src/services/SerialConnection.js:60-70 | a non-`'ok'` response throws the connect error and keeps `currentPort`; `connected` is false if the disconnect ran |
| Connection.ConnectKeepsConsistent | src/services/SerialConnection.js:55-71 | connect keeps the invariant that, while connected, `currentPort` is the port last opened |
| Connection.ApplyKeepsConsistent | src/services/SerialConnection.js:7-108 | every operation keeps that invariant and only extends the trace |
| Connection.RunKeepsConsistent | src/services/SerialConnection.js:7-108 | so does every run of operations |
| Connection.FreshObjectIsConsistent | src/services/SerialConnection.js:13-14 | a fresh object is not connected, and every run from it keeps the invariant |
| Connection.SerialConnection.constructor | src/services/SerialConnection.js:8-25 | `connected` and the callback start `undefined`, `currentPort` null, no ports |
| Connection.SerialConnection.Tick | src/services/SerialConnection.js:17-23 | the state becomes `TickResult` |
| Connection.SerialConnection.ListPorts | src/services/SerialConnection.js:27-35 | the state becomes `ListPortsResult`, and what was stored (a port list or the bridge's `{err}` object) is returned |
| Connection.SerialConnection.SetPort | src/services/SerialConnection.js:37-41 | the same as `connect` |
| Connection.SerialConnection.Disconnect | src/services/SerialConnection.js:43-48 | the state and outcome are those of `DisconnectResult` |
| Connection.SerialConnection.UnexpectedDisconnect | src/services/SerialConnection.js:50-52 | the state and outcome are those of `UnexpectedDisconnectResult` |
| Connection.SerialConnection.Connect | src/services/SerialConnection.js:54-71 | the state and outcome are those of `ConnectResult` |
| Connection.SerialConnection.IsConnected | src/services/SerialConnection.js:73-75 | returns the field itself, `undefined` before any connect or disconnect |
| Connection.SerialConnection.OnConnectionStateChange | src/services/SerialConnection.js:77-79 | the callback is replaced and nothing else changes |
| Connection.SerialConnection.SendData | src/services/SerialConnection.js:81-84 | one send call is recorded; a rejection is passed on |
| Connection.SerialConnection.AddSerialDataHandler | src/services/SerialConnection.js:86-96 | one handler registration is recorded |
| Connection.SerialConnection.AddSerialUnexpectedDisconnectHandler | src/services/SerialConnection.js:98-108 | one handler registration is recorded |
| Selector.RefreshResult | src/components/SerialSelector.js:36-55 | the view, connection state and outcome of `refresh`; the four `Refresh…` lemmas below state each branch |
| Selector.RefreshPicksFirstPort | src/components/SerialSelector.js:40-45 | with no port shown and ports listed, refresh connects to the first port; on success it shows that port, now the connected one; on a throw the view is kept |
| Selector.RefreshWithoutPortsDisconnects | src/components/SerialSelector.js:46-51 | with an empty list, `null`/`undefined` or a rejected listing, refresh disconnects and then shows none; on a throw the view is kept |
| Selector.RefreshAfterListingErrorKeepsPort | src/components/SerialSelector.js:40-54 | when the bridge answers with its `{err}` object, refresh stores it as the list, keeps the shown port (even none) and neither connects nor disconnects |
| Selector.RefreshKeepsShownPort | src/components/SerialSelector.js:52-54 | with a port shown and ports listed, only the list is taken, even when it no longer has the port |
| Selector.RefreshShowsListedPortOrKeeps | src/components/SerialSelector.js:36-55 | refresh lists first, and the shown port afterwards is the old one, a listed one, or none |
| Selector.SerialSelector.Refresh | src/components/SerialSelector.js:36-55 | without a connection nothing changes; otherwise the view, the connection and the outcome are those of `RefreshResult` |
| Selector.SerialSelector.OnSelect | src/components/SerialSelector.js:29-34 | the selected port is shown first, then connected to through the connection object, if any |

## Left out

- `_deepCopy` (`src/pages/Settings.js:36-38`) is the identity on values. `JSON.stringify` followed by `JSON.parse` is an identity on the plain data these lists hold. Object identity, and therefore aliasing between the form, the props and the store, is not modelled.
- Immer's freezing and proxy drafts are not modelled. A reducer computes on a local copy and commits on success, which is the observable effect.
- A payload, or a state slot, that is not a plain object is not modelled. A value in a `panels` or `buttons` slot that is not a list is read as a list without entries. Records are not indexed by number.
- Numeric strings from text inputs are not coerced. `IterationBound` gives 0 iterations for a text count, so the JavaScript comparison `i < "3"` is not modelled.
- Numbers are integers only: fractional values are not modelled. In JavaScript `Array(2.5)` throws a RangeError, a loop `i < 2.5` runs three times, and a fractional index finds no entry.
- `!==` on counts that are objects compares structurally rather than by identity.
- `SettingsPage.Settings.HandleFormValueUpdate`: React's batching of `setState` is not modelled. The new form is committed at once, including the count stored before a regeneration that throws. That matches the shared `formSettings` object, which the handler mutates in place.
- `LegacyPadConfig.Spread`: a string spread gives a list of characters, not a list of panels. It is treated as not iterable.
- `LegacyPadConfig.SetPadThresholdResult`: a non-numeric top-level index gives a TypeError. That is what `undefined` gives, but the model does not work through string or object keys.
- `render` methods and JSX layout are not modelled. Neither are the `MicrocontrollerPinSelect` `onSelect` pass-through, `componentDidMount` of the serial selector (it only starts `refresh`), nor the rendering components and pages the pad view uses.
- `setInterval`, `async`/`await` and promise scheduling are not modelled. The poll tick is `Tick`, and each method performs its awaited steps in order with the bridge's answer as a parameter. A close request that never settles is not modelled.
- `JSON.stringify` in `sendData` is abstracted: the trace records the value sent. `JSON.parse` is the parameter `parsed` of `DeliverLine`.
- `getSerialConnection` (`src/services/SerialConnection.js:111-116`) is a module-level cache. The model works with one object.
- `console.log` and `console.error` output is left out.
- The Electron bridge and the serial port driver are not part of this model: `src/electron/serial.js`, `src/preload.js` and the Electron entry points. What the bridge answers is a parameter instead.
- Connection.DeliverLine: the model gives the wrapper the received line. The bridge in `src/preload.js:54-56` passes the wrapper straight to `ipcRenderer.on`, which calls it with `(event, data)`, so with that bridge the wrapper's argument is the IPC event object, not the line.
- Selector.SerialSelector.OnSelect: models a call with the component as `this`. `render` (`src/components/SerialSelector.js:63`) passes the unbound prototype method to the `Select`'s DOM `onSelect` prop rather than `onChange`, so in the app choosing a port may not reach it, and when it does `this` is `undefined` and `this.setState` throws. React's event wiring is not part of this model.
- Connection.SerialConnection.AddSerialUnexpectedDisconnectHandler: the model records the registration. The bridge in `src/preload.js:8-57` defines no `setupSerialUnexpectedDisconnectHandler`, so with that bridge the call throws a TypeError; the bridge is not part of this model.
- The store wiring, the settings-dialog action file and the demo page are not part of this core.
- Null is not a value of the model: `currentPort`'s initial `null` is `None`, and a `null` port list is the reply `NoPorts`.
- `unexpectedDisconnect` (`src/services/SerialConnection.js:50-52`) sends the `{unexpected: true}` notice but keeps `connected` and `currentPort`, so the object still reports itself connected after the port closed. The model follows the code (`UnexpectedDisconnectKeepsConnected`).

## Findings

| source | as written | input that shows it | evidently intended | confidence | as-written member | corrected member |
|---|---|---|---|---|---|---|
| src/slices/padValues.js:34-39 | `setButtonCount` reads `payload.panelCount` and assigns `state.panels` | payload `{buttonCount: 3}`: `panels` becomes one `{pressed: false}` entry and `buttons` is unchanged | `buttons` becomes `buttonCount` entries of `{pressed: false}` and `panels` stays | high; not executed (the reducer is also not exported) | PadValues.SetButtonCountMissesButtons | PadValues.IntendedButtonCountResult |
| src/pages/Settings.js:172-208, 434-450 | the handler tests neither `buttonGamepadButton` nor `buttonPinSelect`, the names the button editors send | a `buttonPinSelect` event for button 0 leaves the form's buttons unchanged | the addressed button's `gamepadButton` or `teensyPin` takes the value | high; not executed | SettingsPage.ButtonEditsChangeNothing | SettingsPage.IntendedFormValueUpdateResult |
| src/services/SerialConnection.js:89-94 | `JSON.parse` and the handler call share one `try` | a line `{}` and a handler that throws on objects: the handler is called with `{}` and then with the raw line | only the parse falls back; the handler is called once | medium; not executed | Connection.ThrowingHandlerSeesLineTwice | Connection.IntendedDeliverLine |
