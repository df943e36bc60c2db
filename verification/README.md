# Backup trampoline and status-bar visualizer, modelled in Dafny

This project models two small state machines from an Android framework tree. It proves what each one guarantees.

**The backup `Trampoline`** (`trampoline.dfy`, module `BackupTrampoline`) is the single entry point of the backup manager. It owns at most one backing `BackupManagerService`. `initializeService` creates the service only for the system user, and only when backup is not disabled for the whole device and no suppress file is on disk. Only the SYSTEM and ROOT uids may switch the service on or off. Switching it on deletes the suppress file and switching it off creates it. Switching to the state it is already in does nothing, so no second service is created. Until a service exists, every call of the backup interface returns a fixed default (false, null, 0 or `ERROR_BACKUP_NOT_ALLOWED`) and touches nothing. Once a service exists, calls are forwarded to it. Seven calls carry a user to the service: `setBackupEnabled`, `isBackupEnabled`, `backupNow`, `adbBackup`, `adbRestore`, `requestBackup` and `cancelBackups`. For these, a call that names no user goes to the calling user. Every other call reaches the service without a user. The behaviour is the one `TrampolineTest.java` asserts, together with its `TrampolineTestable` subclass, which counts service creations. `Trampoline.java` is not part of this model, so the Dafny class `Trampoline` is built from the test's assertions. It keeps the fields the tests observe: `active`, `suppressFileExists`, `createCount`, `backupDisabled` and `multiUserEnabled`. The calls made on the backing service and on the suppress file are ghost logs.

**The lock-screen `VisualizerView`** (`visualizer_view.dfy`, module `StatusBarVisualizer`):
- Its visibility is `VISIBLE` exactly when it is set visible, the status bar is not in the `SHADE` state and the visualizer is enabled.
- Its `displaying` flag follows the conjunction of visible, enabled, playing, not dozing and not occluded. Each rising edge requests one link of the audio visualizer and each falling edge schedules one unlink.
- Setters of an unchanged value do nothing.
- `setColor` takes transparent as white and replaces the alpha byte with the configured opacity. It stores the result and sets the paint only when that differs from the current colour.
- A colour animation needs a linked visualizer and the `shouldAnimate` flag, which it clears. The class invariant counts the requests in its ghost log:
  - links minus unlinks is 1 exactly while displaying;
  - there are never more colour animations than visualizer creations.
- Tuning values are parsed as Java `int`s with fixed fallbacks.
- A changed unit count reallocates the FFT point buffer to `4*units` (a Java `int`, which can wrap) and rebuilds `units` bar animators.
- The requests the view makes of animators, the audio capture and the palette extractor are recorded in a ghost event log rather than run.

`java_int.dfy` (module `JavaInt`) holds the Java `int` arithmetic the view relies on:
- two's-complement wrap-around;
- `Integer.parseInt`, as the JDK's digit loop proved against a declarative definition of the value a string denotes;
- `Integer.toString`, with the round trip between the two.

`wrappers.dfy` holds an `Option` type. It stands for Java's nullable references and for the results of calls that can throw.

## Model

| member | source | states |
|---|---|---|
| JavaInt.Wrap32 | packages/SystemUI/src/com/android/systemui/statusbar/VisualizerView.java:271 | `mUnits * 4` as a Java int: in range, congruent to the exact product modulo 2^32, and equal to it when it fits |
| JavaInt.AccumulateDigits | packages/SystemUI/src/com/android/systemui/statusbar/VisualizerView.java:267-269 | the digit loop of `Integer.valueOf`, with its per-step overflow checks against the limit, yields minus the decimal value of the digits when they are all digits and within the limit, and fails otherwise |
| JavaInt.ParseInt | packages/SystemUI/src/com/android/systemui/statusbar/VisualizerView.java:258-261 | `Integer.valueOf` returns exactly the value the string denotes (optional sign, at least one digit, within the 32-bit range); null, empty, a lone sign, a non-digit or an out-of-range value is a NumberFormatException |
| JavaInt.ParseIntToString | packages/SystemUI/src/com/android/systemui/statusbar/VisualizerView.java:281-286 | parsing the decimal text of any Java int gives that int back |
| JavaInt.DecimalValueOfDecimal | packages/SystemUI/src/com/android/systemui/statusbar/VisualizerView.java:283-285 | the digits written for a natural number denote that number |
| BackupTrampoline.DefaultReply | services/tests/servicestests/src/com/android/server/backup/TrampolineTest.java:980-1017 | before a service exists, boolean calls answer false, reference calls null, the restore token 0 and `requestBackup` `ERROR_BACKUP_NOT_ALLOWED` |
| BackupTrampoline.TargetUser | services/tests/servicestests/src/com/android/server/backup/TrampolineTest.java:423-431 | a call that names a user goes to it; one that names none goes to the calling user |
| BackupTrampoline.ServiceUser | services/tests/servicestests/src/com/android/server/backup/TrampolineTest.java:304-432 | a forwarded call carries a user to the service exactly for the seven calls whose service method takes one, and then it is the target user |
| BackupTrampoline.Trampoline.constructor | services/tests/servicestests/src/com/android/server/backup/TrampolineTest.java:129-132 | construction makes the suppress file's parent directory and creates no service |
| BackupTrampoline.Trampoline.IsBackupServiceActive | services/tests/servicestests/src/com/android/server/backup/TrampolineTest.java:191-194 | active exactly for the system user while a service exists |
| BackupTrampoline.Trampoline.InitializeService | services/tests/servicestests/src/com/android/server/backup/TrampolineTest.java:154-189 | the service becomes active (one more creation) exactly for the system user when backup is not globally disabled and no suppress file exists; otherwise nothing changes |
| BackupTrampoline.Trampoline.SetBackupServiceActive | services/tests/servicestests/src/com/android/server/backup/TrampolineTest.java:196-296 | SecurityException with nothing changed exactly for uids other than SYSTEM and ROOT; ignored when disabled, for other users or for the current state; turning on creates one service and deletes the suppress file; turning off creates the file (absent if creation fails) and ends inactive |
| BackupTrampoline.Trampoline.PutMultiUserSetting | services/tests/servicestests/src/com/android/server/backup/TrampolineTest.java:144-152 | the global multi-user backup setting takes the value written |
| BackupTrampoline.Trampoline.Forward | services/tests/servicestests/src/com/android/server/backup/TrampolineTest.java:298-320 | with a service, the call reaches it (with the target user for the seven user-taking calls, with none otherwise) and its answer is returned; without one, the service log is unchanged and the default is returned |
| BackupTrampoline.Trampoline.SelectBackupTransportAsync | services/tests/servicestests/src/com/android/server/backup/TrampolineTest.java:759-834 | forwarded without a user when a service exists; without one, a listener is told `ERROR_BACKUP_NOT_ALLOWED` (a null listener is told nothing, a throwing one is tolerated) and the service is untouched |
| BackupTrampoline.Trampoline.DumpState | services/tests/servicestests/src/com/android/server/backup/TrampolineTest.java:1097-1133 | dump reaches the service only with the DUMP permission and an existing service |
| BackupTrampoline.Trampoline.UnlockUser | services/tests/servicestests/src/com/android/server/backup/TrampolineTest.java:134-152 | a non-system user's service is started only when the multi-user setting is 1 and a service exists |
| BackupTrampoline.FreshTrampolineIsInactive | services/tests/servicestests/src/com/android/server/backup/TrampolineTest.java:298-302 | a new trampoline is inactive and answers any call with its default without touching a service |
| BackupTrampoline.ActivateTwiceCreatesOnce | services/tests/servicestests/src/com/android/server/backup/TrampolineTest.java:244-253 | activating twice as SYSTEM or ROOT leaves the creation count at 1 |
| BackupTrampoline.ToggleOnOff | services/tests/servicestests/src/com/android/server/backup/TrampolineTest.java:263-287 | on then off ends inactive with the suppress file present unless its creation failed |
| StatusBarVisualizer.Argb | packages/SystemUI/src/com/android/systemui/statusbar/VisualizerView.java:444 | `Color.argb` gives the colour whose alpha byte is the alpha's low byte and whose red, green and blue bytes are the arguments |
| StatusBarVisualizer.Normalize | packages/SystemUI/src/com/android/systemui/statusbar/VisualizerView.java:440-444 | the stored colour's alpha byte is the opacity's low byte and its red, green and blue bytes are the input's, white's for transparent |
| StatusBarVisualizer.ColorBytes | packages/SystemUI/src/com/android/systemui/statusbar/VisualizerView.java:444 | a colour is determined by its four bytes, so two colours with equal bytes are equal |
| StatusBarVisualizer.NormalizeStable | packages/SystemUI/src/com/android/systemui/statusbar/VisualizerView.java:439-446 | normalising a stored colour again leaves it unchanged exactly when it is not transparent |
| StatusBarVisualizer.FirstOpaque | packages/SystemUI/src/com/android/systemui/statusbar/VisualizerView.java:426-434 | the result is transparent iff every candidate is; otherwise it is the candidate at the first non-transparent position |
| StatusBarVisualizer.ChooseColor | packages/SystemUI/src/com/android/systemui/statusbar/VisualizerView.java:424-437 | the colour chosen is the first non-transparent one of vibrant, light vibrant and dark vibrant, a missing swatch counting as transparent |
| StatusBarVisualizer.ParseSwitch | packages/SystemUI/src/com/android/systemui/statusbar/VisualizerView.java:238-240 | an on/off value is on iff it parses to a nonzero int, and takes the default when it does not parse |
| StatusBarVisualizer.ParseTuningInt | packages/SystemUI/src/com/android/systemui/statusbar/VisualizerView.java:257-286 | a numeric value is the parsed int, or the fallback when parsing throws |
| StatusBarVisualizer.TuningReadsWrittenValue | packages/SystemUI/src/com/android/systemui/statusbar/VisualizerView.java:264-269 | a value written as the decimal text of an int is read as that int whatever the fallback |
| StatusBarVisualizer.TuningFallsBackOnNonDigit | packages/SystemUI/src/com/android/systemui/statusbar/VisualizerView.java:275-280 | a value holding a character that is neither a digit nor a leading sign takes the fallback |
| StatusBarVisualizer.VisibilityFor | packages/SystemUI/src/com/android/systemui/statusbar/VisualizerView.java:204-207 | the visibility is VISIBLE or GONE, VISIBLE iff visible, not in SHADE and enabled |
| StatusBarVisualizer.Schedule | packages/SystemUI/src/com/android/systemui/statusbar/VisualizerView.java:466-488 | without an edge of `displaying` no request is made |
| StatusBarVisualizer.ExactlyOneRequestPerEdge | packages/SystemUI/src/com/android/systemui/statusbar/VisualizerView.java:466-488 | a rising edge adds exactly one link, a falling edge exactly one unlink, and no edge adds a creation or a colour animation |
| StatusBarVisualizer.NewAnimators | packages/SystemUI/src/com/android/systemui/statusbar/VisualizerView.java:298-310 | `n` fresh animators of 128 ms, animator i driving point slot 4*i+1 |
| StatusBarVisualizer.WrappedTimesFour | packages/SystemUI/src/com/android/systemui/statusbar/VisualizerView.java:270-272 | a non-negative `mUnits * 4` is a multiple of 4, and equals 4*units when that fits |
| StatusBarVisualizer.FftReadsInCapture | packages/SystemUI/src/com/android/systemui/statusbar/VisualizerView.java:101-113 | every FFT byte read for the bars lies inside the 66-byte capture iff there are at most 32 bars |
| StatusBarVisualizer.VisualizerView.constructor | packages/SystemUI/src/com/android/systemui/statusbar/VisualizerView.java:180-194 | transparent colour, black paint, 32 units with a 128-point buffer and 32 animators, all flags off, no requests |
| StatusBarVisualizer.VisualizerView.CheckStateChanged | packages/SystemUI/src/com/android/systemui/statusbar/VisualizerView.java:466-488 | `displaying` becomes the five-way conjunction; the edge's link (and lava-lamp start) or unlink (600 ms fade when visible, else 0) is recorded; the invariant is re-established |
| StatusBarVisualizer.VisualizerView.UpdateViewVisibility | packages/SystemUI/src/com/android/systemui/statusbar/VisualizerView.java:204-212 | the visibility follows the flags; the state is re-checked only when the visibility changed |
| StatusBarVisualizer.VisualizerView.SetVisible | packages/SystemUI/src/com/android/systemui/statusbar/VisualizerView.java:366-372 | stores the flag and always recomputes the visibility |
| StatusBarVisualizer.VisualizerView.SetStatusBarState | packages/SystemUI/src/com/android/systemui/statusbar/VisualizerView.java:404-409 | no-op for the stored state; otherwise stores it and recomputes the visibility |
| StatusBarVisualizer.VisualizerView.SetDozing | packages/SystemUI/src/com/android/systemui/statusbar/VisualizerView.java:374-382 | no-op for the stored value; otherwise stores it and re-checks the state |
| StatusBarVisualizer.VisualizerView.SetPlaying | packages/SystemUI/src/com/android/systemui/statusbar/VisualizerView.java:384-392 | no-op for the stored value; otherwise stores it and re-checks the state |
| StatusBarVisualizer.VisualizerView.SetOccluded | packages/SystemUI/src/com/android/systemui/statusbar/VisualizerView.java:394-402 | no-op for the stored value; otherwise stores it and re-checks the state |
| StatusBarVisualizer.VisualizerView.SetColor | packages/SystemUI/src/com/android/systemui/statusbar/VisualizerView.java:439-464 | stores the normalised colour; paint changes only when it differs; an animation from the old paint colour starts only with a visualizer and `shouldAnimate`, which it clears |
| StatusBarVisualizer.VisualizerView.SetBitmap | packages/SystemUI/src/com/android/systemui/statusbar/VisualizerView.java:411-422 | the same bitmap changes nothing; null recolours to transparent; a new bitmap requests a palette iff autocolor is on and the lava lamp off |
| StatusBarVisualizer.VisualizerView.OnGenerated | packages/SystemUI/src/com/android/systemui/statusbar/VisualizerView.java:424-437 | sets the colour `ChooseColor` picks from the palette |
| StatusBarVisualizer.VisualizerView.OnColorChanged | packages/SystemUI/src/com/android/systemui/statusbar/VisualizerView.java:352-356 | the lava lamp's colour is set only while the lava lamp is enabled |
| StatusBarVisualizer.VisualizerView.RunLink | packages/SystemUI/src/com/android/systemui/statusbar/VisualizerView.java:116-131 | a visualizer is created (arming the colour animation) only when there is none and creation succeeds |
| StatusBarVisualizer.VisualizerView.RunUnlink | packages/SystemUI/src/com/android/systemui/statusbar/VisualizerView.java:152-178 | releases the visualizer and disarms the animation; only with autocolor and lava lamp both off are the bitmap dropped and the colour reset to normalised transparent |
| StatusBarVisualizer.VisualizerView.OnDetachedFromWindow | packages/SystemUI/src/com/android/systemui/statusbar/VisualizerView.java:227-233 | stops the lava lamp and forgets the bitmap without recolouring |
| StatusBarVisualizer.VisualizerView.LoadValueAnimators | packages/SystemUI/src/com/android/systemui/statusbar/VisualizerView.java:292-311 | every old animator is cancelled; then `units` fresh animators, i driving slot 4*i+1, or NegativeArraySizeException for a negative count |
| StatusBarVisualizer.VisualizerView.SetPortraitPoints | packages/SystemUI/src/com/android/systemui/statusbar/VisualizerView.java:313-325 | for each bar below `units` both y slots take the height and both x slots the bar's x position, so the two x slots are equal; slots of later bars are unchanged; index error iff `4*units` exceeds the buffer, after every bar that fits was written |
| StatusBarVisualizer.VisualizerView.OnSizeChanged | packages/SystemUI/src/com/android/systemui/statusbar/VisualizerView.java:327-336 | positive dimensions are kept; old animators cancelled, `units` new ones built and every bar's x and y slots placed, with the exception that escapes when the count is negative or too large for the buffer |
| StatusBarVisualizer.VisualizerView.RebuildBars | packages/SystemUI/src/com/android/systemui/statusbar/VisualizerView.java:334-335 | old animators cancelled; a negative count stops with NegativeArraySize, otherwise `units` fresh animators and the bars placed, Applied iff they fit |
| StatusBarVisualizer.VisualizerView.TuneUnits | packages/SystemUI/src/com/android/systemui/statusbar/VisualizerView.java:264-274 | the count becomes the parsed value (32 on failure); unchanged leaves buffer and animators untouched; a change reallocates the buffer to the wrapped `4*units` and rebuilds `units` animators, and places every bar that fits (y at the height, x at its position), or stops at the NegativeArraySizeException |
| StatusBarVisualizer.VisualizerView.TuneVisualizerEnabled | packages/SystemUI/src/com/android/systemui/statusbar/VisualizerView.java:238-241 | enabled iff the value parses to nonzero, enabled when it does not parse |
| StatusBarVisualizer.VisualizerView.TuneAutoColor | packages/SystemUI/src/com/android/systemui/statusbar/VisualizerView.java:242-252 | autocolor off on a parse failure; a bitmap with autocolor on and lava lamp off requests a palette, otherwise bitmap dropped and colour reset to transparent |
| StatusBarVisualizer.VisualizerView.ReapplyAutoColor | packages/SystemUI/src/com/android/systemui/statusbar/VisualizerView.java:245-251 | the palette request, bitmap drop or colour reset that follows an autocolor change |
| StatusBarVisualizer.VisualizerView.TuneLavaLampEnabled | packages/SystemUI/src/com/android/systemui/statusbar/VisualizerView.java:253-256 | lava lamp on iff the value parses to nonzero, on when it does not parse |
| StatusBarVisualizer.VisualizerView.TuneLavaLampSpeed | packages/SystemUI/src/com/android/systemui/statusbar/VisualizerView.java:257-263 | the speed is the parsed value or 10000, and is passed to the lava lamp |
| StatusBarVisualizer.VisualizerView.TuneFudgeFactor | packages/SystemUI/src/com/android/systemui/statusbar/VisualizerView.java:275-280 | the fudge factor is the parsed value or 16 |
| StatusBarVisualizer.VisualizerView.TuneOpacity | packages/SystemUI/src/com/android/systemui/statusbar/VisualizerView.java:281-286 | the opacity is the parsed value or 140 |

## Left out

- The `Trampoline` class itself: the model follows the behaviour its test asserts. The order of the checks in `setBackupServiceActive` is taken to be caller uid, then global disable, then user, then current state, which every tested case agrees with.
- `unlockUser` for the system user: the tests do not pin it, and the model does nothing for it.
- Defaults of forwarded calls that no test asserts (`setBackupPassword`, `selectBackupTransport`, `getConfigurationIntent`, `beginRestoreSession`, `beginFullBackup`): these are chosen from the return type (false or null).
- Forward: the argument lists of the roughly thirty forwarded calls are abstracted to one generic call. It records only the operation and, for the seven user-taking calls, the user.
- Binder, AIDL, Mockito scaffolding, real file I/O for the suppress file, and `UserHandle` semantics beyond an integer user id.
- The visualizer's `onTuningChanged` switch is modelled as one method per key. A key it does not know does nothing and has no method.
- TuneUnits: the `onSizeChanged(0, 0, 0, 0)` call inside the units key is modelled by its effect (animators rebuilt, points placed, width and height kept). The `View` superclass hook is not modelled.
- SetPortraitPoints: the bars' x positions are an input (`barX`), and the float geometry that computes them from the width is not modelled. That geometry includes the stroke width and a division by zero for one unit. OnSizeChanged and TuneUnits take the same input.
- onFftDataCapture, the FFT magnitude and dB conversion, and `onDraw` are float numerics and drawing. FftReadsInCapture states the one index fact: more than 32 units read past the 66-byte capture.
- TuneFudgeFactor: the fudge factor is a Java `float` assigned from an `int`. The model keeps the int, and rounding above 2^24 is not modelled.
- JavaInt.ParseInt: only ASCII digits are modelled. `Character.digit` also accepts other Unicode decimal digits.
- ParseSwitch: `TunerService.java` is not part of this model. `parseIntegerSwitch` is taken to parse an int and be on for any nonzero value.
- Animators, `AsyncTask` dispatch, alpha fades, the colour animator's 600 ms delay and 1200 ms duration, and `Palette` extraction: these are recorded as ghost events, not run.
- Tunable registration in `onAttachedToWindow`, and the `setEnabled` and `setCaptureSize` calls on a linked `Visualizer`, are not modelled.
- RunLink: an exception from creating the visualizer is an input (`createFails`).
- Bitmaps are opaque identities (naturals), and reference equality is their equality.
- The ghost request log's tallies are kept equal to its counts by RecordKeepsTally. That equality is not part of the class invariant, which counts on the tallies. The order of links and unlinks within the log is not stated, only their numbers.
- TuneUnits: a reallocated buffer's slots beyond the placed bars are not stated to be zero, as Java's new `float[]` makes them.
