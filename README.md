# gptokeyb2 input-transformation core, modelled in Dafny

gptokeyb2 turns game-controller events into keyboard, mouse and gamepad
events on virtual input devices. This project models the deterministic logic
in the middle of that pipeline, and proves properties about it:

- **Controller events in keyboard/mouse mode** (`src/keyboard.c`). A button
  event marks one of fifteen internal `GBTN_*` buttons as pressed or released.
  An axis event first stores the raw value. It then runs a fixed priority
  chain: left stick as relative mouse, right stick as relative mouse, left
  stick as absolute mouse, right stick as absolute mouse, and otherwise the
  four directional pseudo-buttons of the stick that moved. Last, the L2/R2
  triggers are checked against the trigger deadzone. The process-wide record
  `current_state` is the class `Keyboard.InputState`, and `Keyboard.Snapshot`
  is its value. `ButtonEvent` and `AxisEvent` specify the handlers, and the
  lemmas state what those functions guarantee.
- **The deadzone macros** (`Deadzone`), written as integer predicates.
- **The per-tick mouse derivation** of the main loop (`Pointer.Tick`, from
  `src/main.c`). It adds the D-pad-as-mouse vector to the stick delta. It
  places the absolute pointer using C truncating division and a rotation of
  0, 90, 180 or 270 degrees, gated by the absolute deadzone. It then decides
  whether to sleep for the motion cadence or block for the next event.
- **Start-up rules in `main`**: how the command-line options set the mode
  flags (`Options`); how the watched process name and the game prefix are
  derived, including architecture-suffix stripping (`ProcessName`, with the
  C string helpers in `CStrings`); and which control profile the program
  starts in (`DefaultProfile`).

Helpers whose bodies are not part of this model are abstract:

- `update_button` / `is_pressed` is a set of pressed `GBTN`s.
- `deadzone_mouse_calc` is a function parameter from a stick's raw (x, y) to the relative delta.
- `config_find` is a map from names to profiles.
- `find_button` is a map from names to buttons.
- `strcaseendswith` is an ASCII case-insensitive suffix test.
- A Dafny `char` stands for one byte of a C string, so `Truncate` cuts the same bytes `strncpy` does.
- The floating-point steps (D-pad normalisation, slow-mode scaling) are function parameters.

Three behaviours of the code are easy to misread:

- **Deadzone boundary** (`src/keyboard.c:242-244`). For a positive deadzone
  `d`, `v == d` is in no class while `v == -d` is negative, because the negative test compares with `d`,
  not `-d`. See `Deadzone.BoundaryAsymmetry`.
- **Mode priority** (`src/keyboard.c:287-317`). The precedence is fixed: left
  relative, then right relative, then left absolute, then right absolute.
  See `Keyboard.SelectRoute`.
- **Order of the suffix list.** The order cannot change the result. No suffix
  in the list ends with another one, so a name ends with at most one of them.
  See `ProcessName.AtMostOneSuffixMatches`.

## Model

| member | source | states |
|---|---|---|
| `Buttons.ButtonToGbtn` | src/keyboard.c:174-239 | exactly the fifteen handled SDL buttons map to a GBTN, always one of the fifteen digital ones; every other id maps to nothing |
| `Buttons.ButtonToGbtnInjective` | src/keyboard.c:177-238 | no two handled buttons update the same GBTN |
| `Buttons.ButtonToGbtnOnto` | src/keyboard.c:177-238 | each of the fifteen digital GBTNs is updated by some button |
| `Buttons.DigitalButtonsDisjoint` | src/keyboard.c:177-238 | button events never name a stick pseudo-button or L2/R2 |
| `Deadzone.Abs` | src/keyboard.c:242 | C abs: the result is v or -v and never negative |
| `Deadzone.ZeroExactlyInside` | src/keyboard.c:242-244 | ZERO holds iff -d < v < d; POS and NEG never hold with ZERO or with each other |
| `Deadzone.PositiveDeadzoneClasses` | src/keyboard.c:242-244 | for d > 0: POS iff v > d, NEG iff v <= -d, and v == d is the only value outside all three classes |
| `Deadzone.BoundaryAsymmetry` | src/keyboard.c:242-244 | for d > 0: v == d is in no class, v == -d is NEG |
| `Deadzone.NonPositiveDeadzoneClasses` | src/keyboard.c:242-244 | for d <= 0: nothing is ZERO, POS iff v > d, NEG iff v < d |
| `Keyboard.WithButton` | src/keyboard.c:177-238 | update_button: the given button is pressed iff requested, every other button keeps its state |
| `Keyboard.SelectRoute` | src/keyboard.c:287-334 | the priority chain: each branch is taken exactly when its own condition holds and no earlier branch's holds |
| `Keyboard.ButtonEventEffect` | src/keyboard.c:174-239 | a button event changes only the pressed set, and only its own GBTN; an unknown button changes nothing |
| `Keyboard.ButtonEventKeepsSticksConsistent` | src/keyboard.c:174-239 | button events preserve "up/down and left/right of a stick never both pressed" |
| `Keyboard.AxisEventRawFields` | src/keyboard.c:253-284 | an axis event writes the raw field of its own axis only; other raw fields and the deadzones are unchanged |
| `Keyboard.UnknownAxisIgnored` | src/keyboard.c:253-341 | an axis id without a case changes nothing |
| `Keyboard.RelativeRouteEffect` | src/keyboard.c:287-303 | relative branch: the delta is the mouse calculation of the moving stick's current raw (x, y); absolute position and buttons unchanged |
| `Keyboard.AbsoluteRouteEffect` | src/keyboard.c:304-317 | absolute branch: the absolute position becomes exactly the moving stick's raw (x, y); delta and buttons unchanged |
| `Keyboard.ClassifyStickEffect` | src/keyboard.c:320-333 | up is NEG(y), down is POS(y), left is NEG(x), right is POS(x); up/down and left/right are never both set; other buttons keep their state |
| `Keyboard.PseudoButtonRouteEffect` | src/keyboard.c:318-334 | pseudo-button branch: only the moved stick's four buttons are set, by the deadzone classes of its raw values; the other stick and both mouse values are unchanged |
| `Keyboard.PseudoButtonUpdateKeepsOthers` | src/keyboard.c:318-334 | the pseudo-button update leaves every non-stick button alone |
| `Keyboard.RouteStageKeepsTriggers` | src/keyboard.c:286-334 | the mouse/pseudo-button chain never changes the trigger values or the L2/R2 state |
| `Keyboard.TriggerAxisEvent` | src/keyboard.c:275-340 | a trigger event stores its raw value and sets only its own trigger button, from value > deadzone_triggers |
| `Keyboard.TriggerThreshold` | src/keyboard.c:336-340 | L2 (R2) is pressed iff its raw value exceeds deadzone_triggers, under every stick mode, and changes only on its own axis event |
| `Keyboard.AxisEventKeepsSticksConsistent` | src/keyboard.c:246-341 | axis events preserve "up/down and left/right of a stick never both pressed" |
| `Keyboard.InputState.UpdateButton` | src/keyboard.c:177-238 | update_button on the record: the new pressed set is the old one with the button set or cleared |
| `Keyboard.InputState.HandleButton` | src/keyboard.c:174-239 | the switch on the button id leaves the record equal to ButtonEvent of the old record, and keeps the stick invariant |
| `Keyboard.InputState.UpdateStickButtons` | src/keyboard.c:320-333 | the four update_button calls for one stick classify it by the deadzones |
| `Keyboard.InputState.ApplyMouseModes` | src/keyboard.c:286-334 | the if-chain with the movement flags leaves the record equal to the chosen branch's effect |
| `Keyboard.InputState.StoreAxis` | src/keyboard.c:253-284 | the switch on the axis id stores the raw value in that axis's own field; the movement flags say exactly which stick or trigger the axis belongs to |
| `Keyboard.InputState.ApplyTriggers` | src/keyboard.c:336-340 | the trigger checks set only the moved trigger's button, from its raw value against deadzone_triggers |
| `Keyboard.InputState.HandleAxis` | src/keyboard.c:246-341 | the handler leaves the record equal to AxisEvent of the old record, and keeps the stick invariant |
| `Pointer.TruncDiv` | src/main.c:459-474 | C division: the quotient has the sign of the dividend (truncation toward zero) |
| `Pointer.TruncDivBounds` | src/main.c:459-474 | the quotient's magnitude is the largest q with q * divisor <= abs(dividend) |
| `Pointer.TruncDivNegate` | src/main.c:459-474 | truncating division commutes with negation |
| `Pointer.UnrotatedTarget` | src/main.c:471-474 | any rotation other than 90/180/270 gives (cx + trunc(step*ax/32767), cy + trunc(step*ay/32767)) |
| `Pointer.RotationIsRawTransform` | src/main.c:459-474 | every rotation is the unrotated formula applied to the rotated raw vector (90: (-ay, ax), 180: (-ax, -ay), 270: (ay, -ax)) |
| `Pointer.Rotation180Negates` | src/main.c:463-474 | the rotation-180 offset is the exact negation of the rotation-0 offset |
| `Pointer.Rotation270Negates90` | src/main.c:459-470 | the rotation-270 offset is the exact negation of the rotation-90 offset; 90 takes x from -ay and y from ax |
| `Pointer.RotationsCompose` | src/main.c:459-470 | rotating the raw vector by 90 then 270, or by 180 twice, is the identity; 90 twice is 180 |
| `Pointer.OffsetWithinStep` | src/main.c:471-474 | for raw values within -32767..32767 the offset from the centre never exceeds the step (-32768 is covered by `Pointer.MostNegativeOffset`) |
| `Pointer.FullDeflectionReachesStep` | src/main.c:471-474 | full deflection (+-32767) moves the pointer exactly +-step from the centre |
| `Pointer.MostNegativeOffset` | src/main.c:471-474 | for the raw value -32768 the offset is -(step + step / 32767): it exceeds the step in magnitude by step / 32767, so it is exactly -step while the step is below 32767 |
| `Pointer.DpadVector` | src/main.c:427-434 | each component is -1, 0 or 1; it is 0 iff both or neither opposite directions are held |
| `Pointer.DpadMouseAddsToStick` | src/main.c:420-447 | without normalisation or slow mode the D-pad adds +-step per held direction to the stick delta, opposite directions cancel; with the D-pad off the stick delta is unchanged |
| `Pointer.Tick` | src/main.c:414-498 | relative motion is emitted iff a delta is non-zero or the D-pad is the mouse; absolute only when a raw coordinate is non-zero and the position is outside the deadzone; mouse_moved iff a non-zero delta or an absolute position was emitted; delay iff mouse_moved |
| `Options.ApplyOptionEffect` | src/main.c:157-214 | -c sets config mode and clears xbox360 mode, -x the reverse, -X sets want_kill, -Z clears it, -c appends its file; exactly -v and -h end parsing |
| `Options.LastModeOptionWins` | src/main.c:205-214 | the last of -c/-x decides both mode flags; with neither, they are unchanged |
| `Options.ModesExclusive` | src/main.c:205-214 | config mode and xbox360 mode are never both on after the options |
| `Options.LastKillOptionWins` | src/main.c:157-171 | the last of -X/-Z decides want_kill; with neither, it is unchanged |
| `Options.ExitIffExitOption` | src/main.c:135-262 | parsing returns an exit code iff -v, -h or an unknown option is present |
| `Options.ConfigFilesInOrder` | src/main.c:205-209 | every -c file is loaded, in the order given |
| `Options.ParseOptions` | src/main.c:135-262 | the getopt loop's result is the left-to-right fold of the options, stopping at the first exit |
| `CStrings.Truncate` | src/main.c:268 | strncpy into the buffer keeps exactly the first n characters, or the whole string when it fits |
| `CStrings.ToLower` | src/main.c:281 | ASCII case folding: each capital becomes the lower-case letter at the same alphabet position, every other character is kept |
| `CStrings.CaseEndsWithNested` | src/main.c:281 | if a name ends with both a and a shorter b (ignoring case), a ends with b |
| `ProcessName.StripFirstSuffixIsPrefix` | src/main.c:270-290 | the game prefix derived from a name is a prefix of the name |
| `ProcessName.StripFirstSuffixRemovesFirstMatch` | src/main.c:279-287 | the first matching suffix in list order is removed, and prefix + that suffix is the name |
| `ProcessName.StripFirstSuffixNoMatch` | src/main.c:289-290 | a name matching no suffix is copied whole |
| `ProcessName.SuffixesSuffixFree` | src/main.c:275-276 | no suffix in the list ends with another one |
| `ProcessName.AtMostOneSuffixMatches` | src/main.c:275-287 | a name ends with at most one suffix of the list |
| `ProcessName.StripMatchingSuffix` | src/main.c:275-287 | whichever suffix a name ends with is the one removed, so the list order never changes the result |
| `ProcessName.DeriveNames` | src/main.c:264-297 | the watched name is the first argument cut to 63 characters; the prefix is that name stripped of its suffix when no -g prefix was given and the name is non-empty, else the -g prefix |
| `DefaultProfile.FindProfile` | src/main.c:318 | config_find finds a profile iff the name is in the configuration, and returns that profile |
| `DefaultProfile.ChooseDefaultOrder` | src/main.c:316-339 | the configuration's default wins if it resolves, else -p if it resolves, else the root; the result is the root or a configured profile |
| `DefaultProfile.SelectDefaultProfile` | src/main.c:299-342 | in config mode the chosen profile is placed at config_stack[0]; nothing else in the stack changes |

## Left out

- Creating and destroying the uinput devices (`src/keyboard.c:60-171`, `src/main.c:370-392, 501-526`): these are operating-system calls and process exit.
- SDL itself: initialisation, `SDL_PollEvent`/`SDL_WaitEvent`/`SDL_Delay`, and the outer `while (running)` loop. `Tick` covers one pass after the events are drained and returns the delay-or-wait decision as a value. The `emit*` calls are recorded as the tick's outputs.
- `state_update`, `handleInputEvent` dispatch, `config_load`, `config_finalise`, `config_overlay_clear` and `config_dump`: their bodies are not part of this model. `Tick` takes the record as it stands after `state_update`.
- Environment variables (`HOME`, `HOTKEY`, `PCKILLMODE`, `NO_PKILL`, the controller database file), usage text and `printf`: the environment's effect on the flags is the initial `Flags` given to `ParseOptions`.
- The `-sudokill` argument rewrite and getopt's own argument scanning: options arrive as a sequence of `CliOption` values.
- Loading the user configuration file in config mode (`src/main.c:299-314`): this is file I/O through `config_load`.
- Pointer.Tick: the float steps are function parameters, so their results are not computed. These are `vector2d_normalize` of a diagonal D-pad vector and the division by `slow_scale`. Without normalisation, `(int)(±1.0f * step)` is modelled as exactly `±step`, assuming the step is exactly representable as a float.
- Pointer.AbsoluteOffset: the 32-bit `int` product `absolute_step * axis` is unbounded here. Overflow would need a step above 65535.
- Options.ParseOptions: the `-p` name is kept whole. Its buffer size `MAX_CONTROL_NAME` is defined in a header that is not part of this model. `set_hotkey` is modelled as recording the button.
- Keyboard.InputState: the edge bookkeeping inside `update_button` (previous/current pressed state, hotkey handling) is not part of this model. It is a pressed set.
- The configuration stack's push/pop/resolve operations and the output dispatcher live in files that are not part of this model.
