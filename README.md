# Neverball level-select screen, modelled in Dafny

This project models the decision logic of Neverball's level-select ("start")
screen, `ball/st_start.c`. The screen shows the levels of the current set as a
5 x 5 grid of buttons. It shows a status message and a preview image for the
widget under the pointer. A confirmed choice either records a play mode and
rebuilds the screen, goes back to set selection, or starts a level.

The GUI toolkit, the level store, audio, configuration and the level runner
are outside the screen. Here they are inputs, or entries in an effect log:

- level store: `LevelSet`, a total map from index to `LevelStatus` (exists,
  locked, bonus, completed);
- configuration: the cheat flag and the joystick-button tests, as booleans;
- `level_play`: its success, as a boolean input;
- every external call (`audio_play` of the menu sound, `mode_set`,
  `level_play`, `level_stop`, `level_snap`, `set_cheat`): an `Effect`
  appended to a log, in call order;
- `goto_state`: a `Next` value (switch to a `Screen`, or `Stay` for the C
  code's return value 1).

Modules:

- `Tokens` (tokens.dfy): the four negative control tokens and the level
  indices that share one `int`, with a tagged `Token` view and its
  encode/decode pair.
- `Game` (game.dfy): modes, screens, level status and effects.
- `LevelGrid` (grid.dfy): the colour rule of `gui_level` and the order of the
  grid.
- `Start` (start.dfy): the pure decisions. These are `start_action` as a
  decision table, the hover messages of `start_over`/`start_over_level`, the
  entry mode, key and button routing, and the F12 screenshot list.
- `LevelSelect` (screen.dfy): class `StartMenu`. It holds the recorded mode,
  the status label, the preview image and the effect log. Each handler of
  the C file is a method that mirrors the C code's branches and loops and is
  proved equal to the matching function of `Start`.

Four behaviours of the C code are easy to miss:

- The mode is changed by a confirmed action and also by `start_enter`. On
  entry, `start_enter` calls `mode_set(MODE_NORMAL)` when the mode is
  Challenge and cheat is off.
- Hovering a level changes the preview image only when the level is unlocked
  or cheat is on.
- F12 visits only the indices below MAXLVL that exist.
- Every action, including an ignored one, plays the menu sound.

## Model

| member | source | states |
|---|---|---|
| Tokens.Encode | ball/st_start.c:32-35 | A token's int is negative exactly for the four control tokens. A level token's int is its index. Decoding the int gives the token back. |
| Tokens.Decode | ball/st_start.c:125-143 | Every int >= 0 reads as that level. Every int below -4 reads as no token. A decoded token is a level exactly when the int is >= 0. |
| Tokens.EncodeDecode | ball/st_start.c:32-35 | Encoding the token that an int decodes to gives that int back. |
| Tokens.EncodeInjective | ball/st_start.c:32-35 | Two tokens with the same int are the same token. So the control tokens never collide with each other or with a level index. |
| Tokens.ControlTokensAreNotLevels | ball/st_start.c:32-35 | Each control token is negative and differs from every level index. |
| LevelGrid.LevelCell | ball/st_start.c:44-70 | A missing level is a spacer. An existing level is a button carrying token i. A locked level is grey on grey. An unlocked level's foreground is green iff bonus and white iff not bonus. The background equals the foreground iff the level is locked or completed, and is yellow iff it is unlocked and not completed. |
| LevelGrid.LockedLooksAlike | ball/st_start.c:59-67 | Two locked existing levels with the same index get the same button, whatever their bonus and completed flags. |
| LevelGrid.GridIndex | ball/st_start.c:241-244 | Position k of row r shows a level inside row r's block of five indices. Every shown index is below 25. |
| LevelGrid.GridIndexIsBijective | ball/st_start.c:241-244 | Every index 0..24 is shown at exactly one (row, position). Different positions show different indices. |
| LevelGrid.GridOrder | ball/st_start.c:241-244 | The nested loops visit 25 slots. |
| LevelGrid.GridOrderIsPermutation | ball/st_start.c:241-244 | The visiting order repeats no index. It contains exactly the indices 0..24. |
| LevelSelect.BuildGrid | ball/st_start.c:241-244 | The loops build 5 rows of 5 cells. Position k of row r holds the button of level r*5 + (4-k). |
| Start.StartAction | ball/st_start.c:149-197 | The menu sound is the first call and is made exactly once. Only Back goes to set selection. The screen is re-entered exactly when the only other call is a `mode_set`, and no other outcome changes the mode. A level is played exactly as `PlayRequest` says, in the mode it says. Success goes to the level screen. Failure stays and calls `level_stop` once. |
| Start.BackGoesToSetSelection | ball/st_start.c:157-158 | Back goes to set selection with the mode unchanged, for any mode and cheat flag. |
| Start.ModeTokensSetMode | ball/st_start.c:159-164 | Normal and Practice each call `mode_set` with their mode and re-enter the screen. |
| Start.ChallengeWithCheat | ball/st_start.c:167-174 | With cheat, Challenge records Challenge mode and re-enters the screen. |
| Start.ChallengeWithoutCheatPlaysLevelZero | ball/st_start.c:167-196 | Without cheat, Challenge has the outcome and calls of confirming level 0 in Challenge mode. It never calls `mode_set`, so the recorded mode stays as it was. |
| Start.LockedLevelIsIgnored | ball/st_start.c:179-196 | A locked level without cheat only plays the sound: no `level_play`, no mode change, and the screen stays. |
| Start.PlayableLevelIsPlayed | ball/st_start.c:183-193 | An unlocked level, or any level under cheat, is played in the current mode. Success goes to the level screen. Failure calls `level_stop` once and stays. |
| Start.UnknownTokenIsIgnored | ball/st_start.c:155-196 | A negative int that is not a control token only plays the sound and stays. |
| Start.EntryMode | ball/st_start.c:210-214 | On entry the mode is Challenge only under cheat. It changes exactly when it was Challenge and cheat is off, and then it becomes Normal. |
| Start.HoverLevel | ball/st_start.c:72-112 | A label is always written. The level's picture is shown iff the level is unlocked or cheat is on. Under cheat, and only under cheat, the final label is the level's file name. The unlock hints appear exactly for locked levels without cheat. Without cheat, bonus wording appears iff the level is a bonus level. Practice wording appears iff the level is unlocked, cheat is off and the mode is Practice. An unlocked level without cheat in Normal or Challenge mode gets normal-mode wording. Together these fix the one message shown. |
| Start.HoverToken | ball/st_start.c:114-145 | Back and unknown tokens leave the label alone. A level token behaves as `start_over_level`. Challenge shows "Challenge all levels" and the set's picture. Normal shows "Collect coins", and Practice shows "Train yourself". No token other than Challenge and the levels touches the picture. |
| Start.RouteKey | ball/st_start.c:286-306 | Only presses act. The cheat key acts iff cheat is configured. F12 takes screenshots on every press. |
| Start.RouteButton | ball/st_start.c:308-318 | Only presses act. The confirm button dispatches the clicked widget's token, and takes precedence over exit. The exit button dispatches Back. Any other button does nothing. |
| Start.Snaps | ball/st_start.c:294-303 | The screenshot list holds a `level_snap` for exactly the existing indices below the bound, in strictly ascending order. |
| LevelSelect.StartMenu.Enter | ball/st_start.c:199-271 | The mode becomes `EntryMode` of the old mode. `mode_set(Normal)` is logged exactly when the mode changed. The label is the greeting and the image is the set's picture. The selected mode button matches the mode. The grid is the one `BuildGrid` states. |
| LevelSelect.StartMenu.OverLevel | ball/st_start.c:72-112 | The label and picture become those `HoverLevel` gives. A picture is left alone when none is given. Mode and log do not change. |
| LevelSelect.StartMenu.Over | ball/st_start.c:114-145 | Widget id 0 changes nothing. Any other widget updates the label and picture as `HoverToken` gives, and leaves alone what it does not give. Mode and log never change. |
| LevelSelect.StartMenu.Action | ball/st_start.c:149-197 | The new mode, the calls appended to the log and the returned outcome are exactly those of `StartAction`. Label and picture do not change. |
| LevelSelect.StartMenu.SnapLevels | ball/st_start.c:294-303 | The F12 loop appends exactly `Snaps(levels, MAXLVL)` to the log. |
| LevelSelect.StartMenu.Keybd | ball/st_start.c:286-306 | The cheat key logs `set_cheat` and re-enters the screen. F12 logs the screenshots of `Snaps` and stays. Anything else changes nothing and stays. |
| LevelSelect.StartMenu.Buttn | ball/st_start.c:308-318 | A press routed by `RouteButton` runs `StartAction` on the routed token. Anything else changes nothing and stays. |

## Left out

- GUI toolkit: widget construction, stacks and arrays, `gui_layout`, `gui_pulse` and its scale, the image size `7*w/16`, the set-name label, the Back button and the text of the mode buttons. Colours are an enumeration.
- Score widgets: `set_most_coins`, `set_best_times` and `gui_most_coins`/`gui_best_times` are not modelled. They are presentation, and their data lives in the level store.
- Localised strings: messages are an enumeration of kinds. A level's file name is `LevelFile(i)`.
- Audio: the menu sound is logged as `MenuSound`. The music fade at the end of `start_enter` is left out.
- `level_play`, `level_stop`, `level_snap` and `set_cheat`: these live outside this file. Each is a logged call, and the success of `level_play` is an input. Any change `level_play` or `set_cheat` makes to the current mode, the cheat setting or the level store is not modelled. The model's `mode` is the value last written by `mode_set`.
- `start_point` and `start_stick`: the toolkit (`gui_point`, `gui_stick`) decides which widget is under the pointer or stick, so the model starts at `start_over` with the resolved id and its token. The joystick-axis selection is configuration glue and is left out.
- `gui_click` and `gui_token`: `Buttn` takes the clicked widget's token as an input.
- Configuration lookups and SDL key codes: booleans, and the `Key` datatype.
- `goto_state` and the `struct state` table: `Next` values.
- MAXLVL is defined outside this file. Its value is fixed at 25 here, the size of the grid. The screenshot proofs do not depend on that value.
- Start.HoverLevel: under cheat, the code first writes the practice/normal message and then the file name. The model records only the final label.
