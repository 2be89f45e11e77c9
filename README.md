# Cozmo remote control — a Dafny model

This project models the core of a remote-control program for the Cozmo robot.
The program turns keyboard and mouse events into robot motion, queues one-shot
speech and animation requests, drives a smart light bulb through three modes,
and plays cached sound cues. Three source files make up the core:

- `control.py`: the `RemoteControlCozmo` controller and `remap_to_range`.
  - The controller keeps intent flags for driving, lift and head, plus the speed modifiers (shift is fast, alt is slow).
  - It keeps the mouse-look state and the turn bias the mouse sets. Every method keeps the bias at zero while mouse-look is off (`RemoteControl.Valid`).
  - It keeps the sorted, filtered animation list and the table from digit key to animation.
  - It keeps a bounded queue of actions that the robot may refuse while it is busy.
- `lights_engine.py`: `LightsEngine`, an edge-triggered state machine over the modes danger, normal and charging. It launches the bulb tool only on a real change of mode.
- `sound_engine.py`: a cache from path to loaded mixer sound, `play_sound` / `stop_sound`, and six cue functions.

The modules are laid out like this:

- `Util`: Python list indexing (negative indices, IndexError), `str()` of an integer, and numbered concatenation.
- `Remap`: `remap_to_range`.
- `Actuation`: the controller's motion logic. It is written as pure functions of a snapshot (`InputState`) of the controller's fields and returns the robot commands they produce.
- `ActionQueue`: the bounded action queue.
- `AnimTable`: the construction-time animation list and key table.
- `Control`: the controller as a class whose methods update its fields, and the HTML and text renderers.
  - The robot is an abstract collaborator (`Robot`). Its state is on-charger, head angle and busy.
  - The robot records every command it receives in a ghost log.
  - Each controller method is proved against the `Actuation` / `ActionQueue` functions.
- `Lights`: the bulb state machine as a function `Request` and as the class `LightsEngine`.
- `Sound`: the sound cache as functions and as the class `SoundEngine`.

Modelling choices:

- Python floats are `real`s.
- Python `bool`/int flags are `bool`s. `Bit` turns them back into 0/1 where the source does arithmetic on them.
- Python's `str` ordering is `LexLe`. `list.sort` is an insertion sort proved sorted and a permutation.

Two behaviours of the code are easy to misread:

- `pick_speed` (control.py:293-299) returns the fast speed only when shift is held without alt, and the slow speed only when alt is held without shift. With both held, or neither, it returns the middle speed. `Actuation.PickSpeed` states exactly that.
- A background sound cue in `sound_engine.py` passes a volume that is never applied. Each cue first stops all three looped sounds, and that caches the sound without a volume, so the `play_sound` that follows finds it cached and skips the volume. The danger cue asks for 0.6 for the siren, and the siren always plays at full mixer volume. `Sound.LoopedCueNeverSetsVolume` and `Sound.SirenVolumeNeverApplied` prove this.

## Model

| member | source | states |
|---|---|---|
| Util.PyIndex | control.py:223-227 | a list index is accepted exactly when it lies in -n..n-1, and then it selects position i mod n (a negative one counts from the end); anything else is the IndexError case |
| Util.NumberedSnoc | control.py:244-250 | appending one more queue entry appends exactly its numbered line, numbered by its position |
| Remap.RemapToRange | control.py:40-48 | below the input interval gives out_min, above gives out_max, the endpoints map to the endpoints, and every value inside maps between out_min and out_max |
| Remap.InterpolationFraction | control.py:46-48 | inside the interval the result is out_min plus the same fraction of the output span as x is of the input span |
| Remap.RemapMonotone | control.py:40-48 | with an increasing output interval, a larger input never gives a smaller output, clamping included |
| Remap.RemapRoundTrip | control.py:40-48 | mapping into an increasing output interval and back returns the original value |
| Actuation.PickSpeed | control.py:293-299 | fast when only shift is held, slow when only alt is held, middle when both or neither are held |
| Actuation.DriveSpeeds | control.py:332-333 | the forward/turn speed pair is (150, 100) fast, (50, 30) slow, (75, 50) otherwise |
| Actuation.WheelSpeeds | control.py:335-338 | the wheels' sum is twice the drive direction times the forward speed; their difference is twice the turn speed times the turn direction |
| Actuation.DrivingCommands | control.py:315-338 | update_driving sends one wheel command, preceded by a drive-off-charger request exactly when driving forwards on the charger; the accelerations are 4 times the wheel speeds |
| Actuation.ReversingFlipsSteering | control.py:326-330 | reversing negates the effective turn direction |
| Actuation.ReversingRetracesArc | control.py:315-338 | the wheel speeds when reversing are exactly the negation of those when driving forwards with the same steering input |
| Actuation.WheelSpeedsBounded | control.py:326-338 | with the mouse turn bias in its range, no wheel speed exceeds 400 mm/s in either direction |
| Actuation.HeadVelocity | control.py:308-312 | the head velocity is zero exactly when up and down agree, positive exactly when only up is held, and its size is the chosen head speed |
| Actuation.LiftVelocity | control.py:302-305 | the lift velocity is zero exactly when up and down agree, positive exactly when only up is held, and its size is the chosen lift speed |
| Actuation.MouseTurn | control.py:139-140 | the mouse x position gives a turn bias within ±1.5: -1.5 at the left edge, 0 at the centre, +1.5 at the right |
| Actuation.TargetHeadAngle | control.py:143 | the mouse y position asks for a head angle within -25..45 degrees: 45 at the top, -25 at the bottom |
| Actuation.MouseHeadVelocity | control.py:143-146 | the head velocity is the angle error times a fixed positive gain (0.03), so it moves up exactly when below the angle asked for and stops exactly at it |
| Actuation.KeyInput | control.py:165-206 | after a key event the modifiers equal shift and alt, and the mouse-look state and turn bias are untouched |
| Actuation.KeyInputSetsOnlyItsFlag | control.py:174-206 | a key event sets the flag bound to its key to whether the key is down, and leaves every other flag as it was |
| Actuation.UnboundKeyMovesNothing | control.py:160-214 | an unbound key that leaves the modifiers unchanged sends no motion command |
| Actuation.BoundKeyRefreshesItsGroup | control.py:174-214 | a bound key with unchanged modifiers recomputes exactly its own group (driving, head or lift) on the new flags |
| Actuation.SpeedChangeRefreshesAll | control.py:165-214 | a change of either modifier recomputes driving, head and lift, in that order |
| ActionQueue.Enqueued | control.py:253-256 | the new action is last; from a queue of at most 11, the result is the 11 most recent actions in order |
| ActionQueue.Tick | control.py:285-290 | an empty queue stays empty; otherwise exactly the head is removed when the robot accepted it, and nothing otherwise |
| ActionQueue.EnqueueAllKeepsMostRecent | control.py:253-256 | however many actions are queued, the queue holds exactly the 11 most recent of them, in order |
| ActionQueue.TicksDropAcceptedHeads | control.py:285-290 | over any run of updates the queue loses exactly as many head entries as the robot accepted; a refused head is never skipped |
| AnimTable.SortNamesCorrect | control.py:71-72 | the sorted animation list is in Python string order and is a permutation of the robot's list |
| AnimTable.FilteredCorrect | control.py:76-99 | the filtered list holds exactly the names that are not known to misbehave, is no longer than the input, and stays sorted |
| AnimTable.FilteredCounts | control.py:97-99 | every name that is not known to misbehave is kept exactly as many times as it occurs in the input, and every bad one is dropped every time |
| AnimTable.FilterBadAnims | control.py:97-99 | the filtering loop produces exactly the filtered list |
| AnimTable.IndexOf | control.py:117 | list.index: none exactly when the name is absent; otherwise the first position holding it |
| AnimTable.DefaultAnimIndex | control.py:113-122 | key k gets the first index of its default animation when the robot has it, and k otherwise; the index is in range exactly when the animation exists or k is |
| AnimTable.BuildAnimIndexTable | control.py:113-122 | the table-building loop gives one entry per digit key, each the key's default index |
| Control.KeyCodeToAnimName | control.py:223-227 | a key offset outside -10..9, or a table entry outside -n..n-1 of the animation list, raises IndexError; otherwise the key offset and then the entry are each taken modulo their list's length (negative values count from the end) and the name is that animation |
| Control.DigitKeyAnimation | control.py:113-227 | with the constructor's table, digit k names its default animation if present, else the k-th animation, else it raises IndexError |
| Control.ReleaseEffect | control.py:216-220 | a key press or a non-digit key changes nothing; releasing a digit fails exactly when its lookup raises IndexError, and then changes nothing; otherwise exactly one play-anim action for the key's animation is queued and the head of the queue is tried once |
| Control.DigitReleaseOnEmptyQueue | control.py:216-220 | with the constructor's key table and nothing queued, releasing digit k plays its default animation (else the k-th one) at once, leaving the queue empty when the robot is free and the request waiting alone when busy; with neither animation it raises IndexError and nothing happens |
| Control.RemoteControl.constructor | control.py:53-126 | all intent is cleared; the animation list is the sorted robot list without the bad names; the key table holds the default indices; the queue is empty |
| Control.RemoteControl.SetAnim | control.py:129-130 | a key index in -10..9 updates exactly that entry of the key table; any other raises IndexError and changes nothing |
| Control.RemoteControl.UpdateLift | control.py:302-305 | sends exactly the lift command the current flags and modifiers call for |
| Control.RemoteControl.UpdateHead | control.py:308-312 | sends exactly the head command the flags call for, and nothing while mouse-look is on |
| Control.RemoteControl.UpdateDriving | control.py:315-338 | sends exactly the driving commands for the current flags, turn bias and charger state |
| Control.RemoteControl.HandleMouse | control.py:133-146 | ignored unless mouse-look is on; otherwise sets the turn bias from x, recomputes driving, and moves the head towards the angle y asks for |
| Control.RemoteControl.SetMouseLookEnabled | control.py:149-157 | sets the mode; disabling clears the turn bias; only switching from on to off recomputes driving and head |
| Control.RemoteControl.SetDrivingFlag | control.py:174-186 | W, S, A, D set their own flag to the key state; driving is recomputed exactly when the key is one of them or the speed changed |
| Control.RemoteControl.SetLiftFlag | control.py:188-196 | R and F set their own flag; the lift is recomputed exactly when the key is one of them or the speed changed |
| Control.RemoteControl.SetHeadFlag | control.py:198-206 | T and G set their own flag; the head is recomputed exactly when the key is one of them or the speed changed |
| Control.RemoteControl.LatchKey | control.py:165-206 | every flag follows its own key, the modifiers follow shift and alt, and each group's refresh decision is "speed changed or the key is bound to it" |
| Control.RemoteControl.SetKeyFlags | control.py:165-206 | the controller's new input snapshot is the key-event function of the old one, with the three refresh decisions |
| Control.RemoteControl.RefreshGroups | control.py:208-214 | recomputes driving, head and lift, in that order, for the groups asked for |
| Control.RemoteControl.HandleKey | control.py:160-220 | the new input is the key-event function of the old one; the robot gets exactly the key's motion commands, then the release effect on the queue |
| Control.RemoteControl.ReleaseKey | control.py:216-220 | releasing a digit queues its animation and updates once; a failed lookup raises and leaves the queue as it was |
| Control.RemoteControl.QueueAction | control.py:253-256 | the queue becomes the enqueued queue, which never exceeds 11 |
| Control.RemoteControl.TrySayText | control.py:259-264 | asks the robot to speak once and reports whether it was free |
| Control.RemoteControl.TryPlayAnim | control.py:267-272 | asks the robot to animate once and reports whether it was free |
| Control.RemoteControl.Update | control.py:285-290 | tries only the head of the queue, and drops it exactly when the robot accepted it |
| Control.RemoteControl.SayText | control.py:275-277 | queues the speech request, then tries the head of the queue once |
| Control.RemoteControl.PlayAnimation | control.py:280-282 | queues the animation request, then tries the head of the queue once |
| Control.RequestOnEmptyQueue | control.py:275-290 | on an empty queue a request is carried out at once when the robot is free, and otherwise waits alone |
| Control.FuncToNameDistinct | control.py:230-236 | the two queued callables get different names (say_text, play_anim), so the text tells speech from animation |
| Control.ActionToTextInjective | control.py:239-241 | two actions have the same text exactly when they are the same action: the name tells the callable apart and the argument is read back between the brackets |
| Control.ActionQueueToText | control.py:244-250 | the text is the queue's entries numbered from 0, in queue order |
| Control.OptionsHtmlNumbered | control.py:343-348 | the options text is the loop's concatenation of numbered option tags from 0, with exactly the positions equal to the key's entry marked selected |
| Control.DropDownHtmlShape | control.py:341-350 | the drop-down raises IndexError exactly when the selector index is outside the key table and there is an animation to list; otherwise it is the select tag around one numbered option per animation |
| Control.GetAnimSelDropDown | control.py:341-350 | the loop builds exactly the drop-down text described by DropDownHtmlShape, including its IndexError case |
| Lights.Request | lights_engine.py:11-24 | a request leaves the state naming the mode and launches the bulb tool once exactly when the mode changes |
| Lights.BulbArgsDistinct | lights_engine.py:11-24 | the three modes start three different commands, all through the same tool and the same bulb address |
| Lights.RequestIdempotent | lights_engine.py:11-24 | asking for the same mode twice launches once at most |
| Lights.RunFinalState | lights_engine.py:11-24 | after any sequence of requests the state names the last mode asked for |
| Lights.OneCommandPerTransition | lights_engine.py:11-24 | a sequence of requests launches the bulb tool exactly once per actual change of mode |
| Lights.LightsEngine.constructor | lights_engine.py:7-9 | the engine starts in normal having launched exactly the normal fade |
| Lights.LightsEngine.Danger | lights_engine.py:11-14 | the engine steps by the request function for danger |
| Lights.LightsEngine.Normal | lights_engine.py:16-19 | the engine steps by the request function for normal |
| Lights.LightsEngine.Charging | lights_engine.py:21-24 | the engine steps by the request function for charging |
| Sound.ReplaceCorrect | sound_engine.py:16 | str.replace of one character leaves no occurrence of the replaced character, introduces no character other than the replacement, and returns a string without it unchanged |
| Sound.Canonical | sound_engine.py:16 | the file name turns each slash and backslash into the platform separator and keeps the rest |
| Sound.PlayCaches | sound_engine.py:12-20 | play_sound caches the path under itself, never replaces a cached sound, and loads and sets the volume exactly when the path was not cached |
| Sound.StopCaches | sound_engine.py:22-29 | stop_sound caches the path without a volume, never replaces a cached sound, and never sets a volume |
| Sound.CueStopsAndPlays | sound_engine.py:31-56 | a background cue stops the three looped sounds in order and plays its own sound looping; a chime plays once without stopping anything |
| Sound.StopLoopedKeepsVolumes | sound_engine.py:31-47 | stopping the looped sounds caches all three, keeps every cached sound as it was, and sets no volume |
| Sound.LoopedCueNeverSetsVolume | sound_engine.py:31-47 | a background cue never applies its volume: its sound stays cached without one and no volume call is made |
| Sound.CueKeepsLoopsQuiet | sound_engine.py:31-56 | every cue keeps the looped sounds cached without a volume |
| Sound.SirenVolumeNeverApplied | sound_engine.py:37-41 | after any sequence of cues from a cache with no looped volumes, the siren has no volume: the 0.6 of the danger cue is never applied |
| Sound.SoundEngine.constructor | sound_engine.py:10 | the library starts empty |
| Sound.SoundEngine.PlaySound | sound_engine.py:12-20 | the cache and the mixer calls follow the play_sound functions |
| Sound.SoundEngine.StopSound | sound_engine.py:22-29 | the cache and the mixer calls follow the stop_sound functions |
| Sound.SoundEngine.StopLooped | sound_engine.py:32-34 | stops the siren, the playing loop and the charging loop, in that order |
| Sound.SoundEngine.Charging | sound_engine.py:31-35 | the engine steps by the cue function for charging |
| Sound.SoundEngine.Danger | sound_engine.py:37-41 | the engine steps by the cue function for danger |
| Sound.SoundEngine.Playing | sound_engine.py:43-47 | the engine steps by the cue function for playing |
| Sound.SoundEngine.OffRamp | sound_engine.py:49-50 | the engine steps by the cue function for off-ramp |
| Sound.SoundEngine.LevelUnlocked | sound_engine.py:52-53 | the engine steps by the cue function for level unlocked |
| Sound.SoundEngine.LevelComplete | sound_engine.py:55-56 | the engine steps by the cue function for level complete |

## Left out

- The gRPC servicer and `run` (control.py:373-453): transport and event dispatch into the controller methods modelled above.
- `create_default_image` (control.py:19-33, called at 36) and `serve_pil_image` (control.py:363-370): placeholder image generation and PNG encoding; the `jpeg_quality` parameter is unused.
- `get_anim_sel_drop_downs` (control.py:353-357): it joins the ten drop-downs `get_anim_sel_drop_down(i)` for i in 0..9, each prefixed with `i: ` and followed by `<br>`; only the single drop-down is modelled.
- `to_js_bool_string` (control.py:360-361): it maps a bool to a JavaScript literal.
- `FuncToName`: the "UNKNOWN" fallback of `func_to_name` is not modelled, because the queue only ever holds the two callables it names.
- Remap.RemapToRange: the ZeroDivisionError raised when `x == x_min == x_max` is excluded by the precondition, and every caller passes the interval 0..1.
- The constructor's `print` when a default animation is missing (control.py:118-119) is not modelled; only the fallback index it takes is.
- `handle_key`'s `is_ctrl_down` parameter is accepted and ignored, as in the source.
- `HandleKey` is split into `SetKeyFlags` and `RefreshGroups` helpers. The order of effects is the source's.
- The robot SDK is the abstract `Robot` class: motion calls, `say_text`, `play_anim` and `drive_off_charger_contacts`.
  - `RobotBusy` is modelled as the call's refusal.
  - Timing, completion and the SDK's own state are not modelled.
- Control.RemoteControl.UpdateDriving: the drive-off-charger request is recorded, but the SDK's reaction to it is not modelled.
- `Lights.LightsEngine`: the bulb tool is started with `subprocess.Popen` and never awaited. Only the argument list of each launch is modelled, not the process or the bulb.
- The pygame mixer is not modelled: `init`, `set_num_channels` (sound_engine.py:5-8), audio output, and a one-shot sound finishing. Each mixer operation is recorded as a call in a ghost log.
- `os.sep` is the `sep` parameter of `SoundEngine`. The module-level `_sound_library` dictionary is the `library` field of one `SoundEngine` object.
- The chat, voice and training engines, and the `lights.py` driver, are not part of this model.
- Concurrency between the service threads and the robot event loop is not modelled. Each method runs to completion.
- Floating point is modelled as exact real arithmetic.
