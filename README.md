# SDL_simpleEngine, modelled in Dafny

This project models the sequential logic of SDL_simpleEngine, a small 2D game engine written in C on top of SDL2, SDL_image, SDL_ttf, SDL_mixer and Nuklear. It then proves properties of that model. SDL and its companion libraries are not modelled. Every answer the engine gets from them becomes an input of the model:

- whether an allocation succeeds;
- what a decoder, the font rasteriser or Mix_PlayChannel returns;
- which events the queue holds;
- what SDL_GetTicks reads;
- what a Nuklear widget hands back.

One Dafny module is written for each C file of the core:

| module | C file | what it covers |
|---|---|---|
| `Common` | (shared) | NULL-able pointers (`Option`), `SDL_Rect`, opaque handles, decimal digits |
| `Events` | (shared) | the SDL events and keycodes the engine reacts to |
| `Sprites` | src/sprites.c | animations (`Animation` values), sprites, the `AnimatedSprite` object |
| `FrameTime` | src/sprites.c | arithmetic on whole frame durations used by the animation proofs |
| `Debugging` | src/debugging.c | the frame-debug viewport and debug menu, as the class `DebugTools` over the file's statics |
| `Arduino` | src/arduino.c | the serial light-level scanner, as the class `SerialLink` over the port and the static line buffer |
| `Config` | src/config.c | the INI loader (a loop over the file's lines) and the printer |
| `Tools` | src/tools.c | the recursive binary search |
| `Img` | src/img.c | the texture library: all-or-nothing loading and freeing |
| `TextCache` | src/text.c | the cached `Text` object, as a class |
| `Sound` | src/sound.c | the 16-slot channel table and the sound-effect and music libraries |
| `Engine` | src/engine.c, main.c | event dispatch, frame pacing, start-up order and the main loop |

State the C code changes in place is modelled by classes: the debug tools' statics, the serial buffer, `AnimatedSprite`, `Text`, the channel table and the engine globals. Their methods are proved to move the state exactly as a function on a snapshot of the fields says. The properties are then lemmas about those functions. Values the C code returns or copies by value are datatypes with functions: `Animation`, `Sprite`, `GameConfig`, the texture and sound libraries. Loops of the C code are `while` or `for` loops with their invariants. These are:

- the animation accumulator;
- the grid slicing;
- the config loader;
- the library build and free loops;
- the serial read loop;
- the event poll;
- the main loop.

Time, `dt` and zoom are exact reals.

Where the code and its documentation differ, the model follows the code:

- A non-looping animation is marked finished only when a step goes past the last frame, not on reaching it.
- printConfig writes the window name as `name=`, but loadConfig reads `window_name=`. Reloading the printed file therefore restores every field except the name (`Config.PrintThenLoad`).
- Escape clears INSTANCE but does not end the event poll. Digit keys queued behind it in the same frame still play (`Engine.PolledSounds`).
- Mix_PlayChannel returns a channel. One of 16 or higher is neither recorded nor freed (`Sound.Played`).
- initAudio's result is not looked at by Game_Init (`Engine.InitOrdering`).
- The C texture arrays are `malloc`'d, so a rollback in img.c frees slots that were never written. The model starts those slots as NULL.
- The `title` of loadConfig is uninitialised before the first header. The model reads that as "no section".

## Model

| member | source | states |
|---|---|---|
| Sprites.Create | src/sprites.c:21-32 | the animation wraps the given frames and count, starts at frame 0 with an empty timer, unfinished, with a positive frame duration d such that d·fps = 1; it is well formed exactly when the count fits the buffer |
| Sprites.CreateFromSheet | src/sprites.c:37-65 | a failed allocation (or a negative count) gives the all-zero animation; otherwise `count` frames, frame i at ((i mod cols)·frameW, (row + i div cols)·frameH) of size frameW×frameH, starting as Create does |
| Sprites.Updated | src/sprites.c:68-91 | a finished animation or one with at most one frame is unchanged; only the current frame, timer and finished flag change; an advancing animation stays on a frame below the count; a looping one never becomes finished, and one that becomes finished rests on its last frame |
| Sprites.UpdatedKeeps | src/sprites.c:68-91 | an update keeps 0 ≤ current frame < count, changes only the frame, timer and finished flag, leaves the timer below one frame duration unless it finished, and does nothing to a finished animation or one with at most one frame |
| Sprites.AnimUpdate | src/sprites.c:68-91 | Anim_Update, with its loop, yields exactly the closed-form update `Updated` |
| Sprites.Accumulate | src/sprites.c:73-90 | the accumulator loop: a looping animation advances one frame per whole duration modulo the count and keeps the remainder; a non-looping one stops clamped at the last frame, finished |
| Sprites.AccumulateStep | src/sprites.c:74-88 | one run of the loop keeps the loop invariant, or ends a non-looping animation at its last frame |
| Sprites.WrappedIsMod | src/sprites.c:77-82 | stepping k frames with wrap-around to 0 lands on (c + k) mod n |
| Sprites.Reset | src/sprites.c:94-100 | frame 0, empty timer, not finished; frames, count, duration and loop flag kept; well-formedness kept |
| Sprites.CurrentFrame | src/sprites.c:103-108 | the zero rectangle without frames or with a count ≤ 0, otherwise the frame at the current index, which lies among the first `count` frames |
| Sprites.FreeFrames | src/sprites.c:111-117 | no buffer and count 0, frame index, timer and flag kept; the result no longer advances and its current frame is the zero rectangle |
| Sprites.FinishedUntilReset | src/sprites.c:70-71 | a finished animation ignores every update, and after a reset an animation of two or more frames advances again |
| Sprites.ResetForgetsUpdates | src/sprites.c:94-100 | a reset after any update is the same state as a reset |
| Sprites.LoopingWholeDurations | src/sprites.c:73-82 | feeding a looping animation n whole durations from an empty timer moves it n frames modulo the count and empties the timer |
| Sprites.LoopingUpdatesCompose | src/sprites.c:73-82 | two updates of a looping animation are one update by the summed time |
| Sprites.ThreeFrameSheetExample | src/sprites.c:46-54 | a 3-frame 16×16 sheet at 15 fps: frame 2 is at (32, 0), and 0.2 s moves it three frames, back to frame 0 |
| Sprites.SpriteCreate | src/sprites.c:125-134 | the sprite samples `src` of the texture and is drawn at (x, y) at the size of `src`, unflipped, unrotated |
| Sprites.SpriteCreateFull | src/sprites.c:137-148 | Sprite_CreateFull is Sprite_Create on the whole texture (0, 0, w, h) |
| Sprites.SetPos | src/sprites.c:159-164 | only the destination position changes |
| Sprites.SetFlip | src/sprites.c:167-171 | only the flip mode changes |
| Sprites.Played | src/sprites.c:203-211 | an index out of range or already current changes nothing (no timer reset); another index becomes current and its animation is reset, the others kept |
| Sprites.PlayTwiceIsPlayOnce | src/sprites.c:203-211 | playing the same index twice is playing it once |
| Sprites.InitialFrame | src/sprites.c:189-192 | the first frame of the first animation when there is one, otherwise the zero rectangle |
| Sprites.AnimatedSprite.constructor | src/sprites.c:179-200 | a failed copy gives the all-zero sprite; otherwise the first `count` animations are copied, animation 0 is current and the sprite's source is InitialFrame |
| Sprites.AnimatedSprite.Play | src/sprites.c:203-211 | the animations move as `Played` says; nothing else changes |
| Sprites.AnimatedSprite.Update | src/sprites.c:214-222 | with animations, the current one is updated and the sprite's source becomes its current frame; without, nothing changes |
| Sprites.AnimatedSprite.Free | src/sprites.c:232-240 | every animation's frames are freed, then the buffer and the count are dropped |
| Debugging.WrapAxis | src/debugging.c:471-479 | below 0 wraps to the maximum, beyond the maximum wraps to 0, in range is kept; the result lies in [0, max] when max ≥ 0 |
| Debugging.Stepped | src/debugging.c:463-479 | each arrow moves the selector by its own width (left, right) or height (up, down) when the step stays in range; a step below 0 wraps to maxX or maxY, one beyond the maximum wraps to 0; afterwards 0 ≤ x ≤ maxX and 0 ≤ y ≤ maxY when those are ≥ 0; size kept; other keys keep an in-range selector |
| Debugging.RightThenLeft | src/debugging.c:466-467 | right then left returns the selector when neither step wraps |
| Debugging.RightWrapsToZero | src/debugging.c:466-474 | a right step from the last position that fits wraps to x = 0 |
| Debugging.LeftWrapsToMax | src/debugging.c:466-474 | a left step from x = 0 wraps to x = maxX |
| Debugging.Zoomed | src/debugging.c:526-532 | zoom += 0.1·dy, dy negated for a flipped wheel; below 0.1 it becomes 0.1, above 10 it becomes 10, and in between it is exact |
| Debugging.ZoomUndo | src/debugging.c:526-532 | scrolling back by the same amount undoes an unclamped scroll |
| Debugging.Dragged | src/debugging.c:512-518 | the pan moves by the mouse delta and the position becomes the last one, so pan − last is kept |
| Debugging.DragComposes | src/debugging.c:512-518 | two motions pan as far as one motion to the second position |
| Debugging.ClampNk | src/debugging.c:245-253 | the edited value is clamped into [lo, hi] and an in-range value is kept |
| Debugging.Edited | src/debugging.c:245-253 | an untouched widget keeps the value; an edited one lands in [lo, hi] |
| Debugging.Resized | src/debugging.c:248-269 | a frame dimension after its widget lies in [1, image size], and after an image change it is at most the new image's size |
| Debugging.Exited | src/debugging.c:216-226 | no selector, the empty library, viewport off; the library's textures are the ones destroyed |
| Debugging.ExitTwice | src/debugging.c:216-226 | exiting again changes nothing and frees nothing |
| Debugging.MenuToggled | src/debugging.c:117-124 | the viewport is exited, perf metrics and font debug are cleared, the menu flag flips |
| Debugging.FrameToggled | src/debugging.c:189-214 | toggling keeps the debug state valid |
| Debugging.FrameToggleOutcome | src/debugging.c:189-214 | an active viewport is exited; otherwise it opens exactly when the library loaded something and the selector was allocated, with image 0, a 16×16 selector at the origin, zoom 1 and no pan |
| Debugging.Opened | src/debugging.c:197-213 | the loaded library is installed; an empty one changes nothing else; a non-empty one resets image, frame size, zoom and pan, and opens the viewport with a 16×16 selector at the origin when the selector is allocated; the flags, the drag and the mouse position are kept |
| Debugging.KeyStepped | src/debugging.c:460-479 | keys are ignored while the viewport is off; otherwise only the selector changes, to `Stepped` against the image size less the selector's size; validity kept |
| Debugging.Pressed | src/debugging.c:485-502 | a left press inside the sprite of an active viewport starts a drag at the press position; any other press changes nothing |
| Debugging.Released | src/debugging.c:506-508 | a left release ends the drag; only the drag flag can change; other buttons change nothing |
| Debugging.Moved | src/debugging.c:512-518 | without a drag nothing changes; while dragging only pan and last position change, the last position becomes the mouse and pan − last is kept |
| Debugging.Scrolled | src/debugging.c:523-533 | an inactive viewport ignores the wheel; otherwise only the zoom changes, and it stays within [0.1, 10] |
| Debugging.Handled | src/debugging.c:446-536 | every event keeps the debug state valid |
| Debugging.F3TogglesMenu | src/debugging.c:454-458 | F3 always toggles the menu |
| Debugging.InactiveIgnoresInput | src/debugging.c:460-524 | with the viewport off, keys other than F3, presses and the wheel change nothing |
| Debugging.KeyKeepsSelectorInImage | src/debugging.c:463-479 | after a key on an active viewport the selector keeps its size and lies inside the image whenever it fits |
| Debugging.DragPans | src/debugging.c:485-519 | a left press on the sprite starts a drag at the press position; a motion while dragging pans by the delta, keeping pan − last; a left release ends the drag |
| Debugging.OnlyF3Frees | src/debugging.c:446-536 | only the menu toggle destroys textures |
| Debugging.Rendered | src/debugging.c:228-278 | the state part of renderFrameDebug keeps the debug state valid |
| Debugging.PanelEdited | src/debugging.c:242-270 | untouched widgets change nothing; an edited image number lies in the library; an edited frame size lies in [1, image size]; a new image moves the selector to the origin and keeps the frame size within it; only image number, frame size and selector change |
| Debugging.ImageChangeResets | src/debugging.c:262-270 | a changed image moves the selector to (0, 0) and leaves the frame size within the new image |
| Debugging.ClosedPanelExits | src/debugging.c:272-277 | closing the panel is exitFrameDebug |
| Debugging.DebugTools.constructor | src/debugging.c:26-45 | the statics' initial values |
| Debugging.DebugTools.ExitFrameDebug | src/debugging.c:216-226 | the state moves as `Exited` says |
| Debugging.DebugTools.ToggleDebugMenu | src/debugging.c:117-124 | the state moves as `MenuToggled` says |
| Debugging.DebugTools.ToggleFrameDebug | src/debugging.c:189-214 | the state moves as `FrameToggled` says, with the library initTextureLib builds |
| Debugging.DebugTools.OpenViewport | src/debugging.c:197-213 | the state moves as `Opened` says |
| Debugging.DebugTools.ResetViewport | src/debugging.c:201-206 | image 0, 16×16 frame, zoom 1, no pan |
| Debugging.DebugTools.HandleDebugEvent | src/debugging.c:446-536 | the state moves as `Handled` says |
| Debugging.DebugTools.StepSelector | src/debugging.c:460-481 | the state moves as `KeyStepped` says |
| Debugging.DebugTools.PressMouse | src/debugging.c:483-503 | a left press inside the sprite of an active viewport starts a drag |
| Debugging.DebugTools.MoveMouse | src/debugging.c:510-520 | a motion while dragging pans by the delta |
| Debugging.DebugTools.ScrollWheel | src/debugging.c:521-534 | an active viewport's zoom moves as `Zoomed` says |
| Debugging.DebugTools.RenderFrameDebug | src/debugging.c:228-278 | the state moves as `Rendered` says |
| Debugging.DebugTools.EditPanel | src/debugging.c:242-270 | the widgets and the image-change block move the state as `PanelEdited` says |
| Arduino.DecimalFits | src/arduino.c:85-91 | nine digits at most make a value ≤ 999,999,999, which fits in an int |
| Arduino.Scanned | src/arduino.c:74-95 | the buffer keeps at most nine digits; the level is unchanged or ≤ 999,999,999; what is left is a suffix of the input; input without a newline is all consumed and leaves the level alone |
| Arduino.StopsAfterNewline | src/arduino.c:82-88 | a call consumes up to and including the first newline, leaves the rest queued and empties the buffer |
| Arduino.ResumesAcrossCalls | src/arduino.c:69-79 | input that runs out mid-line leaves its digits buffered for the next call: two calls scan like one |
| Arduino.NoiseIgnored | src/arduino.c:82-95 | bytes other than digits and newlines change nothing |
| Arduino.LineSetsLevel | src/arduino.c:82-87 | a line of 1-9 digits sets the level to its decimal value; an empty line keeps the old level; the buffer is emptied either way |
| Arduino.BuffersDigits | src/arduino.c:90-93 | digits are buffered in order while there is room |
| Arduino.ExtraDigitsDropped | src/arduino.c:91-94 | a tenth digit on a line is dropped |
| Arduino.SerialLink.constructor | src/arduino.c:69-70 | the port descriptor, the pending bytes, and an empty static buffer |
| Arduino.SerialLink.GetLightLevel | src/arduino.c:65-96 | with no open port nothing is read or changed; otherwise the queue, buffered digits and level move as `Scanned` says |
| Arduino.SerialLink.Feed | src/arduino.c:82-94 | one byte read: a newline stores the buffered number, if any, and empties the buffer; a digit is buffered while fewer than nine are; anything else is dropped |
| Arduino.SerialLink.Disconnect | src/arduino.c:56-63 | an open port is closed and marked −1; otherwise nothing changes |
| Config.SkipSpaces | src/config.c:25 | what is left does not start with white space |
| Config.TakeWhile | src/config.c:25 | the run taken is all of the class |
| Config.ScanToken | src/config.c:33 | a `%s` token is non-empty and has no white space |
| Config.Header | src/config.c:25-26 | a header title is non-empty and holds no `]` |
| Config.ScanInt | src/config.c:35-58 | `%d` after white space: nothing left reads nothing; a leading digit reads a non-negative value; a negative value needs a leading `-`; a character other than a sign or digit reads nothing |
| Config.LineApplied | src/config.c:22-59 | a skipped line changes nothing; a header line sets the section to its title and changes no field; otherwise the section is kept |
| Config.Parsed | src/config.c:20-60 | no lines change nothing; the final section is the starting one or a non-empty title without `]` |
| Config.LoadConfig | src/config.c:9-64 | a missing file returns false and leaves the configuration as it was; any other file returns true and leaves what `Parsed` gives |
| Config.ParsedAppend | src/config.c:20-60 | loading a + b is loading b from where a leaves off |
| Config.SkippedLinesIgnored | src/config.c:22-23 | comment and blank lines change neither fields nor section |
| Config.HeaderOf | src/config.c:25 | spaces, `[`, a title without `]`, then `]` or the end, read as that title |
| Config.BracketNotSkipped | src/config.c:22-25 | a line starting with spaces and `[` is not skipped |
| Config.HeaderSetsSection | src/config.c:25-26 | a header line sets the section to its title and changes no field |
| Config.HeaderThen | src/config.c:25-26 | a header line followed by any lines loads those lines under the header's section |
| Config.KeyLineFrame | src/config.c:31-59 | outside the four sections key lines change nothing; inside one, only that section's fields can change |
| Config.KeyPrefix | src/config.c:33-57 | a key ending at its only `=` begins a line exactly when it is the line's start up to its first `=` |
| Config.StartsWithOnly | src/config.c:33-57 | of such keys, a line `key + v` begins only with `key` |
| Config.VideoKeysOf | src/config.c:33-41 | which [Video] keys a line `key + v` begins with |
| Config.AudioKeysOf | src/config.c:45-48 | which [Audio] keys a line `key + v` begins with |
| Config.IntKeyLine | src/config.c:35-58 | a line `key + value` under the key's section sets that key's field when the value is an integer (a flag to true iff it is non-zero) and changes nothing otherwise |
| Config.LaterKeyWins | src/config.c:35-58 | of two lines for the same key the later integer wins |
| Config.WindowNameLine | src/config.c:33-34 | window_name= takes the first token after the `=`; no token keeps the name |
| Config.UnknownVideoKey | src/config.c:31-42 | a line beginning with no [Video] key changes nothing under [Video] |
| Config.UnknownAudioKey | src/config.c:43-49 | a line beginning with no [Audio] key changes nothing under [Audio] |
| Config.IntToDec | src/config.c:76-89 | `%d` prints a minus sign only for negatives, then the digits of the magnitude |
| Config.KeyLines | src/config.c:76-89 | one `key=value` line per key, in order |
| Config.GroupLines | src/config.c:74-89 | a printf run: the header, the name line when named, the key lines, the trailing blank line when there is one |
| Config.PrintConfig | src/config.c:67-90 | no configuration prints nothing; otherwise 19 strings, with [Video], [Audio], [Game] and [Debug] at 0, 8, 14 and 17 and blank lines at 7, 13 and 16 (they are the lines read back when the name is a token, `Config.PrintedAreLines`) |
| Config.ScanIntOfIntToDec | src/config.c:76-89 | `%d` reads back what `%d` printed, up to the newline |
| Config.IntLineApplied | src/config.c:35-58 | a printed `key=value` line loaded under its section sets exactly that field to the printed value |
| Config.NameLineInert | src/config.c:75 | the printed `name=` line is not a key the loader reads |
| Config.KeyLinesLoad | src/config.c:76-89 | the printed key lines of one section, loaded under it, copy exactly those fields |
| Config.GroupBodyLoads | src/config.c:75-89 | for a name without white space, what follows a printed header loads exactly that group's fields |
| Config.GroupLoads | src/config.c:74-89 | for a name without white space, a printed group, loaded under any section, sets the section to its title and copies exactly its fields |
| Config.TwoGroupsLoad | src/config.c:74-89 | for a name without white space, two printed groups load as the first, then the second |
| Config.AllGroupsLoad | src/config.c:74-89 | for a name without white space, loading all four printed groups restores every numeric and boolean field and ends in [Debug] |
| Config.PrintThenLoad | src/config.c:67-90 | for a name without white space (what `%s` stores), reloading printConfig's output from any state restores every field but the name, and ends in [Debug] |
| Config.VideoLineName | src/config.c:33-34 | under [Video] the name becomes the token after `window_name=`, or is kept when there is none |
| Config.KeyLineName | src/config.c:31-59 | a key line changes the name only under [Video], and then to the token after `window_name=` |
| Config.LineKeepsTokenName | src/config.c:22-59 | a line of the file keeps the name free of white space |
| Config.ParsedKeepsTokenName | src/config.c:20-60 | loading any lines from a name without white space leaves a name without white space |
| Config.KeyTextNoNewline | src/config.c:76-89 | no printed key holds a newline |
| Config.KeyLineIsLine | src/config.c:76-89 | a printed `key=value` line is one line: it ends in its only newline |
| Config.GroupLinesAreLines | src/config.c:74-89 | for a name without white space, every string a group prints is one line |
| Config.PrintedAreLines | src/config.c:67-90 | for a name without white space, every string printConfig prints is one line, so the printed strings are the lines fgets reads back |
| Tools.BinarySearch | src/tools.c:12-27 | the result is −1 or an index in [left, right] holding the key; an empty range gives −1; a key absent from the range gives −1; a sorted range that holds the key gives an index |
| Img.AssignRect | src/img.c:102-120 | a present rectangle becomes (0, 0, w, h) when the texture is present and both sizes are positive; it is untouched otherwise |
| Img.AssignRectIdempotent | src/img.c:102-120 | assigning a rectangle twice is assigning it once |
| Img.FirstFailure | src/img.c:51-73 | the first image whose step fails, every one before it having succeeded |
| Img.Loaded | src/img.c:49-73 | a fully loaded library has n = file count, one texture per file and rectangle (0, 0, w, h) for each texture with a positive size |
| Img.CreatedBefore | src/img.c:55-62 | the textures created before the loop gave up: one per earlier file, plus this one when it decoded |
| Img.FreeTextureLib | src/img.c:78-94 | NULL is ignored; otherwise every present texture among the first n is destroyed, and the library is left empty with n = 0, so a second free destroys nothing |
| Img.Initialised | src/img.c:23-76 | n is 0 or the file count; n > 0 exactly when the listing is non-empty, both arrays were allocated and every image loaded, and then the library is complete and is exactly `Loaded` of the images; a rollback leaves the empty library |
| Img.InitTextureLib | src/img.c:23-76 | initTextureLib returns what `Initialised` says |
| Img.LoadImages | src/img.c:51-73 | the loop builds the loaded library when every image loads, and otherwise empties it, destroying the textures made so far |
| Img.IsLoaded | src/img.c:62-71 | arrays filled slot by slot from every image make up the loaded library |
| Img.FailsAt | src/img.c:55-69 | the loop fails first at the first image whose decode or rectangle allocation fails |
| Img.RollBack | src/img.c:78-94 | the rollback destroys exactly the textures the loop created |
| TextCache.Rendered | src/text.c:69-88 | rendering keeps content, colour, font and position; a texture exists only when there is content and the rasteriser succeeded, and it is the created one; otherwise the size is kept; on success the size is the surface's |
| TextCache.RenderIgnoresOldTexture | src/text.c:71-75 | the previous texture never affects the result: it is always released |
| TextCache.RenderTwice | src/text.c:69-88 | rendering twice with the same rasteriser outcome is rendering once |
| TextCache.SetTo | src/text.c:119-128 | the content becomes the given one; colour, font and position are kept; equal non-null content changes nothing; otherwise a texture exists exactly when the new content is non-empty, the rasteriser succeeded and a texture was created |
| TextCache.SetSameIsNoop | src/text.c:119-128 | equal non-null content changes nothing, whatever the rasteriser would do; any other call leaves the given content |
| TextCache.SetIdempotent | src/text.c:119-128 | setting the same content twice is setting it once |
| TextCache.CreatedColored | src/text.c:101-116 | position, colour, font and content as given; null content gives the blank text |
| TextCache.Created | src/text.c:95-98 | Text_Create is white, at (x, y), with the given content |
| TextCache.CreateIsSetOnBlank | src/text.c:101-116 | creating a text is setting its content on a blank text |
| TextCache.Freed | src/text.c:138-145 | no texture, no content; rectangle, colour and font kept |
| TextCache.FreeTwice | src/text.c:138-145 | freeing twice is freeing once, and a freed text renders to nothing |
| TextCache.Text.CreateColored | src/text.c:101-116 | the object's fields are what `CreatedColored` says |
| TextCache.Text.Create | src/text.c:95-98 | the object's fields are what `Created` says |
| TextCache.Text.Render | src/text.c:69-88 | the old texture is released; the fields are what `Rendered` says |
| TextCache.Text.Set | src/text.c:119-128 | the old texture is released unless nothing changes; the fields are what `SetTo` says |
| TextCache.Text.Draw | src/text.c:131-135 | something is drawn exactly when there is a texture, at the text's rectangle |
| TextCache.Text.Free | src/text.c:138-145 | the old texture is released; the fields are what `Freed` says |
| Sound.Done | src/sound.c:14-25 | only a channel in [0, 16) whose slot is in use is touched: its chunk is freed and the slot becomes empty and unused; any other call changes nothing |
| Sound.Played | src/sound.c:52-83 | without audio or a loaded chunk nothing changes and nothing is freed; a failed playback (−1) frees the loaded chunk and keeps the table; a channel in [0, 16) records the chunk as in use; any other channel changes nothing and frees nothing |
| Sound.EventsKeepTidy | src/sound.c:14-25 | both events keep every slot in use exactly when it holds a chunk |
| Sound.PlayThenDone | src/sound.c:14-25 | a chunk played on channel c is the one freed when c finishes, the slot is then idle, and a second callback does nothing |
| Sound.PlayedChangesOneSlot | src/sound.c:54-82 | only a successful playback on a channel of the table changes the table, and only that slot |
| Sound.ChannelTable.constructor | src/sound.c:12 | every slot empty and unused |
| Sound.ChannelTable.ChannelDone | src/sound.c:14-25 | the table moves as `Done` says and the freed chunk is returned |
| Sound.ChannelTable.PlayAndFreeSfx | src/sound.c:52-83 | the table moves as `Played` says and the freed chunk is returned |
| Sound.Initialised | src/sound.c:85-122 | a library is returned exactly when audio works, the listing is non-empty and both callocs succeed; it has n = file count and slot i holds what loading file i returned, NULL for a NULL name |
| Sound.PartialLoadKept | src/sound.c:109-121 | a file that fails to load leaves its slot NULL and the library is still returned with every file counted |
| Sound.InitLib | src/sound.c:85-161 | the build loop returns what `Initialised` says |
| Sound.InitSfxLib | src/sound.c:85-122 | initSfxLib returns what `Initialised` says |
| Sound.InitMusicLib | src/sound.c:124-161 | initMusicLib returns what `Initialised` says |
| Sound.FreeLib | src/sound.c:163-197 | NULL is ignored; otherwise every non-NULL entry among the first n is released in order and the struct is left with a NULL array and n = 0 |
| Sound.FreeSfxLib | src/sound.c:163-179 | as FreeLib, for sound effects |
| Sound.FreeMusicLib | src/sound.c:181-197 | as FreeLib, for music |
| Sound.FreeAfterInit | src/sound.c:163-179 | freeing a freshly built library releases exactly the handles that loaded, in file order |
| Engine.InitialisedPlayable | src/engine.c:61-65 | what initSfxLib returns can be read by the digit keys |
| Engine.SfxAt | src/engine.c:86-88 | a chunk plays exactly when the library is not NULL, the index is below n and the slot is not NULL, and it is that slot's chunk |
| Engine.Step | src/engine.c:71-105 | INSTANCE survives an event exactly when it held and the event is neither Quit nor Escape; only digit keys play, the chunk `SoundOf` gives; key-up, wheel and other events change nothing |
| Engine.DigitKeyPlays | src/engine.c:84-89 | key d in 1..9 plays chunk d − 1 exactly when the library is not NULL, d − 1 < n and that slot holds the chunk |
| Engine.Polled | src/engine.c:66-107 | draining never sets INSTANCE, and plays at most one chunk per event |
| Engine.PolledInstance | src/engine.c:69-83 | INSTANCE survives a poll exactly when it held and no event of the queue is a Quit or an Escape |
| Engine.PolledSounds | src/engine.c:69-106 | the chunks played are those of the digit keys in the queue, in order, even behind a Quit or an Escape |
| Engine.PolledSplit | src/engine.c:69-106 | draining a queue in two polls is draining it in one |
| Engine.PolledSnoc | src/engine.c:69-106 | polling one more event after a prefix of the queue adds that event's step to the prefix's result |
| Engine.ToInt32 | src/engine.c:110-112 | storing a Uint32 into an int gives a value in the int range whose Uint32 reading is the original |
| Engine.DeltaBetweenFrames | src/engine.c:110-112 | deltatime is measured from the previous frame's tick, the plain difference unless the tick counter wrapped, then that difference plus 2^32 |
| Engine.Delay | src/engine.c:117-119 | a delay happens exactly when the Uint32 elapsed time is below FRAME_TIME_MS, and it is FRAME_TIME_MS minus that time, in (0, FRAME_TIME_MS] |
| Engine.FramePadding | src/engine.c:117-119 | FRAME_TIME_MS is 16; a frame shorter than that is padded to exactly 16 ms, a longer one does not wait |
| Engine.Attempted | src/engine.c:20-59 | the steps run are a non-empty prefix of a non-empty order; every step before the last run is not a failed fatal one, and a stop before the end is at a failed fatal step |
| Engine.AttemptedPrefix | src/engine.c:20-59 | the calls made are the start of the call order |
| Engine.GameInit | src/engine.c:20-59 | Game_Init succeeds exactly when every call other than initAudio does, and makes the calls `Attempted` lists |
| Engine.InitOrdering | src/engine.c:22-52 | loading the configuration comes first; success runs every step; a failure ends at a failed fatal step after every earlier fatal one succeeded; initAudio's outcome changes nothing |
| Engine.Session | main.c:9-14 | a session runs at most the frames given |
| Engine.SessionStops | main.c:9-14 | the loop stops at the first frame holding a Quit or an Escape, and runs every frame when there is none |
| Engine.Engine.constructor | src/engine.c:7-16 | INSTANCE true, Last_frame 0, deltatime 0, MarioLib NULL |
| Engine.Engine.Setup | src/engine.c:61-65 | MarioLib is the library initSfxLib returned |
| Engine.Engine.KeyboardInput | src/engine.c:66-107 | INSTANCE and the chunks played are what `Polled` says |
| Engine.Engine.HandleEvent | src/engine.c:71-105 | one event moves INSTANCE and plays as `Step` says |
| Engine.Engine.UpdateFrame | src/engine.c:108-120 | deltatime is the Uint32 tick difference in seconds, Last_frame the tick as an int, and the delay is `Delay` |
| Engine.Engine.Destroy | src/engine.c:130-143 | the sound library is freed, with its chunks released, and MarioLib becomes NULL |
| Engine.Engine.Frame | main.c:11-13 | one pass of the loop moves INSTANCE and plays as `Polled` says |
| Engine.Engine.Loop | main.c:9-14 | the frames run and the chunks played are what `Session` says |
| Engine.Engine.Run | main.c:3-23 | INSTANCE is Game_Init's result; a failure runs nothing and skips Game_Destroy; a success installs the library, runs the frames `Session` says, and frees the library |

## Left out

- Drawing (Sprite_Draw, ASprite_Draw, drawImage, drawImageF, Game_Render, the sprite and selector drawing of renderFrameDebug, renderRect) has no state the model can see. Text_Draw is modelled only as what it would copy.
- Floating point is not modelled. Time, dt, zoom and deltatime are exact reals. The float-to-int truncation of the zoomed sprite rectangle is left out, and whether a mouse press lands on the sprite is an input.
- SDL, SDL_image, SDL_ttf, SDL_mixer and Nuklear are not modelled. Their results are inputs, and their handles are opaque identities. This leaves out initTexture, quitTexture, initAudio, quitAudio, Text_InitSystem and Text_QuitSystem.
- SDL_mixer calls channelDoneCallback on its audio thread. The model treats each call as a sequential event, and Mix_ChannelFinished's registration is not modelled.
- Directory listing (filesInDir, fillArr, getFilesFromDir) and path building with snprintf are not modelled. The listing is an input. getFilesFromDir, freeStringArray and GetTextureSize are not part of this model.
- Memory that is not freed is not tracked. This covers the listing initSfxLib drops when audio fails, the names freed in the build loops, and leaks on allocation-failure paths.
- The buffer overflows of title[64] and strcpy in loadConfig, and fgets splitting lines longer than 255 characters, are C undefined or size-bound behaviours. The model reads a file as its whole lines.
- arduinoConnect (opening and configuring the serial port) and the ARDUINO_DEBUG and CFG_DEBUG test mains are left out.
- renderDebugMenu's buttons, renderPerfMetrics, and the font-debug panel (toggleFontDebug, exitFontDebug, renderFontDebug, reloadDebugFont, rebuildFontPreview) are Nuklear and TTF plumbing and are left out. Only their flags are modelled, as toggleDebugMenu clears them.
- src/gui.c, src/jsonHandle.c and the three note files (GTK_notes.c, SDL_Notes.c, Nuklear_notes.c) are not part of this model.
- Engine.GameInit: the configuration loadConfig reads, and the window title, size and fullscreen flag passed on to SDL_CreateWindow, are not carried. Its success is an input, and Config.LoadConfig models the loader itself.
- Engine.Engine.Run: SDL's loop runs until INSTANCE is cleared. The model runs over a finite list of frames and also stops when that list is exhausted. The error exit of main is modelled as returning before Game_Destroy.
- Engine.Engine.UpdateFrame: storing a Uint32 above the int range into Last_frame is implementation-defined in C. The model takes the two's-complement reading.
- Config.PrintThenLoad, Config.AllGroupsLoad, Config.TwoGroupsLoad, Config.GroupLoads and Config.GroupBodyLoads are stated for names without white space, which is what the loader's `%s` stores. A name holding white space, such as one set by other code, prints lines that do not read back one for one.
- Sprites.Create and Sprites.CreateFromSheet require fps > 0. In C, fps = 0 gives an infinite frame duration, and a negative fps gives a negative duration on which Anim_Update's loop (src/sprites.c:74) never ends once there is more than one frame.
- TextCache.CreatedColored and TextCache.SetTo always copy the content. A strdup that returns NULL (src/text.c:111 and 126) would leave the content NULL; that is not modelled.
- 32-bit int overflow is not modelled in the grid arithmetic of Anim_CreateFromSheet (src/sprites.c:49-50), in the selector steps of handleDebugEvent (src/debugging.c:466-469), or in loadConfig's `%d`, which reads any decimal as an unbounded integer.
- The globals MouseX, MouseY and font of engine.c are never updated by the core and are left out.
