# Three.js music visualiser: effects engine, in Dafny

This project models the effects engine of a browser music visualiser built
on Three.js, together with the small helpers around it that hold real logic.

- **Effects manager** (`scheduler.dfy`, class `EffectsManager`). It keeps an
  ordered list of click effects and an ordered list of idle effects. Every
  frame it dispatches `update` to all of them, clicks first. While the mouse
  button is held, every 30 ms it dispatches `onClick` to the active click
  effects. It switches effects on and off by name and clears them. A trace of
  dispatches records the order of these calls.
- **Effects and their cube collections** (`effect.dfy`, `click_effects.dfy`,
  `idle_effects.dfy`). Each effect owns an ordered array of cube meshes that
  it appends to, splices, evicts from the front, fades and filters. The scene
  is a set of children (`render.dfy`). Cubes are objects, so a cube stored
  twice in an array (as ClickSnake does) is one cube. Effects covered:
  - the base `Effect`;
  - `ClickSnake`, with its double push, single eviction and
    splice-inside-forEach fade;
  - `DragSpiral`, with its distance gate, trail cap, ring spawn, eviction
    loop, fade and filter, and beat pulse;
  - `RandomCubes`;
  - `Kaleidoscope`, with clamped setters, spectrum resampling and hue wrap;
  - `SimulatedDrag` (`scheduler.dfy`), the idle effect that drives the
    manager's click effects with a virtual cursor every third frame.
- **Audio analysis** (`audio.dfy`): 32-band averaging of the byte spectrum,
  the bass-threshold beat rule with its 200 ms cooldown, the beat detector's
  history of at most 10 entries with read-and-reset `getBeat`, the clamped
  setters, and the normalised level getters.
- **Settings helpers**:
  - writes of one property into effects by name (`effect_controls.dfy`);
  - the orbit camera's drag and zoom state (`camera.dfy`);
  - slider ranges (`slider.dfy`);
  - colour palettes (`palettes.dfy`);
  - gradient state and CSS text (`gradient.dfy`);
  - upload validation and size and duration formatting (`mp3.dfy`, with
    string helpers in `text.dfy`).

Numbers are exact reals. Randomness, clocks, trigonometry and colour
conversion come from a `Render.Host` object that methods take as a
parameter. Its `Random` method promises only a value in [0, 1).

Stateful source code is modelled as classes with `modifies` frames and loops
with invariants. Each method's postcondition ties its new state to a
specification function, and lemmas prove the promised properties of those
functions. Pure source code is modelled as functions and lemmas.

## Model

| member | source | states |
|---|---|---|
| EffectBase.LoopCount | effects/clickEffects/DragSpiral.js:87 | how often `for (let i = 0; i < x; i++)` runs: 0 for x <= 0, otherwise the least count n with n >= x |
| EffectBase.RealRem | effects/clickEffects/DragSpiral.js:106 | JavaScript `%` on numbers: for a non-negative dividend (the hue `cubeCounter * colorShift`) the remainder lies in [0, n), and a dividend below n is its own remainder |
| EffectBase.Spin | effects/Effect.js:24-27 | the forEach over cubeArray keeps the set of cubes: the map's keys are unchanged |
| EffectBase.TurnedTwice | effects/Effect.js:25-26 | two turns by d and e add up to one turn by d + e |
| EffectBase.OccurrencesAbsent | effects/Effect.js:24 | a cube occurs zero times in the array exactly when it is not in it |
| EffectBase.SpinTurnsByMultiplicity | effects/Effect.js:23-28 | a cube stored k times in cubeArray turns by k times the speed about x and y; z and every other field stay |
| EffectBase.SpinLeavesOthers | effects/Effect.js:24-27 | a cube that is not in cubeArray keeps its state |
| EffectBase.Rotated | effects/Effect.js:23-28 | the update keeps the set of cubes and changes nothing when rotationSpeed <= 0 |
| EffectBase.Apply | effects/clickEffects/DragSpiral.js:146-155 | a forEach that updates each cube of a set once keeps the set of cubes |
| EffectBase.ApplyPrefixStep | effects/clickEffects/DragSpiral.js:146-155 | over an array without repeats, the i-th cube is updated exactly once and then holds its final state |
| EffectBase.Survivors | effects/clickEffects/DragSpiral.js:158-164 | the filter keeps exactly the cubes with opacity above 0, in array order, and never grows |
| EffectBase.SurvivorsAppend | effects/clickEffects/DragSpiral.js:158-164 | filtering keeps order: the survivors of a + b are the survivors of a followed by those of b |
| EffectBase.SurvivorsDistinct | effects/clickEffects/DragSpiral.js:158-164 | an array without repeated cubes keeps that property when filtered |
| EffectBase.FadedOut | effects/clickEffects/DragSpiral.js:158-164 | the cubes the filter drops (and removes from the scene) are exactly those with opacity at most 0 |
| EffectBase.RemoveAt | effects/clickEffects/ClickSnake.js:73 | `splice(i, 1)` shortens the array by one, keeps the entries before i and shifts those after it down |
| EffectBase.RemoveAtKeepsOrder | effects/clickEffects/ClickSnake.js:73 | removing entry \|a\| from a + [x] + b leaves a + b |
| EffectBase.NewCubeState | effects/Effect.js:46-55 | a new cube sits at the given position, fully opaque, at scale 1 |
| EffectBase.NewCubeColor | effects/Effect.js:34-44 | random colours unpack the colour number into channels; otherwise the fixed CSS colour is used |
| EffectBase.Effect.constructor | effects/Effect.js:5-11 | no cubes, rotation speed 0.02, random colours, fixed colour #ff00ff, inactive; scene, camera and pointer unset |
| EffectBase.Effect.SetActive | effects/Effect.js:13-15 | stores the flag |
| EffectBase.Effect.Update | effects/Effect.js:17-29 | stores camera, scene and pointer, and turns every cube of cubeArray by the rotation speed when it is positive |
| EffectBase.Effect.CreateCube | effects/Effect.js:31-71 | a fresh cube of the given size is appended to cubeArray with its new state and added to the scene |
| EffectBase.Effect.Clear | effects/Effect.js:73-78 | every cube of the array leaves the scene and the array becomes empty |
| EffectBase.Effect.RemoveCube | effects/clickEffects/ClickSnake.js:71-74 | entry i leaves the array (order kept) and its cube leaves the scene; an index past the end changes nothing |
| EffectBase.Effect.SetProperty | ui/effect-control-utils.js:90 | `effect[p] = v` makes p read back v when the value has the field's kind, and no other property changes |
| Render.Scene.constructor | main.js:7 | a new scene has no children |
| Render.Scene.Add | effects/Effect.js:69 | `scene.add` adds the child once |
| Render.Scene.Remove | effects/Effect.js:75 | `scene.remove` takes the child out; removing an absent one changes nothing |
| Render.Scene.AddMesh | effects/idleEffects/Kaleidoscope.js:168 | adding the mesh records this scene as its parent and takes it out of its former parent |
| Render.Scene.RemoveMesh | effects/idleEffects/Kaleidoscope.js:171 | removing a child clears its parent; anything else is left alone |
| Render.Channels | effects/Effect.js:37-39 | the three masked bytes each lie in [0, 256) and pack back to the colour modulo 2^24 |
| Render.Unpack | effects/Effect.js:36-40 | a colour number becomes three channels in [0, 1] that pack back to its integer part |
| Render.ChannelsRoundTrip | effects/Effect.js:37-39 | for a 24-bit colour, packing the three channels gives the colour back |
| Render.Host.Random | effects/idleEffects/RandomCubes.js:27 | `Math.random()` yields a value in [0, 1), recorded in the draws taken |
| Slider.SliderRange | ui/slider-utils.js:9-43 | with both bounds given the range is exactly those bounds, step `step \|\| 'auto'`; with no overrides the default lies within [min, max] and the step is positive |
| Slider.SingleOverride | ui/slider-utils.js:38-42 | a single override replaces only its own field of the computed range, whatever the default |
| Slider.ZeroDefaultMax | ui/slider-utils.js:16-20 | a zero default gives [0, max or 1] with step 0.01, and a given max of 0 is kept by the `??` |
| Slider.DefaultBands | ui/slider-utils.js:21-36 | the small, negative and large default bands give their ranges; a large default gets integer bounds and a whole step of at least 1 |
| Gradient.StopPercent | ui/gradient-manager.js:43-45 | `(i / (n - 1) * 100).toFixed(0)` is the nearest whole percent, at most 100 |
| Gradient.GradientManager.constructor | ui/gradient-manager.js:9-12 | the four state variables start at their defaults |
| Gradient.GradientManager.SetGradient | ui/gradient-manager.js:20-22 | stores the key |
| Gradient.GradientManager.SetDirection | ui/gradient-manager.js:24-26 | stores the direction |
| Gradient.GradientManager.SetOpacity | ui/gradient-manager.js:28-30 | stores the opacity |
| Gradient.GradientManager.SetAngle | ui/gradient-manager.js:32-34 | stores the angle |
| Gradient.GradientManager.GradientCSS | ui/gradient-manager.js:36-63 | the CSS is the radial opening or the linear opening with the current angle, then the colour list, then ")" |
| Gradient.ShortColorLists | ui/gradient-manager.js:38-41 | one colour is emitted twice; two colours are emitted without percentages |
| Gradient.StopEnds | ui/gradient-manager.js:43-45 | with three or more colours the stops start at 0%, end at 100% and never go backwards |
| Gradient.StopsAreOnePerColor | ui/gradient-manager.js:57-59 | with three or more colours there is one stop per colour, the i-th naming colour i |
| Gradient.RadialIgnoresAngle | ui/gradient-manager.js:37-47 | a radial gradient does not depend on the current angle or any other state |
| Arith.Clamp | ui/camera-controller.js:64 | `Math.max(lo, Math.min(hi, x))`, shared with the audio analyser's clamps (effects/audioAnalyzer/AudioAnalyzer.js:177): lies in [lo, hi], is x when x already does, and is the nearer bound otherwise |
| CameraControl.ZoomStep | ui/camera-controller.js:84-85 | one wheel event zooms by +0.45 for a positive deltaY and by -0.45 otherwise |
| CameraControl.ZoomedRadius | ui/camera-controller.js:84-87 | the radius after a wheel event lies in [2, 50] and moves by at most 0.45 in the wheel's direction |
| CameraControl.ZoomRoundTrip | ui/camera-controller.js:84-87 | away from the bounds, zooming out and back in returns to the same radius |
| CameraControl.DraggedPhi | ui/camera-controller.js:61-64 | the polar angle after a drag lies in [0.1, pi - 0.1] and is unclamped inside that band |
| CameraControl.CameraController.constructor | ui/camera-controller.js:13-28 | not rotating, pointer at 0, radius 10, theta 0, phi pi/2 |
| CameraControl.CameraController.OnMouseDown | ui/camera-controller.js:43-51 | only the right button starts a rotation and records the pointer; the orbit is unchanged |
| CameraControl.CameraController.OnMouseMove | ui/camera-controller.js:53-71 | while rotating, theta turns by the x delta, phi by the clamped y delta, and the pointer is recorded; otherwise nothing changes |
| CameraControl.CameraController.OnMouseUp | ui/camera-controller.js:73-78 | only the right button ends a rotation |
| CameraControl.CameraController.OnWheel | ui/camera-controller.js:81-90 | the radius takes one clamped zoom step; nothing else changes |
| CameraControl.CameraController.ResetCamera | ui/camera-controller.js:111-116 | radius 10, theta 0, phi pi/2; the pointer state is kept |
| CameraControl.CameraController.SetCameraPosition | ui/camera-controller.js:119-124 | stores the three coordinates as given, without clamping |
| CameraControl.WheelRun | ui/camera-controller.js:81-90 | any non-empty run of wheel events leaves the radius in [2, 50], whatever it started at |
| Palettes.PalettesNonEmpty | ui/ui-color-palettes.js:20-91 | every palette holds at least five colours |
| Palettes.JsRem | ui/ui-color-palettes.js:108 | JavaScript `%`: the remainder has the sign of the dividend and is the Euclidean one for a non-negative dividend |
| Palettes.ColorFromPalette | ui/ui-color-palettes.js:99-111 | a key outside the table gives white, except a name inherited from `Object.prototype` ("toString", "constructor", …), which throws a TypeError; random mode gives one of the palette's colours; cycle mode gives colour counter mod length; `undefined` comes only from a negative counter in cycle mode |
| Palettes.RandomIndex | ui/ui-color-palettes.js:104 | `Math.floor(draw * n)` is a valid index |
| Palettes.CyclePeriod | ui/ui-color-palettes.js:107-109 | cycle mode repeats with the palette's length as period |
| Palettes.DefaultCounterIsFirst | ui/ui-color-palettes.js:99 | the default counter 0 picks the first colour of a cycle palette |
| Palettes.NegativeCounterUndefined | ui/ui-color-palettes.js:108-109 | a negative counter that is not a multiple of the length yields `undefined` |
| Text.DigitChar | ui/gradient-manager.js:44 | a digit value becomes its decimal character |
| Text.NatToString | ui/gradient-manager.js:44 | the decimal rendering of a natural number has no leading zero and one digit exactly below 10 |
| Text.ParseNatToString | ui/gradient-manager.js:44 | reading the digits back gives the number |
| Text.IntToString | ui/gradient-manager.js:53 | an integer renders with a leading '-' exactly when it is negative |
| Text.JoinLength | ui/gradient-manager.js:45 | `join(sep)` has the parts' total length plus one separator between each two parts |
| Text.PadTwo | effects/audioAnalyzer/mp3Converter.js:123 | `padStart(2, '0')` has length at least 2 and ends with the original text |
| Text.ToLower | effects/audioAnalyzer/mp3Converter.js:130 | lowercasing keeps the length, maps each letter and leaves no upper-case letter |
| Text.LowerKeepsAbsent | effects/audioAnalyzer/mp3Converter.js:130 | lowercasing does not bring in a non-letter character that was absent |
| Text.AfterLast | effects/audioAnalyzer/mp3Converter.js:130 | `split('.').pop()` is the suffix after the last separator, holds no separator, and is the whole text when there is none |
| Mp3.ValidateFile | effects/audioAnalyzer/mp3Converter.js:19-48 | a file is accepted exactly when its type is supported and 0 < size <= 50 MiB; otherwise the type, size and emptiness errors come in that order |
| Mp3.SizeLimitBoundary | effects/audioAnalyzer/mp3Converter.js:10 | exactly 50 MiB passes and one byte more is too large |
| Mp3.Pow1024 | effects/audioAnalyzer/mp3Converter.js:114 | `Math.pow(1024, i)` is at least 1 |
| Mp3.Log1024 | effects/audioAnalyzer/mp3Converter.js:112 | the unit index i satisfies 1024^i <= bytes < 1024^(i+1) |
| Mp3.FileSizeUnit | effects/audioAnalyzer/mp3Converter.js:107-115 | the text ends with a named unit exactly below 1024^4 bytes, and with "undefined" from there on |
| Mp3.FileSizeExamples | effects/audioAnalyzer/mp3Converter.js:107-115 | 0 gives "0 Bytes", 1024 gives "1 KB" and 1536 gives "1.5 KB" |
| Mp3.DurationParts | effects/audioAnalyzer/mp3Converter.js:120-124 | for s >= 0 the text is "m:ss" with two-digit ss below 60 and m * 60 + ss == floor(s) |
| Mp3.FileExtension | effects/audioAnalyzer/mp3Converter.js:129-131 | the extension is the lowercased text after the last dot, holds no dot, and is the whole lowercased name when there is no dot |
| Mp3.IsMp3 | effects/audioAnalyzer/mp3Converter.js:136-140 | an MP3 exactly when the type is audio/mpeg or audio/mp3, or the name's last three characters read "mp3" in any case and are the whole name or follow a dot |
| Mp3.UpperCaseExtensionIsMp3 | effects/audioAnalyzer/mp3Converter.js:136-140 | "Song.MP3" of a generic type counts as an MP3 |
| Mp3.InnerExtensionIsIgnored | effects/audioAnalyzer/mp3Converter.js:129-131 | only the text after the last dot counts: "song.mp3.wav" of type WAV is not an MP3 |
| Mp3.Mp3Converter.constructor | effects/audioAnalyzer/mp3Converter.js:8-14 | no current file |
| Mp3.Mp3Converter.ProcessFile | effects/audioAnalyzer/mp3Converter.js:53-79 | a rejected file yields its validation error and leaves the state alone; an accepted one becomes current and its info has duration 0 |
| Mp3.Mp3Converter.Dispose | effects/audioAnalyzer/mp3Converter.js:145-153 | no current file afterwards |
| Render.Cube.constructor | effects/Effect.js:52 | a new cube mesh has the given box size |
| Render.ShaderMesh.constructor | effects/idleEffects/Kaleidoscope.js:156 | a new shader mesh has no parent and no z rotation |
| ClickEffects.SnakeFade | effects/clickEffects/ClickSnake.js:50-56 | the spliced-array fade pass keeps every cube's entry in the state map and only array cubes in the array |
| ClickEffects.SnakeFadeShrinks | effects/clickEffects/ClickSnake.js:50-56 | the fade pass only takes entries out of the array |
| ClickEffects.SnakeFadeDims | effects/clickEffects/ClickSnake.js:52 | no opacity rises during the fade pass |
| ClickEffects.SnakeFadeLeavesOthers | effects/clickEffects/ClickSnake.js:50-56 | cubes not in the array keep their state |
| ClickEffects.SnakeFadeRemovesFaded | effects/clickEffects/ClickSnake.js:53-54 | every cube the pass takes out of the scene was in the array and ends with opacity at most 0 |
| ClickEffects.SnakeFadePass | effects/clickEffects/ClickSnake.js:48-57 | the whole pass keeps the set of cubes with state |
| ClickEffects.DuplicateFadesTwice | effects/clickEffects/ClickSnake.js:36-52 | a cube stored twice is visited twice and fades by 0.02 in one update |
| ClickEffects.SpliceSkipsNext | effects/clickEffects/ClickSnake.js:50-55 | after a splice the next entry slides into the visited slot and does not fade that frame |
| ClickEffects.FadedTwinStaysInArray | effects/clickEffects/ClickSnake.js:36-55 | when the first of a click's two entries fades out, its cube leaves the scene while the skipped twin stays in the array |
| ClickEffects.SnakePush | effects/clickEffects/ClickSnake.js:31-41 | a click appends the new cube twice and drops the front entry exactly when the array then exceeds maxLength |
| ClickEffects.SnakeLength | effects/clickEffects/ClickSnake.js:36-41 | one click grows the snake by 2, or by 1 exactly when it passes the cap |
| ClickEffects.SnakeOutgrowsCap | effects/clickEffects/ClickSnake.js:38-41 | maxLength does not bound the snake: k clicks leave at least k entries, and exactly 2k within the cap |
| ClickEffects.ClickSnake.constructor | effects/clickEffects/ClickSnake.js:6-17 | an empty, inactive snake with the given cap and autoFade flag |
| ClickEffects.ClickSnake.OnClick | effects/clickEffects/ClickSnake.js:19-42 | a fresh cube of size 0.5 at the ray hit, z jittered within [z - 0.1, z + 0.1), coloured from the second draw, stored twice, the front entry evicted past maxLength; the scene gains the cube and loses the evicted one |
| ClickEffects.ClickSnake.Update | effects/clickEffects/ClickSnake.js:44-59 | the base update turns the cubes; with autoFade the array, states and scene are those of the fade pass, otherwise the array and scene are unchanged |
| ClickEffects.ClickSnake.FadePass | effects/clickEffects/ClickSnake.js:50-56 | the array, cube states and scene after the loop are exactly those of the fade pass |
| ClickEffects.ClickSnake.SetActive | effects/clickEffects/ClickSnake.js:61-63 | stores the flag |
| ClickEffects.ClickSnake.Clear | effects/clickEffects/ClickSnake.js:65-69 | every cube of the array leaves the scene; the array itself is kept |
| ClickEffects.ClickSnake.RemoveCube | effects/clickEffects/ClickSnake.js:71-74 | entry i leaves the array (order kept) and its cube the scene; an index past the end changes nothing |
| ClickEffects.ClickSnake.SetProperty | ui/effect-control-utils.js:90 | `snake[p] = v` makes p read back v when the value has the property's kind, and no other property changes |
| ClickEffects.PushPoint | effects/clickEffects/DragSpiral.js:76-81 | the drag path gains the point at its end and keeps at most the newest 20 points |
| ClickEffects.Evicted | effects/clickEffects/DragSpiral.js:131-136 | the cleanup never removes more entries than there are |
| ClickEffects.EvictionEnforcesCap | effects/clickEffects/DragSpiral.js:131-136 | after the cleanup at most maxCubes entries remain: exactly floor(maxCubes) when over the cap, none removed within it, all for a negative cap |
| ClickEffects.BeatStrength | effects/clickEffects/DragSpiral.js:184 | `Math.min(intensity \|\| 1, 2)`: at most 2, a zero intensity counts as 1 |
| ClickEffects.TargetOpacity | effects/clickEffects/DragSpiral.js:239 | the volume's opacity target is at most 1, and at least 0.6 for a non-negative volume |
| ClickEffects.Pulsed | effects/clickEffects/DragSpiral.js:173-181 | pulseToBeat keeps the set of cubes and changes nothing without an analyser |
| ClickEffects.PulseBurstCapped | effects/clickEffects/DragSpiral.js:191-240 | after a beat burst the opacity is at most 1 |
| ClickEffects.PulseKeepsOpacityInUnit | effects/clickEffects/DragSpiral.js:191-240 | an opacity in [0, 1] stays there for a non-negative volume and intensity |
| ClickEffects.PulseEasesOpacity | effects/clickEffects/DragSpiral.js:239-240 | without a beat the opacity closes 6% of its gap to the volume target |
| ClickEffects.PulseScaleOnBeat | effects/clickEffects/DragSpiral.js:187-208 | on a beat the scale lands between 1 and 1.8 for levels in [0, 1] |
| ClickEffects.ArmState | effects/clickEffects/DragSpiral.js:115-122 | an arm's cube is created opaque at scale 1 at its place and turned about z to the arm's angle |
| ClickEffects.RingGrows | effects/clickEffects/DragSpiral.js:87-125 | one more loop iteration extends the spawned ring by the arm's cube, state and size draw |
| ClickEffects.DragSpiral.constructor | effects/clickEffects/DragSpiral.js:19-43 | the ten settings as given; no cubes, empty drag path, angle and counter 0, no last point, no analyser |
| ClickEffects.DragSpiral.OnClick | effects/clickEffects/DragSpiral.js:45-83 | the first sample only records the point; a move over 0.1 spawns ceil(spiralArms) cubes, advances the angle by 0.2, evicts down to maxCubes (scene and array alike) and pushes the point onto the 20-point path; a shorter move changes nothing |
| ClickEffects.DragSpiral.CreateSpiralCubes | effects/clickEffects/DragSpiral.js:85-137 | one cube per arm at the arm's place, size and colour; the angle advances by 0.2; the oldest entries beyond maxCubes leave the array and the scene |
| ClickEffects.DragSpiral.SpawnArms | effects/clickEffects/DragSpiral.js:87-125 | the arm loop appends ceil(spiralArms) fresh cubes to the array and the scene, one draw and one counter step each |
| ClickEffects.DragSpiral.SpawnArm | effects/clickEffects/DragSpiral.js:88-124 | one arm: a fresh cube at the arm's place turned to its angle, sized by one draw, coloured by the counter, which goes up by one |
| ClickEffects.DragSpiral.Evict | effects/clickEffects/DragSpiral.js:131-136 | the oldest Evicted(n, maxCubes) entries leave the array and the scene |
| ClickEffects.DragSpiral.Update | effects/clickEffects/DragSpiral.js:139-165 | the base update, the beat pulse (which resets the beat), the fade and spin, then the filter: the array keeps the survivors in order and the faded-out cubes leave the scene |
| ClickEffects.DragSpiral.Animate | effects/clickEffects/DragSpiral.js:143-164 | pulse, fade and filter after the base update, with the same result as above |
| ClickEffects.DragSpiral.PulseToBeat | effects/clickEffects/DragSpiral.js:173-242 | without an analyser nothing changes; otherwise the beat is read and reset once and every cube gets the pulse step for that reading |
| ClickEffects.DragSpiral.ForEachCube | effects/clickEffects/DragSpiral.js:146 | a forEach applies the step once to each cube of the array |
| ClickEffects.DragSpiral.FadeAndSpin | effects/clickEffects/DragSpiral.js:146-155 | every cube loses fadeSpeed of opacity and spins when the speed is positive |
| ClickEffects.DragSpiral.RemoveFaded | effects/clickEffects/DragSpiral.js:158-164 | faded-out cubes leave the scene and the array; the rest keep their order |
| ClickEffects.DragSpiral.RemoveCube | effects/clickEffects/DragSpiral.js:244-250 | an existing entry leaves the array and its cube the scene; a missing index changes nothing |
| ClickEffects.DragSpiral.Clear | effects/clickEffects/DragSpiral.js:252-258 | the base clear, then an empty path, no last point, angle and counter 0 |
| ClickEffects.DragSpiral.SetActive | effects/Effect.js:13-15 | stores the flag |
| ClickEffects.DragSpiral.SetProperty | ui/effect-control-utils.js:90 | `spiral[p] = v` makes p read back v when the value has the property's kind, and no other property changes |
| IdleEffects.SpawnPosition | effects/idleEffects/RandomCubes.js:30-34 | three draws in [0, 1) place the cube in the fixed box x in (-20, 20], y in (-10, 10], z in [-20, 20) |
| IdleEffects.Capped | effects/idleEffects/RandomCubes.js:40-42 | at most the oldest entry goes, and it goes exactly when the array is longer than maxCubes |
| IdleEffects.CapHolds | effects/idleEffects/RandomCubes.js:26-53 | an array within the cap stays within it after one spawn, the single eviction and the filter |
| IdleEffects.Born | effects/idleEffects/RandomCubes.js:27-37 | the spawn step adds exactly the spawned cube, fully opaque |
| IdleEffects.SpawnedInBox | effects/idleEffects/RandomCubes.js:30-46 | with draws in [0, 1) a spawned cube starts in the spawn box and the fade leaves it there |
| IdleEffects.FadeLowersEach | effects/idleEffects/RandomCubes.js:45-46 | every cube of the array loses exactly the fade rate of opacity and nothing else; other cubes keep their state |
| IdleEffects.FadeCube | effects/idleEffects/RandomCubes.js:46-49 | one cube's opacity drops by the rate, and it leaves the scene exactly when it reaches 0 or less |
| IdleEffects.FadeAll | effects/idleEffects/RandomCubes.js:45-50 | every cube fades once and exactly the faded-out ones leave the scene |
| IdleEffects.RandomCubes.constructor | effects/idleEffects/RandomCubes.js:5-16 | the five settings as given; no cubes, inactive |
| IdleEffects.RandomCubes.Update | effects/idleEffects/RandomCubes.js:18-54 | inactive: only the base rotation and no draw. Active: one gate draw, a spawn exactly when it is below the spawn rate (four more draws, a fresh cube in the spawn box), the single eviction, the fade that takes faded cubes out of the scene, and the filter keeping the visible ones in order |
| IdleEffects.RandomCubes.Animate | effects/idleEffects/RandomCubes.js:26-53 | the active part of update, with the same result on the rotated states |
| IdleEffects.RandomCubes.Spawn | effects/idleEffects/RandomCubes.js:27-37 | one gate draw; on success four more draws and a fresh cube of cubeSize appended to the array and the scene |
| IdleEffects.RandomCubes.Evict | effects/idleEffects/RandomCubes.js:40-42 | the array becomes Capped(array, maxCubes) |
| IdleEffects.RandomCubes.RemoveCube | effects/idleEffects/RandomCubes.js:41 | `removeCube(i)` splices entry i out of the array without touching the scene; an index past the end changes nothing |
| IdleEffects.RandomCubes.FadeOut | effects/idleEffects/RandomCubes.js:45-50 | each cube fades by the rate and the faded-out ones leave the scene |
| IdleEffects.RandomCubes.KeepVisible | effects/idleEffects/RandomCubes.js:53 | the array keeps the cubes with opacity above 0, in order |
| IdleEffects.RandomCubes.SetActive | effects/Effect.js:13-15 | stores the flag |
| IdleEffects.RandomCubes.SetProperty | ui/effect-control-utils.js:90 | `randomCubes[p] = v` makes p read back v when the value has the property's kind, and no other property changes |
| IdleEffects.ResampleStep | effects/idleEffects/Kaleidoscope.js:222 | the step is at least 1 and is floor(len / bins) when that is at least 1 |
| IdleEffects.ResampleIndex | effects/idleEffects/Kaleidoscope.js:225 | the clamped index always lies inside the spectrum and is i * step when that does |
| IdleEffects.BinValue | effects/idleEffects/Kaleidoscope.js:226 | a bin holds the spectrum byte at the resampled index over 255, in [0, 1] |
| IdleEffects.Resampled | effects/idleEffects/Kaleidoscope.js:221-227 | the uniform keeps its length; the first ceil(bins) entries hold values in [0, 1] and the rest keep their old value |
| IdleEffects.ThirtyTwoBands | effects/idleEffects/Kaleidoscope.js:222-227 | with 32 bands and 120 bins, bins 0..31 copy the bands and the rest repeat the last band |
| IdleEffects.BeatUniform | effects/idleEffects/Kaleidoscope.js:216 | 0 without a beat; positive exactly on a beat for a non-negative intensity; the intensity itself when it is not 0 |
| IdleEffects.NextHue | effects/idleEffects/Kaleidoscope.js:231 | for non-negative inputs the hue stays in [0, 360) and advances unwrapped while it stays below 360 |
| IdleEffects.HueWrapsOnce | effects/idleEffects/Kaleidoscope.js:231 | with levels in [0, 1] one frame turns by less than a full turn, so the wrap subtracts exactly 360 |
| IdleEffects.Uniforms.constructor | effects/idleEffects/Kaleidoscope.js:35-45 | time 0, the given segments, radius and hue, a zeroed 120-entry spectrum, levels 0 |
| IdleEffects.Kaleidoscope.constructor | effects/idleEffects/Kaleidoscope.js:5-27 | 12 segments, radius 2, 120 bins, line width 2, hue 0, mirror alpha 0.7, no analyser, a fresh parentless mesh with its uniforms |
| IdleEffects.Kaleidoscope.SetActive | effects/idleEffects/Kaleidoscope.js:163-175 | the flag, then the mesh enters the known scene when activated and leaves it when deactivated; without a scene only the flag changes |
| IdleEffects.Kaleidoscope.Update | effects/idleEffects/Kaleidoscope.js:177-237 | the base update; inactive stops there. Active: the mesh joins the scene if parentless, time is perfNow * 0.001, the audio uniforms (levels, beat, resampled spectrum, wrapped hue) are fed when an analyser is attached, and the mesh turns by 0.001 |
| IdleEffects.Kaleidoscope.Animate | effects/idleEffects/Kaleidoscope.js:187-236 | the active part of update, with the same result |
| IdleEffects.Kaleidoscope.FeedAudio | effects/idleEffects/Kaleidoscope.js:206-233 | the analyser branch: the beat is read and reset, and the levels, beat, spectrum and hue go into the uniforms |
| IdleEffects.Kaleidoscope.Resample | effects/idleEffects/Kaleidoscope.js:221-227 | the uniform array after the loop is Resampled of its old value |
| IdleEffects.Kaleidoscope.SetAudioAnalyzer | effects/idleEffects/Kaleidoscope.js:239-241 | stores the analyser |
| IdleEffects.Kaleidoscope.SetSegments | effects/idleEffects/Kaleidoscope.js:244-247 | the segment count is clamped to [4, 64] and mirrored into the uniform |
| IdleEffects.Kaleidoscope.SetBaseRadius | effects/idleEffects/Kaleidoscope.js:249-252 | the radius is clamped to [0.5, 5] and mirrored into the uniform |
| IdleEffects.Kaleidoscope.SetLineWidth | effects/idleEffects/Kaleidoscope.js:254-256 | the line width is clamped to [0.5, 10] |
| IdleEffects.Kaleidoscope.SetProperty | ui/effect-control-utils.js:90 | `kaleidoscope[p] = v` makes p read back v when the value has the property's kind (neither clamped nor copied to a uniform), and no other property changes |
| Audio.SumBounds | effects/audioAnalyzer/AudioAnalyzer.js:224-226 | a sum of bytes lies in [0, 255 * count] |
| Audio.ToUint8 | effects/audioAnalyzer/AudioAnalyzer.js:228 | storing a number below 256 into a Uint8Array keeps its integer part |
| Audio.BandEnd | effects/audioAnalyzer/AudioAnalyzer.js:221-222 | band i ends at `min(start + bandSize, len)`, never before its start nor past the spectrum |
| Audio.MeanByte | effects/audioAnalyzer/AudioAnalyzer.js:228 | storing `sum / count` into a byte keeps the floor of the mean |
| Audio.Band | effects/audioAnalyzer/AudioAnalyzer.js:216-229 | a band is the floor of the mean of its bins; an empty band (fewer than 32 bins) stores 0 |
| Audio.Bands | effects/audioAnalyzer/AudioAnalyzer.js:216-230 | 32 bands, band i being Band(data, i) |
| Audio.BandsPartitionSpectrum | effects/audioAnalyzer/AudioAnalyzer.js:217-222 | for a spectrum of 32n bins every band covers exactly n bins inside the spectrum |
| Audio.FlatSpectrumBands | effects/audioAnalyzer/AudioAnalyzer.js:216-229 | a flat spectrum of at least 32 bins gives the same value in every band |
| Audio.BassAverage | effects/audioAnalyzer/AudioAnalyzer.js:237-238 | the mean of the first four bands lies in [0, 255] |
| Audio.ThresholdIsBelowOneByte | effects/audioAnalyzer/AudioAnalyzer.js:238-242 | the byte mean is compared with a threshold kept in [0, 1]: any first-four-band sum of at least 5 passes the level test once the cooldown has passed |
| Audio.BeatsStaySpaced | effects/audioAnalyzer/AudioAnalyzer.js:341-355 | a beat the rule lets through keeps the recorded beats more than 200 ms apart, the newest at the last beat time |
| Audio.PushBeat | effects/audioAnalyzer/AudioAnalyzer.js:346-354 | the history gains the beat at its end and keeps only the newest ten, oldest dropped first |
| Audio.HistoryRunBounded | effects/audioAnalyzer/AudioAnalyzer.js:346-354 | any run of beats keeps the history within ten entries, the latest beat last |
| Audio.BeatDetector.constructor | effects/audioAnalyzer/AudioAnalyzer.js:334-339 | empty history, threshold 0.3, last beat 0, no beat |
| Audio.BeatDetector.OnBeat | effects/audioAnalyzer/AudioAnalyzer.js:341-355 | the flag is set, the time recorded and the beat pushed onto the capped history |
| Audio.BeatDetector.GetBeat | effects/audioAnalyzer/AudioAnalyzer.js:357-368 | read and reset: reports the flag, the latest intensity (0 when none) and the time since the last beat, then clears the flag and nothing else |
| Audio.MediaElement.constructor | effects/audioAnalyzer/AudioAnalyzer.js:73 | a new audio element has volume 1 and time 0 |
| Audio.AudioAnalyzer.constructor | effects/audioAnalyzer/AudioAnalyzer.js:9-36 | no analyser or element, threshold 0.3, not playing, volume 1, times 0, 32 zeroed bands, a fresh beat detector |
| Audio.AudioAnalyzer.SetVolume | effects/audioAnalyzer/AudioAnalyzer.js:176-181 | the volume is clamped to [0, 1] and copied to the element when there is one |
| Audio.AudioAnalyzer.SeekTo | effects/audioAnalyzer/AudioAnalyzer.js:186-190 | with an element, its time becomes the request clamped to [0, duration]; without one nothing changes |
| Audio.AudioAnalyzer.SetBeatThreshold | effects/audioAnalyzer/AudioAnalyzer.js:307-309 | the threshold is clamped to [0, 1] |
| Audio.AudioAnalyzer.Update | effects/audioAnalyzer/AudioAnalyzer.js:195-211 | without an analyser or while not playing nothing changes; otherwise the spectrum is taken, the bands recomputed and the beat rule applied, leaving the settings alone and keeping the beat history spaced |
| Audio.AudioAnalyzer.UpdateFrequencyBands | effects/audioAnalyzer/AudioAnalyzer.js:216-230 | the 32 bands become Bands of the current spectrum |
| Audio.AudioAnalyzer.SumRange | effects/audioAnalyzer/AudioAnalyzer.js:224-226 | the inner loop sums the bins of [start, end) |
| Audio.AudioAnalyzer.UpdateBeatDetection | effects/audioAnalyzer/AudioAnalyzer.js:235-248 | a beat is recorded exactly when the bass mean exceeds the threshold and more than 200 ms have passed; recording sets the last beat time and pushes onto the history; otherwise nothing changes |
| Audio.AudioAnalyzer.GetBeat | effects/audioAnalyzer/AudioAnalyzer.js:267-269 | the detector's read-and-reset |
| Audio.Level | effects/audioAnalyzer/AudioAnalyzer.js:274-282 | the volume level lies in [0, 1], is 0 exactly for a silent spectrum and 1 exactly for a full one |
| Audio.ExtremeSums | effects/audioAnalyzer/AudioAnalyzer.js:277-281 | a byte sum is 0 exactly when every byte is 0, and 255 per byte exactly when every byte is 255 |
| Audio.BassOf | effects/audioAnalyzer/AudioAnalyzer.js:287-292 | the bass level is the mean of the first four bands over 255, in [0, 1] |
| Audio.TrebleOf | effects/audioAnalyzer/AudioAnalyzer.js:297-302 | the treble level (the last eight bands) lies in [0, 1] |
| Audio.BassIgnoresTreble | effects/audioAnalyzer/AudioAnalyzer.js:290-300 | changing a band past the fourth leaves the bass level alone |
| Audio.TrebleIgnoresBass | effects/audioAnalyzer/AudioAnalyzer.js:290-300 | changing a band before the last eight leaves the treble level alone |
| Scheduler.UpdateOrder | effects/EffectsManager.js:79-85 | the updates of one frame are every click effect, in list order, followed by every idle effect, in list order |
| Scheduler.ClickOrderLength | effects/EffectsManager.js:50-53 | a click tick dispatches exactly one click per active effect |
| Scheduler.ClickOrderSound | effects/EffectsManager.js:51-52 | every dispatch of a click tick is a click at the pointer on an effect whose flag is set |
| Scheduler.ClickOrderSorted | effects/EffectsManager.js:50 | a click tick visits the effects in strictly increasing list order |
| Scheduler.ClickOrderComplete | effects/EffectsManager.js:50-53 | every active effect is clicked at the pointer during the tick |
| Scheduler.UpdatesInAppend | effects/EffectsManager.js:74-86 | the updates of a joined trace are the updates of its two halves, joined |
| Scheduler.ClicksHoldNoUpdates | effects/EffectsManager.js:48-56 | a click tick dispatches no update |
| Scheduler.SetClickProperty | ui/effect-control-utils.js:91 | `effect[p] = v` on a click effect: p reads v afterwards when the effect keeps a value of that kind under p, and every other property reads as before |
| Scheduler.SetIdleProperty | ui/effect-control-utils.js:91 | the same for an idle effect |
| Scheduler.Walk | effects/idleEffects/SimulatedDrag.js:119-124 | one step of the random walk stays in [-0.8, 0.8] and is the unclamped step whenever that lands inside |
| Scheduler.PatternCursor | effects/idleEffects/SimulatedDrag.js:92-96 | the "line" pattern keeps the cursor on the horizontal axis |
| Scheduler.UnknownPatternIsCircle | effects/idleEffects/SimulatedDrag.js:127-130 | a pattern name the switch does not know moves the cursor exactly as "circle" |
| Scheduler.ScaledUnit | effects/idleEffects/SimulatedDrag.js:83-100 | a sine or cosine scaled by at most the normalized size 0.8 stays within it |
| Scheduler.PatternsStayOnScreen | effects/idleEffects/SimulatedDrag.js:85-115 | with sine and cosine in [-1, 1], circle, line, spiral, figure8, lissajous and the default keep the cursor in [-0.8, 0.8] on both axes |
| Scheduler.CursorStaysOnScreen | effects/idleEffects/SimulatedDrag.js:80-132 | whatever the pattern, random walk included, the next cursor is within 80% of the screen |
| Scheduler.FiresEveryThirdFrame | effects/idleEffects/SimulatedDrag.js:55-61 | from a fresh counter with interval 3, after k active frames the counter is k mod 3, k div 3 frames have fired, and frame k fires exactly when 3 divides k |
| Scheduler.SimulatedDrag.constructor | effects/idleEffects/SimulatedDrag.js:13-34 | a new drag keeps pattern, speed and path size, starts inactive at t = 0 with the cursor at the origin, counter 0, interval 3 and no manager |
| Scheduler.SimulatedDrag.Update | effects/idleEffects/SimulatedDrag.js:36-62 | the base update always runs; inactive or unattached, nothing else changes; otherwise t grows by the speed, the cursor follows the pattern, and on the frames the counter reaches the interval every active click effect of the manager is clicked at the new cursor, in list order |
| Scheduler.SimulatedDrag.Drive | effects/idleEffects/SimulatedDrag.js:48-61 | the active part of update: time, cursor and counter advance and, on a firing frame, the manager's active click effects receive the cursor as a click |
| Scheduler.SimulatedDrag.Advance | effects/idleEffects/SimulatedDrag.js:48-57 | t grows by the speed, the counter ticks, the cursor moves by the pattern, and `fired` says whether the counter reached the interval |
| Scheduler.SimulatedDrag.TriggerDragEffects | effects/idleEffects/SimulatedDrag.js:68-78 | with no manager nothing happens; otherwise every active click effect, in list order, is clicked at the virtual cursor, and only those |
| Scheduler.SimulatedDrag.UpdateCursorPosition | effects/idleEffects/SimulatedDrag.js:80-132 | the cursor becomes the pattern's next point; "random" takes exactly two draws in [0, 1), the other patterns none |
| Scheduler.SimulatedDrag.SetActive | effects/Effect.js:13-15 | the drag's flag takes the given value |
| Scheduler.SimulatedDrag.SetProperty | ui/effect-control-utils.js:91 | `drag[p] = v`: p reads v afterwards when the drag keeps a value of that kind there; no other property changes |
| Scheduler.FlagsOf | effects/EffectsManager.js:51 | one `active` flag per listed click effect, in list order |
| Scheduler.ClicksOf | effects/EffectsManager.js:52 | one record of received clicks per listed click effect, in list order |
| Scheduler.ClickUpdatesOf | effects/EffectsManager.js:79-81 | one update count per listed click effect, in list order |
| Scheduler.IdleUpdatesOf | effects/EffectsManager.js:83-85 | one update count per listed idle effect, in list order |
| Scheduler.Selection | effects/EffectsManager.js:96 | effect i is selected exactly when every effect is meant or its name equals the given one |
| Scheduler.MatchOrderMembers | effects/EffectsManager.js:66-71 | setEffectActive updates effect j exactly when j is in the list and the effect carries the name |
| Scheduler.MatchOrderEmpty | effects/EffectsManager.js:66-71 | an unknown name dispatches no update at all |
| Scheduler.MatchOrderStep | effects/EffectsManager.js:66-71 | one more selected effect appends exactly its update |
| Scheduler.Leaving | effects/EffectsManager.js:89-91 | for each listed effect, the cubes its clear() takes out of the scene |
| Scheduler.CubeArraysOf | effects/EffectsManager.js:89-91 | one cube array per listed click effect, in list order |
| Scheduler.TrailsOf | effects/EffectsManager.js:89-91 | one drag trail per listed click effect, in list order |
| Scheduler.UnionUpToMembers | effects/EffectsManager.js:95-99 | a cube leaves the scene exactly when a selected effect held it |
| Scheduler.ClickedUpTo | effects/EffectsManager.js:50-54 | after the loop has passed the first n effects, each active one among them gained the click at p, and every other effect's clicks are unchanged |
| Scheduler.ClickEffect | effects/EffectsManager.js:52 | `effect.onClick(p, camera)` records exactly one more click at p on that effect |
| Scheduler.ClickedStep | effects/EffectsManager.js:50-53 | one more turn of the click loop adds the click to effect i exactly when its flag is set |
| Scheduler.ClickOrderStep | effects/EffectsManager.js:50-53 | one more flag appends a click exactly when it is set |
| Scheduler.UpdateOrderClick | effects/EffectsManager.js:79-81 | one more turn of the first loop appends the update of click effect i |
| Scheduler.UpdateOrderIdle | effects/EffectsManager.js:83-85 | one more turn of the second loop appends the update of idle effect k |
| Scheduler.UpdateOrderJoin | effects/EffectsManager.js:79-85 | the click updates followed by the idle updates are the updates of the frame |
| Scheduler.UpdatesInPush | effects/EffectsManager.js:74-86 | an update dispatch shows at the end of the trace's updates |
| Scheduler.UpdateClickEffect | effects/EffectsManager.js:80 | `effect.update(camera, scene, mouse)` on a click effect keeps it well formed and feeds it the three values once |
| Scheduler.IdleKept | effects/EffectsManager.js:83-85 | an idle effect stays well formed while nothing it depends on changes |
| Scheduler.EffectsManager.constructor | effects/EffectsManager.js:17-28 | a new manager has no effects, no camera, scene or pointer, and the button up |
| Scheduler.EffectsManager.UpdateMousePosition | effects/EffectsManager.js:102-104 | the manager keeps the given pointer |
| Scheduler.EffectsManager.UpdateMouseDown | effects/EffectsManager.js:106-109 | isMouseDown answers the given value from now on |
| Scheduler.EffectsManager.IsMouseDown | effects/EffectsManager.js:31-33 | the answer is the stored button state |
| Scheduler.EffectsManager.Initialize | effects/EffectsManager.js:35-46 | one new ClickSnake of length 10 that fades by itself is appended to the click effects; it is inactive, empty and has no scene yet |
| Scheduler.EffectsManager.ClickAt | effects/EffectsManager.js:52 | click effect i gains exactly one click at p and the click is recorded in the dispatch trace; no effect's flag or scene changes, and the click effects stay well formed |
| Scheduler.EffectsManager.ClickStep | effects/EffectsManager.js:50-54 | one turn of the click loop keeps the loop's invariant one effect further |
| Scheduler.EffectsManager.ClickActive | effects/EffectsManager.js:50-54 | the loop clicks exactly the active effects at p, in list order, and nothing else |
| Scheduler.EffectsManager.OnClickTick | effects/EffectsManager.js:48-56 | with the button up (or no camera or pointer yet) nothing is clicked; with it down every active click effect is clicked once at the pointer, in list order |
| Scheduler.EffectsManager.UpdateClickAt | effects/EffectsManager.js:80 | click effect i is fed camera, scene and pointer once and its update is recorded |
| Scheduler.EffectsManager.UpdateClickStep | effects/EffectsManager.js:79-81 | one turn of the first loop of update keeps its invariant one effect further |
| Scheduler.EffectsManager.UpdateClicks | effects/EffectsManager.js:79-81 | every click effect is fed camera, scene and pointer once, in list order |
| Scheduler.EffectsManager.UpdateClicksKeepingIdles | effects/EffectsManager.js:79-81 | the first loop leaves every idle effect's update count unchanged |
| Scheduler.EffectsManager.FedScenes | effects/EffectsManager.js:76-81 | click effects fed the manager's scene know exactly that scene |
| Scheduler.EffectsManager.UpdateIdleAt | effects/EffectsManager.js:84 | idle effect k is fed camera, scene and pointer once and its update is recorded |
| Scheduler.EffectsManager.UpdateCubesAt | effects/EffectsManager.js:84 | the same for a RandomCubes |
| Scheduler.EffectsManager.UpdateKaleidoAt | effects/EffectsManager.js:84 | the same for a Kaleidoscope |
| Scheduler.EffectsManager.DragReady | effects/idleEffects/SimulatedDrag.js:32-33 | a registered SimulatedDrag drives no manager but this one, and that manager's click effects can be clicked |
| Scheduler.EffectsManager.UpdateDragAt | effects/EffectsManager.js:84 | the same for a SimulatedDrag, whose clicks add no update to the trace |
| Scheduler.EffectsManager.UpdateIdleStep | effects/EffectsManager.js:83-85 | one turn of the second loop of update keeps its invariant one effect further |
| Scheduler.EffectsManager.UpdateIdles | effects/EffectsManager.js:83-85 | every idle effect is fed camera, scene and pointer once, in list order |
| Scheduler.EffectsManager.Update | effects/EffectsManager.js:74-86 | the manager keeps camera, scene and pointer; every click effect and then every idle effect is fed those three exactly once, in list order |
| Scheduler.EffectsManager.SetView | effects/EffectsManager.js:75-77 | the manager keeps camera, scene and pointer and no effect changes |
| Scheduler.EffectsManager.UpdateEffects | effects/EffectsManager.js:79-85 | both loops feed every effect once, clicks first |
| Scheduler.EffectsManager.UpdateIdlesAfterClicks | effects/EffectsManager.js:83-85 | the second loop keeps what the first fed the click effects |
| Scheduler.EffectsManager.SetActiveAt | effects/EffectsManager.js:68-69 | click effect i gets the flag and one update with the manager's camera, scene and pointer; every other click effect keeps its flag and update count |
| Scheduler.EffectsManager.ActivateStep | effects/EffectsManager.js:66-71 | one turn of the loop of setEffectActive keeps its invariant one effect further |
| Scheduler.EffectsManager.ActivateSelected | effects/EffectsManager.js:66-71 | the click effects with the name get the flag and one update, in list order; the others keep flag and update count |
| Scheduler.EffectsManager.ActivateLoop | effects/EffectsManager.js:66-71 | the loop's invariant holds from the first effect to the last |
| Scheduler.EffectsManager.SetEffectActive | effects/EffectsManager.js:64-72 | the click effects with the name get the flag and one update with the manager's camera, scene and pointer, in list order; other click effects and every idle effect are untouched |
| Scheduler.EffectsManager.ClearAt | effects/EffectsManager.js:90 | click effect i is cleared and its leaving cubes leave the scene; the other effects keep array and trail |
| Scheduler.EffectsManager.ClearStep | effects/EffectsManager.js:89-91 | one turn of the clearing loop keeps its invariant one effect further |
| Scheduler.EffectsManager.ClearLoop | effects/EffectsManager.js:89-91 | the invariant holds from the first effect to the last |
| Scheduler.EffectsManager.ClearSelected | effects/EffectsManager.js:94-100 | every selected click effect is cleared, the others keep array and trail, and the scene loses exactly the selected effects' leaving cubes |
| Scheduler.EffectsManager.ClearEffects | effects/EffectsManager.js:88-92 | every click effect is cleared (a ClickSnake keeps its array, a DragSpiral empties it and resets its trail), their cubes leave the scene, idle effects keep their cubes |
| Scheduler.EffectsManager.ClearEffect | effects/EffectsManager.js:94-100 | only the click effects with the name are cleared; the others and every idle effect keep their cubes |
| Scheduler.EffectsManager.ClicksKept | effects/EffectsManager.js:79-85 | the click side stays well formed while nothing it depends on changes |
| Scheduler.EffectsManager.IdlesKept | effects/EffectsManager.js:83-85 | the idle side stays well formed when only one idle effect changed and is itself well formed |
| Scheduler.EffectsManager.IdlesFrame | effects/EffectsManager.js:79-81 | the idle side stays well formed while nothing it depends on changes |
| EffectControls.FirstNamed | ui/effect-control-utils.js:102 | `Array.find`: the first click effect with the name, or past the end when there is none; no earlier effect has the name |
| EffectControls.RotationSpeedAccepted | ui/effect-control-utils.js:64-68 | every kind of effect keeps a number under `rotationSpeed`, so the rotation checkbox always takes effect |
| EffectControls.WriteClickAt | ui/effect-control-utils.js:91 | `effect[p] = v` on click effect i: only that effect's p can change, and idle effects are untouched |
| EffectControls.WriteIdleAt | ui/effect-control-utils.js:91 | the same on idle effect k |
| EffectControls.WriteClicks | ui/effect-control-utils.js:87-93 | every selected click effect gets p := v; other properties and effects keep their values |
| EffectControls.WriteIdles | ui/effect-control-utils.js:87-93 | every selected idle effect gets p := v; the click effects keep their values |
| EffectControls.WriteAll | ui/effect-control-utils.js:87-93 | the forEach over the click effects then the idle effects: every selected effect gets p := v, nothing else changes |
| EffectControls.Controls.constructor | ui/effect-control-utils.js:10 | the controls start with no manager |
| EffectControls.Controls.SetEffectsManager | ui/effect-control-utils.js:12-14 | the controls keep the given manager |
| EffectControls.Controls.UpdateEffectConfig | ui/effect-control-utils.js:84-94 | with no manager nothing happens; otherwise every click and idle effect with the name gets p := v, and nothing else changes |
| EffectControls.Controls.UpdateDragEffect | ui/effect-control-utils.js:99-107 | only the first click effect with the name can change, only property p, and only when it already defined p |
| EffectControls.Controls.UpdateGlobalEffectProperty | ui/effect-control-utils.js:112-122 | every click and idle effect gets p := v; nothing else changes |
| EffectControls.Controls.OnRotationToggle | ui/effect-control-utils.js:64-69 | the effects with the name turn at the slider's speed when checked and stand still otherwise; no other setting changes |
| EffectControls.Controls.OnActivationToggle | ui/effect-control-utils.js:55-59 | `effectsManager?.setEffectActive(name, checked)`: nothing without a manager; otherwise the click effects with the name get the flag, the others keep theirs, and one update per match is recorded |

## Left out

- ClickEffects.Pulse: the colour blending of `pulseToBeat` (`Color.lerp` towards the bass and treble colours) is not modelled. Only scale, opacity, position and rotation are.
- Numbers are exact `real`s, not IEEE doubles. NaN and Infinity, rounding, and `toFixed` of fractions are not represented.
- Mp3.Log1024: `Math.floor(Math.log(bytes) / Math.log(1024))` is taken as the exact integer logarithm. The float quotient can round just below an integer at exact powers of 1024.
- Text.ToLower: `toLowerCase` is modelled for ASCII letters only. Other characters are kept unchanged.
- Audio.AudioAnalyzer.Update: one `now` value stands for the three `Date.now()` calls of `updateBeatDetection` and `BeatDetector.onBeat`. In the source they may differ by a few milliseconds.
- Render.Host.Random: `Math.random` is a seeded generator on the host. Its only promise is a draw in [0, 1), recorded in `draws`.
- The analyser's time-domain data (`timeDomainData`, `getTimeDomainData`) and `getFrequencyData` are not modelled. The spectrum is passed in.
- The 30 ms `setInterval` of `initialize` is not modelled. `OnClickTick` is one tick, called by the environment.
- `console.log` and `console.warn` are not modelled, because they have no effect on state.
- EffectControls.Controls.UpdateEffectConfig: in JavaScript, `effect[property] = value` stores any value under any key, for example a string into `rotationSpeed`, or a new `name` or `cubeArray`. The model stores a value only when the effect keeps a value of that kind under that property (the `Accepts` predicates). A write of another kind leaves the effect unchanged, so the method promises less than "sets the property on every effect with the name". Unknown keys go to an `extras` map.
- EffectControls.Controls.UpdateGlobalEffectProperty: writes are refused by the `Accepts` predicates, as for UpdateEffectConfig.
- EffectControls.Controls.UpdateDragEffect: writes are refused by the `Accepts` predicates, as for UpdateEffectConfig.
- Scheduler.SetClickProperty, Scheduler.SetIdleProperty, Scheduler.SimulatedDrag.SetProperty, EffectBase.Effect.SetProperty, ClickEffects.ClickSnake.SetProperty, ClickEffects.DragSpiral.SetProperty, IdleEffects.RandomCubes.SetProperty and IdleEffects.Kaleidoscope.SetProperty: a write of a value of the wrong kind is ignored, as above.
- EffectControls.Controls.OnRotationToggle: the slider's `parseFloat` result is taken as a number. A NaN from an unparsable slider value is not represented.
- Scheduler.EffectsManager.SetEffectActive: requires `Ready()` (camera, scene and pointer set by a frame update) whenever an effect carries the name. Before the first frame update, the source runs `effect.update(null, null, null)`, and the model's effect updates take a present camera, scene and pointer.
- EffectControls.Controls.OnActivationToggle: requires the same as SetEffectActive when a manager is set, for the same reason.
- Scheduler.EffectsManager.OnClickTick: requires a camera and a pointer when the button is down and some click effect is active, and a scene for every active click effect. In those cases the source's `onClick` would throw on the null value. With the button up, or no active effect, nothing is required.
- Methods that add cubes to or remove cubes from a scene (the `OnClick`, spawn, eviction and `RemoveCube` methods) require the effect to know its scene. The source would throw on `null.add` or `null.remove`.
- Scheduler.EffectsManager.ClearEffects and Scheduler.EffectsManager.ClearEffect require `SceneShared()`: every click effect knows no scene but the manager's, as holds after every frame update.
- The manager's `Valid()` excludes registering one effect object twice, and an object that is both a click and an idle effect. The source never does either.
- Nothing in the core sets a SimulatedDrag's `effectsManager`. The model keeps the field, and the drag is inert while it is null, as in the source.
- The `effect !== this` test of `triggerDragEffects` is always true: a SimulatedDrag is an idle effect and never in the click list. It is left out.
- The "no intersection" guard of `DragSpiral.onClick` can never fire, because the intersection point is always an object. The raycast hit is an input of `OnClick`.
- `ClickEffect.js` and `IdleEffect.js` are not part of this model. `super.onClick` is taken as a no-op, and an idle effect's `removeCube(i)` as a plain splice of the array.
- There is no `setClickRate`: the UI calls one, but the manager defines none, so the model has none either.
- Three.js geometry, materials, edge outlines, raycasting, `lookAt`, HSL conversion and the GLSL shader source are not modelled. Sine, cosine and colour conversion are host functions, with [-1, 1] assumed of sine and cosine where a lemma needs it.
- `CameraOrbit` and `Supershape` are not modelled: they hold trigonometric placement and a uniform feed only.
- `updateCameraPosition` (spherical to Cartesian placement) is not modelled. The orbit state it reads is.
- AudioAnalyzer's `initialize`, `loadAudioFile`, `play`, `pause`, `stop`, event listeners and `dispose` (the Web Audio graph and the audio element's life cycle) are not modelled. The analyser's readiness and the playing flag are fields.
- MP3Converter's `getFileDuration` and its object URLs are not modelled, because they load media through the browser.
- `applyGradientBackground`, `updateGradientPreviews` and `initGradientManager` (canvas and DOM painting) are not modelled. `createColorPaletteGrid` and `setupSmartSlider` (DOM building) are not modelled either.
- The `setup*` functions of the effect-control utilities only wire DOM events to the update functions. They are left out, except the value logic of the rotation and activation checkboxes.
