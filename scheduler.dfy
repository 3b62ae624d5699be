// The effects manager, which keeps the click and idle effects and dispatches
// frame updates and click ticks to them, and SimulatedDrag, the idle effect
// that holds a reference to the manager and feeds its click effects with a
// virtual cursor.
//
// Several predicate bodies and contracts of the manager are written as one
// conjunction compared with `true`, `(A && B && C) == true`. The meaning is
// that of `A && B && C`; the comparison keeps the verifier from splitting the
// conjunction into one proof obligation per conjunct, each of which would be
// checked against the manager's large frame, which makes those proofs several
// times cheaper.
module Scheduler {
  import opened Wrappers
  import opened Render
  import opened EffectBase
  import ClickEffects
  import IdleEffects
  import Audio
  import Arith

  /** A registered click effect. */
  datatype ClickRef = Snake(snake: ClickEffects.ClickSnake) | Spiral(spiral: ClickEffects.DragSpiral)
  {
    /** The base effect every variant extends. */
    function Base(): Effect
    {
      match this
      case Snake(s) => s.base
      case Spiral(s) => s.base
    }

    /** `effect.name` */
    function Name(): string
    {
      if Snake? then "ClickSnake" else "DragSpiral"
    }

    /** The effect object and its base: what an update or a click may change. */
    function Objects(): set<object>
    {
      match this
      case Snake(s) => {s, s.base}
      case Spiral(s) => {s, s.base}
    }
  }

  /** A registered idle effect. */
  datatype IdleRef = Cubes(cubes: IdleEffects.RandomCubes) | Drag(drag: SimulatedDrag) | Kaleido(kaleido: IdleEffects.Kaleidoscope)
  {
    function Base(): Effect
    {
      match this
      case Cubes(c) => c.base
      case Drag(d) => d.base
      case Kaleido(k) => k.base
    }

    function Name(): string
    {
      match this
      case Cubes(_) => "RandomCubes"
      case Drag(_) => "SimulatedDrag"
      case Kaleido(_) => "Kaleidoscope"
    }

    function Objects(): set<object>
    {
      match this
      case Cubes(c) => {c, c.base}
      case Drag(d) => {d, d.base}
      case Kaleido(k) => {k, k.base, k.mesh, k.uniforms, k.uniforms.frequencyData}
    }
  }

  /** One call the manager dispatched, in the order it was made. */
  datatype Dispatch = UpdatedClick(index: int) | UpdatedIdle(index: int) | Clicked(index: int, at: Pointer)

  /** The updates of one frame: every click effect, then every idle effect, each in list order. */
  function UpdateOrder(clicks: nat, idles: nat): (r: seq<Dispatch>)
    ensures |r| == clicks + idles
    ensures forall k :: 0 <= k < clicks ==> r[k] == UpdatedClick(k)
    ensures forall k :: 0 <= k < idles ==> r[clicks + k] == UpdatedIdle(k)
  {
    seq(clicks, k => UpdatedClick(k)) + seq(idles, k => UpdatedIdle(k))
  }

  /** The clicks of one click tick: one per active effect, in list order. */
  function ClickOrder(active: seq<bool>, p: Pointer): seq<Dispatch>
  {
    if active == [] then []
    else ClickOrder(active[..|active| - 1], p) + (if active[|active| - 1] then [Clicked(|active| - 1, p)] else [])
  }

  /** How many flags are set. */
  function CountActive(active: seq<bool>): nat
  {
    if active == [] then 0 else CountActive(active[..|active| - 1]) + (if active[|active| - 1] then 1 else 0)
  }

  /** A click tick dispatches one click per active effect. */
  lemma {:induction false} ClickOrderLength(active: seq<bool>, p: Pointer)
    ensures |ClickOrder(active, p)| == CountActive(active)
  {
    if active != [] {
      ClickOrderLength(active[..|active| - 1], p);
    }
  }

  /** A click at p on an effect whose flag is set. */
  ghost predicate Fires(d: Dispatch, active: seq<bool>, p: Pointer)
  {
    d.Clicked? && 0 <= d.index < |active| && active[d.index] && d.at == p
  }

  /** Every dispatch of a click tick is a click at the pointer on an active effect. */
  lemma {:induction false} ClickOrderSound(active: seq<bool>, p: Pointer)
    ensures forall k :: 0 <= k < |ClickOrder(active, p)| ==> Fires(ClickOrder(active, p)[k], active, p)
  {
    if active != [] {
      var n := |active| - 1;
      var front := active[..n];
      ClickOrderSound(front, p);
      var r0, r := ClickOrder(front, p), ClickOrder(active, p);
      assert r == r0 + (if active[n] then [Clicked(n, p)] else []);
      forall k | 0 <= k < |r|
        ensures Fires(r[k], active, p)
      {
        if k < |r0| {
          assert r[k] == r0[k] && Fires(r0[k], front, p);
        }
      }
    }
  }

  /** A click tick takes the effects in strictly increasing list order. */
  lemma {:induction false} ClickOrderSorted(active: seq<bool>, p: Pointer)
    ensures forall k, l :: 0 <= k < l < |ClickOrder(active, p)| ==> ClickOrder(active, p)[k].index < ClickOrder(active, p)[l].index
  {
    if active != [] {
      var n := |active| - 1;
      var front := active[..n];
      ClickOrderSorted(front, p);
      ClickOrderSound(front, p);
      var r0, r := ClickOrder(front, p), ClickOrder(active, p);
      assert r == r0 + (if active[n] then [Clicked(n, p)] else []);
      forall k, l | 0 <= k < l < |r|
        ensures r[k].index < r[l].index
      {
        assert r[k] == r0[k] && Fires(r0[k], front, p);
        if l < |r0| {
          assert r[l] == r0[l];
        }
      }
    }
  }

  /** A click tick misses no active effect. */
  lemma {:induction false} ClickOrderComplete(active: seq<bool>, p: Pointer)
    ensures forall i :: 0 <= i < |active| && active[i] ==> Clicked(i, p) in ClickOrder(active, p)
  {
    if active != [] {
      var n := |active| - 1;
      var front := active[..n];
      ClickOrderComplete(front, p);
      forall i | 0 <= i < |active| && active[i]
        ensures Clicked(i, p) in ClickOrder(active, p)
      {
        if i < n {
          assert front[i] == active[i];
        }
      }
    }
  }

  /** The update dispatches of a trace, with the clicks left out. */
  function UpdatesIn(t: seq<Dispatch>): seq<Dispatch>
  {
    if t == [] then []
    else UpdatesIn(t[..|t| - 1]) + (if t[|t| - 1].Clicked? then [] else [t[|t| - 1]])
  }

  lemma {:induction false} UpdatesInAppend(a: seq<Dispatch>, b: seq<Dispatch>)
    ensures UpdatesIn(a + b) == UpdatesIn(a) + UpdatesIn(b)
  {
    if b != [] {
      var n := |b| - 1;
      assert (a + b)[..|a + b| - 1] == a + b[..n];
      UpdatesInAppend(a, b[..n]);
    } else {
      assert a + b == a;
    }
  }

  /** A click tick dispatches no update. */
  lemma {:induction false} ClicksHoldNoUpdates(active: seq<bool>, p: Pointer)
    ensures UpdatesIn(ClickOrder(active, p)) == []
  {
    if active != [] {
      var n := |active| - 1;
      ClicksHoldNoUpdates(active[..n], p);
      UpdatesInAppend(ClickOrder(active[..n], p), if active[n] then [Clicked(n, p)] else []);
      if active[n] {
        assert UpdatesIn([Clicked(n, p)]) == UpdatesIn([]) + [];
      }
    }
  }

  // ---------------------------------------------------------------------------
  // Well-formedness of one registered effect

  /** The DragSpiral of a click effect, as a set. */
  function SpiralOf(e: ClickRef): set<ClickEffects.DragSpiral>
  {
    if e.Spiral? then {e.spiral} else {}
  }

  /** The Kaleidoscope of an idle effect, as a set. */
  function KaleidoOf(e: IdleRef): set<IdleEffects.Kaleidoscope>
  {
    if e.Kaleido? then {e.kaleido} else {}
  }

  /** The analyser a click effect reads: DragSpiral's, when one is attached. */
  function ClickAnalyzer(e: ClickRef): Audio.AudioAnalyzer?
    reads SpiralOf(e)`audioAnalyzer
  {
    if e.Spiral? then e.spiral.audioAnalyzer else null
  }

  /** The analyser an idle effect reads: Kaleidoscope's, when one is attached. */
  function IdleAnalyzer(e: IdleRef): Audio.AudioAnalyzer?
    reads KaleidoOf(e)`audioAnalyzer
  {
    if e.Kaleido? then e.kaleido.audioAnalyzer else null
  }

  /** A click effect is well formed, and so is its analyser. */
  ghost predicate ClickOk(e: ClickRef)
    reads e.Base()`cubeArray, e.Base()`cubes, e.Base()`scene, SpiralOf(e)`dragPath, SpiralOf(e)`audioAnalyzer
    reads Audio.Attached(ClickAnalyzer(e))`analyserReady, Audio.Attached(ClickAnalyzer(e))`frequencyData
    reads Audio.DetectorOf(ClickAnalyzer(e))`beatHistory
  {
    match e
    case Snake(s) => s.Valid()
    case Spiral(s) => s.Valid() && s.AnalyzerReady()
  }

  /** An idle effect is well formed, and so is its analyser. */
  ghost predicate IdleOk(e: IdleRef)
    reads e.Base()`cubeArray, e.Base()`cubes, e.Base()`scene, KaleidoOf(e)`audioAnalyzer
    reads Audio.Attached(IdleAnalyzer(e))`analyserReady, Audio.Attached(IdleAnalyzer(e))`frequencyData
    reads Audio.DetectorOf(IdleAnalyzer(e))`beatHistory
  {
    match e
    case Cubes(c) => c.Valid()
    case Drag(d) => d.Valid()
    case Kaleido(k) => k.Valid() && k.AnalyzerReady()
  }

  // ---------------------------------------------------------------------------
  // Generic access to the settings of a registered effect

  /** `effect[p]` of a click effect, or None when undefined. */
  function ClickProperty(e: ClickRef, p: string): Option<Value>
    reads e.Objects()
  {
    match e
    case Snake(s) => s.Property(p)
    case Spiral(s) => s.Property(p)
  }

  predicate ClickAccepts(e: ClickRef, p: string, v: Value)
  {
    match e
    case Snake(s) => s.Accepts(p, v)
    case Spiral(s) => s.Accepts(p, v)
  }

  function IdleProperty(e: IdleRef, p: string): Option<Value>
    reads e.Objects()
  {
    match e
    case Cubes(c) => c.Property(p)
    case Drag(d) => d.Property(p)
    case Kaleido(k) => k.Property(p)
  }

  predicate IdleAccepts(e: IdleRef, p: string, v: Value)
  {
    match e
    case Cubes(c) => c.Accepts(p, v)
    case Drag(d) => d.Accepts(p, v)
    case Kaleido(k) => k.Accepts(p, v)
  }

  /** The ClickSnake of a click effect, as a set. */
  function SnakeOf(e: ClickRef): set<ClickEffects.ClickSnake>
  {
    if e.Snake? then {e.snake} else {}
  }

  /** The RandomCubes of an idle effect, as a set. */
  function RandomOf(e: IdleRef): set<IdleEffects.RandomCubes>
  {
    if e.Cubes? then {e.cubes} else {}
  }

  /**
   * `effect[p] = v` on a click effect: property p takes v when the effect
   * keeps a value of that kind there, every other property is unchanged, and
   * only settings change (no cube, scene or trail).
   */
  method SetClickProperty(e: ClickRef, p: string, v: Value)
    modifies SnakeOf(e)`autoFade, SnakeOf(e)`maxLength
    modifies SpiralOf(e)`spiralArms, SpiralOf(e)`spiralTightness, SpiralOf(e)`maxCubes, SpiralOf(e)`cubeSize
    modifies SpiralOf(e)`fadeSpeed, SpiralOf(e)`colorShift, SpiralOf(e)`sizeVariation
    modifies SpiralOf(e)`spiralAngle, SpiralOf(e)`cubeCounter
    modifies e.Base()`rotationSpeed, e.Base()`randomColor, e.Base()`fixedColor, e.Base()`active, e.Base()`extras
    ensures ClickProperty(e, p) == if ClickAccepts(e, p, v) then Some(v) else old(ClickProperty(e, p))
    ensures forall q :: q != p ==> ClickProperty(e, q) == old(ClickProperty(e, q))
  {
    match e
    case Snake(s) => s.SetProperty(p, v);
    case Spiral(s) => s.SetProperty(p, v);
  }

  /** `effect[p] = v` on an idle effect, as for a click effect. */
  method SetIdleProperty(e: IdleRef, p: string, v: Value)
    modifies RandomOf(e)`maxCubes, RandomOf(e)`cubeSize, RandomOf(e)`cubeSpawnRate, RandomOf(e)`cubeFadeRate
    modifies RandomOf(e)`cubeRandomColor
    modifies DragOf(e)`pattern, DragOf(e)`speed, DragOf(e)`pathSize, DragOf(e)`t, DragOf(e)`frameCounter
    modifies DragOf(e)`spawnInterval
    modifies KaleidoOf(e)`segments, KaleidoOf(e)`baseRadius, KaleidoOf(e)`frequencyBins, KaleidoOf(e)`lineWidth
    modifies KaleidoOf(e)`hueOffset, KaleidoOf(e)`mirrorAlpha
    modifies e.Base()`rotationSpeed, e.Base()`randomColor, e.Base()`fixedColor, e.Base()`active, e.Base()`extras
    ensures IdleProperty(e, p) == if IdleAccepts(e, p, v) then Some(v) else old(IdleProperty(e, p))
    ensures forall q :: q != p ==> IdleProperty(e, q) == old(IdleProperty(e, q))
  {
    match e
    case Cubes(c) => c.SetProperty(p, v);
    case Drag(d) => d.SetProperty(p, v);
    case Kaleido(k) => k.SetProperty(p, v);
  }

  // ---------------------------------------------------------------------------
  // SimulatedDrag

  /** The virtual cursor stays within 80% of the screen. */
  const NormalizedSize: real := 0.8

  /** The patterns SimulatedDrag knows; any other behaves like "circle". */
  const Patterns: set<string> := {"circle", "line", "spiral", "figure8", "lissajous", "random"}

  /** One step of the bounded random walk along one axis. */
  function Walk(c: real, draw: real, speed: real): (r: real)
    ensures -NormalizedSize <= r <= NormalizedSize
    ensures -NormalizedSize <= c + (draw - 0.5) * speed * 2.0 <= NormalizedSize ==> r == c + (draw - 0.5) * speed * 2.0
  {
    Arith.Clamp(-NormalizedSize, NormalizedSize, c + (draw - 0.5) * speed * 2.0)
  }

  /** The cursor of a parametric pattern at time t ("random" is the walk above, not this). */
  function PatternCursor(pattern: string, t: real, sin: real -> real, cos: real -> real): (c: Pointer)
    ensures pattern == "line" ==> c.y == 0.0
  {
    if pattern == "line" then Pointer(sin(t) * NormalizedSize, 0.0)
    else if pattern == "spiral" then
      var radius := (sin(t * 0.1) * 0.5 + 0.5) * NormalizedSize;
      Pointer(cos(t) * radius, sin(t) * radius)
    else if pattern == "figure8" then Pointer(sin(t) * NormalizedSize, sin(t * 2.0) * NormalizedSize * 0.5)
    else if pattern == "lissajous" then Pointer(sin(t * 3.0) * NormalizedSize, sin(t * 2.0) * NormalizedSize)
    else Pointer(cos(t) * NormalizedSize, sin(t) * NormalizedSize)
  }

  /** A pattern name the switch does not know falls through to the circle. */
  lemma UnknownPatternIsCircle(pattern: string, t: real, sin: real -> real, cos: real -> real)
    requires pattern !in Patterns
    ensures PatternCursor(pattern, t, sin, cos) == PatternCursor("circle", t, sin, cos)
  {
  }

  predicate OnScreen(c: Pointer)
  {
    -NormalizedSize <= c.x <= NormalizedSize && -NormalizedSize <= c.y <= NormalizedSize
  }

  lemma ScaledUnit(s: real, k: real)
    requires -1.0 <= s <= 1.0 && 0.0 <= k <= NormalizedSize
    ensures -NormalizedSize <= s * k <= NormalizedSize
  {
    Arith.RealMulMonotone(-1.0, s, k);
    Arith.RealMulMonotone(s, 1.0, k);
    assert -1.0 * k == -k && 1.0 * k == k;
    assert -k <= s * k <= k;
    assert -NormalizedSize <= -k;
  }

  /** With sine and cosine in [-1, 1], every parametric pattern stays on screen. */
  lemma PatternsStayOnScreen(pattern: string, t: real, sin: real -> real, cos: real -> real)
    requires forall x :: -1.0 <= sin(x) <= 1.0
    requires forall x :: -1.0 <= cos(x) <= 1.0
    ensures OnScreen(PatternCursor(pattern, t, sin, cos))
  {
    var c := PatternCursor(pattern, t, sin, cos);
    assert -1.0 <= sin(t) <= 1.0 && -1.0 <= cos(t) <= 1.0;
    if pattern == "line" {
      ScaledUnit(sin(t), NormalizedSize);
    } else if pattern == "spiral" {
      var radius := (sin(t * 0.1) * 0.5 + 0.5) * NormalizedSize;
      assert -1.0 <= sin(t * 0.1) <= 1.0;
      assert 0.0 <= sin(t * 0.1) * 0.5 + 0.5 <= 1.0;
      ScaledUnit(sin(t * 0.1) * 0.5 + 0.5, NormalizedSize);
      ScaledUnit(cos(t), radius);
      ScaledUnit(sin(t), radius);
    } else if pattern == "figure8" {
      assert -1.0 <= sin(t * 2.0) <= 1.0;
      ScaledUnit(sin(t), NormalizedSize);
      ScaledUnit(sin(t * 2.0), NormalizedSize * 0.5);
      assert sin(t * 2.0) * NormalizedSize * 0.5 == sin(t * 2.0) * (NormalizedSize * 0.5);
    } else if pattern == "lissajous" {
      assert -1.0 <= sin(t * 3.0) <= 1.0 && -1.0 <= sin(t * 2.0) <= 1.0;
      ScaledUnit(sin(t * 3.0), NormalizedSize);
      ScaledUnit(sin(t * 2.0), NormalizedSize);
    } else {
      ScaledUnit(cos(t), NormalizedSize);
      ScaledUnit(sin(t), NormalizedSize);
    }
  }

  /** The next virtual cursor: a clamped random walk over two draws, or the parametric pattern at time t. */
  function NextCursor(pattern: string, t: real, c: Pointer, speed: real, draws: seq<real>,
                      sin: real -> real, cos: real -> real): Pointer
    requires pattern == "random" ==> |draws| == 2
  {
    if pattern == "random" then Pointer(Walk(c.x, draws[0], speed), Walk(c.y, draws[1], speed))
    else PatternCursor(pattern, t, sin, cos)
  }

  /** Whatever the pattern, the virtual cursor stays within 80% of the screen. */
  lemma CursorStaysOnScreen(pattern: string, t: real, c: Pointer, speed: real, draws: seq<real>,
                            sin: real -> real, cos: real -> real)
    requires pattern == "random" ==> |draws| == 2
    requires forall x :: -1.0 <= sin(x) <= 1.0
    requires forall x :: -1.0 <= cos(x) <= 1.0
    ensures OnScreen(NextCursor(pattern, t, c, speed, draws, sin, cos))
  {
    if pattern != "random" {
      PatternsStayOnScreen(pattern, t, sin, cos);
    }
  }

  /** `frameCounter++; if (frameCounter >= spawnInterval) frameCounter = 0`: the new counter and whether it fired. */
  function Tick(counter: real, interval: real): (real, bool)
  {
    if counter + 1.0 >= interval then (0.0, true) else (counter + 1.0, false)
  }

  /** The counter after k active frames. */
  function CounterAfter(counter: real, interval: real, k: nat): real
  {
    if k == 0 then counter else Tick(CounterAfter(counter, interval, k - 1), interval).0
  }

  /** How many of k active frames fire. */
  function FiredIn(counter: real, interval: real, k: nat): nat
  {
    if k == 0 then 0
    else FiredIn(counter, interval, k - 1) + (if Tick(CounterAfter(counter, interval, k - 1), interval).1 then 1 else 0)
  }

  /**
   * With the interval of 3 and a fresh counter, the k-th active frame fires
   * exactly when k is a multiple of 3: after k frames the counter is k mod 3
   * (so it stays in [0, 3)) and k div 3 frames have fired.
   */
  lemma {:induction false} FiresEveryThirdFrame(k: nat)
    ensures CounterAfter(0.0, SpawnInterval, k) == (k % 3) as real
    ensures FiredIn(0.0, SpawnInterval, k) == k / 3
    ensures k > 0 ==> (Tick(CounterAfter(0.0, SpawnInterval, k - 1), SpawnInterval).1 <==> k % 3 == 0)
  {
    if k > 0 {
      FiresEveryThirdFrame(k - 1);
    }
  }

  /** Frames between two synthetic clicks. */
  const SpawnInterval: real := 3.0

  class SimulatedDrag {
    const base: Effect
    var pattern: string
    var speed: real
    var pathSize: real
    var t: real
    var cursor: Pointer
    var frameCounter: real
    var spawnInterval: real
    var effectsManager: EffectsManager?

    predicate Valid()
      reads base`cubeArray, base`cubes, base`scene
    {
      base.Valid()
    }

    /**
     * `new SimulatedDrag(pattern, speed, trailLength, cubeSize, fadeSpeed,
     * rotationSpeed, randomColor, fixedColor, pathSize)`: only the pattern,
     * the speed and the path size are kept; the other arguments are ignored.
     */
    constructor (pattern: string, speed: real, trailLength: real, cubeSize: real, fadeSpeed: real,
                 rotationSpeed: real, randomColor: bool, fixedColor: string, pathSize: real)
      ensures Valid() && fresh(base)
      ensures this.pattern == pattern && this.speed == speed && this.pathSize == pathSize
      ensures t == 0.0 && cursor == Pointer(0.0, 0.0) && frameCounter == 0.0 && spawnInterval == SpawnInterval
      ensures effectsManager == null && !base.active && base.rotationSpeed == DefaultRotationSpeed
      ensures base.cubeArray == [] && base.scene == null && base.updates == 0
    {
      base := new Effect();
      this.pattern := pattern;
      this.speed := speed;
      this.pathSize := pathSize;
      t := 0.0;
      cursor := Pointer(0.0, 0.0);
      frameCounter := 0.0;
      spawnInterval := SpawnInterval;
      effectsManager := null;
    }

    /** The manager this drag drives, as a set. */
    function Driven(): set<EffectsManager>
      reads this`effectsManager
    {
      if effectsManager != null then {effectsManager} else {}
    }

    /** The manager's click bases, DragSpirals, analysers, detectors and scene, when a manager is attached. */
    ghost function TargetBases(): set<Effect>
      reads this`effectsManager, Driven()`clickBases
    {
      if effectsManager != null then effectsManager.clickBases else {}
    }

    ghost function TargetSpirals(): set<ClickEffects.DragSpiral>
      reads this`effectsManager, Driven()`spirals
    {
      if effectsManager != null then effectsManager.spirals else {}
    }

    ghost function TargetAnalyzers(): set<Audio.AudioAnalyzer>
      reads this`effectsManager, Driven()`analyzers
    {
      if effectsManager != null then effectsManager.analyzers else {}
    }

    ghost function TargetDetectors(): set<Audio.BeatDetector>
      reads this`effectsManager, Driven()`detectors
    {
      if effectsManager != null then effectsManager.detectors else {}
    }

    function TargetScenes(): set<Scene>
      reads this`effectsManager, Driven()`scene
    {
      if effectsManager != null then effectsManager.Scenes() else {}
    }

    /** The manager's click effects can be clicked, when a manager is attached. */
    ghost predicate TargetsReady()
      reads this`effectsManager, Driven()`onClickEffects, Driven()`spirals, Driven()`clickBases
      reads Driven()`analyzers, Driven()`detectors, Driven()`scene
      reads TargetBases()`cubeArray, TargetBases()`cubes, TargetBases()`scene, TargetBases()`active
      reads TargetSpirals()`dragPath, TargetSpirals()`audioAnalyzer
      reads TargetAnalyzers()`analyserReady, TargetAnalyzers()`frequencyData, TargetDetectors()`beatHistory
    {
      (effectsManager != null ==>
        && effectsManager.ClicksOk() && effectsManager.ScenesReady() && effectsManager.SceneShared()
        && base !in effectsManager.clickBases) == true
    }

    /**
     * The base update; then, when active and attached to a manager: the time
     * advances by the speed, the cursor moves by the pattern, and every third
     * such frame the manager's active click effects are clicked at the cursor.
     * `draws` are the random numbers the cursor took.
     */
    method Update(camera: Camera, scene: Scene, mouse: Pointer, host: Host) returns (ghost draws: seq<real>)
      requires Valid() && TargetsReady()
      modifies base`camera, base`scene, base`mouse, base`cubes, base`updates
      modifies this`t, this`cursor, this`frameCounter, host`seed, host`draws
      modifies Driven()`trace, TargetBases()`cubeArray, TargetBases()`cubes, TargetBases()`clicks
      modifies TargetSpirals()`dragPath, TargetSpirals()`lastDragPoint, TargetSpirals()`spiralAngle
      modifies TargetSpirals()`cubeCounter, TargetScenes()`children
      ensures Valid() && TargetsReady()
      ensures base.camera == Some(camera) && base.scene == scene && base.mouse == Some(mouse)
      ensures base.updates == old(base.updates) + 1
      ensures base.cubes == Rotated(old(base.cubes), base.cubeArray, base.rotationSpeed)
      ensures effectsManager == old(effectsManager) && pattern == old(pattern) && speed == old(speed)
      ensures spawnInterval == old(spawnInterval)
      ensures !base.active || effectsManager == null ==>
        t == old(t) && cursor == old(cursor) && frameCounter == old(frameCounter)
        && draws == [] && host.draws == old(host.draws)
        && (effectsManager != null ==>
              effectsManager.trace == old(effectsManager.trace) && effectsManager.Clicks() == old(effectsManager.Clicks()))
      ensures base.active && effectsManager != null ==>
        var m := effectsManager;
        var fired := Tick(old(frameCounter), spawnInterval).1;
        && t == old(t) + speed
        && frameCounter == Tick(old(frameCounter), spawnInterval).0
        && |draws| == (if pattern == "random" then 2 else 0)
        && (forall k :: 0 <= k < |draws| ==> 0.0 <= draws[k] < 1.0)
        && cursor == NextCursor(pattern, t, old(cursor), speed, draws, host.sin, host.cos)
        && m.trace == old(m.trace) + (if fired then ClickOrder(old(m.ActiveFlags()), cursor) else [])
        && m.Clicks() == if fired then ClickedUpTo(old(m.Clicks()), old(m.ActiveFlags()), |m.onClickEffects|, cursor) else old(m.Clicks())
    {
      ghost var c0 := if effectsManager != null then effectsManager.Clicks() else [];
      ghost var f0 := if effectsManager != null then effectsManager.ActiveFlags() else [];
      base.Update(camera, scene, mouse);
      if !base.active || effectsManager == null {
        draws := [];
        return;
      }
      assert effectsManager.Clicks() == c0;
      assert effectsManager.ActiveFlags() == f0;
      draws := Drive(camera, host);
    }

    /** An update of a drag attached to a manager, as the manager sees it: the clicks it dispatches add no update. */
    method UpdateDriving(camera: Camera, scene: Scene, mouse: Pointer, host: Host)
      requires Valid() && TargetsReady() && effectsManager != null
      modifies base`camera, base`scene, base`mouse, base`cubes, base`updates
      modifies this`t, this`cursor, this`frameCounter, host`seed, host`draws
      modifies Driven()`trace, TargetBases()`cubeArray, TargetBases()`cubes, TargetBases()`clicks
      modifies TargetSpirals()`dragPath, TargetSpirals()`lastDragPoint, TargetSpirals()`spiralAngle
      modifies TargetSpirals()`cubeCounter, TargetScenes()`children
      ensures Valid() && TargetsReady()
      ensures base.camera == Some(camera) && base.scene == scene && base.mouse == Some(mouse)
      ensures base.updates == old(base.updates) + 1
      ensures effectsManager == old(effectsManager)
      ensures UpdatesIn(effectsManager.trace) == UpdatesIn(old(effectsManager.trace))
    {
      ghost var m, flags := effectsManager, effectsManager.ActiveFlags();
      var _ := Update(camera, scene, mouse, host);
      ClicksHoldNoUpdates(flags, cursor);
      UpdatesInAppend(old(m.trace), m.trace[|old(m.trace)|..]);
      assert m.trace == old(m.trace) + m.trace[|old(m.trace)|..];
    }

    /** The active part of an update, for a drag attached to a manager. */
    method Drive(camera: Camera, host: Host) returns (ghost draws: seq<real>)
      requires effectsManager != null && TargetsReady()
      modifies this`t, this`cursor, this`frameCounter, host`seed, host`draws
      modifies Driven()`trace, TargetBases()`cubeArray, TargetBases()`cubes, TargetBases()`clicks
      modifies TargetSpirals()`dragPath, TargetSpirals()`lastDragPoint, TargetSpirals()`spiralAngle
      modifies TargetSpirals()`cubeCounter, TargetScenes()`children
      ensures TargetsReady()
      ensures var m := effectsManager;
        var fired := Tick(old(frameCounter), spawnInterval).1;
        && t == old(t) + speed
        && frameCounter == Tick(old(frameCounter), spawnInterval).0
        && |draws| == (if pattern == "random" then 2 else 0)
        && (forall k :: 0 <= k < |draws| ==> 0.0 <= draws[k] < 1.0)
        && cursor == NextCursor(pattern, t, old(cursor), speed, draws, host.sin, host.cos)
        && m.trace == old(m.trace) + (if fired then ClickOrder(old(m.ActiveFlags()), cursor) else [])
        && m.Clicks() == if fired then ClickedUpTo(old(m.Clicks()), old(m.ActiveFlags()), |m.onClickEffects|, cursor) else old(m.Clicks())
    {
      var fired;
      ghost var m, flags0, clicks0, trace0 := effectsManager, effectsManager.ActiveFlags(), effectsManager.Clicks(), effectsManager.trace;
      draws, fired := Advance(host);
      assert m.ActiveFlags() == flags0 && m.Clicks() == clicks0 && m.trace == trace0;
      if fired {
        TriggerDragEffects(camera, host);
      }
    }

    /** Time, cursor and frame counter of an active frame; `fired` tells whether the spawn interval was reached. */
    method Advance(host: Host) returns (ghost draws: seq<real>, fired: bool)
      modifies this`t, this`cursor, this`frameCounter, host`seed, host`draws
      ensures fired == Tick(old(frameCounter), spawnInterval).1
      ensures t == old(t) + speed
      ensures frameCounter == Tick(old(frameCounter), spawnInterval).0
      ensures |draws| == (if pattern == "random" then 2 else 0)
      ensures forall k :: 0 <= k < |draws| ==> 0.0 <= draws[k] < 1.0
      ensures cursor == NextCursor(pattern, t, old(cursor), speed, draws, host.sin, host.cos)
    {
      t := t + speed;
      draws := UpdateCursorPosition(host);
      frameCounter := frameCounter + 1.0;
      fired := frameCounter >= spawnInterval;
      if fired {
        frameCounter := 0.0;
      }
    }

    /** Clicks every active click effect of the manager at the virtual cursor. */
    method TriggerDragEffects(camera: Camera, host: Host)
      requires TargetsReady()
      modifies Driven()`trace, TargetBases()`cubeArray, TargetBases()`cubes, TargetBases()`clicks
      modifies TargetSpirals()`dragPath, TargetSpirals()`lastDragPoint, TargetSpirals()`spiralAngle
      modifies TargetSpirals()`cubeCounter, TargetScenes()`children
      modifies host`seed, host`draws
      ensures TargetsReady()
      ensures effectsManager == null ==> host.draws == old(host.draws)
      ensures effectsManager != null ==>
        var m := effectsManager;
        && m.trace == old(m.trace) + ClickOrder(old(m.ActiveFlags()), cursor)
        && m.Clicks() == ClickedUpTo(old(m.Clicks()), old(m.ActiveFlags()), |m.onClickEffects|, cursor)
    {
      if effectsManager == null {
        return;
      }
      effectsManager.ClickActive(cursor, camera, host);
    }

    /** Moves the virtual cursor by the pattern; "random" takes two draws, the others none. */
    method UpdateCursorPosition(host: Host) returns (ghost draws: seq<real>)
      modifies this`cursor, host`seed, host`draws
      ensures host.draws == old(host.draws) + draws
      ensures |draws| == (if pattern == "random" then 2 else 0)
      ensures forall k :: 0 <= k < |draws| ==> 0.0 <= draws[k] < 1.0
      ensures cursor == NextCursor(pattern, t, old(cursor), speed, draws, host.sin, host.cos)
    {
      if pattern == "random" {
        var dx := host.Random();
        var dy := host.Random();
        draws := [dx, dy];
        cursor := Pointer(Walk(cursor.x, dx, speed), Walk(cursor.y, dy, speed));
      } else {
        draws := [];
        cursor := PatternCursor(pattern, t, host.sin, host.cos);
      }
    }

    method SetActive(active: bool)
      modifies base`active
      ensures base.active == active
    {
      base.SetActive(active);
    }

    /** `drag[p]`, or None when undefined. */
    function Property(p: string): (v: Option<Value>)
      reads this, base
    {
      if p == "name" then Some(Str("SimulatedDrag"))
      else if p == "pattern" then Some(Str(pattern))
      else if p == "speed" then Some(Num(speed))
      else if p == "pathSize" then Some(Num(pathSize))
      else if p == "t" then Some(Num(t))
      else if p == "frameCounter" then Some(Num(frameCounter))
      else if p == "spawnInterval" then Some(Num(spawnInterval))
      else if p == "virtualCursor" then Some(Obj)
      else if p == "effectsManager" then (if effectsManager == null then Some(Null) else Some(Obj))
      else base.Property(p)
    }

    predicate Accepts(p: string, v: Value)
    {
      if p == "pattern" then v.Str?
      else if p in DragNumbers then v.Num?
      else if p == "name" || p == "virtualCursor" || p == "effectsManager" then false
      else base.Accepts(p, v)
    }

    /** `drag[p] = v`: the drag's own settings, else the base effect's. */
    method SetProperty(p: string, v: Value)
      modifies this`pattern, this`speed, this`pathSize, this`t, this`frameCounter, this`spawnInterval
      modifies base`rotationSpeed, base`randomColor, base`fixedColor, base`active, base`extras
      ensures Property(p) == if Accepts(p, v) then Some(v) else old(Property(p))
      ensures forall q :: q != p ==> Property(q) == old(Property(q))
    {
      if p == "pattern" {
        if v.Str? { pattern := v.s; }
      } else if p in DragNumbers {
        if v.Num? {
          if p == "speed" { speed := v.n; }
          else if p == "pathSize" { pathSize := v.n; }
          else if p == "t" { t := v.n; }
          else if p == "frameCounter" { frameCounter := v.n; }
          else { spawnInterval := v.n; }
        }
      } else if p != "name" && p != "virtualCursor" && p != "effectsManager" {
        base.SetProperty(p, v);
      }
    }
  }

  const DragNumbers: set<string> := {"speed", "pathSize", "t", "frameCounter", "spawnInterval"}

  // ---------------------------------------------------------------------------
  // EffectsManager

  /** The base received one more update, with the given camera, scene and pointer. */
  ghost predicate Fed(b: Effect, updates0: nat, camera: Camera, scene: Scene, mouse: Pointer)
    reads b`updates, b`camera, b`scene, b`mouse
  {
    (b.updates == updates0 + 1 && b.camera == Some(camera) && b.scene == scene && b.mouse == Some(mouse)) == true
  }

  /** The `active` flags of the listed effects whose base is in `owned`, in list order. */
  ghost function FlagsOf(es: seq<ClickRef>, owned: set<Effect>): (flags: seq<bool>)
    reads owned`active
    ensures |flags| == |es|
    ensures forall i :: 0 <= i < |es| && es[i].Base() in owned ==> flags[i] == es[i].Base().active
  {
    if es == [] then []
    else FlagsOf(es[..|es| - 1], owned) + [es[|es| - 1].Base() in owned && es[|es| - 1].Base().active]
  }

  /** The recorded clicks of the listed effects whose base is in `owned`, in list order. */
  ghost function ClicksOf(es: seq<ClickRef>, owned: set<Effect>): (r: seq<seq<Pointer>>)
    reads owned`clicks
    ensures |r| == |es|
    ensures forall i :: 0 <= i < |es| && es[i].Base() in owned ==> r[i] == es[i].Base().clicks
  {
    if es == [] then []
    else ClicksOf(es[..|es| - 1], owned) + [if es[|es| - 1].Base() in owned then es[|es| - 1].Base().clicks else []]
  }

  /** The update counts of the listed click effects whose base is in `owned`, in list order. */
  ghost function ClickUpdatesOf(es: seq<ClickRef>, owned: set<Effect>): (r: seq<nat>)
    reads owned`updates
    ensures |r| == |es|
    ensures forall i :: 0 <= i < |es| && es[i].Base() in owned ==> r[i] == es[i].Base().updates
  {
    if es == [] then []
    else ClickUpdatesOf(es[..|es| - 1], owned) + [if es[|es| - 1].Base() in owned then es[|es| - 1].Base().updates else 0]
  }

  /** The update counts of the listed idle effects whose base is in `owned`, in list order. */
  ghost function IdleUpdatesOf(es: seq<IdleRef>, owned: set<Effect>): (r: seq<nat>)
    reads owned`updates
    ensures |r| == |es|
    ensures forall i :: 0 <= i < |es| && es[i].Base() in owned ==> r[i] == es[i].Base().updates
  {
    if es == [] then []
    else IdleUpdatesOf(es[..|es| - 1], owned) + [if es[|es| - 1].Base() in owned then es[|es| - 1].Base().updates else 0]
  }

  /** Which click effects an operation by name takes: all of them, or those called `name`. */
  function Selection(es: seq<ClickRef>, all: bool, name: string): (sel: seq<bool>)
    ensures |sel| == |es|
    ensures forall i :: 0 <= i < |es| ==> sel[i] == (all || es[i].Name() == name)
  {
    seq(|es|, i requires 0 <= i < |es| => all || es[i].Name() == name)
  }

  /** The updates `setEffectActive` dispatches: one per selected effect among the first n, in list order. */
  function MatchOrder(sel: seq<bool>, n: nat): seq<Dispatch>
    requires n <= |sel|
  {
    if n == 0 then [] else MatchOrder(sel, n - 1) + (if sel[n - 1] then [UpdatedClick(n - 1)] else [])
  }

  /** Effect j is updated exactly when it is among the first n and selected. */
  lemma {:induction false} MatchOrderMembers(sel: seq<bool>, n: nat, j: int)
    requires n <= |sel|
    ensures UpdatedClick(j) in MatchOrder(sel, n) <==> 0 <= j < n && sel[j]
  {
    if n > 0 {
      MatchOrderMembers(sel, n - 1, j);
      assert MatchOrder(sel, n) == MatchOrder(sel, n - 1) + (if sel[n - 1] then [UpdatedClick(n - 1)] else []);
    }
  }

  /** No update is dispatched exactly when no effect is selected: an unknown name changes nothing. */
  lemma {:induction false} MatchOrderEmpty(sel: seq<bool>, n: nat)
    requires n <= |sel|
    ensures MatchOrder(sel, n) == [] <==> forall j :: 0 <= j < n ==> !sel[j]
  {
    if n > 0 {
      MatchOrderEmpty(sel, n - 1);
      if sel[n - 1] {
        assert MatchOrder(sel, n)[|MatchOrder(sel, n)| - 1] == UpdatedClick(n - 1);
      } else {
        assert MatchOrder(sel, n) == MatchOrder(sel, n - 1);
      }
    }
  }

  /** The dispatches of one more selected effect. */
  lemma MatchOrderStep(u: seq<Dispatch>, sel: seq<bool>, i: nat)
    requires i < |sel| && sel[i]
    ensures u + MatchOrder(sel, i) + [UpdatedClick(i)] == u + MatchOrder(sel, i + 1)
  {
  }

  /** The cubes `clear()` takes out of the scene for a base: its array, when it knows a scene. */
  ghost function LeavingOne(b: Effect): set<Cube>
    reads b`scene, b`cubeArray
  {
    if b.scene != null then Elements(b.cubeArray) else {}
  }

  /** LeavingOne of every listed effect whose base is in `owned`, in list order. */
  ghost function Leaving(es: seq<ClickRef>, owned: set<Effect>): (r: seq<set<Cube>>)
    reads owned`scene, owned`cubeArray
    ensures |r| == |es|
    ensures forall i :: 0 <= i < |es| && es[i].Base() in owned ==> r[i] == LeavingOne(es[i].Base())
  {
    if es == [] then []
    else Leaving(es[..|es| - 1], owned) + [if es[|es| - 1].Base() in owned then LeavingOne(es[|es| - 1].Base()) else {}]
  }

  /** The cube arrays of the listed click effects whose base is in `owned`, in list order. */
  ghost function CubeArraysOf(es: seq<ClickRef>, owned: set<Effect>): (r: seq<seq<Cube>>)
    reads owned`cubeArray
    ensures |r| == |es|
    ensures forall i :: 0 <= i < |es| && es[i].Base() in owned ==> r[i] == es[i].Base().cubeArray
  {
    if es == [] then []
    else CubeArraysOf(es[..|es| - 1], owned) + [if es[|es| - 1].Base() in owned then es[|es| - 1].Base().cubeArray else []]
  }

  /** The trails of the listed click effects whose spiral is in `owned`, in list order. */
  ghost function TrailsOf(es: seq<ClickRef>, owned: set<ClickEffects.DragSpiral>): (r: seq<Option<Trail>>)
    reads owned`dragPath, owned`lastDragPoint, owned`spiralAngle, owned`cubeCounter
    ensures |r| == |es|
    ensures forall i :: 0 <= i < |es| && SpiralOf(es[i]) <= owned ==> r[i] == TrailOf(es[i])
  {
    if es == [] then []
    else TrailsOf(es[..|es| - 1], owned) + [if SpiralOf(es[|es| - 1]) <= owned then TrailOf(es[|es| - 1]) else None]
  }

  /** The union of the selected sets among the first n. */
  function UnionUpTo(sets: seq<set<Cube>>, sel: seq<bool>, n: nat): set<Cube>
    requires n <= |sets| && n <= |sel|
  {
    if n == 0 then {} else UnionUpTo(sets, sel, n - 1) + (if sel[n - 1] then sets[n - 1] else {})
  }

  /** A cube is in the union exactly when one of the selected sets among the first n holds it. */
  lemma {:induction false} UnionUpToMembers(sets: seq<set<Cube>>, sel: seq<bool>, n: nat, c: Cube)
    requires n <= |sets| && n <= |sel|
    ensures c in UnionUpTo(sets, sel, n) <==> exists j :: 0 <= j < n && sel[j] && c in sets[j]
  {
    if n > 0 {
      UnionUpToMembers(sets, sel, n - 1, c);
    }
  }

  /** What `clear()` leaves of a click effect whose array was arr0: a ClickSnake keeps its array, a DragSpiral empties it and resets its trail. */
  ghost predicate Cleared(e: ClickRef, arr0: seq<Cube>)
    reads e.Base()`cubeArray, SpiralOf(e)`dragPath, SpiralOf(e)`lastDragPoint, SpiralOf(e)`spiralAngle, SpiralOf(e)`cubeCounter
  {
    if e.Spiral? then e.Base().cubeArray == [] && TrailOf(e) == Some(ResetTrail) else e.Base().cubeArray == arr0
  }

  /** The drag trail of a DragSpiral: path, last point, angle and counter. */
  datatype Trail = Trail(dragPath: seq<Vec3>, lastDragPoint: Option<Vec3>, spiralAngle: real, cubeCounter: real)

  /** The trail of a DragSpiral after `clear()`: no path, no last point, angle and counter back to 0. */
  const ResetTrail := Trail([], None, 0.0, 0.0)

  ghost function TrailOf(e: ClickRef): Option<Trail>
    reads SpiralOf(e)`dragPath, SpiralOf(e)`lastDragPoint, SpiralOf(e)`spiralAngle, SpiralOf(e)`cubeCounter
  {
    if e.Spiral? then Some(Trail(e.spiral.dragPath, e.spiral.lastDragPoint, e.spiral.spiralAngle, e.spiral.cubeCounter)) else None
  }

  /** The recorded clicks once the first n effects whose flag is set have been clicked at p. */
  function ClickedUpTo(clicks: seq<seq<Pointer>>, flags: seq<bool>, n: int, p: Pointer): (r: seq<seq<Pointer>>)
    requires |flags| == |clicks|
    ensures |r| == |clicks|
    ensures forall j :: 0 <= j < |r| && j < n && flags[j] ==> r[j] == clicks[j] + [p]
    ensures forall j :: 0 <= j < |r| && !(j < n && flags[j]) ==> r[j] == clicks[j]
  {
    seq(|clicks|, j requires 0 <= j < |clicks| => if j < n && flags[j] then clicks[j] + [p] else clicks[j])
  }

  /** `effect.onClick(p, camera)` on one registered click effect. */
  method ClickEffect(e: ClickRef, p: Pointer, camera: Camera, host: Host)
    requires ClickOk(e) && e.Base().scene != null
    modifies e.Base()`cubeArray, e.Base()`cubes, e.Base()`clicks
    modifies SpiralOf(e)`dragPath, SpiralOf(e)`lastDragPoint, SpiralOf(e)`spiralAngle, SpiralOf(e)`cubeCounter
    modifies e.Base().scene`children, host`seed, host`draws
    ensures ClickOk(e)
    ensures e.Base().clicks == old(e.Base().clicks) + [p]
  {
    match e
    case Snake(s) =>
      s.OnClick(p, camera, host);
    case Spiral(s) =>
      ghost var spawned := s.OnClick(p, camera, host);
  }

  /** One more effect through the click loop: it gains the click if its flag is set. */
  lemma ClickedStep(clicks: seq<seq<Pointer>>, flags: seq<bool>, i: nat, p: Pointer, done: seq<seq<Pointer>>)
    requires |flags| == |clicks| && i < |clicks| && done == ClickedUpTo(clicks, flags, i, p)
    ensures ClickedUpTo(clicks, flags, i + 1, p) == if flags[i] then done[i := done[i] + [p]] else done
  {
  }

  /** One more flag: a click is appended if it is set. */
  lemma ClickOrderStep(flags: seq<bool>, i: nat, p: Pointer)
    requires i < |flags|
    ensures ClickOrder(flags[..i + 1], p) == ClickOrder(flags[..i], p) + (if flags[i] then [Clicked(i, p)] else [])
  {
    assert flags[..i + 1][..i] == flags[..i];
  }

  /** A set flag appends its click to a trace. */
  lemma ClickOrderPush(u: seq<Dispatch>, flags: seq<bool>, i: nat, p: Pointer)
    requires i < |flags| && flags[i]
    ensures u + ClickOrder(flags[..i], p) + [Clicked(i, p)] == u + ClickOrder(flags[..i + 1], p)
  {
    ClickOrderStep(flags, i, p);
  }

  /** A frame update takes the click effects in list order. */
  lemma UpdateOrderClick(u: seq<Dispatch>, i: nat)
    ensures u + UpdateOrder(i, 0) + [UpdatedClick(i)] == u + UpdateOrder(i + 1, 0)
  {
    assert UpdateOrder(i + 1, 0) == UpdateOrder(i, 0) + [UpdatedClick(i)];
  }

  /** ... and then the idle effects in list order. */
  lemma UpdateOrderIdle(u: seq<Dispatch>, k: nat)
    ensures u + UpdateOrder(0, k) + [UpdatedIdle(k)] == u + UpdateOrder(0, k + 1)
  {
    assert UpdateOrder(0, k + 1) == UpdateOrder(0, k) + [UpdatedIdle(k)];
  }

  lemma UpdateOrderJoin(u: seq<Dispatch>, n: nat, k: nat)
    ensures u + UpdateOrder(n, 0) + UpdateOrder(0, k) == u + UpdateOrder(n, k)
  {
    assert UpdateOrder(n, k) == UpdateOrder(n, 0) + UpdateOrder(0, k);
  }

  /** An update dispatch shows in the updates of a trace. */
  lemma UpdatesInPush(t: seq<Dispatch>, d: Dispatch)
    requires !d.Clicked?
    ensures UpdatesIn(t + [d]) == UpdatesIn(t) + [d]
  {
    assert (t + [d])[..|t|] == t;
  }

  /** The beat detector a click effect's update may reset. */
  function ClickBeats(e: ClickRef): set<Audio.BeatDetector>
    reads SpiralOf(e)`audioAnalyzer
  {
    Audio.DetectorOf(ClickAnalyzer(e))
  }

  /** `effect.update(camera, scene, mouse)` on one registered click effect. */
  method UpdateClickEffect(e: ClickRef, camera: Camera, scene: Scene, mouse: Pointer, host: Host)
    requires ClickOk(e)
    modifies e.Base()`camera, e.Base()`scene, e.Base()`mouse, e.Base()`cubes, e.Base()`updates, e.Base()`cubeArray
    modifies ClickBeats(e)`isBeat, scene`children
    ensures ClickOk(e)
    ensures Fed(e.Base(), old(e.Base().updates), camera, scene, mouse)
  {
    match e
    case Snake(s) =>
      s.Update(camera, scene, mouse);
    case Spiral(s) =>
      var _ := s.Update(camera, scene, mouse, host);
  }

  /** What an idle effect's update may change besides its base, by kind. */
  function DragOf(e: IdleRef): set<SimulatedDrag>
  {
    if e.Drag? then {e.drag} else {}
  }

  function IdleMeshes(e: IdleRef): set<ShaderMesh>
  {
    if e.Kaleido? then {e.kaleido.mesh} else {}
  }

  function IdleUniforms(e: IdleRef): set<object>
  {
    if e.Kaleido? then {e.kaleido.uniforms, e.kaleido.uniforms.frequencyData} else {}
  }

  function IdleBeats(e: IdleRef): set<Audio.BeatDetector>
    reads KaleidoOf(e)`audioAnalyzer
  {
    Audio.DetectorOf(IdleAnalyzer(e))
  }

  /** An idle effect stays well formed while nothing it reads changes. */
  twostate lemma IdleKept(e: IdleRef)
    requires old(IdleOk(e))
    requires unchanged(e.Base()`cubeArray, e.Base()`cubes, e.Base()`scene, KaleidoOf(e)`audioAnalyzer)
    requires unchanged(Audio.Attached(IdleAnalyzer(e))`analyserReady, Audio.Attached(IdleAnalyzer(e))`frequencyData)
    requires unchanged(Audio.DetectorOf(IdleAnalyzer(e))`beatHistory)
    ensures IdleOk(e)
  {
  }

  class EffectsManager {
    var onClickEffects: seq<ClickRef>
    var idleEffects: seq<IdleRef>
    /** `this.camera`, `this.scene`, `this.mouse`: null until the first update. */
    var camera: Option<Camera>
    var scene: Scene?
    var mouse: Option<Pointer>
    var mouseDown: bool
    /** The updates and clicks this manager has dispatched, in order. */
    ghost var trace: seq<Dispatch>
    /** The objects the registered effects own, by kind. */
    ghost var clickBases: set<Effect>
    ghost var spirals: set<ClickEffects.DragSpiral>
    ghost var idleBases: set<Effect>
    ghost var drags: set<SimulatedDrag>
    ghost var kaleidos: set<IdleEffects.Kaleidoscope>
    ghost var meshes: set<ShaderMesh>
    ghost var uniformSets: set<IdleEffects.Uniforms>
    ghost var spectra: set<array<real>>
    /** The audio analysers the effects read, and their beat detectors. */
    ghost var analyzers: set<Audio.AudioAnalyzer>
    ghost var detectors: set<Audio.BeatDetector>

    /** The manager's scene, as a set. */
    function Scenes(): set<Scene>
      reads this`scene
    {
      if scene != null then {scene} else {}
    }

    /** The registered ClickSnakes. */
    ghost function Snakes(): set<ClickEffects.ClickSnake>
      reads this`onClickEffects
    {
      set j | 0 <= j < |onClickEffects| && onClickEffects[j].Snake? :: onClickEffects[j].snake
    }

    /** The registered RandomCubes. */
    ghost function RandomCubes(): set<IdleEffects.RandomCubes>
      reads this`idleEffects
    {
      set j | 0 <= j < |idleEffects| && idleEffects[j].Cubes? :: idleEffects[j].cubes
    }

    /** The `active` flags of the click effects, in list order. */
    ghost function ActiveFlags(): (flags: seq<bool>)
      reads this`onClickEffects, this`clickBases, clickBases`active
    {
      FlagsOf(onClickEffects, clickBases)
    }

    /** The clicks each click effect has received, in list order. */
    ghost function Clicks(): seq<seq<Pointer>>
      reads this`onClickEffects, this`clickBases, clickBases`clicks
    {
      ClicksOf(onClickEffects, clickBases)
    }

    /** Every click effect is owned, well formed, and registered once. */
    ghost predicate ClicksOk()
      reads this`onClickEffects, this`clickBases, this`spirals, this`analyzers, this`detectors
      reads clickBases`cubeArray, clickBases`cubes, clickBases`scene, spirals`dragPath, spirals`audioAnalyzer
      reads analyzers`analyserReady, analyzers`frequencyData, detectors`beatHistory
    {
      && (forall i :: 0 <= i < |onClickEffects| ==>
            onClickEffects[i].Base() in clickBases && SpiralOf(onClickEffects[i]) <= spirals)
      && (forall i :: 0 <= i < |onClickEffects| ==>
            Audio.Attached(ClickAnalyzer(onClickEffects[i])) <= analyzers
            && Audio.DetectorOf(ClickAnalyzer(onClickEffects[i])) <= detectors)
      && (forall i :: 0 <= i < |onClickEffects| ==> ClickOk(onClickEffects[i]))
      && (forall i, j :: 0 <= i < |onClickEffects| && 0 <= j < |onClickEffects| && i != j ==>
            onClickEffects[i].Base() != onClickEffects[j].Base())
    }

    /** Every active click effect knows its scene, as onClick requires. */
    ghost predicate ScenesReady()
      reads this`onClickEffects, this`clickBases, clickBases`active, clickBases`scene
    {
      forall i :: 0 <= i < |onClickEffects| && onClickEffects[i].Base() in clickBases && onClickEffects[i].Base().active ==>
        onClickEffects[i].Base().scene != null
    }

    /** The click effects know no scene but the manager's: they receive it only from the manager. */
    ghost predicate SceneShared()
      reads this`onClickEffects, this`scene, this`clickBases, clickBases`scene
    {
      forall i :: 0 <= i < |onClickEffects| && onClickEffects[i].Base() in clickBases ==>
        onClickEffects[i].Base().scene == null || onClickEffects[i].Base().scene == scene
    }

    /** Every idle effect is owned, well formed and registered once, and a SimulatedDrag drives no manager but this one. */
    ghost predicate IdlesOk()
      reads this`idleEffects, this`idleBases, this`drags, this`kaleidos, this`meshes, this`uniformSets
      reads this`spectra, this`analyzers, this`detectors
      reads idleBases`cubeArray, idleBases`cubes, idleBases`scene, drags`effectsManager, kaleidos`audioAnalyzer
      reads analyzers`analyserReady, analyzers`frequencyData, detectors`beatHistory
    {
      && (forall i :: 0 <= i < |idleEffects| ==>
            var e := idleEffects[i];
            && e.Base() in idleBases && KaleidoOf(e) <= kaleidos
            && (e.Drag? ==> e.drag in drags)
            && (e.Kaleido? ==> e.kaleido.mesh in meshes && e.kaleido.uniforms in uniformSets
                               && e.kaleido.uniforms.frequencyData in spectra))
      && (forall i :: 0 <= i < |idleEffects| ==>
            Audio.Attached(IdleAnalyzer(idleEffects[i])) <= analyzers
            && Audio.DetectorOf(IdleAnalyzer(idleEffects[i])) <= detectors)
      && (forall i :: 0 <= i < |idleEffects| ==> IdleOk(idleEffects[i]))
      && (forall i, j :: 0 <= i < |idleEffects| && 0 <= j < |idleEffects| && i != j ==>
            idleEffects[i].Base() != idleEffects[j].Base())
      && (forall i :: 0 <= i < |idleEffects| && idleEffects[i].Drag? ==>
            idleEffects[i].drag.effectsManager == null || idleEffects[i].drag.effectsManager == this)
    }

    /** Both lists are well formed and no effect is both a click and an idle effect. */
    ghost predicate Valid()
      reads this`onClickEffects, this`clickBases, this`spirals, this`analyzers, this`detectors
      reads clickBases`cubeArray, clickBases`cubes, clickBases`scene, spirals`dragPath, spirals`audioAnalyzer
      reads analyzers`analyserReady, analyzers`frequencyData, detectors`beatHistory
      reads this`idleEffects, this`idleBases, this`drags, this`kaleidos, this`meshes, this`uniformSets, this`spectra
      reads idleBases`cubeArray, idleBases`cubes, idleBases`scene, drags`effectsManager, kaleidos`audioAnalyzer
    {
      (ClicksOk() && IdlesOk() && clickBases !! idleBases) == true
    }

    /** camera, scene and mouse have been set by an update. */
    predicate Ready()
      reads this`camera, this`scene, this`mouse
    {
      camera.Some? && scene != null && mouse.Some?
    }

    constructor ()
      ensures Valid()
      ensures onClickEffects == [] && idleEffects == []
      ensures camera == None && scene == null && mouse == None && !mouseDown && trace == []
    {
      onClickEffects, idleEffects := [], [];
      camera, scene, mouse, mouseDown := None, null, None, false;
      trace := [];
      clickBases, spirals := {}, {};
      idleBases, drags, kaleidos := {}, {}, {};
      meshes, uniformSets, spectra := {}, {}, {};
      analyzers, detectors := {}, {};
    }

    /** `updateMousePosition(mouse)` */
    method UpdateMousePosition(mouse: Pointer)
      modifies this`mouse
      ensures this.mouse == Some(mouse)
    {
      this.mouse := Some(mouse);
    }

    /** `updateMouseDown(mouseDown)`: what isMouseDown answers from now on. */
    method UpdateMouseDown(mouseDown: bool)
      modifies this`mouseDown
      ensures IsMouseDown() == mouseDown
    {
      this.mouseDown := mouseDown;
    }

    function IsMouseDown(): (down: bool)
      reads this`mouseDown
      ensures down == mouseDown
    {
      mouseDown
    }

    /** `initialize()`: registers a new ClickSnake of length 10 that fades by itself. */
    method Initialize() returns (snake: ClickEffects.ClickSnake)
      requires Valid()
      modifies this`onClickEffects, this`clickBases
      ensures Valid() && fresh(snake) && fresh(snake.base)
      ensures onClickEffects == old(onClickEffects) + [Snake(snake)]
      ensures snake.maxLength == 10.0 && snake.autoFade
      ensures !snake.base.active && snake.base.cubeArray == [] && snake.base.scene == null
    {
      snake := new ClickEffects.ClickSnake(10.0, true);
      ClicksKept();
      IdlesFrame();
      Register(Snake(snake));
    }

    /** Appends a well-formed snake whose base is not registered yet to the click list. */
    method Register(e: ClickRef)
      requires Valid() && e.Snake? && e.snake.Valid()
      requires e.Base() !in clickBases && e.Base() !in idleBases
      modifies this`onClickEffects, this`clickBases
      ensures Valid()
      ensures onClickEffects == old(onClickEffects) + [e] && clickBases == old(clickBases) + {e.Base()}
    {
      onClickEffects := onClickEffects + [e];
      clickBases := clickBases + {e.Base()};
    }

    /** `onClickEffects[i].onClick(p, camera)`, recorded in the trace; no effect's flag or scene changes. */
    method ClickAt(i: nat, p: Pointer, camera: Camera, host: Host)
      requires ClicksOk() && i < |onClickEffects| && onClickEffects[i].Base().scene != null
      modifies this`trace
      modifies onClickEffects[i].Base()`cubeArray, onClickEffects[i].Base()`cubes, onClickEffects[i].Base()`clicks
      modifies SpiralOf(onClickEffects[i])`dragPath, SpiralOf(onClickEffects[i])`lastDragPoint
      modifies SpiralOf(onClickEffects[i])`spiralAngle, SpiralOf(onClickEffects[i])`cubeCounter
      modifies onClickEffects[i].Base().scene`children, host`seed, host`draws
      ensures ClicksOk()
      ensures trace == old(trace) + [Clicked(i, p)]
      ensures Clicks() == old(Clicks())[i := old(Clicks())[i] + [p]]
      ensures unchanged(clickBases`active, clickBases`scene)
    {
      ClickEffectAt(i, p, camera, host);
      trace := trace + [Clicked(i, p)];
    }

    /** The effect half of `ClickAt`: the click reaches effect `i` alone. */
    method ClickEffectAt(i: nat, p: Pointer, camera: Camera, host: Host)
      requires ClicksOk() && i < |onClickEffects| && onClickEffects[i].Base().scene != null
      modifies onClickEffects[i].Base()`cubeArray, onClickEffects[i].Base()`cubes, onClickEffects[i].Base()`clicks
      modifies SpiralOf(onClickEffects[i])`dragPath, SpiralOf(onClickEffects[i])`lastDragPoint
      modifies SpiralOf(onClickEffects[i])`spiralAngle, SpiralOf(onClickEffects[i])`cubeCounter
      modifies onClickEffects[i].Base().scene`children, host`seed, host`draws
      ensures ClicksOk()
      ensures Clicks() == old(Clicks())[i := old(Clicks())[i] + [p]]
      ensures unchanged(clickBases`active, clickBases`scene)
    {
      var e := onClickEffects[i];
      ClickEffect(e, p, camera, host);
      forall j | 0 <= j < |onClickEffects| && j != i
        ensures ClickOk(onClickEffects[j])
        ensures onClickEffects[j].Base().clicks == old(onClickEffects[j].Base().clicks)
      {
        assert onClickEffects[j].Base() != e.Base();
      }
    }

    /**
     * The click loop after the first n effects, from the flags, trace and
     * clicks it started with: exactly the active ones among them have been
     * clicked at p, in list order.
     */
    ghost predicate ClickedThrough(n: int, p: Pointer, flags: seq<bool>, trace0: seq<Dispatch>, clicks0: seq<seq<Pointer>>)
      reads this`onClickEffects, this`clickBases, this`spirals, this`analyzers, this`detectors, this`trace
      reads this`scene, clickBases`cubeArray, clickBases`cubes, clickBases`scene, clickBases`clicks, clickBases`active
      reads spirals`dragPath, spirals`audioAnalyzer
      reads analyzers`analyserReady, analyzers`frequencyData, detectors`beatHistory
    {
      (&& 0 <= n <= |onClickEffects| && |clicks0| == |onClickEffects| == |flags|
      && ClicksOk() && ScenesReady() && SceneShared() && ActiveFlags() == flags
      && trace == trace0 + ClickOrder(flags[..n], p)
      && Clicks() == ClickedUpTo(clicks0, flags, n, p)) == true
    }

    /** One turn of the click loop: effect i is clicked at p if it is active. */
    method ClickStep(i: nat, p: Pointer, camera: Camera, host: Host,
                     ghost flags: seq<bool>, ghost trace0: seq<Dispatch>, ghost clicks0: seq<seq<Pointer>>)
      requires ClickedThrough(i, p, flags, trace0, clicks0) && i < |onClickEffects|
      modifies this`trace, clickBases`cubeArray, clickBases`cubes, clickBases`clicks
      modifies spirals`dragPath, spirals`lastDragPoint, spirals`spiralAngle, spirals`cubeCounter
      modifies SceneOf(onClickEffects[i].Base().scene)`children, host`seed, host`draws
      ensures ClickedThrough(i + 1, p, flags, trace0, clicks0)
    {
      if onClickEffects[i].Base().active {
        ClickActiveAt(i, p, camera, host, flags, trace0, clicks0);
      } else {
        ClickedStep(clicks0, flags, i, p, Clicks());
        ClickOrderStep(flags, i, p);
      }
    }

    /** The turn of the click loop on an active effect i: it is clicked at p. */
    method ClickActiveAt(i: nat, p: Pointer, camera: Camera, host: Host,
                         ghost flags: seq<bool>, ghost trace0: seq<Dispatch>, ghost clicks0: seq<seq<Pointer>>)
      requires ClickedThrough(i, p, flags, trace0, clicks0) && i < |onClickEffects| && onClickEffects[i].Base().active
      modifies this`trace, clickBases`cubeArray, clickBases`cubes, clickBases`clicks
      modifies spirals`dragPath, spirals`lastDragPoint, spirals`spiralAngle, spirals`cubeCounter
      modifies SceneOf(onClickEffects[i].Base().scene)`children, host`seed, host`draws
      ensures ClickedThrough(i + 1, p, flags, trace0, clicks0)
    {
      ClickedStep(clicks0, flags, i, p, Clicks());
      ClickOrderPush(trace0, flags, i, p);
      ClickAt(i, p, camera, host);
    }

    /** The loop of `onClickTick`: clicks every active click effect at p, in list order. */
    method ClickActive(p: Pointer, camera: Camera, host: Host)
      requires ClicksOk() && ScenesReady() && SceneShared()
      modifies this`trace, clickBases`cubeArray, clickBases`cubes, clickBases`clicks
      modifies spirals`dragPath, spirals`lastDragPoint, spirals`spiralAngle, spirals`cubeCounter
      modifies Scenes()`children, host`seed, host`draws
      ensures (ClicksOk() && ScenesReady() && SceneShared()) == true
      ensures trace == old(trace) + ClickOrder(old(ActiveFlags()), p)
      ensures Clicks() == ClickedUpTo(old(Clicks()), old(ActiveFlags()), |onClickEffects|, p)
    {
      ghost var flags, trace0, clicks0 := ActiveFlags(), trace, Clicks();
      assert flags[..0] == [];
      var i: nat := 0;
      while i < |onClickEffects|
        invariant i <= |onClickEffects|
        invariant ClickedThrough(i, p, flags, trace0, clicks0)
        decreases |onClickEffects| - i
      {
        ClickStep(i, p, camera, host, flags, trace0, clicks0);
        i := i + 1;
      }
      assert flags[..i] == flags;
    }

    /**
     * `onClickTick()`, run every 30 ms: while the button is down, every
     * active click effect is clicked at the pointer. With no active effect
     * the loop calls nothing, so the camera and pointer may still be unset.
     */
    method OnClickTick(host: Host)
      requires ClicksOk() && (mouseDown ==> ScenesReady() && SceneShared())
      requires mouseDown && true in ActiveFlags() ==> camera.Some? && mouse.Some?
      modifies this`trace, clickBases`cubeArray, clickBases`cubes, clickBases`clicks
      modifies spirals`dragPath, spirals`lastDragPoint, spirals`spiralAngle, spirals`cubeCounter
      modifies Scenes()`children, host`seed, host`draws
      ensures ClicksOk()
      ensures !(mouseDown && camera.Some? && mouse.Some?) ==>
        trace == old(trace) && host.draws == old(host.draws) && Clicks() == old(Clicks())
      ensures mouseDown && camera.Some? && mouse.Some? ==>
        && trace == old(trace) + ClickOrder(old(ActiveFlags()), mouse.value)
        && Clicks() == ClickedUpTo(old(Clicks()), old(ActiveFlags()), |onClickEffects|, mouse.value)
    {
      if mouseDown && camera.Some? && mouse.Some? {
        ClickActive(mouse.value, camera.value, host);
      }
    }

    /** `onClickEffects[i].update(camera, scene, mouse)`, recorded in the trace. */
    method UpdateClickAt(i: nat, camera: Camera, scene: Scene, mouse: Pointer, host: Host)
      requires ClicksOk() && i < |onClickEffects|
      modifies this`trace, onClickEffects[i].Base()`camera, onClickEffects[i].Base()`scene
      modifies onClickEffects[i].Base()`mouse, onClickEffects[i].Base()`cubes
      modifies onClickEffects[i].Base()`updates, onClickEffects[i].Base()`cubeArray
      modifies ClickBeats(onClickEffects[i])`isBeat, scene`children
      ensures ClicksOk()
      ensures Fed(onClickEffects[i].Base(), old(onClickEffects[i].Base().updates), camera, scene, mouse)
      ensures trace == old(trace) + [UpdatedClick(i)]
    {
      var e := onClickEffects[i];
      trace := trace + [UpdatedClick(i)];
      UpdateClickEffect(e, camera, scene, mouse, host);
      forall j | 0 <= j < |onClickEffects| && j != i
        ensures ClickOk(onClickEffects[j])
      {
        assert onClickEffects[j].Base() != e.Base();
      }
    }

    /** Every click effect was fed camera, scene and pointer once since it had ups[j] updates. */
    ghost predicate ClicksFed(ups: seq<nat>, camera: Camera, scene: Scene, mouse: Pointer)
      reads this`onClickEffects, this`clickBases, clickBases`updates, clickBases`camera, clickBases`scene, clickBases`mouse
    {
      && |ups| == |onClickEffects|
      && forall j :: 0 <= j < |onClickEffects| ==>
           onClickEffects[j].Base() in clickBases && Fed(onClickEffects[j].Base(), ups[j], camera, scene, mouse)
    }

    /** Every idle effect was fed camera, scene and pointer once since it had ups[j] updates. */
    ghost predicate IdlesFed(ups: seq<nat>, camera: Camera, scene: Scene, mouse: Pointer)
      reads this`idleEffects, this`idleBases, idleBases`updates, idleBases`camera, idleBases`scene, idleBases`mouse
    {
      && |ups| == |idleEffects|
      && forall j :: 0 <= j < |idleEffects| ==>
           idleEffects[j].Base() in idleBases && Fed(idleEffects[j].Base(), ups[j], camera, scene, mouse)
    }

    /**
     * The first loop of `update` after its first i turns, from the update
     * counts `ups0` and dispatches `u0` it started with: the first i click
     * effects were fed camera, scene and pointer once, the others not yet.
     */
    ghost predicate ClicksUpdatedThrough(i: nat, ups0: seq<nat>, u0: seq<Dispatch>, camera: Camera, scene: Scene, mouse: Pointer)
      reads this`onClickEffects, this`clickBases, this`spirals, this`analyzers, this`detectors, this`trace
      reads clickBases`cubeArray, clickBases`cubes, clickBases`scene, spirals`dragPath, spirals`audioAnalyzer
      reads analyzers`analyserReady, analyzers`frequencyData, detectors`beatHistory
      reads clickBases`updates, clickBases`camera, clickBases`mouse
    {
      (&& i <= |onClickEffects| == |ups0| && ClicksOk()
      && (forall j :: 0 <= j < |onClickEffects| ==>
            if j < i then Fed(onClickEffects[j].Base(), ups0[j], camera, scene, mouse)
            else onClickEffects[j].Base().updates == ups0[j])
      && UpdatesIn(trace) == u0 + UpdateOrder(i, 0)) == true
    }

    /** One turn of the first loop of `update`. */
    method UpdateClickStep(i: nat, camera: Camera, scene: Scene, mouse: Pointer, host: Host,
                           ghost ups0: seq<nat>, ghost u0: seq<Dispatch>)
      requires ClicksUpdatedThrough(i, ups0, u0, camera, scene, mouse) && i < |onClickEffects|
      modifies this`trace, clickBases`camera, clickBases`scene, clickBases`mouse, clickBases`cubes
      modifies clickBases`updates, clickBases`cubeArray, detectors`isBeat, scene`children
      ensures ClicksUpdatedThrough(i + 1, ups0, u0, camera, scene, mouse)
    {
      UpdatesInPush(trace, UpdatedClick(i));
      UpdateOrderClick(u0, i);
      UpdateClickAt(i, camera, scene, mouse, host);
    }

    /** The first loop of `update`: every click effect is updated, in list order (`ups0` holds their update counts before it). */
    method UpdateClicks(camera: Camera, scene: Scene, mouse: Pointer, host: Host, ghost ups0: seq<nat>)
      requires (ClicksOk() && ups0 == ClickUpdatesOf(onClickEffects, clickBases)) == true
      modifies this`trace, clickBases`camera, clickBases`scene, clickBases`mouse, clickBases`cubes
      modifies clickBases`updates, clickBases`cubeArray, detectors`isBeat, scene`children
      ensures (ClicksOk() && ClicksFed(ups0, camera, scene, mouse)) == true
      ensures UpdatesIn(trace) == UpdatesIn(old(trace)) + UpdateOrder(|onClickEffects|, 0)
    {
      ghost var u0 := UpdatesIn(trace);
      var i: nat := 0;
      while i < |onClickEffects|
        invariant ClicksUpdatedThrough(i, ups0, u0, camera, scene, mouse)
      {
        UpdateClickStep(i, camera, scene, mouse, host, ups0, u0);
        i := i + 1;
      }
    }

    /** The first loop of `update`, which leaves the idle effects as they were (`ups0` holds the click effects' update counts before it). */
    method UpdateClicksKeepingIdles(camera: Camera, scene: Scene, mouse: Pointer, host: Host, ghost ups0: seq<nat>)
      requires (Valid() && this.scene == scene && ups0 == ClickUpdatesOf(onClickEffects, clickBases)) == true
      modifies this`trace, clickBases`camera, clickBases`scene, clickBases`mouse, clickBases`cubes
      modifies clickBases`updates, clickBases`cubeArray, detectors`isBeat, scene`children
      ensures (Valid() && ScenesReady() && SceneShared() && this.scene == scene && ClicksFed(ups0, camera, scene, mouse)) == true
      ensures IdleUpdatesOf(idleEffects, idleBases) == old(IdleUpdatesOf(idleEffects, idleBases))
      ensures UpdatesIn(trace) == UpdatesIn(old(trace)) + UpdateOrder(|onClickEffects|, 0)
      ensures unchanged(this`clickBases, this`spirals, this`idleBases, this`drags, this`kaleidos)
      ensures unchanged(this`meshes, this`uniformSets, this`spectra, this`detectors)
      ensures unchanged(this`camera, this`scene, this`mouse)
    {
      UpdateClicks(camera, scene, mouse, host, ups0);
      FedScenes(ups0, camera, scene, mouse);
      IdlesFrame();
    }

    /** Click effects fed the manager's scene know no other, and know one. */
    lemma FedScenes(ups: seq<nat>, camera: Camera, scene: Scene, mouse: Pointer)
      requires ClicksFed(ups, camera, scene, mouse) && this.scene == scene
      ensures ScenesReady() && SceneShared()
    {
    }

    /** `idleEffects[k].update(camera, scene, mouse)`, recorded in the trace; a SimulatedDrag may click the click effects. */
    method UpdateIdleAt(k: nat, camera: Camera, scene: Scene, mouse: Pointer, host: Host)
      requires Valid() && ScenesReady() && SceneShared() && this.scene == scene && k < |idleEffects|
      modifies this`trace, idleEffects[k].Base()`camera, idleEffects[k].Base()`scene
      modifies idleEffects[k].Base()`mouse, idleEffects[k].Base()`cubes
      modifies idleEffects[k].Base()`updates, idleEffects[k].Base()`cubeArray
      modifies DragOf(idleEffects[k])`t, DragOf(idleEffects[k])`cursor, DragOf(idleEffects[k])`frameCounter
      modifies KaleidoOf(idleEffects[k])`hueOffset, IdleMeshes(idleEffects[k])`parent
      modifies IdleMeshes(idleEffects[k])`rotationZ, IdleUniforms(idleEffects[k]), IdleBeats(idleEffects[k])`isBeat
      modifies clickBases`cubeArray, clickBases`cubes, clickBases`clicks
      modifies spirals`dragPath, spirals`lastDragPoint, spirals`spiralAngle, spirals`cubeCounter
      modifies scene`children, host`seed, host`draws
      ensures Valid() && ScenesReady() && SceneShared()
      ensures Fed(idleEffects[k].Base(), old(idleEffects[k].Base().updates), camera, scene, mouse)
      ensures UpdatesIn(trace) == UpdatesIn(old(trace)) + [UpdatedIdle(k)]
    {
      UpdatesInPush(trace, UpdatedIdle(k));
      trace := trace + [UpdatedIdle(k)];
      match idleEffects[k]
      case Cubes(c) =>
        UpdateCubesAt(k, c, camera, scene, mouse, host);
      case Kaleido(q) =>
        UpdateKaleidoAt(k, q, camera, scene, mouse, host);
      case Drag(d) =>
        UpdateDragAt(k, d, camera, scene, mouse, host);
    }


    method UpdateCubesAt(k: nat, c: IdleEffects.RandomCubes, camera: Camera, scene: Scene, mouse: Pointer, host: Host)
      requires Valid() && ScenesReady() && SceneShared() && k < |idleEffects| && idleEffects[k] == Cubes(c)
      modifies c.base`camera, c.base`scene, c.base`mouse, c.base`cubes, c.base`updates, c.base`cubeArray
      modifies scene`children, host`seed, host`draws
      ensures Valid() && ScenesReady() && SceneShared()
      ensures Fed(c.base, old(c.base.updates), camera, scene, mouse)
    {
      var _ := c.Update(camera, scene, mouse, host);
      ClicksKept();
      IdlesKept(k);
    }

    method UpdateKaleidoAt(k: nat, q: IdleEffects.Kaleidoscope, camera: Camera, scene: Scene, mouse: Pointer, host: Host)
      requires Valid() && ScenesReady() && SceneShared() && k < |idleEffects| && idleEffects[k] == Kaleido(q)
      modifies q.base`camera, q.base`scene, q.base`mouse, q.base`cubes, q.base`updates, scene`children
      modifies q.mesh`parent, q.mesh`rotationZ, q`hueOffset, q.uniforms, q.uniforms.frequencyData
      modifies Audio.DetectorOf(q.audioAnalyzer)`isBeat
      ensures Valid() && ScenesReady() && SceneShared()
      ensures Fed(q.base, old(q.base.updates), camera, scene, mouse)
    {
      q.Update(camera, scene, mouse, host);
      ClicksKept();
      IdlesKept(k);
    }

    /** A registered SimulatedDrag can run its update: it is well formed and drives only this manager, whose click side is ready. */
    lemma DragReady(k: nat, d: SimulatedDrag)
      requires (Valid() && ScenesReady() && SceneShared() && k < |idleEffects| && idleEffects[k] == Drag(d)) == true
      ensures (d.Valid() && d.TargetsReady() && d.base !in clickBases && d.base in idleBases) == true
      ensures d.effectsManager == null || d.effectsManager == this
    {
      assert IdleOk(idleEffects[k]) && idleEffects[k].Base() in idleBases;
    }

    method UpdateDragAt(k: nat, d: SimulatedDrag, camera: Camera, scene: Scene, mouse: Pointer, host: Host)
      requires Valid() && ScenesReady() && SceneShared() && this.scene == scene
      requires k < |idleEffects| && idleEffects[k] == Drag(d)
      modifies this`trace, d.base`camera, d.base`scene, d.base`mouse, d.base`cubes, d.base`updates
      modifies d`t, d`cursor, d`frameCounter
      modifies clickBases`cubeArray, clickBases`cubes, clickBases`clicks
      modifies spirals`dragPath, spirals`lastDragPoint, spirals`spiralAngle, spirals`cubeCounter
      modifies scene`children, host`seed, host`draws
      ensures Valid() && ScenesReady() && SceneShared()
      ensures Fed(d.base, old(d.base.updates), camera, scene, mouse)
      ensures UpdatesIn(trace) == UpdatesIn(old(trace))
    {
      DragReady(k, d);
      if d.effectsManager == null {
        UpdateIdleDrag(k, d, camera, scene, mouse, host);
      } else {
        UpdateDrivingDrag(k, d, camera, scene, mouse, host);
      }
    }

    /** The update of a SimulatedDrag that drives no manager: only its base changes. */
    method UpdateIdleDrag(k: nat, d: SimulatedDrag, camera: Camera, scene: Scene, mouse: Pointer, host: Host)
      requires d.effectsManager == null
      requires Valid() && ScenesReady() && SceneShared() && this.scene == scene
      requires k < |idleEffects| && idleEffects[k] == Drag(d)
      modifies this`trace, d.base`camera, d.base`scene, d.base`mouse, d.base`cubes, d.base`updates
      modifies d`t, d`cursor, d`frameCounter
      modifies clickBases`cubeArray, clickBases`cubes, clickBases`clicks
      modifies spirals`dragPath, spirals`lastDragPoint, spirals`spiralAngle, spirals`cubeCounter
      modifies scene`children, host`seed, host`draws
      ensures Valid() && ScenesReady() && SceneShared()
      ensures Fed(d.base, old(d.base.updates), camera, scene, mouse)
      ensures UpdatesIn(trace) == UpdatesIn(old(trace))
    {
      DragReady(k, d);
      var _ := d.Update(camera, scene, mouse, host);
      ClicksKept();
      IdlesKept(k);
    }

    /** The update of a SimulatedDrag that drives this manager: its clicks add no update to the trace. */
    method UpdateDrivingDrag(k: nat, d: SimulatedDrag, camera: Camera, scene: Scene, mouse: Pointer, host: Host)
      requires d.effectsManager == this
      requires Valid() && ScenesReady() && SceneShared() && this.scene == scene
      requires k < |idleEffects| && idleEffects[k] == Drag(d)
      modifies this`trace, d.base`camera, d.base`scene, d.base`mouse, d.base`cubes, d.base`updates
      modifies d`t, d`cursor, d`frameCounter
      modifies clickBases`cubeArray, clickBases`cubes, clickBases`clicks
      modifies spirals`dragPath, spirals`lastDragPoint, spirals`spiralAngle, spirals`cubeCounter
      modifies scene`children, host`seed, host`draws
      ensures Valid() && ScenesReady() && SceneShared()
      ensures Fed(d.base, old(d.base.updates), camera, scene, mouse)
      ensures UpdatesIn(trace) == UpdatesIn(old(trace))
    {
      DragReady(k, d);
      assert d.TargetBases() == clickBases;
      d.UpdateDriving(camera, scene, mouse, host);
      assert unchanged(this`idleEffects, this`idleBases, this`drags, this`kaleidos, this`meshes, this`uniformSets);
      assert unchanged(this`spectra, this`analyzers, this`detectors);
      IdlesKept(k);
    }

    /**
     * The second loop of `update` after the first k idle effects: those were
     * fed camera, scene and pointer once, the others not yet (`ups0` holds the
     * update counts it started from), and one update per idle effect so far
     * was recorded.
     */
    ghost predicate IdlesThrough(k: nat, camera: Camera, scene: Scene, mouse: Pointer, ups0: seq<nat>, updates0: seq<Dispatch>)
      reads this`onClickEffects, this`clickBases, this`spirals, this`analyzers, this`detectors
      reads clickBases`cubeArray, clickBases`cubes, clickBases`scene, clickBases`active, spirals`dragPath, spirals`audioAnalyzer
      reads analyzers`analyserReady, analyzers`frequencyData, detectors`beatHistory
      reads this`idleEffects, this`idleBases, this`drags, this`kaleidos, this`meshes, this`uniformSets, this`spectra
      reads idleBases`cubeArray, idleBases`cubes, idleBases`scene, drags`effectsManager, kaleidos`audioAnalyzer
      reads this`scene, this`trace, idleBases`updates, idleBases`camera, idleBases`mouse
    {
      (&& Valid() && ScenesReady() && SceneShared() && this.scene == scene
      && k <= |idleEffects| == |ups0|
      && (forall j :: 0 <= j < k ==> Fed(idleEffects[j].Base(), ups0[j], camera, scene, mouse))
      && (forall j :: k <= j < |idleEffects| ==> idleEffects[j].Base().updates == ups0[j])
      && UpdatesIn(trace) == updates0 + UpdateOrder(0, k)) == true
    }

    /** One turn of the second loop of `update`. */
    method UpdateIdleStep(k: nat, camera: Camera, scene: Scene, mouse: Pointer, host: Host,
                          ghost ups0: seq<nat>, ghost updates0: seq<Dispatch>)
      requires IdlesThrough(k, camera, scene, mouse, ups0, updates0) && k < |idleEffects|
      modifies this`trace, idleBases`camera, idleBases`scene, idleBases`mouse, idleBases`cubes
      modifies idleBases`updates, idleBases`cubeArray, drags`t, drags`cursor, drags`frameCounter
      modifies kaleidos`hueOffset, meshes`parent, meshes`rotationZ, uniformSets, spectra, detectors`isBeat
      modifies clickBases`cubeArray, clickBases`cubes, clickBases`clicks
      modifies spirals`dragPath, spirals`lastDragPoint, spirals`spiralAngle, spirals`cubeCounter
      modifies scene`children, host`seed, host`draws
      ensures IdlesThrough(k + 1, camera, scene, mouse, ups0, updates0)
    {
      UpdateOrderIdle(updates0, k);
      UpdateIdleAlone(k, camera, scene, mouse, host);
    }

    /** `idleEffects[k].update(camera, scene, mouse)`, which leaves the view and the update count of every other idle effect as they were. */
    method UpdateIdleAlone(k: nat, camera: Camera, scene: Scene, mouse: Pointer, host: Host)
      requires Valid() && ScenesReady() && SceneShared() && this.scene == scene && k < |idleEffects|
      modifies this`trace, idleEffects[k].Base()`camera, idleEffects[k].Base()`scene
      modifies idleEffects[k].Base()`mouse, idleEffects[k].Base()`cubes
      modifies idleEffects[k].Base()`updates, idleEffects[k].Base()`cubeArray
      modifies DragOf(idleEffects[k])`t, DragOf(idleEffects[k])`cursor, DragOf(idleEffects[k])`frameCounter
      modifies KaleidoOf(idleEffects[k])`hueOffset, IdleMeshes(idleEffects[k])`parent
      modifies IdleMeshes(idleEffects[k])`rotationZ, IdleUniforms(idleEffects[k]), IdleBeats(idleEffects[k])`isBeat
      modifies clickBases`cubeArray, clickBases`cubes, clickBases`clicks
      modifies spirals`dragPath, spirals`lastDragPoint, spirals`spiralAngle, spirals`cubeCounter
      modifies scene`children, host`seed, host`draws
      ensures Valid() && ScenesReady() && SceneShared()
      ensures Fed(idleEffects[k].Base(), old(idleEffects[k].Base().updates), camera, scene, mouse)
      ensures UpdatesIn(trace) == UpdatesIn(old(trace)) + [UpdatedIdle(k)]
      ensures forall j :: 0 <= j < |idleEffects| && j != k ==>
        && idleEffects[j].Base().updates == old(idleEffects[j].Base().updates)
        && idleEffects[j].Base().camera == old(idleEffects[j].Base().camera)
        && idleEffects[j].Base().scene == old(idleEffects[j].Base().scene)
        && idleEffects[j].Base().mouse == old(idleEffects[j].Base().mouse)
    {
      UpdateIdleAt(k, camera, scene, mouse, host);
      forall j | 0 <= j < |idleEffects| && j != k
        ensures idleEffects[j].Base().updates == old(idleEffects[j].Base().updates)
        ensures idleEffects[j].Base().camera == old(idleEffects[j].Base().camera)
        ensures idleEffects[j].Base().scene == old(idleEffects[j].Base().scene)
        ensures idleEffects[j].Base().mouse == old(idleEffects[j].Base().mouse)
      {
        assert idleEffects[j].Base() != idleEffects[k].Base();
      }
    }

    /** The second loop of `update`: every idle effect is updated, in list order. */
    method UpdateIdles(camera: Camera, scene: Scene, mouse: Pointer, host: Host)
      requires Valid() && ScenesReady() && SceneShared() && this.scene == scene
      modifies this`trace, idleBases`camera, idleBases`scene, idleBases`mouse, idleBases`cubes
      modifies idleBases`updates, idleBases`cubeArray, drags`t, drags`cursor, drags`frameCounter
      modifies kaleidos`hueOffset, meshes`parent, meshes`rotationZ, uniformSets, spectra, detectors`isBeat
      modifies clickBases`cubeArray, clickBases`cubes, clickBases`clicks
      modifies spirals`dragPath, spirals`lastDragPoint, spirals`spiralAngle, spirals`cubeCounter
      modifies scene`children, host`seed, host`draws
      ensures (Valid() && ScenesReady() && SceneShared()
               && IdlesFed(old(IdleUpdatesOf(idleEffects, idleBases)), camera, scene, mouse)
               && UpdatesIn(trace) == UpdatesIn(old(trace)) + UpdateOrder(0, |idleEffects|)) == true
    {
      ghost var ups0 := IdleUpdatesOf(idleEffects, idleBases);
      ghost var u0 := UpdatesIn(trace);
      UpdateIdlesLoop(camera, scene, mouse, host, ups0, u0);
    }

    /** The loop itself, from the update counts `ups0` and dispatches `u0` it starts with. */
    method UpdateIdlesLoop(camera: Camera, scene: Scene, mouse: Pointer, host: Host,
                           ghost ups0: seq<nat>, ghost u0: seq<Dispatch>)
      requires IdlesThrough(0, camera, scene, mouse, ups0, u0)
      modifies this`trace, idleBases`camera, idleBases`scene, idleBases`mouse, idleBases`cubes
      modifies idleBases`updates, idleBases`cubeArray, drags`t, drags`cursor, drags`frameCounter
      modifies kaleidos`hueOffset, meshes`parent, meshes`rotationZ, uniformSets, spectra, detectors`isBeat
      modifies clickBases`cubeArray, clickBases`cubes, clickBases`clicks
      modifies spirals`dragPath, spirals`lastDragPoint, spirals`spiralAngle, spirals`cubeCounter
      modifies scene`children, host`seed, host`draws
      ensures IdlesThrough(|idleEffects|, camera, scene, mouse, ups0, u0)
    {
      var k := 0;
      while k < |idleEffects|
        invariant unchanged(this`idleBases, this`clickBases, this`drags, this`kaleidos, this`meshes)
        invariant unchanged(this`uniformSets, this`spectra, this`detectors, this`spirals)
        invariant IdlesThrough(k, camera, scene, mouse, ups0, u0)
        decreases |idleEffects| - k
      {
        UpdateIdleStep(k, camera, scene, mouse, host, ups0, u0);
        k := k + 1;
      }
    }

    /**
     * `update(camera, scene, mouse)`: the manager keeps camera, scene and
     * pointer, then updates every click effect and then every idle effect, in
     * list order, each with the same three.
     */
    method Update(camera: Camera, scene: Scene, mouse: Pointer, host: Host)
      requires Valid()
      modifies this`camera, this`scene, this`mouse, this`trace
      modifies clickBases`camera, clickBases`scene, clickBases`mouse, clickBases`cubes
      modifies clickBases`updates, clickBases`cubeArray, clickBases`clicks
      modifies idleBases`camera, idleBases`scene, idleBases`mouse, idleBases`cubes
      modifies idleBases`updates, idleBases`cubeArray, drags`t, drags`cursor, drags`frameCounter
      modifies kaleidos`hueOffset, meshes`parent, meshes`rotationZ, uniformSets, spectra, detectors`isBeat
      modifies spirals`dragPath, spirals`lastDragPoint, spirals`spiralAngle, spirals`cubeCounter
      modifies scene`children, host`seed, host`draws
      ensures Valid() && Ready() && ScenesReady() && SceneShared()
      ensures this.camera == Some(camera) && this.scene == scene && this.mouse == Some(mouse)
      ensures ClicksFed(old(ClickUpdatesOf(onClickEffects, clickBases)), camera, scene, mouse)
      ensures IdlesFed(old(IdleUpdatesOf(idleEffects, idleBases)), camera, scene, mouse)
      ensures UpdatesIn(trace) == UpdatesIn(old(trace)) + UpdateOrder(|onClickEffects|, |idleEffects|)
    {
      ghost var clickUps, idleUps := ClickUpdatesOf(onClickEffects, clickBases), IdleUpdatesOf(idleEffects, idleBases);
      SetView(camera, scene, mouse, clickUps, idleUps);
      UpdateEffects(camera, scene, mouse, host, clickUps, idleUps);
    }

    /** The first lines of `update`: the manager keeps camera, scene and pointer; the effects are not touched. */
    method SetView(camera: Camera, scene: Scene, mouse: Pointer, ghost clickUps: seq<nat>, ghost idleUps: seq<nat>)
      requires (Valid() && clickUps == ClickUpdatesOf(onClickEffects, clickBases)
                && idleUps == IdleUpdatesOf(idleEffects, idleBases)) == true
      modifies this`camera, this`scene, this`mouse
      ensures this.camera == Some(camera) && this.scene == scene && this.mouse == Some(mouse)
      ensures trace == old(trace)
      ensures Valid()
      ensures clickUps == ClickUpdatesOf(onClickEffects, clickBases)
      ensures idleUps == IdleUpdatesOf(idleEffects, idleBases)
    {
      this.camera, this.scene, this.mouse := Some(camera), scene, Some(mouse);
      ClicksKept();
      IdlesFrame();
    }

    /** The two loops of `update`, once the manager holds camera, scene and pointer. */
    method UpdateEffects(camera: Camera, scene: Scene, mouse: Pointer, host: Host, ghost clickUps: seq<nat>, ghost idleUps: seq<nat>)
      requires (Valid() && this.scene == scene && clickUps == ClickUpdatesOf(onClickEffects, clickBases)
                && idleUps == IdleUpdatesOf(idleEffects, idleBases)) == true
      modifies this`trace
      modifies clickBases`camera, clickBases`scene, clickBases`mouse, clickBases`cubes
      modifies clickBases`updates, clickBases`cubeArray, clickBases`clicks
      modifies idleBases`camera, idleBases`scene, idleBases`mouse, idleBases`cubes
      modifies idleBases`updates, idleBases`cubeArray, drags`t, drags`cursor, drags`frameCounter
      modifies kaleidos`hueOffset, meshes`parent, meshes`rotationZ, uniformSets, spectra, detectors`isBeat
      modifies spirals`dragPath, spirals`lastDragPoint, spirals`spiralAngle, spirals`cubeCounter
      modifies scene`children, host`seed, host`draws
      ensures Valid() && ScenesReady() && SceneShared()
      ensures ClicksFed(clickUps, camera, scene, mouse) && IdlesFed(idleUps, camera, scene, mouse)
      ensures UpdatesIn(trace) == UpdatesIn(old(trace)) + UpdateOrder(|onClickEffects|, |idleEffects|)
      ensures unchanged(this`camera, this`scene, this`mouse)
    {
      UpdateOrderJoin(UpdatesIn(trace), |onClickEffects|, |idleEffects|);
      UpdateClicksKeepingIdles(camera, scene, mouse, host, clickUps);
      UpdateIdlesAfterClicks(camera, scene, mouse, host, clickUps);
    }

    /** The second loop of `update`, which leaves what the first loop fed the click effects as it was. */
    method UpdateIdlesAfterClicks(camera: Camera, scene: Scene, mouse: Pointer, host: Host, ghost ups: seq<nat>)
      requires (Valid() && ScenesReady() && SceneShared() && this.scene == scene && ClicksFed(ups, camera, scene, mouse)) == true
      modifies this`trace, idleBases`camera, idleBases`scene, idleBases`mouse, idleBases`cubes
      modifies idleBases`updates, idleBases`cubeArray, drags`t, drags`cursor, drags`frameCounter
      modifies kaleidos`hueOffset, meshes`parent, meshes`rotationZ, uniformSets, spectra, detectors`isBeat
      modifies clickBases`cubeArray, clickBases`cubes, clickBases`clicks
      modifies spirals`dragPath, spirals`lastDragPoint, spirals`spiralAngle, spirals`cubeCounter
      modifies scene`children, host`seed, host`draws
      ensures (Valid() && ScenesReady() && SceneShared() && ClicksFed(ups, camera, scene, mouse)
               && IdlesFed(old(IdleUpdatesOf(idleEffects, idleBases)), camera, scene, mouse)) == true
      ensures UpdatesIn(trace) == UpdatesIn(old(trace)) + UpdateOrder(0, |idleEffects|)
      ensures unchanged(this`camera, this`scene, this`mouse)
    {
      UpdateIdles(camera, scene, mouse, host);
    }

    /** `effect.setActive(active); effect.update(this.camera, this.scene, this.mouse)` on click effect i. */
    method SetActiveAt(i: nat, active: bool, host: Host)
      requires ClicksOk() && ScenesReady() && SceneShared() && Ready() && i < |onClickEffects|
      modifies onClickEffects[i].Base()`active, this`trace, onClickEffects[i].Base()`camera, onClickEffects[i].Base()`scene
      modifies onClickEffects[i].Base()`mouse, onClickEffects[i].Base()`cubes
      modifies onClickEffects[i].Base()`updates, onClickEffects[i].Base()`cubeArray
      modifies ClickBeats(onClickEffects[i])`isBeat, scene`children
      ensures ClicksOk() && ScenesReady() && SceneShared()
      ensures onClickEffects[i].Base().active == active
      ensures Fed(onClickEffects[i].Base(), old(onClickEffects[i].Base().updates), camera.value, scene, mouse.value)
      ensures trace == old(trace) + [UpdatedClick(i)]
      ensures forall j :: 0 <= j < |onClickEffects| && j != i ==>
        onClickEffects[j].Base().active == old(onClickEffects[j].Base().active)
        && onClickEffects[j].Base().updates == old(onClickEffects[j].Base().updates)
        && onClickEffects[j].Base().camera == old(onClickEffects[j].Base().camera)
        && onClickEffects[j].Base().scene == old(onClickEffects[j].Base().scene)
        && onClickEffects[j].Base().mouse == old(onClickEffects[j].Base().mouse)
    {
      var e := onClickEffects[i];
      match e {
        case Snake(s) => s.SetActive(active);
        case Spiral(s) => s.SetActive(active);
      }
      UpdateClickAt(i, camera.value, scene, mouse.value, host);
      forall j | 0 <= j < |onClickEffects| && j != i
        ensures onClickEffects[j].Base() != e.Base()
      {
      }
    }

    /**
     * The loop of `setEffectActive` after the first i click effects: the
     * selected ones among them have the flag and were fed the manager's camera,
     * scene and pointer once; the others still have the flags `flags0` and
     * update counts `ups0` they started from.
     */
    ghost predicate ActivatedThrough(i: nat, name: string, sel: seq<bool>, active: bool, flags0: seq<bool>, ups0: seq<nat>, trace0: seq<Dispatch>)
      reads this`onClickEffects, this`clickBases, this`spirals, this`analyzers, this`detectors, this`trace
      reads clickBases`cubeArray, clickBases`cubes, clickBases`scene, spirals`dragPath, spirals`audioAnalyzer
      reads analyzers`analyserReady, analyzers`frequencyData, detectors`beatHistory
      reads this`camera, this`scene, this`mouse, clickBases`active, clickBases`updates, clickBases`camera, clickBases`mouse
    {
      (&& i <= |onClickEffects| == |sel| == |flags0| == |ups0|
      && ClicksOk() && ScenesReady() && SceneShared()
      && (forall j :: 0 <= j < |onClickEffects| ==>
            if j < i && sel[j] then
              onClickEffects[j].Base().active == active && Ready()
              && Fed(onClickEffects[j].Base(), ups0[j], camera.value, scene, mouse.value)
            else
              onClickEffects[j].Base().active == flags0[j] && onClickEffects[j].Base().updates == ups0[j])
      && trace == trace0 + MatchOrder(sel, i)
      && sel == Selection(onClickEffects, false, name) && (Ready() || forall j :: 0 <= j < |sel| ==> !sel[j])) == true
    }

    /** One turn of the loop of `setEffectActive`. */
    method ActivateStep(i: nat, name: string, active: bool, host: Host,
                        ghost sel: seq<bool>, ghost flags0: seq<bool>, ghost ups0: seq<nat>, ghost trace0: seq<Dispatch>)
      requires ActivatedThrough(i, name, sel, active, flags0, ups0, trace0) && i < |onClickEffects|
      modifies this`trace, clickBases`active, clickBases`camera, clickBases`scene, clickBases`mouse
      modifies clickBases`cubes, clickBases`updates, clickBases`cubeArray, detectors`isBeat, Scenes()`children
      ensures ActivatedThrough(i + 1, name, sel, active, flags0, ups0, trace0)
    {
      if onClickEffects[i].Name() == name {
        ActivateMatchAt(i, name, active, host, sel, flags0, ups0, trace0);
      }
    }

    /** The turn of the loop of `setEffectActive` on a click effect called `name`. */
    method ActivateMatchAt(i: nat, name: string, active: bool, host: Host,
                           ghost sel: seq<bool>, ghost flags0: seq<bool>, ghost ups0: seq<nat>, ghost trace0: seq<Dispatch>)
      requires ActivatedThrough(i, name, sel, active, flags0, ups0, trace0) && i < |onClickEffects|
      requires onClickEffects[i].Name() == name
      modifies this`trace, clickBases`active, clickBases`camera, clickBases`scene, clickBases`mouse
      modifies clickBases`cubes, clickBases`updates, clickBases`cubeArray, detectors`isBeat, Scenes()`children
      ensures ActivatedThrough(i + 1, name, sel, active, flags0, ups0, trace0)
    {
      MatchOrderStep(trace0, sel, i);
      SetActiveAt(i, active, host);
    }

    /** The loop of `setEffectActive`: the click effects called `name` get the flag and one update, in list order. */
    method ActivateSelected(name: string, active: bool, host: Host)
      requires ClicksOk() && ScenesReady() && SceneShared()
      requires Ready() || forall j :: 0 <= j < |onClickEffects| ==> onClickEffects[j].Name() != name
      modifies this`trace, clickBases`active, clickBases`camera, clickBases`scene, clickBases`mouse
      modifies clickBases`cubes, clickBases`updates, clickBases`cubeArray, detectors`isBeat, Scenes()`children
      ensures ClicksOk() && ScenesReady() && SceneShared()
      ensures trace == old(trace) + MatchOrder(Selection(onClickEffects, false, name), |onClickEffects|)
      ensures forall j :: 0 <= j < |onClickEffects| && onClickEffects[j].Name() == name ==>
        onClickEffects[j].Base().active == active
        && Fed(onClickEffects[j].Base(), old(onClickEffects[j].Base().updates), camera.value, scene, mouse.value)
      ensures forall j :: 0 <= j < |onClickEffects| && onClickEffects[j].Name() != name ==>
        onClickEffects[j].Base().active == old(onClickEffects[j].Base().active)
        && onClickEffects[j].Base().updates == old(onClickEffects[j].Base().updates)
    {
      ghost var sel, flags0, ups0, trace0 := Selection(onClickEffects, false, name), ActiveFlags(), ClickUpdatesOf(onClickEffects, clickBases), trace;
      ActivateLoop(name, active, host, sel, flags0, ups0, trace0);
    }

    /** The turns of the loop of `setEffectActive`, from the first to the last. */
    method ActivateLoop(name: string, active: bool, host: Host,
                        ghost sel: seq<bool>, ghost flags0: seq<bool>, ghost ups0: seq<nat>, ghost trace0: seq<Dispatch>)
      requires ActivatedThrough(0, name, sel, active, flags0, ups0, trace0)
      modifies this`trace, clickBases`active, clickBases`camera, clickBases`scene, clickBases`mouse
      modifies clickBases`cubes, clickBases`updates, clickBases`cubeArray, detectors`isBeat, Scenes()`children
      ensures ActivatedThrough(|onClickEffects|, name, sel, active, flags0, ups0, trace0)
    {
      for i := 0 to |onClickEffects|
        invariant ActivatedThrough(i, name, sel, active, flags0, ups0, trace0)
      {
        ActivateStep(i, name, active, host, sel, flags0, ups0, trace0);
      }
    }

    /**
     * `setEffectActive(name, active)`: every click effect called `name` gets
     * the flag and one update with the manager's camera, scene and pointer, in
     * list order; the other effects are not touched.
     */
    method SetEffectActive(name: string, active: bool, host: Host)
      requires Valid() && ScenesReady() && SceneShared()
      requires Ready() || forall j :: 0 <= j < |onClickEffects| ==> onClickEffects[j].Name() != name
      modifies this`trace, clickBases`active, clickBases`camera, clickBases`scene, clickBases`mouse
      modifies clickBases`cubes, clickBases`updates, clickBases`cubeArray, detectors`isBeat, Scenes()`children
      ensures Valid() && ScenesReady() && SceneShared()
      ensures trace == old(trace) + MatchOrder(Selection(onClickEffects, false, name), |onClickEffects|)
      ensures forall j :: 0 <= j < |onClickEffects| && onClickEffects[j].Name() == name ==>
        onClickEffects[j].Base().active == active
        && Fed(onClickEffects[j].Base(), old(onClickEffects[j].Base().updates), camera.value, scene, mouse.value)
      ensures forall j :: 0 <= j < |onClickEffects| && onClickEffects[j].Name() != name ==>
        onClickEffects[j].Base().active == old(onClickEffects[j].Base().active)
        && onClickEffects[j].Base().updates == old(onClickEffects[j].Base().updates)
      ensures forall j :: 0 <= j < |idleEffects| ==> idleEffects[j].Base().updates == old(idleEffects[j].Base().updates)
    {
      ActivateSelected(name, active, host);
      assert unchanged(this`idleEffects, this`idleBases, this`drags, this`kaleidos, this`meshes, this`uniformSets);
      assert unchanged(this`spectra, this`analyzers, this`detectors);
      IdlesFrame();
    }

    /** `onClickEffects[i].clear()` */
    method ClearAt(i: nat)
      requires ClicksOk() && SceneShared() && i < |onClickEffects|
      modifies SpiralOf(onClickEffects[i])`dragPath, SpiralOf(onClickEffects[i])`lastDragPoint
      modifies SpiralOf(onClickEffects[i])`spiralAngle, SpiralOf(onClickEffects[i])`cubeCounter
      modifies onClickEffects[i].Base()`cubeArray, Scenes()`children
      ensures ClicksOk() && SceneShared()
      ensures Cleared(onClickEffects[i], old(onClickEffects[i].Base().cubeArray))
      ensures scene != null ==> scene.children == old(scene.children) - old(LeavingOne(onClickEffects[i].Base()))
      ensures forall j :: 0 <= j < |onClickEffects| && j != i ==>
        onClickEffects[j].Base().cubeArray == old(onClickEffects[j].Base().cubeArray)
        && TrailOf(onClickEffects[j]) == old(TrailOf(onClickEffects[j]))
    {
      match onClickEffects[i] {
        case Snake(s) => ClearSnakeAt(i, s);
        case Spiral(s) => ClearSpiralAt(i, s);
      }
    }

    /** `onClickEffects[i].clear()` on a ClickSnake. */
    method ClearSnakeAt(i: nat, s: ClickEffects.ClickSnake)
      requires ClicksOk() && SceneShared() && i < |onClickEffects| && onClickEffects[i] == Snake(s)
      modifies SpiralOf(onClickEffects[i])`dragPath, SpiralOf(onClickEffects[i])`lastDragPoint
      modifies SpiralOf(onClickEffects[i])`spiralAngle, SpiralOf(onClickEffects[i])`cubeCounter
      modifies onClickEffects[i].Base()`cubeArray, Scenes()`children
      ensures ClicksOk() && SceneShared()
      ensures Cleared(onClickEffects[i], old(onClickEffects[i].Base().cubeArray))
      ensures scene != null ==> scene.children == old(scene.children) - old(LeavingOne(onClickEffects[i].Base()))
      ensures forall j :: 0 <= j < |onClickEffects| && j != i ==>
        onClickEffects[j].Base().cubeArray == old(onClickEffects[j].Base().cubeArray)
        && TrailOf(onClickEffects[j]) == old(TrailOf(onClickEffects[j]))
    {
      s.Clear();
      forall j | 0 <= j < |onClickEffects| && j != i
        ensures ClickOk(onClickEffects[j])
        ensures onClickEffects[j].Base().cubeArray == old(onClickEffects[j].Base().cubeArray)
        ensures TrailOf(onClickEffects[j]) == old(TrailOf(onClickEffects[j]))
      {
        assert onClickEffects[j].Base() != s.base;
      }
    }

    /** `onClickEffects[i].clear()` on a DragSpiral. */
    method ClearSpiralAt(i: nat, s: ClickEffects.DragSpiral)
      requires ClicksOk() && SceneShared() && i < |onClickEffects| && onClickEffects[i] == Spiral(s)
      modifies SpiralOf(onClickEffects[i])`dragPath, SpiralOf(onClickEffects[i])`lastDragPoint
      modifies SpiralOf(onClickEffects[i])`spiralAngle, SpiralOf(onClickEffects[i])`cubeCounter
      modifies onClickEffects[i].Base()`cubeArray, Scenes()`children
      ensures ClicksOk() && SceneShared()
      ensures Cleared(onClickEffects[i], old(onClickEffects[i].Base().cubeArray))
      ensures scene != null ==> scene.children == old(scene.children) - old(LeavingOne(onClickEffects[i].Base()))
      ensures forall j :: 0 <= j < |onClickEffects| && j != i ==>
        onClickEffects[j].Base().cubeArray == old(onClickEffects[j].Base().cubeArray)
        && TrailOf(onClickEffects[j]) == old(TrailOf(onClickEffects[j]))
    {
      s.Clear();
      forall j | 0 <= j < |onClickEffects| && j != i
        ensures ClickOk(onClickEffects[j])
        ensures onClickEffects[j].Base().cubeArray == old(onClickEffects[j].Base().cubeArray)
        ensures TrailOf(onClickEffects[j]) == old(TrailOf(onClickEffects[j]))
      {
        assert onClickEffects[j].Base() != s.base;
      }
    }

    /**
     * The loop of `clearEffects` and `clearEffect(name)` after its first i
     * turns: the selected effects among the first i are cleared from the
     * arrays `arrs0` they started with; the others still have their array,
     * trail and leaving cubes; the scene lost the selected leaving cubes.
     */
    ghost predicate ClearedThrough(i: nat, sel: seq<bool>, arrs0: seq<seq<Cube>>, trails0: seq<Option<Trail>>,
                                   leaving: seq<set<Cube>>, children0: set<object>)
      reads this`onClickEffects, this`clickBases, this`spirals, this`analyzers, this`detectors
      reads clickBases`cubeArray, clickBases`cubes, clickBases`scene, spirals`dragPath, spirals`audioAnalyzer
      reads analyzers`analyserReady, analyzers`frequencyData, detectors`beatHistory
      reads this`scene, Scenes()`children, spirals`lastDragPoint, spirals`spiralAngle, spirals`cubeCounter
    {
      (&& i <= |onClickEffects| == |sel| == |arrs0| == |trails0| == |leaving|
      && ClicksOk() && SceneShared()
      && (forall j :: 0 <= j < |onClickEffects| ==>
            if j < i && sel[j] then Cleared(onClickEffects[j], arrs0[j])
            else
              onClickEffects[j].Base().cubeArray == arrs0[j] && TrailOf(onClickEffects[j]) == trails0[j]
              && LeavingOne(onClickEffects[j].Base()) == leaving[j])
      && (scene != null ==> scene.children == children0 - UnionUpTo(leaving, sel, i))) == true
    }

    /** One turn of the loop of `clearEffects` and `clearEffect(name)`. */
    method ClearStep(i: nat, all: bool, name: string, ghost sel: seq<bool>, ghost arrs0: seq<seq<Cube>>,
                     ghost trails0: seq<Option<Trail>>, ghost leaving: seq<set<Cube>>, ghost children0: set<object>)
      requires (ClearedThrough(i, sel, arrs0, trails0, leaving, children0) && i < |onClickEffects|
                && sel[i] == (all || onClickEffects[i].Name() == name)) == true
      modifies spirals`dragPath, spirals`lastDragPoint, spirals`spiralAngle, spirals`cubeCounter
      modifies clickBases`cubeArray, Scenes()`children
      ensures ClearedThrough(i + 1, sel, arrs0, trails0, leaving, children0)
    {
      if all || onClickEffects[i].Name() == name {
        ClearAt(i);
        assert UnionUpTo(leaving, sel, i + 1) == UnionUpTo(leaving, sel, i) + leaving[i];
      } else {
        assert UnionUpTo(leaving, sel, i + 1) == UnionUpTo(leaving, sel, i);
      }
    }

    /** The turns of the loop of `clearEffects` and `clearEffect(name)`, from the first to the last. */
    method ClearLoop(all: bool, name: string, ghost sel: seq<bool>, ghost arrs0: seq<seq<Cube>>,
                     ghost trails0: seq<Option<Trail>>, ghost leaving: seq<set<Cube>>, ghost children0: set<object>)
      requires (ClearedThrough(0, sel, arrs0, trails0, leaving, children0)
                && forall j :: 0 <= j < |sel| ==> sel[j] == (all || onClickEffects[j].Name() == name)) == true
      modifies spirals`dragPath, spirals`lastDragPoint, spirals`spiralAngle, spirals`cubeCounter
      modifies clickBases`cubeArray, Scenes()`children
      ensures ClearedThrough(|onClickEffects|, sel, arrs0, trails0, leaving, children0)
    {
      var i: nat := 0;
      while i < |onClickEffects|
        invariant i <= |onClickEffects|
        invariant ClearedThrough(i, sel, arrs0, trails0, leaving, children0)
        decreases |onClickEffects| - i
      {
        ClearStep(i, all, name, sel, arrs0, trails0, leaving, children0);
        i := i + 1;
      }
    }

    /**
     * The loop of `clearEffects` (all) and of `clearEffect(name)`: every
     * selected click effect is cleared, in list order; the others keep their
     * array and trail.
     */
    method ClearSelected(all: bool, name: string)
      requires ClicksOk() && SceneShared()
      modifies spirals`dragPath, spirals`lastDragPoint, spirals`spiralAngle, spirals`cubeCounter
      modifies clickBases`cubeArray, Scenes()`children
      ensures ClicksOk() && SceneShared()
      ensures forall j :: 0 <= j < |onClickEffects| && (all || onClickEffects[j].Name() == name) ==>
        Cleared(onClickEffects[j], old(onClickEffects[j].Base().cubeArray))
      ensures forall j :: 0 <= j < |onClickEffects| && !(all || onClickEffects[j].Name() == name) ==>
        onClickEffects[j].Base().cubeArray == old(onClickEffects[j].Base().cubeArray)
        && TrailOf(onClickEffects[j]) == old(TrailOf(onClickEffects[j]))
      ensures scene != null ==>
        scene.children == old(scene.children)
                          - UnionUpTo(old(Leaving(onClickEffects, clickBases)), Selection(onClickEffects, all, name), |onClickEffects|)
    {
      ghost var sel, leaving := Selection(onClickEffects, all, name), Leaving(onClickEffects, clickBases);
      ghost var arrs0, trails0 := CubeArraysOf(onClickEffects, clickBases), TrailsOf(onClickEffects, spirals);
      ghost var children0: set<object> := if scene != null then scene.children else {};
      ClearLoop(all, name, sel, arrs0, trails0, leaving, children0);
    }

    /**
     * `clearEffects()`: every click effect is cleared (a ClickSnake keeps its
     * array, a DragSpiral empties it), their cubes leave the scene; the idle
     * effects are not touched.
     */
    method ClearEffects()
      requires Valid() && SceneShared()
      modifies spirals`dragPath, spirals`lastDragPoint, spirals`spiralAngle, spirals`cubeCounter
      modifies clickBases`cubeArray, Scenes()`children
      ensures Valid() && SceneShared()
      ensures forall j :: 0 <= j < |onClickEffects| ==>
        Cleared(onClickEffects[j], old(onClickEffects[j].Base().cubeArray))
      ensures scene != null ==>
        scene.children == old(scene.children)
                          - UnionUpTo(old(Leaving(onClickEffects, clickBases)), Selection(onClickEffects, true, ""), |onClickEffects|)
      ensures forall j :: 0 <= j < |idleEffects| ==> idleEffects[j].Base().cubeArray == old(idleEffects[j].Base().cubeArray)
    {
      ClearSelected(true, "");
      IdlesFrame();
    }

    /** `clearEffect(name)`: the click effects called `name` are cleared, the others keep their array and trail. */
    method ClearEffect(name: string)
      requires Valid() && SceneShared()
      modifies spirals`dragPath, spirals`lastDragPoint, spirals`spiralAngle, spirals`cubeCounter
      modifies clickBases`cubeArray, Scenes()`children
      ensures Valid() && SceneShared()
      ensures forall j :: 0 <= j < |onClickEffects| && onClickEffects[j].Name() == name ==>
        Cleared(onClickEffects[j], old(onClickEffects[j].Base().cubeArray))
      ensures forall j :: 0 <= j < |onClickEffects| && onClickEffects[j].Name() != name ==>
        onClickEffects[j].Base().cubeArray == old(onClickEffects[j].Base().cubeArray)
        && TrailOf(onClickEffects[j]) == old(TrailOf(onClickEffects[j]))
      ensures scene != null ==>
        scene.children == old(scene.children)
                          - UnionUpTo(old(Leaving(onClickEffects, clickBases)), Selection(onClickEffects, false, name), |onClickEffects|)
      ensures forall j :: 0 <= j < |idleEffects| ==> idleEffects[j].Base().cubeArray == old(idleEffects[j].Base().cubeArray)
    {
      ClearSelected(false, name);
      IdlesFrame();
    }

    /** The click side stays well formed while nothing it reads changes. */
    twostate lemma ClicksKept()
      requires (old(ClicksOk())
        && unchanged(this`onClickEffects, this`clickBases, this`spirals, this`analyzers, this`detectors)
        && unchanged(clickBases`cubeArray, clickBases`cubes, clickBases`scene, spirals`dragPath, spirals`audioAnalyzer)
        && unchanged(analyzers`analyserReady, analyzers`frequencyData, detectors`beatHistory)) == true
      ensures ClicksOk()
    {
    }

    /** The idle side stays well formed when only idle effect k changed and is still well formed. */
    twostate lemma IdlesKept(k: nat)
      requires (old(IdlesOk()) && k < |idleEffects| && IdleOk(idleEffects[k])
        && unchanged(this`idleEffects, this`idleBases, this`drags, this`kaleidos, this`meshes, this`uniformSets)
        && unchanged(this`spectra, this`analyzers, this`detectors, drags`effectsManager, kaleidos`audioAnalyzer)
        && unchanged(analyzers`analyserReady, analyzers`frequencyData, detectors`beatHistory)
        && unchanged((idleBases - {idleEffects[k].Base()})`cubeArray, (idleBases - {idleEffects[k].Base()})`cubes)
        && unchanged((idleBases - {idleEffects[k].Base()})`scene)) == true
      ensures IdlesOk()
    {
      forall j | 0 <= j < |idleEffects| && j != k
        ensures IdleOk(idleEffects[j])
      {
        IdleKept(idleEffects[j]);
      }
    }

    /** The idle side stays well formed while nothing it reads changes. */
    twostate lemma IdlesFrame()
      requires (old(IdlesOk())
        && unchanged(this`idleEffects, this`idleBases, this`drags, this`kaleidos, this`meshes, this`uniformSets)
        && unchanged(this`spectra, this`analyzers, this`detectors, drags`effectsManager, kaleidos`audioAnalyzer)
        && unchanged(analyzers`analyserReady, analyzers`frequencyData, detectors`beatHistory)
        && unchanged(idleBases`cubeArray, idleBases`cubes, idleBases`scene)) == true
      ensures IdlesOk()
    {
      forall j | 0 <= j < |idleEffects|
        ensures IdleOk(idleEffects[j])
      {
        IdleKept(idleEffects[j]);
      }
    }
  }
}
