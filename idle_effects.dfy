// effects/idleEffects/RandomCubes.js and effects/idleEffects/Kaleidoscope.js:
// the idle effects that run every frame without a click. RandomCubes spawns
// at most one cube per frame at a random place, evicts the oldest entry when
// over its cap, fades every cube and filters out the faded ones. The
// kaleidoscope feeds the audio levels and a resampled spectrum into the
// uniforms of a shader mesh, turns the hue and spins the mesh.
//
// IdleEffect.js is not part of this model: an idle effect is the base
// Effect, plus a `removeCube(i)` that only splices the array.
module IdleEffects {
  import opened Wrappers
  import opened Render
  import opened EffectBase
  import Audio
  import Arith

  /** `0xFFFFFF`: the colour number range a random draw is scaled to. */
  const ColorRange: real := 16777215.0

  /**
   * The spawn point of RandomCubes from three draws in [0, 1): a fixed box,
   * whatever bounds were configured.
   */
  function SpawnPosition(dx: real, dy: real, dz: real): (p: Vec3)
    ensures 0.0 <= dx < 1.0 ==> -20.0 < p.x <= 20.0
    ensures 0.0 <= dy < 1.0 ==> -10.0 < p.y <= 10.0
    ensures 0.0 <= dz < 1.0 ==> -20.0 <= p.z < 20.0
  {
    Vec3(20.0 - dx * 40.0, 10.0 - dy * 20.0, -20.0 + dz * 40.0)
  }

  /** The array after `if (length > maxCubes) removeCube(0)`: at most the oldest entry goes. */
  function Capped(arr: seq<Cube>, maxCubes: real): (r: seq<Cube>)
    ensures r == arr || (|arr| > 0 && r == arr[1..])
    ensures (|arr| as real) > maxCubes && |arr| > 0 <==> r != arr
    ensures forall c :: c in r ==> c in arr
  {
    if (|arr| as real) > maxCubes && |arr| > 0 then arr[1..] else arr
  }

  /** Zero or one spawned cube, as array entries. */
  function Spawns(spawned: Option<Cube>): seq<Cube>
  {
    if spawned.Some? then [spawned.value] else []
  }

  /**
   * One frame cannot push the array past its cap: when the array held at
   * most maxCubes entries, one spawn, the single eviction and the filter
   * leave at most maxCubes.
   */
  lemma CapHolds(arr: seq<Cube>, spawned: Option<Cube>, maxCubes: real, states: map<Cube, CubeState>)
    requires (|arr| as real) <= maxCubes
    requires AllKnown(Capped(arr + Spawns(spawned), maxCubes), states)
    ensures (|Survivors(Capped(arr + Spawns(spawned), maxCubes), states)| as real) <= maxCubes
  {
    var grown := arr + Spawns(spawned);
    if spawned.Some? && (|grown| as real) > maxCubes {
      assert |Capped(grown, maxCubes)| == |arr|;
    }
  }

  /**
   * The states after RandomCubes' spawn step: unchanged without a spawn;
   * otherwise the new cube sits at the position of draws n0+1..n0+3,
   * opaque and unrotated, coloured from draw n0+4.
   */
  function Born(states: map<Cube, CubeState>, spawned: Option<Cube>, draws: seq<real>, n0: nat,
                randomColor: bool, fixedColor: string): (r: map<Cube, CubeState>)
    requires spawned.Some? ==> n0 + 4 < |draws|
    ensures r.Keys == states.Keys + Elements(Spawns(spawned))
    ensures spawned.Some? ==> r[spawned.value].opacity == 1.0
  {
    if spawned.None? then states
    else states[spawned.value := NewCubeState(SpawnPosition(draws[n0 + 1], draws[n0 + 2], draws[n0 + 3]),
                                              NewCubeColor(randomColor, fixedColor, draws[n0 + 4] * ColorRange))]
  }

  /** The fade of RandomCubes: opacity drops by the rate. */
  function FadeBy(rate: real): CubeState -> CubeState
  {
    (s: CubeState) => s.(opacity := s.opacity - rate)
  }

  /** The box RandomCubes spawns in: x in (-20, 20], y in (-10, 10], z in [-20, 20), whatever the settings. */
  predicate InSpawnBox(p: Vec3)
  {
    -20.0 < p.x <= 20.0 && -10.0 < p.y <= 10.0 && -20.0 <= p.z < 20.0
  }

  /** With draws in [0, 1), a spawned cube starts in the spawn box, and the fade leaves it there. */
  lemma SpawnedInBox(states: map<Cube, CubeState>, spawned: Option<Cube>, draws: seq<real>, n0: nat,
                     randomColor: bool, fixedColor: string, touched: set<Cube>, rate: real)
    requires spawned.Some? ==> n0 + 4 < |draws|
    requires forall k :: n0 <= k < |draws| ==> 0.0 <= draws[k] < 1.0
    ensures spawned.Some? ==>
      InSpawnBox(Apply(Born(states, spawned, draws, n0, randomColor, fixedColor), touched, FadeBy(rate))[spawned.value].position)
  {
    if spawned.Some? {
      var born := Born(states, spawned, draws, n0, randomColor, fixedColor);
      var p := SpawnPosition(draws[n0 + 1], draws[n0 + 2], draws[n0 + 3]);
      assert born[spawned.value].position == p;
      assert InSpawnBox(p);
    }
  }

  /** Every cube of the array loses exactly `rate` of opacity and nothing else; the rest keep their state. */
  lemma FadeLowersEach(states: map<Cube, CubeState>, arr: seq<Cube>, rate: real, c: Cube)
    requires c in states
    ensures var faded := Apply(states, Elements(arr), FadeBy(rate));
      && (c in arr ==> faded[c] == states[c].(opacity := states[c].opacity - rate))
      && (c !in arr ==> faded[c] == states[c])
  {
  }

  /** The forEach callback for one cube: lower its opacity, and take it out of the scene at or below 0. */
  method FadeCube(scene: Scene, c: Cube, states: map<Cube, CubeState>, rate: real)
      returns (next: map<Cube, CubeState>)
    requires c in states
    modifies scene`children
    ensures next == states[c := FadeBy(rate)(states[c])]
    ensures next[c].opacity <= 0.0 ==> scene.children == old(scene.children) - {c}
    ensures next[c].opacity > 0.0 ==> scene.children == old(scene.children)
  {
    next := states[c := FadeBy(rate)(states[c])];
    if next[c].opacity <= 0.0 {
      scene.Remove(c);
    }
  }

  /** The forEach over the cube array: every cube fades once, the faded-out ones leave the scene. */
  method FadeAll(scene: Scene, arr: seq<Cube>, states0: map<Cube, CubeState>, rate: real)
      returns (states: map<Cube, CubeState>)
    requires Distinct(arr) && AllKnown(arr, states0)
    modifies scene`children
    ensures states == Apply(states0, Elements(arr), FadeBy(rate))
    ensures AllKnown(arr, states)
    ensures scene.children == old(scene.children) - FadedOut(arr, states)
  {
    var f := FadeBy(rate);
    states := states0;
    ghost var children0 := scene.children;
    ghost var target := Apply(states0, Elements(arr), f);
    for i := 0 to |arr|
      invariant states == Apply(states0, Elements(arr[..i]), f)
      invariant AllKnown(arr[..i], target)
      invariant scene.children == children0 - FadedOut(arr[..i], target)
    {
      ApplyPrefixStep(states0, arr, i, f);
      FilterStep(arr, target, i);
      states := FadeCube(scene, arr[i], states, rate);
    }
    assert arr[..|arr|] == arr;
  }

  class RandomCubes {
    const base: Effect
    var maxCubes: real
    var cubeSize: real
    var cubeSpawnRate: real
    var cubeFadeRate: real
    /** Stored, but cube colours follow the base effect's randomColor. */
    var cubeRandomColor: bool

    predicate Valid()
      reads base`cubeArray, base`cubes, base`scene
    {
      base.Valid() && Distinct(base.cubeArray)
    }

    constructor (maxCubes: real, cubeSize: real, cubeSpawnRate: real, cubeFadeRate: real, cubeRandomColor: bool)
      ensures Valid() && fresh(base)
      ensures this.maxCubes == maxCubes && this.cubeSize == cubeSize && this.cubeSpawnRate == cubeSpawnRate
      ensures this.cubeFadeRate == cubeFadeRate && this.cubeRandomColor == cubeRandomColor
      ensures base.cubeArray == [] && base.cubes == map[] && !base.active && base.scene == null
      ensures base.rotationSpeed == DefaultRotationSpeed && base.randomColor && base.updates == 0
    {
      base := new Effect();
      this.maxCubes := maxCubes;
      this.cubeSize := cubeSize;
      this.cubeSpawnRate := cubeSpawnRate;
      this.cubeFadeRate := cubeFadeRate;
      this.cubeRandomColor := cubeRandomColor;
    }

    /**
     * The base update, and when active: a gated spawn, the single eviction,
     * the fade that takes faded-out cubes out of the scene, and the filter
     * that keeps the visible ones in order. An inactive effect stops after
     * the base rotation and draws nothing.
     */
    method Update(camera: Camera, scene: Scene, mouse: Pointer, host: Host) returns (ghost spawned: Option<Cube>)
      requires Valid()
      modifies base`camera, base`scene, base`mouse, base`cubes, base`updates, base`cubeArray, scene`children
      modifies host`seed, host`draws
      ensures Valid()
      ensures base.camera == Some(camera) && base.scene == scene && base.mouse == Some(mouse)
      ensures base.updates == old(base.updates) + 1
      ensures !base.active ==>
        && spawned.None? && host.draws == old(host.draws)
        && base.cubeArray == old(base.cubeArray)
        && base.cubes == Rotated(old(base.cubes), old(base.cubeArray), base.rotationSpeed)
        && scene.children == old(scene.children)
      ensures base.active ==>
        Animated(Rotated(old(base.cubes), old(base.cubeArray), base.rotationSpeed), old(base.cubeArray),
                 old(scene.children), old(host.draws), host.draws, spawned)
      ensures forall k :: |old(host.draws)| <= k < |host.draws| ==> 0.0 <= host.draws[k] < 1.0
      ensures spawned.Some? ==> InSpawnBox(base.cubes[spawned.value].position)
    {
      base.Update(camera, scene, mouse);
      if !base.active {
        return None;
      }
      ghost var rotated := base.cubes;
      assert rotated == Rotated(old(base.cubes), old(base.cubeArray), base.rotationSpeed);
      assert base.cubeArray == old(base.cubeArray) && base.scene == scene && host.draws == old(host.draws);
      spawned := Animate(host);
    }

    /**
     * What the active part of update did, from the cube states, array, scene
     * children and draws it started with: one gate draw, and on a draw below
     * cubeSpawnRate four more draws and a new cube of cubeSize with the states
     * `Born` gives it; then the single eviction (`Capped`), every kept cube
     * faded by cubeFadeRate, the faded-out ones taken out of the scene and
     * the array filtered to the visible ones in order.
     */
    ghost predicate Animated(cubes0: map<Cube, CubeState>, array0: seq<Cube>, children0: set<object>,
                             draws0: seq<real>, draws: seq<real>, spawned: Option<Cube>)
      reads this`cubeSpawnRate, this`cubeSize, this`maxCubes, this`cubeFadeRate
      reads base`cubes, base`cubeArray, base`scene, base`randomColor, base`fixedColor
      reads if base.scene != null then {base.scene} else {}
    {
      var n0 := |draws0|;
      && |draws| == n0 + |Spawns(spawned)| * 4 + 1
      && draws[..n0] == draws0
      && (spawned.Some? <==> draws[n0] < cubeSpawnRate)
      && (cubeSpawnRate <= 0.0 ==> spawned.None?)
      && base.scene != null && AllKnown(array0, cubes0)
      && var states := Born(cubes0, spawned, draws, n0, base.randomColor, base.fixedColor);
         var kept := Capped(array0 + Spawns(spawned), maxCubes);
         var faded := Apply(states, Elements(kept), FadeBy(cubeFadeRate));
         && (spawned.Some? ==> spawned.value !in cubes0 && spawned.value.size == cubeSize)
         && base.cubes == faded
         && base.cubeArray == Survivors(kept, faded)
         && base.scene.children == children0 + Elements(Spawns(spawned)) - FadedOut(kept, faded)
    }

    /** The active part of update, on the rotated states. */
    method Animate(host: Host) returns (spawned: Option<Cube>)
      requires Valid() && base.scene != null
      modifies base`cubes, base`cubeArray, base.scene`children, host`seed, host`draws
      ensures Valid()
      ensures base.camera == old(base.camera) && base.scene == old(base.scene) && base.mouse == old(base.mouse)
      ensures Animated(old(base.cubes), old(base.cubeArray), old(base.scene.children), old(host.draws), host.draws, spawned)
      ensures forall k :: |old(host.draws)| <= k < |host.draws| ==> 0.0 <= host.draws[k] < 1.0
      ensures spawned.Some? ==> InSpawnBox(base.cubes[spawned.value].position)
    {
      spawned := Spawn(host);
      ghost var states, children := base.cubes, base.scene.children;
      assert states == Born(old(base.cubes), spawned, host.draws, |old(host.draws)|, base.randomColor, base.fixedColor);
      Evict();
      ghost var kept := base.cubeArray;
      assert kept == Capped(old(base.cubeArray) + Spawns(spawned), maxCubes);
      FadeOut();
      ghost var faded := base.cubes;
      assert faded == Apply(states, Elements(kept), FadeBy(cubeFadeRate));
      assert base.scene.children == children - FadedOut(kept, faded);
      KeepVisible();
      assert base.cubeArray == Survivors(kept, faded);
      SpawnedInBox(old(base.cubes), spawned, host.draws, |old(host.draws)|, base.randomColor, base.fixedColor,
                   Elements(kept), cubeFadeRate);
    }

    /**
     * `if (Math.random() < cubeSpawnRate) createCube(...)`: one gate draw,
     * then on success three position draws and a colour draw.
     */
    method Spawn(host: Host) returns (spawned: Option<Cube>)
      requires Valid() && base.scene != null
      modifies base`cubes, base`cubeArray, base.scene`children, host`seed, host`draws
      ensures Valid()
      ensures base.camera == old(base.camera) && base.scene == old(base.scene) && base.mouse == old(base.mouse)
      ensures var n0 := |old(host.draws)|;
        && |host.draws| == n0 + |Spawns(spawned)| * 4 + 1
        && host.draws[..n0] == old(host.draws)
        && (spawned.Some? <==> host.draws[n0] < cubeSpawnRate)
        && (cubeSpawnRate <= 0.0 ==> spawned.None?)
        && base.cubeArray == old(base.cubeArray) + Spawns(spawned)
        && base.scene.children == old(base.scene.children) + Elements(Spawns(spawned))
        && (spawned.Some? ==> spawned.value !in old(base.cubes) && spawned.value.size == cubeSize)
        && base.cubes == Born(old(base.cubes), spawned, host.draws, n0, base.randomColor, base.fixedColor)
        && forall k :: n0 <= k < |host.draws| ==> 0.0 <= host.draws[k] < 1.0
    {
      var gate := host.Random();
      if gate < cubeSpawnRate {
        var dx := host.Random();
        var dy := host.Random();
        var dz := host.Random();
        var dc := host.Random();
        ghost var n0 := |old(host.draws)|;
        assert host.draws == old(host.draws) + [gate, dx, dy, dz, dc];
        assert host.draws[n0 + 1] == dx && host.draws[n0 + 2] == dy && host.draws[n0 + 3] == dz && host.draws[n0 + 4] == dc;
        var cube := base.CreateCube(cubeSize, SpawnPosition(dx, dy, dz), dc * ColorRange);
        spawned := Some(cube);
        assert base.cubes == Born(old(base.cubes), spawned, host.draws, n0, base.randomColor, base.fixedColor);
      } else {
        assert host.draws == old(host.draws) + [gate];
        spawned := None;
      }
    }

    /** `if (cubeArray.length > maxCubes) removeCube(0)`. */
    method Evict()
      requires Valid()
      modifies base`cubeArray
      ensures Valid()
      ensures base.cubeArray == Capped(old(base.cubeArray), maxCubes)
    {
      if (|base.cubeArray| as real) > maxCubes {
        RemoveCube(0);
      }
    }

    /**
     * IdleEffect's `removeCube(i)`: `cubeArray.splice(i, 1)`. The cube is not
     * taken out of the scene; an index past the end changes nothing. Callers
     * pass only non-negative indices, so the index is a nat.
     */
    method RemoveCube(index: nat)
      requires Valid()
      modifies base`cubeArray
      ensures Valid()
      ensures index < |old(base.cubeArray)| ==> base.cubeArray == RemoveAt(old(base.cubeArray), index)
      ensures index >= |old(base.cubeArray)| ==> base.cubeArray == old(base.cubeArray)
    {
      if index < |base.cubeArray| {
        base.cubeArray := base.cubeArray[..index] + base.cubeArray[index + 1..];
      }
    }

    /** The forEach of update: each cube fades by the rate and leaves the scene once at or below 0. */
    method FadeOut()
      requires Valid() && base.scene != null
      modifies base`cubes, base.scene`children
      ensures Valid() && base.scene == old(base.scene)
      ensures base.cubes == Apply(old(base.cubes), Elements(base.cubeArray), FadeBy(cubeFadeRate))
      ensures base.scene.children == old(base.scene.children) - FadedOut(base.cubeArray, base.cubes)
    {
      base.cubes := FadeAll(base.scene, base.cubeArray, base.cubes, cubeFadeRate);
    }

    /** `cubeArray = cubeArray.filter(cube => cube.material.opacity > 0)`. */
    method KeepVisible()
      requires Valid()
      modifies base`cubeArray
      ensures Valid()
      ensures base.cubeArray == Survivors(old(base.cubeArray), base.cubes)
    {
      var arr := base.cubeArray;
      var kept := [];
      for i := 0 to |arr|
        invariant base.cubeArray == arr
        invariant AllKnown(arr[..i], base.cubes)
        invariant kept == Survivors(arr[..i], base.cubes)
      {
        FilterStep(arr, base.cubes, i);
        if base.cubes[arr[i]].opacity > 0.0 {
          kept := kept + [arr[i]];
        }
      }
      assert arr[..|arr|] == arr;
      SurvivorsDistinct(arr, base.cubes);
      base.cubeArray := kept;
    }

    method SetActive(active: bool)
      modifies base`active
      ensures base.active == active
    {
      base.SetActive(active);
    }

    /** `randomCubes[p]`, or None when undefined. */
    function Property(p: string): (v: Option<Value>)
      reads this, base
    {
      if p == "name" then Some(Str("RandomCubes"))
      else if p == "maxCubes" then Some(Num(maxCubes))
      else if p == "cubeSize" then Some(Num(cubeSize))
      else if p == "cubeSpawnRate" then Some(Num(cubeSpawnRate))
      else if p == "cubeFadeRate" then Some(Num(cubeFadeRate))
      else if p == "cubeRandomColor" then Some(Bool(cubeRandomColor))
      else base.Property(p)
    }

    predicate Accepts(p: string, v: Value)
    {
      if p == "maxCubes" || p == "cubeSize" || p == "cubeSpawnRate" || p == "cubeFadeRate" then v.Num?
      else if p == "cubeRandomColor" then v.Bool?
      else if p == "name" then false
      else base.Accepts(p, v)
    }

    /** `randomCubes[p] = v`: the effect's own settings, else the base effect's. */
    method SetProperty(p: string, v: Value)
      modifies this`maxCubes, this`cubeSize, this`cubeSpawnRate, this`cubeFadeRate, this`cubeRandomColor
      modifies base`rotationSpeed, base`randomColor, base`fixedColor, base`active, base`extras
      ensures Property(p) == if Accepts(p, v) then Some(v) else old(Property(p))
      ensures forall q :: q != p ==> Property(q) == old(Property(q))
    {
      if p == "maxCubes" {
        if v.Num? { maxCubes := v.n; }
      } else if p == "cubeSize" {
        if v.Num? { cubeSize := v.n; }
      } else if p == "cubeSpawnRate" {
        if v.Num? { cubeSpawnRate := v.n; }
      } else if p == "cubeFadeRate" {
        if v.Num? { cubeFadeRate := v.n; }
      } else if p == "cubeRandomColor" {
        if v.Bool? { cubeRandomColor := v.b; }
      } else if p != "name" {
        base.SetProperty(p, v);
      }
    }
  }

  // ---------------------------------------------------------------------------
  // Kaleidoscope

  /** Length of the `frequencyData` uniform (a Float32Array(120)). */
  const UniformBins: nat := 120

  /** `Math.max(1, Math.floor(len / frequencyBins))` for a positive bin count. */
  function ResampleStep(len: nat, bins: real): (step: nat)
    requires bins > 0.0
    ensures step >= 1
    ensures (len as real) / bins >= 1.0 ==> (step as real) <= (len as real) / bins < (step + 1) as real
  {
    var q := ((len as real) / bins).Floor;
    if q < 1 then 1 else q
  }

  /** `Math.min(i * step, len - 1)`: always an index of the spectrum. */
  function ResampleIndex(len: nat, step: nat, i: nat): (k: nat)
    requires len > 0
    ensures k < len && k <= i * step
    ensures i * step < len ==> k == i * step
  {
    if i * step < len - 1 then i * step else len - 1
  }

  /** The uniform value of bin i: the spectrum byte at the resampled index over 255. */
  function BinValue(data: seq<Audio.Byte>, step: nat, i: nat): (v: real)
    requires |data| > 0
    ensures 0.0 <= v <= 1.0
    ensures v * 255.0 == data[ResampleIndex(|data|, step, i)] as real
  {
    data[ResampleIndex(|data|, step, i)] as real / 255.0
  }

  /**
   * The uniform array after the resampling loop `for (i = 0; i < bins; i++)`:
   * the first bins entries (rounded up) hold resampled bytes; the rest, and
   * every write past the end of the typed array, leave it as it was.
   */
  function Resampled(prev: seq<real>, data: seq<Audio.Byte>, bins: real): (r: seq<real>)
    requires |data| > 0
    ensures |r| == |prev|
    ensures forall k :: 0 <= k < |r| && k < LoopCount(bins) ==> 0.0 <= r[k] <= 1.0
    ensures forall k :: 0 <= k < |r| && k >= LoopCount(bins) ==> r[k] == prev[k]
  {
    seq(|prev|, k requires 0 <= k < |prev| =>
      if k < LoopCount(bins) then BinValue(data, ResampleStep(|data|, bins), k) else prev[k])
  }

  /**
   * The analyser delivers 32 bands: with the default 120 bins the step is 1,
   * bins 0..31 copy the bands and bins 31..119 all repeat the last band.
   */
  lemma ThirtyTwoBands(prev: seq<real>, data: seq<Audio.Byte>)
    requires |data| == 32 && |prev| == UniformBins
    ensures var r := Resampled(prev, data, 120.0);
      && (forall k :: 0 <= k < 32 ==> r[k] == data[k] as real / 255.0)
      && (forall k :: 31 <= k < UniformBins ==> r[k] == data[31] as real / 255.0)
  {
    assert 32.0 / 120.0 < 1.0;
    assert ResampleStep(32, 120.0) == 1;
    assert LoopCount(120.0) == 120;
  }

  /** `beat.isBeat ? (beat.intensity || 1.0) : 0.0` */
  function BeatUniform(beat: Audio.BeatInfo): (v: real)
    ensures !beat.isBeat ==> v == 0.0
    ensures beat.intensity >= 0.0 ==> (v > 0.0 <==> beat.isBeat)
    ensures beat.isBeat && beat.intensity != 0.0 ==> v == beat.intensity
  {
    if !beat.isBeat then 0.0 else if beat.intensity == 0.0 then 1.0 else beat.intensity
  }

  /** How far the hue turns in one frame: `(36 + volume * 120 + treble * 200) * 0.016`. */
  function HueStep(volume: real, treble: real): real
  {
    (36.0 + volume * 120.0 + treble * 200.0) * 0.016
  }

  /** `(hueOffset + step) % 360`, with JavaScript's remainder. */
  function NextHue(h: real, volume: real, treble: real): (r: real)
    ensures 0.0 <= h && 0.0 <= volume && 0.0 <= treble ==> 0.0 <= r < 360.0
    ensures 0.0 <= h + HueStep(volume, treble) < 360.0 ==> r == h + HueStep(volume, treble)
  {
    RealRem(h + HueStep(volume, treble), 360.0)
  }

  /** With levels in [0, 1] a hue in [0, 360) advances by under one turn, so the wrap takes off exactly 360. */
  lemma HueWrapsOnce(h: real, volume: real, treble: real)
    requires 0.0 <= h < 360.0 && 0.0 <= volume <= 1.0 && 0.0 <= treble <= 1.0
    ensures var a := h + HueStep(volume, treble);
      NextHue(h, volume, treble) == if a < 360.0 then a else a - 360.0
  {
    var a := h + HueStep(volume, treble);
    if a >= 360.0 {
      assert a < 720.0;
      Arith.RealDivBounds(1.0, a, 2.0, 360.0);
      assert Trunc(a / 360.0) == 1;
    }
  }

  /** The shader uniforms the kaleidoscope feeds. */
  class Uniforms {
    var time: real
    var segments: real
    var baseRadius: real
    var hueOffset: real
    const frequencyData: array<real>
    var bassLevel: real
    var midLevel: real
    var highLevel: real
    var beatIntensity: real

    constructor (segments: real, baseRadius: real, hueOffset: real)
      ensures fresh(frequencyData) && frequencyData.Length == UniformBins
      ensures frequencyData[..] == seq(UniformBins, _ => 0.0)
      ensures time == 0.0 && this.segments == segments && this.baseRadius == baseRadius && this.hueOffset == hueOffset
      ensures bassLevel == 0.0 && midLevel == 0.0 && highLevel == 0.0 && beatIntensity == 0.0
    {
      time := 0.0;
      this.segments := segments;
      this.baseRadius := baseRadius;
      this.hueOffset := hueOffset;
      frequencyData := new real[UniformBins](_ => 0.0);
      bassLevel := 0.0;
      midLevel := 0.0;
      highLevel := 0.0;
      beatIntensity := 0.0;
    }
  }

  class Kaleidoscope {
    const base: Effect
    const mesh: ShaderMesh
    const uniforms: Uniforms
    var segments: real
    var baseRadius: real
    var frequencyBins: real
    var lineWidth: real
    var hueOffset: real
    var mirrorAlpha: real
    var audioAnalyzer: Audio.AudioAnalyzer?

    predicate Valid()
      reads base`cubeArray, base`cubes, base`scene
    {
      base.Valid() && uniforms.frequencyData.Length == UniformBins
    }

    /** The analyser, when attached, is ready to be read. */
    predicate AnalyzerReady()
      reads this`audioAnalyzer, Audio.Attached(audioAnalyzer)`analyserReady, Audio.Attached(audioAnalyzer)`frequencyData
      reads Audio.DetectorOf(audioAnalyzer)`beatHistory
    {
      audioAnalyzer != null ==> audioAnalyzer.Valid()
    }

    constructor ()
      ensures Valid() && AnalyzerReady() && fresh(base) && fresh(mesh) && fresh(uniforms) && fresh(uniforms.frequencyData)
      ensures segments == 12.0 && baseRadius == 2.0 && frequencyBins == 120.0 && lineWidth == 2.0
      ensures hueOffset == 0.0 && mirrorAlpha == 0.7 && audioAnalyzer == null
      ensures uniforms.time == 0.0 && uniforms.segments == 12.0 && uniforms.baseRadius == 2.0 && uniforms.hueOffset == 0.0
      ensures uniforms.frequencyData[..] == seq(UniformBins, _ => 0.0)
      ensures uniforms.bassLevel == 0.0 && uniforms.midLevel == 0.0 && uniforms.highLevel == 0.0 && uniforms.beatIntensity == 0.0
      ensures mesh.parent == null && mesh.rotationZ == 0.0
      ensures !base.active && base.scene == null && base.cubeArray == []
    {
      base := new Effect();
      segments := 12.0;
      baseRadius := 2.0;
      frequencyBins := 120.0;
      lineWidth := 2.0;
      hueOffset := 0.0;
      mirrorAlpha := 0.7;
      audioAnalyzer := null;
      uniforms := new Uniforms(12.0, 2.0, 0.0);
      mesh := new ShaderMesh();
    }

    /**
     * The base flag, then the mesh follows it into or out of the known
     * scene; before the first update there is no scene and only the flag
     * changes.
     */
    method SetActive(active: bool)
      requires Valid()
      modifies base`active, SceneOf(base.scene)`children, mesh`parent, (if mesh.parent != null then {mesh.parent} else {})`children
      ensures Valid() && base.active == active && mesh.rotationZ == old(mesh.rotationZ)
      ensures base.scene != null && active ==>
        mesh.parent == base.scene && base.scene.children == old(base.scene.children) + {mesh}
      ensures base.scene != null && !active ==>
        && base.scene.children == old(base.scene.children) - {mesh}
        && mesh.parent == if mesh in old(base.scene.children) then null else old(mesh.parent)
      ensures base.scene == null ==> mesh.parent == old(mesh.parent)
    {
      base.SetActive(active);
      if active && base.scene != null {
        base.scene.AddMesh(mesh);
      } else if base.scene != null {
        base.scene.RemoveMesh(mesh);
      }
    }

    /**
     * The base update; an inactive kaleidoscope stops there. An active one
     * puts its mesh into the scene if it has no parent, sets the time
     * uniform, feeds the audio uniforms when an analyser is attached, and
     * turns the mesh by 0.001.
     */
    method Update(camera: Camera, scene: Scene, mouse: Pointer, host: Host)
      requires Valid() && AnalyzerReady()
      modifies base`camera, base`scene, base`mouse, base`cubes, base`updates, scene`children, mesh`parent, mesh`rotationZ
      modifies this`hueOffset, uniforms, uniforms.frequencyData
      modifies (if audioAnalyzer != null then {audioAnalyzer.beatDetector} else {})`isBeat
      ensures Valid() && AnalyzerReady()
      ensures base.camera == Some(camera) && base.scene == scene && base.mouse == Some(mouse)
      ensures base.updates == old(base.updates) + 1
      ensures base.cubes == Rotated(old(base.cubes), base.cubeArray, base.rotationSpeed)
      ensures uniforms.segments == old(uniforms.segments) && uniforms.baseRadius == old(uniforms.baseRadius)
      ensures !base.active ==>
        && unchanged(uniforms, mesh) && uniforms.frequencyData[..] == old(uniforms.frequencyData[..])
        && hueOffset == old(hueOffset) && scene.children == old(scene.children)
        && (audioAnalyzer != null ==> audioAnalyzer.beatDetector.isBeat == old(audioAnalyzer.beatDetector.isBeat))
      ensures base.active ==>
        && mesh.parent != null
        && (old(mesh.parent) == null ==> mesh.parent == scene && scene.children == old(scene.children) + {mesh})
        && (old(mesh.parent) != null ==> mesh.parent == old(mesh.parent) && scene.children == old(scene.children))
        && mesh.rotationZ == old(mesh.rotationZ) + 0.001
        && uniforms.time == host.perfNow * 0.001
      ensures base.active && audioAnalyzer == null ==>
        && hueOffset == old(hueOffset) && uniforms.hueOffset == old(uniforms.hueOffset)
        && uniforms.bassLevel == old(uniforms.bassLevel) && uniforms.midLevel == old(uniforms.midLevel)
        && uniforms.highLevel == old(uniforms.highLevel) && uniforms.beatIntensity == old(uniforms.beatIntensity)
        && uniforms.frequencyData[..] == old(uniforms.frequencyData[..])
      ensures base.active && audioAnalyzer != null ==>
        var a := audioAnalyzer;
        && !a.beatDetector.isBeat
        && uniforms.beatIntensity == BeatUniform(Audio.BeatInfo(old(a.beatDetector.isBeat),
                                                                Audio.LatestIntensity(a.beatDetector.beatHistory),
                                                                host.dateNow - a.beatDetector.lastBeatTime))
        && uniforms.bassLevel == a.BassLevel() && uniforms.midLevel == a.VolumeLevel()
        && uniforms.highLevel == a.TrebleLevel()
        && uniforms.frequencyData[..] == Resampled(old(uniforms.frequencyData[..]), a.frequencyDataArray[..], frequencyBins)
        && hueOffset == NextHue(old(hueOffset), a.VolumeLevel(), a.TrebleLevel())
        && uniforms.hueOffset == hueOffset
    {
      base.Update(camera, scene, mouse);
      if base.active {
        Animate(host);
      }
    }

    /** The active part of update. */
    method Animate(host: Host)
      requires Valid() && AnalyzerReady() && base.scene != null
      modifies base.scene`children, mesh`parent, mesh`rotationZ, this`hueOffset, uniforms, uniforms.frequencyData
      modifies (if audioAnalyzer != null then {audioAnalyzer.beatDetector} else {})`isBeat
      ensures Valid() && AnalyzerReady()
      ensures uniforms.segments == old(uniforms.segments) && uniforms.baseRadius == old(uniforms.baseRadius)
      ensures mesh.parent != null
      ensures old(mesh.parent) == null ==>
        mesh.parent == base.scene && base.scene.children == old(base.scene.children) + {mesh}
      ensures old(mesh.parent) != null ==>
        mesh.parent == old(mesh.parent) && base.scene.children == old(base.scene.children)
      ensures mesh.rotationZ == old(mesh.rotationZ) + 0.001
      ensures uniforms.time == host.perfNow * 0.001
      ensures audioAnalyzer == null ==>
        && hueOffset == old(hueOffset) && uniforms.hueOffset == old(uniforms.hueOffset)
        && uniforms.bassLevel == old(uniforms.bassLevel) && uniforms.midLevel == old(uniforms.midLevel)
        && uniforms.highLevel == old(uniforms.highLevel) && uniforms.beatIntensity == old(uniforms.beatIntensity)
        && uniforms.frequencyData[..] == old(uniforms.frequencyData[..])
      ensures audioAnalyzer != null ==>
        var a := audioAnalyzer;
        && !a.beatDetector.isBeat
        && uniforms.beatIntensity == BeatUniform(Audio.BeatInfo(old(a.beatDetector.isBeat),
                                                                Audio.LatestIntensity(a.beatDetector.beatHistory),
                                                                host.dateNow - a.beatDetector.lastBeatTime))
        && uniforms.bassLevel == a.BassLevel() && uniforms.midLevel == a.VolumeLevel()
        && uniforms.highLevel == a.TrebleLevel()
        && uniforms.frequencyData[..] == Resampled(old(uniforms.frequencyData[..]), a.frequencyDataArray[..], frequencyBins)
        && hueOffset == NextHue(old(hueOffset), a.VolumeLevel(), a.TrebleLevel())
        && uniforms.hueOffset == hueOffset
    {
      if mesh.parent == null {
        base.scene.AddMesh(mesh);
      }
      uniforms.time := host.perfNow * 0.001;
      if audioAnalyzer != null {
        FeedAudio(host);
      }
      mesh.rotationZ := mesh.rotationZ + 0.001;
    }

    /** The analyser branch of update: levels, beat, spectrum and hue into the uniforms. */
    method FeedAudio(host: Host)
      requires Valid() && AnalyzerReady() && audioAnalyzer != null
      modifies this`hueOffset, uniforms, uniforms.frequencyData, audioAnalyzer.beatDetector`isBeat
      ensures Valid() && AnalyzerReady()
      ensures uniforms.time == old(uniforms.time)
      ensures uniforms.segments == old(uniforms.segments) && uniforms.baseRadius == old(uniforms.baseRadius)
      ensures var a := audioAnalyzer;
        && !a.beatDetector.isBeat
        && uniforms.beatIntensity == BeatUniform(Audio.BeatInfo(old(a.beatDetector.isBeat),
                                                                Audio.LatestIntensity(a.beatDetector.beatHistory),
                                                                host.dateNow - a.beatDetector.lastBeatTime))
        && uniforms.bassLevel == a.BassLevel() && uniforms.midLevel == a.VolumeLevel()
        && uniforms.highLevel == a.TrebleLevel()
        && uniforms.frequencyData[..] == Resampled(old(uniforms.frequencyData[..]), a.frequencyDataArray[..], frequencyBins)
        && hueOffset == NextHue(old(hueOffset), a.VolumeLevel(), a.TrebleLevel())
        && uniforms.hueOffset == hueOffset
    {
      var beat := audioAnalyzer.GetBeat(host.dateNow);
      var volume := audioAnalyzer.VolumeLevel();
      var bass := audioAnalyzer.BassLevel();
      var treble := audioAnalyzer.TrebleLevel();
      uniforms.bassLevel := bass;
      uniforms.midLevel := volume;
      uniforms.highLevel := treble;
      uniforms.beatIntensity := BeatUniform(beat);
      Resample(audioAnalyzer.frequencyDataArray);
      hueOffset := NextHue(hueOffset, volume, treble);
      uniforms.hueOffset := hueOffset;
    }

    /** The resampling loop over the analyser's spectrum into the `frequencyData` uniform. */
    method Resample(data: array<Audio.Byte>)
      requires Valid() && data.Length > 0
      modifies uniforms.frequencyData
      ensures uniforms.frequencyData[..] == Resampled(old(uniforms.frequencyData[..]), data[..], frequencyBins)
    {
      var out, len := uniforms.frequencyData, data.Length;
      var step := if frequencyBins > 0.0 then ResampleStep(len, frequencyBins) else 1;
      ghost var prev := out[..];
      var i: nat := 0;
      while (i as real) < frequencyBins
        invariant i <= LoopCount(frequencyBins)
        invariant forall k :: 0 <= k < out.Length ==>
          out[k] == if k < i then BinValue(data[..], step, k) else prev[k]
        decreases LoopCount(frequencyBins) - i
      {
        if i < out.Length {
          out[i] := data[ResampleIndex(len, step, i)] as real / 255.0;
        }
        i := i + 1;
      }
      assert i == LoopCount(frequencyBins);
      assert out[..] == Resampled(prev, data[..], frequencyBins);
    }

    method SetAudioAnalyzer(audioAnalyzer: Audio.AudioAnalyzer?)
      modifies this`audioAnalyzer
      ensures this.audioAnalyzer == audioAnalyzer
    {
      this.audioAnalyzer := audioAnalyzer;
    }

    /** Segments clamped to [4, 64], mirrored into the uniform. */
    method SetSegments(segments: real)
      modifies this`segments, uniforms`segments
      ensures this.segments == Arith.Clamp(4.0, 64.0, segments) && uniforms.segments == this.segments
    {
      this.segments := Arith.Clamp(4.0, 64.0, segments);
      uniforms.segments := this.segments;
    }

    /** Base radius clamped to [0.5, 5], mirrored into the uniform. */
    method SetBaseRadius(radius: real)
      modifies this`baseRadius, uniforms`baseRadius
      ensures baseRadius == Arith.Clamp(0.5, 5.0, radius) && uniforms.baseRadius == baseRadius
    {
      baseRadius := Arith.Clamp(0.5, 5.0, radius);
      uniforms.baseRadius := baseRadius;
    }

    /** Line width clamped to [0.5, 10]; no uniform carries it. */
    method SetLineWidth(width: real)
      modifies this`lineWidth
      ensures lineWidth == Arith.Clamp(0.5, 10.0, width)
    {
      lineWidth := Arith.Clamp(0.5, 10.0, width);
    }

    /** `kaleidoscope[p]`, or None when undefined. */
    function Property(p: string): (v: Option<Value>)
      reads this, base
    {
      if p == "name" then Some(Str("Kaleidoscope"))
      else if p == "segments" then Some(Num(segments))
      else if p == "baseRadius" then Some(Num(baseRadius))
      else if p == "frequencyBins" then Some(Num(frequencyBins))
      else if p == "lineWidth" then Some(Num(lineWidth))
      else if p == "hueOffset" then Some(Num(hueOffset))
      else if p == "mirrorAlpha" then Some(Num(mirrorAlpha))
      else if p == "audioAnalyzer" then (if audioAnalyzer == null then Some(Null) else Some(Obj))
      else if p in MeshNames then Some(Obj)
      else base.Property(p)
    }

    predicate Accepts(p: string, v: Value)
    {
      if p in KaleidoscopeNumbers then v.Num?
      else if p == "name" || p == "audioAnalyzer" || p in MeshNames then false
      else base.Accepts(p, v)
    }

    /**
     * `kaleidoscope[p] = v`: a plain field write, so a segment count or
     * radius written this way is neither clamped nor copied to the uniform.
     */
    method SetProperty(p: string, v: Value)
      modifies this`segments, this`baseRadius, this`frequencyBins, this`lineWidth, this`hueOffset, this`mirrorAlpha
      modifies base`rotationSpeed, base`randomColor, base`fixedColor, base`active, base`extras
      ensures Property(p) == if Accepts(p, v) then Some(v) else old(Property(p))
      ensures forall q :: q != p ==> Property(q) == old(Property(q))
    {
      if p in KaleidoscopeNumbers {
        if v.Num? {
          if p == "segments" { segments := v.n; }
          else if p == "baseRadius" { baseRadius := v.n; }
          else if p == "frequencyBins" { frequencyBins := v.n; }
          else if p == "lineWidth" { lineWidth := v.n; }
          else if p == "hueOffset" { hueOffset := v.n; }
          else { mirrorAlpha := v.n; }
        }
      } else if p != "name" && p != "audioAnalyzer" && p !in MeshNames {
        base.SetProperty(p, v);
      }
    }
  }

  const KaleidoscopeNumbers: set<string> := {"segments", "baseRadius", "frequencyBins", "lineWidth", "hueOffset", "mirrorAlpha"}

  /** The Three.js objects the kaleidoscope holds. */
  const MeshNames: set<string> := {"kaleidoscopeMesh", "kaleidoscopeMaterial", "kaleidoscopeGeometry"}
}
