// effects/clickEffects: the effects driven by the held pointer. ClickSnake
// drops a cube at the pointer on every click and lets old ones fade;
// DragSpiral spawns a ring of cubes around each drag point that moved far
// enough, caps its collection, and pulses its cubes to the music.
module ClickEffects {
  import opened Wrappers
  import opened Render
  import opened EffectBase
  import Audio

  // ---------------------------------------------------------------------
  // ClickSnake
  // ---------------------------------------------------------------------

  /** The opacity one forEach visit of ClickSnake.update takes off. */
  const SnakeFadeStep: real := 0.01
  /** The box size of a snake cube. */
  const SnakeCubeSize: real := 0.5

  /** Where the fade pass of ClickSnake.update stands: the array, the cube states and the cubes it took out of the scene. */
  datatype Fade = Fade(arr: seq<Cube>, states: map<Cube, CubeState>, removed: set<Cube>)

  /**
   * The fade pass of ClickSnake.update from index k on, as `forEach` runs
   * it over an array it splices: indices go up to the length the array
   * had when the pass began (`len0`), an index past the current end is
   * skipped, and each visited entry lowers its cube's opacity by 0.01 and
   * is spliced out (its cube leaving the scene) once that opacity is at
   * most 0. The entry that slides into a spliced slot is not visited.
   */
  function SnakeFade(arr: seq<Cube>, states: map<Cube, CubeState>, k: nat, len0: nat, removed: set<Cube>): (r: Fade)
    requires AllKnown(arr, states)
    ensures AllKnown(r.arr, r.states)
    ensures r.states.Keys == states.Keys
    decreases len0 - k
  {
    if k >= len0 then Fade(arr, states, removed)
    else if k >= |arr| then SnakeFade(arr, states, k + 1, len0, removed)
    else
      var c := arr[k];
      var faded := states[c := states[c].(opacity := states[c].opacity - SnakeFadeStep)];
      if faded[c].opacity <= 0.0 then SnakeFade(RemoveAt(arr, k), faded, k + 1, len0, removed + {c})
      else SnakeFade(arr, faded, k + 1, len0, removed)
  }

  /** The fade pass only takes entries out of the array. */
  lemma {:induction false} SnakeFadeShrinks(arr: seq<Cube>, states: map<Cube, CubeState>, k: nat, len0: nat, removed: set<Cube>)
    requires AllKnown(arr, states)
    ensures var r := SnakeFade(arr, states, k, len0, removed);
      |r.arr| <= |arr| && forall c :: c in r.arr ==> c in arr
    decreases len0 - k
  {
    if k < len0 {
      if k >= |arr| {
        SnakeFadeShrinks(arr, states, k + 1, len0, removed);
      } else {
        var c := arr[k];
        var faded := states[c := states[c].(opacity := states[c].opacity - SnakeFadeStep)];
        if faded[c].opacity <= 0.0 {
          SnakeFadeShrinks(RemoveAt(arr, k), faded, k + 1, len0, removed + {c});
        } else {
          SnakeFadeShrinks(arr, faded, k + 1, len0, removed);
        }
      }
    }
  }

  /** No opacity rises during the fade pass. */
  lemma {:induction false} SnakeFadeDims(arr: seq<Cube>, states: map<Cube, CubeState>, k: nat, len0: nat, removed: set<Cube>)
    requires AllKnown(arr, states)
    ensures var r := SnakeFade(arr, states, k, len0, removed);
      forall c :: c in states ==> r.states[c].opacity <= states[c].opacity
    decreases len0 - k
  {
    if k < len0 {
      if k >= |arr| {
        SnakeFadeDims(arr, states, k + 1, len0, removed);
      } else {
        var c := arr[k];
        var faded := states[c := states[c].(opacity := states[c].opacity - SnakeFadeStep)];
        if faded[c].opacity <= 0.0 {
          SnakeFadeDims(RemoveAt(arr, k), faded, k + 1, len0, removed + {c});
        } else {
          SnakeFadeDims(arr, faded, k + 1, len0, removed);
        }
      }
    }
  }

  /** Cubes not in the array keep their state through the fade pass. */
  lemma {:induction false} SnakeFadeLeavesOthers(arr: seq<Cube>, states: map<Cube, CubeState>, k: nat, len0: nat, removed: set<Cube>)
    requires AllKnown(arr, states)
    ensures var r := SnakeFade(arr, states, k, len0, removed);
      forall c :: c in states && c !in arr ==> r.states[c] == states[c]
    decreases len0 - k
  {
    if k < len0 {
      if k >= |arr| {
        SnakeFadeLeavesOthers(arr, states, k + 1, len0, removed);
      } else {
        var c := arr[k];
        var faded := states[c := states[c].(opacity := states[c].opacity - SnakeFadeStep)];
        if faded[c].opacity <= 0.0 {
          SnakeFadeLeavesOthers(RemoveAt(arr, k), faded, k + 1, len0, removed + {c});
        } else {
          SnakeFadeLeavesOthers(arr, faded, k + 1, len0, removed);
        }
      }
    }
  }

  /** The cubes the fade pass takes out of the scene were in the array and end with opacity at most 0. */
  lemma {:induction false} SnakeFadeRemovesFaded(arr: seq<Cube>, states: map<Cube, CubeState>, k: nat, len0: nat, removed: set<Cube>)
    requires AllKnown(arr, states)
    ensures var r := SnakeFade(arr, states, k, len0, removed);
      && removed <= r.removed
      && (forall c :: c in r.removed && c !in removed ==> c in arr && r.states[c].opacity <= 0.0)
    decreases len0 - k
  {
    if k < len0 {
      if k >= |arr| {
        SnakeFadeRemovesFaded(arr, states, k + 1, len0, removed);
      } else {
        var c := arr[k];
        var faded := states[c := states[c].(opacity := states[c].opacity - SnakeFadeStep)];
        if faded[c].opacity <= 0.0 {
          SnakeFadeRemovesFaded(RemoveAt(arr, k), faded, k + 1, len0, removed + {c});
          SnakeFadeDims(RemoveAt(arr, k), faded, k + 1, len0, removed + {c});
        } else {
          SnakeFadeRemovesFaded(arr, faded, k + 1, len0, removed);
        }
      }
    }
  }

  /** The whole fade pass of one ClickSnake.update. */
  function SnakeFadePass(arr: seq<Cube>, states: map<Cube, CubeState>): (r: Fade)
    requires AllKnown(arr, states)
    ensures AllKnown(r.arr, r.states) && r.states.Keys == states.Keys
  {
    SnakeFade(arr, states, 0, |arr|, {})
  }

  /** A cube stored twice is visited twice, so it fades by 0.02 in one pass. */
  lemma DuplicateFadesTwice(a: Cube, s: CubeState)
    requires s.opacity == 0.5
    ensures SnakeFadePass([a, a], map[a := s]).states[a].opacity == 0.48
    ensures SnakeFadePass([a, a], map[a := s]).arr == [a, a]
  {
    var m1 := map[a := s.(opacity := 0.49)];
    var m2 := map[a := s.(opacity := 0.48)];
    assert SnakeFade([a, a], m2, 2, 2, {}) == Fade([a, a], m2, {});
    assert SnakeFade([a, a], m1, 1, 2, {}) == SnakeFade([a, a], m2, 2, 2, {});
    assert SnakeFade([a, a], map[a := s], 0, 2, {}) == SnakeFade([a, a], m1, 1, 2, {});
  }

  /**
   * An entry spliced out mid-pass makes the next entry slide into its slot,
   * which the pass has already visited: that cube does not fade this frame.
   */
  lemma SpliceSkipsNext(a: Cube, b: Cube, sa: CubeState, sb: CubeState)
    requires a != b && sa.opacity == 0.005 && sb.opacity == 0.5
    ensures var r := SnakeFadePass([a, b], map[a := sa, b := sb]);
      r.arr == [b] && r.states[b] == sb && r.removed == {a}
  {
    var m := map[a := sa, b := sb];
    var m1 := m[a := sa.(opacity := 0.005 - SnakeFadeStep)];
    assert RemoveAt([a, b], 0) == [b];
    assert SnakeFade([b], m1, 2, 2, {a}) == Fade([b], m1, {a});
    assert SnakeFade([b], m1, 1, 2, {a}) == SnakeFade([b], m1, 2, 2, {a});
    assert SnakeFade([a, b], m, 0, 2, {}) == SnakeFade([b], m1, 1, 2, {a});
  }

  /**
   * The two entries of one click share a cube: when the first entry fades
   * out, the cube leaves the scene and the second entry, skipped, stays in
   * the array that frame.
   */
  lemma FadedTwinStaysInArray(a: Cube, s: CubeState)
    requires s.opacity == 0.01
    ensures var r := SnakeFadePass([a, a], map[a := s]);
      r.arr == [a] && r.removed == {a} && r.states[a].opacity == 0.0
  {
    var m1 := map[a := s.(opacity := 0.0)];
    assert RemoveAt([a, a], 0) == [a];
    assert SnakeFade([a], m1, 2, 2, {a}) == Fade([a], m1, {a});
    assert SnakeFade([a], m1, 1, 2, {a}) == SnakeFade([a], m1, 2, 2, {a});
    assert SnakeFade([a, a], map[a := s], 0, 2, {}) == SnakeFade([a], m1, 1, 2, {a});
  }

  /** The array after one ClickSnake.onClick: two entries of the new cube, then at most one eviction from the front. */
  function SnakePush(arr: seq<Cube>, c: Cube, maxLength: real): (r: seq<Cube>)
    ensures |r| == SnakeLength(|arr|, maxLength)
    ensures r[|r| - 1] == c
    ensures (|arr| + 2) as real > maxLength <==> r == (arr + [c, c])[1..]
  {
    var pushed := arr + [c, c];
    if |pushed| as real > maxLength then pushed[1..] else pushed
  }

  /** The length after one click on a snake of length n: grows by 2, or by 1 past the cap. */
  function SnakeLength(n: nat, maxLength: real): (m: nat)
    ensures n + 1 <= m <= n + 2
    ensures (m == n + 1) <==> (n + 2) as real > maxLength
  {
    if (n + 2) as real > maxLength then n + 1 else n + 2
  }

  /** The length after k clicks on a snake of length n. */
  function SnakeLengthAfter(n: nat, k: nat, maxLength: real): nat
  {
    if k == 0 then n else SnakeLength(SnakeLengthAfter(n, k - 1, maxLength), maxLength)
  }

  /**
   * The cap of ClickSnake does not bound the snake: k clicks from empty
   * leave at least k entries whatever maxLength is, and exactly 2k while
   * 2k stays within the cap.
   */
  lemma {:induction false} SnakeOutgrowsCap(k: nat, maxLength: real)
    ensures SnakeLengthAfter(0, k, maxLength) >= k
    ensures (2 * k) as real <= maxLength ==> SnakeLengthAfter(0, k, maxLength) == 2 * k
  {
    if k > 0 {
      SnakeOutgrowsCap(k - 1, maxLength);
    }
  }

  class ClickSnake {
    const base: Effect
    var autoFade: bool
    var maxLength: real

    predicate Valid()
      reads base`cubeArray, base`cubes, base`scene
    {
      base.Valid()
    }

    /** `new ClickSnake(maxLength, autoFade)`: an empty, inactive snake. */
    constructor (maxLength: real, autoFade: bool)
      ensures Valid() && fresh(base)
      ensures this.maxLength == maxLength && this.autoFade == autoFade
      ensures base.cubeArray == [] && !base.active && base.rotationSpeed == DefaultRotationSpeed
      ensures base.scene == null && base.updates == 0 && base.clicks == []
    {
      base := new Effect();
      this.maxLength := maxLength;
      this.autoFade := autoFade;
    }

    /**
     * One click: a cube of size 0.5 at the point the pointer's ray hits,
     * its z jittered by the first draw within [z - 0.1, z + 0.1), coloured
     * from the second draw; it is stored twice, and the front entry is
     * evicted once if the array is then longer than maxLength.
     */
    method OnClick(mouse: Pointer, camera: Camera, host: Host)
      requires Valid() && base.scene != null
      modifies base`cubeArray, base`cubes, base`clicks, base.scene`children, host`seed, host`draws
      ensures Valid() && base.scene == old(base.scene)
      ensures base.clicks == old(base.clicks) + [mouse]
      ensures |host.draws| == |old(host.draws)| + 2
      ensures |base.cubeArray| > 0
      ensures var cube := base.cubeArray[|base.cubeArray| - 1];
        var hit := camera.cast(mouse);
        var jitter := host.draws[|old(host.draws)|];
        var tint := host.draws[|old(host.draws)| + 1];
        && fresh(cube) && cube.size == SnakeCubeSize
        && base.cubeArray == SnakePush(old(base.cubeArray), cube, maxLength)
        && base.cubes == old(base.cubes)[cube := NewCubeState(Vec3(hit.x, hit.y, hit.z - 0.1 + jitter * 0.2), base.CubeColor(tint * 16777215.0))]
        && hit.z - 0.1 <= base.cubes[cube].position.z < hit.z + 0.1
        && base.scene.children == old(base.scene.children) + {cube}
             - (if (|old(base.cubeArray)| + 2) as real > maxLength then {(old(base.cubeArray) + [cube])[0]} else {})
    {
      base.clicks := base.clicks + [mouse];
      var hit := camera.cast(mouse);
      var jitter := host.Random();
      var tint := host.Random();
      var cube := base.CreateCube(SnakeCubeSize, Vec3(hit.x, hit.y, hit.z - 0.1 + jitter * 0.2), tint * 16777215.0);
      base.cubeArray := base.cubeArray + [cube];
      assert base.cubeArray == old(base.cubeArray) + [cube, cube];
      if |base.cubeArray| as real > maxLength {
        RemoveCube(0);
      }
    }

    /**
     * The base update (turning every entry), then, with autoFade, the fade
     * pass that lowers opacities and splices out faded entries as it goes.
     */
    method Update(camera: Camera, scene: Scene, mouse: Pointer)
      requires Valid()
      modifies base`camera, base`scene, base`mouse, base`cubes, base`updates, base`cubeArray, scene`children
      ensures Valid()
      ensures base.camera == Some(camera) && base.scene == scene && base.mouse == Some(mouse)
      ensures base.updates == old(base.updates) + 1
      ensures var turned := Rotated(old(base.cubes), old(base.cubeArray), base.rotationSpeed);
        if autoFade then
          var f := SnakeFadePass(old(base.cubeArray), turned);
          base.cubeArray == f.arr && base.cubes == f.states && scene.children == old(scene.children) - f.removed
        else
          base.cubeArray == old(base.cubeArray) && base.cubes == turned && scene.children == old(scene.children)
    {
      base.Update(camera, scene, mouse);
      if autoFade {
        FadePass();
      }
    }

    /** The autoFade pass of ClickSnake.update over the current array. */
    method FadePass()
      requires Valid() && base.scene != null
      modifies base`cubes, base`cubeArray, base.scene`children
      ensures Valid() && base.scene == old(base.scene)
      ensures var f := SnakeFadePass(old(base.cubeArray), old(base.cubes));
        base.cubeArray == f.arr && base.cubes == f.states
        && base.scene.children == old(base.scene.children) - f.removed
    {
      ghost var removed: set<Cube> := {};
      var len0 := |base.cubeArray|;
      var k: nat := 0;
      while k < len0
        invariant base.scene == old(base.scene)
        invariant Valid()
        invariant k <= len0
        invariant SnakeFade(base.cubeArray, base.cubes, k, len0, removed) == SnakeFadePass(old(base.cubeArray), old(base.cubes))
        invariant base.scene.children == old(base.scene.children) - removed
        decreases len0 - k
      {
        ghost var arr, states := base.cubeArray, base.cubes;
        if k < |base.cubeArray| {
          var c := base.cubeArray[k];
          var faded := base.cubes[c := base.cubes[c].(opacity := base.cubes[c].opacity - SnakeFadeStep)];
          base.cubes := faded;
          if faded[c].opacity <= 0.0 {
            assert SnakeFade(arr, states, k, len0, removed) == SnakeFade(RemoveAt(arr, k), faded, k + 1, len0, removed + {c});
            RemoveCube(k);
            removed := removed + {c};
          } else {
            assert SnakeFade(arr, states, k, len0, removed) == SnakeFade(arr, faded, k + 1, len0, removed);
          }
        } else {
          assert SnakeFade(arr, states, k, len0, removed) == SnakeFade(arr, states, k + 1, len0, removed);
        }
        k := k + 1;
      }
    }

    method SetActive(active: bool)
      modifies base`active
      ensures base.active == active
    {
      base.SetActive(active);
    }

    /** Takes every cube of the array out of the scene; the array itself is kept. */
    method Clear()
      requires Valid()
      modifies SceneOf(base.scene)`children
      ensures Valid()
      ensures old(base.scene) != null ==> base.scene.children == old(base.scene.children) - Elements(base.cubeArray)
    {
      var i: nat := 0;
      while i < |base.cubeArray|
        invariant 0 <= i <= |base.cubeArray|
        invariant base.scene != null ==> base.scene.children == old(base.scene.children) - Elements(base.cubeArray[..i])
      {
        ElementsAppend(base.cubeArray[..i], base.cubeArray[i]);
        assert base.cubeArray[..i + 1] == base.cubeArray[..i] + [base.cubeArray[i]];
        base.scene.Remove(base.cubeArray[i]);
        i := i + 1;
      }
      assert base.cubeArray[..i] == base.cubeArray;
    }

    /** Entry `index` leaves the array and its cube the scene; the other entries keep their order. */
    method RemoveCube(index: nat)
      requires Valid() && base.scene != null
      modifies base`cubeArray, base.scene`children
      ensures Valid() && base.scene == old(base.scene)
      ensures index < |old(base.cubeArray)| ==>
        base.cubeArray == RemoveAt(old(base.cubeArray), index)
        && base.scene.children == old(base.scene.children) - {old(base.cubeArray)[index]}
      ensures index >= |old(base.cubeArray)| ==>
        base.cubeArray == old(base.cubeArray) && base.scene.children == old(base.scene.children)
    {
      base.RemoveCube(index);
    }

    /** `snake[p]`, or None when undefined. */
    function Property(p: string): (v: Option<Value>)
      reads this, base
    {
      if p == "name" then Some(Str("ClickSnake"))
      else if p == "headPosition" then Some(Obj)
      else if p == "autoFade" then Some(Bool(autoFade))
      else if p == "maxLength" then Some(Num(maxLength))
      else base.Property(p)
    }

    predicate Accepts(p: string, v: Value)
    {
      if p == "name" || p == "headPosition" then false
      else if p == "autoFade" then v.Bool?
      else if p == "maxLength" then v.Num?
      else base.Accepts(p, v)
    }

    /** `snake[p] = v`: the snake's own settings, else the base effect's. */
    method SetProperty(p: string, v: Value)
      modifies this`autoFade, this`maxLength, base`rotationSpeed, base`randomColor, base`fixedColor, base`active, base`extras
      ensures Property(p) == if Accepts(p, v) then Some(v) else old(Property(p))
      ensures forall q :: q != p ==> Property(q) == old(Property(q))
    {
      if p == "autoFade" {
        if v.Bool? { autoFade := v.b; }
      } else if p == "maxLength" {
        if v.Num? { maxLength := v.n; }
      } else if p != "name" && p != "headPosition" {
        base.SetProperty(p, v);
      }
    }
  }

  // ---------------------------------------------------------------------
  // DragSpiral
  // ---------------------------------------------------------------------

  const Pi: real := 3.141592653589793
  /** The drag path keeps at most this many points. */
  const DragPathLimit: nat := 20
  /** A drag point must move more than this far from the last one to spawn cubes. */
  const MinDragStep: real := 0.1

  function DistanceSquared(a: Vec3, b: Vec3): real
  {
    (a.x - b.x) * (a.x - b.x) + (a.y - b.y) * (a.y - b.y) + (a.z - b.z) * (a.z - b.z)
  }

  /** `p.distanceTo(q) > 0.1`, compared on squares (the square root is monotone). */
  predicate MovedEnough(p: Vec3, q: Vec3)
  {
    DistanceSquared(p, q) > MinDragStep * MinDragStep
  }

  /** `dragPath.push(p)` and, past 20 points, `dragPath.shift()`. */
  function PushPoint(path: seq<Vec3>, p: Vec3): (r: seq<Vec3>)
    requires |path| <= DragPathLimit
    ensures 0 < |r| <= DragPathLimit && r[|r| - 1] == p
    ensures |path| < DragPathLimit ==> r == path + [p]
    ensures |path| == DragPathLimit ==> r == path[1..] + [p]
  {
    var pushed := path + [p];
    if |pushed| > DragPathLimit then pushed[1..] else pushed
  }

  /**
   * How many `removeCube(0)` calls the cleanup of createSpiralCubes makes
   * effective on an array of n entries: `n - maxCubes` rounded up when the
   * array is over the cap, but never more than there are entries.
   */
  function Evicted(n: nat, maxCubes: real): (e: nat)
    ensures e <= n
  {
    if (n as real) > maxCubes then AtMost(LoopCount(n as real - maxCubes), n) else 0
  }

  /** `removeCube(0)` called i times on n entries empties i of them, or all n. */
  function AtMost(i: nat, n: nat): nat
  {
    if i <= n then i else n
  }

  /**
   * The cleanup of DragSpiral enforces its cap: over the cap, exactly
   * floor(maxCubes) of the newest entries are kept; within it nothing goes;
   * a negative cap empties the array.
   */
  lemma EvictionEnforcesCap(n: nat, maxCubes: real)
    ensures maxCubes >= 0.0 ==> ((n - Evicted(n, maxCubes)) as real) <= maxCubes
    ensures (n as real) <= maxCubes ==> Evicted(n, maxCubes) == 0
    ensures (n as real) > maxCubes >= 0.0 ==> n - Evicted(n, maxCubes) == maxCubes.Floor
    ensures maxCubes < 0.0 ==> Evicted(n, maxCubes) == n
  {
    if (n as real) > maxCubes {
      var d := n as real - maxCubes;
      var k := LoopCount(d);
      if maxCubes >= 0.0 {
        var f := maxCubes.Floor;
        assert (f as real) <= maxCubes < (f + 1) as real;
        assert ((n - f) as real) >= d && ((n - f - 1) as real) < d;
        assert k == n - f;
      } else {
        assert d > n as real;
      }
    }
  }

  /** `Math.min(intensity || 1, 2)`: a zero intensity counts as 1, and the strength is capped at 2. */
  function BeatStrength(intensity: real): (k: real)
    ensures k <= 2.0
    ensures intensity == 0.0 ==> k == 1.0
    ensures intensity != 0.0 ==> k == Audio.Min(intensity, 2.0)
    ensures intensity >= 0.0 ==> k >= 0.0
  {
    Audio.Min(if intensity == 0.0 then 1.0 else intensity, 2.0)
  }

  /** `THREE.MathUtils.lerp(a, b, t)` */
  function Lerp(a: real, b: real, t: real): real
  {
    a + (b - a) * t
  }

  /** `Math.min(0.6 + volume * 0.4, 1)`: the opacity the volume pulls every cube toward. */
  function TargetOpacity(volume: real): (o: real)
    ensures o <= 1.0
    ensures volume >= 0.0 ==> o >= 0.6
  {
    Audio.Min(0.6 + volume * 0.4, 1.0)
  }

  /**
   * One cube's step of pulseToBeat: on a beat a scale, opacity and spin
   * burst; then the scale eases 8% toward the volume scale, loud bass
   * spreads the x and y position, loud treble spins the cube, and the
   * opacity eases 6% toward the volume target. Colour blending is left out.
   */
  function Pulse(s: CubeState, beat: Audio.BeatInfo, volume: real, bass: real, treble: real): CubeState
  {
    var burst :=
      if beat.isBeat then
        var k := BeatStrength(beat.intensity);
        s.(scale := 1.0 + k * 0.4,
           opacity := Audio.Min(s.opacity + k * 0.3, 1.0),
           rotation := Vec3(s.rotation.x + k * 0.2, s.rotation.y + k * 0.2, s.rotation.z + k * 0.15))
      else s;
    var grown := burst.(scale := Lerp(burst.scale, 1.0 + volume * 0.3, 0.08));
    var spread :=
      if bass > 0.2 then
        var factor := 1.0 + bass * 0.5 * 0.1;
        grown.(position := Vec3(grown.position.x * factor, grown.position.y * factor, grown.position.z))
      else grown;
    var spun :=
      if treble > 0.2 then
        spread.(rotation := Vec3(spread.rotation.x + treble * 0.1, spread.rotation.y + treble * 0.1, spread.rotation.z + treble * 0.08))
      else spread;
    spun.(opacity := Lerp(spun.opacity, TargetOpacity(volume), 0.06))
  }

  /** What pulseToBeat reads from the analyser once per frame: the beat and the three levels. */
  datatype Reading = Reading(beat: Audio.BeatInfo, volume: real, bass: real, treble: real)

  /** pulseToBeat as a step function on cube states, for one reading. */
  function PulseWith(r: Reading): CubeState -> CubeState
  {
    (s: CubeState) => Pulse(s, r.beat, r.volume, r.bass, r.treble)
  }

  /** The cube states after pulseToBeat: unchanged without a reading, else every cube of the array pulsed once. */
  function Pulsed(states: map<Cube, CubeState>, arr: seq<Cube>, reading: Option<Reading>): (r: map<Cube, CubeState>)
    ensures r.Keys == states.Keys
    ensures reading.None? ==> r == states
  {
    match reading
    case None => states
    case Some(rd) => Apply(states, Elements(arr), PulseWith(rd))
  }

  /** After a beat burst the opacity is at most 1, and easing toward a target of at most 1 keeps it there. */
  lemma PulseBurstCapped(s: CubeState, beat: Audio.BeatInfo, volume: real, bass: real, treble: real)
    requires beat.isBeat
    ensures Pulse(s, beat, volume, bass, treble).opacity <= 1.0
  {
  }

  /** Opacity in [0, 1] stays in [0, 1] for a non-negative volume and intensity. */
  lemma PulseKeepsOpacityInUnit(s: CubeState, beat: Audio.BeatInfo, volume: real, bass: real, treble: real)
    requires 0.0 <= s.opacity <= 1.0 && volume >= 0.0 && beat.intensity >= 0.0
    ensures 0.0 <= Pulse(s, beat, volume, bass, treble).opacity <= 1.0
  {
  }

  /** Without a beat the opacity closes 6% of its gap to the volume target. */
  lemma PulseEasesOpacity(s: CubeState, beat: Audio.BeatInfo, volume: real, bass: real, treble: real)
    requires !beat.isBeat
    ensures var t := TargetOpacity(volume);
      Pulse(s, beat, volume, bass, treble).opacity - t == 0.94 * (s.opacity - t)
  {
  }

  /** On a beat the scale lands between 1 and 1.8 for levels in [0, 1]. */
  lemma PulseScaleOnBeat(s: CubeState, beat: Audio.BeatInfo, volume: real, bass: real, treble: real)
    requires beat.isBeat && beat.intensity >= 0.0 && 0.0 <= volume <= 1.0
    ensures 1.0 <= Pulse(s, beat, volume, bass, treble).scale <= 1.8
  {
  }

  /** One cube's step of the fade pass of DragSpiral.update: fade, and spin when the speed is positive. */
  function SpiralFadeStep(fadeSpeed: real, rs: real): CubeState -> CubeState
  {
    (s: CubeState) => s.(opacity := s.opacity - fadeSpeed,
            rotation := if rs > 0.0 then Vec3(s.rotation.x + rs, s.rotation.y + rs, s.rotation.z + rs * 0.5) else s.rotation)
  }

  /** The state a spiral arm's new cube gets: created opaque and unrotated, then turned about z to the arm's angle. */
  function ArmState(position: Vec3, angle: real, color: Color): (s: CubeState)
    ensures s.opacity == 1.0 && s.scale == 1.0 && s.rotation == Vec3(0.0, 0.0, angle) && s.position == position
  {
    NewCubeState(position, color).(rotation := Vec3(0.0, 0.0, angle))
  }

  /** What one ring of spiral cubes is made from: the drag point, the spiral angle and the effect's settings. */
  datatype Ring = Ring(center: Vec3, angle0: real, arms: real, tightness: real, colorShift: real,
                       cubeSize: real, sizeVariation: real, randomColor: bool, fixedColor: string)

  /** The angle of arm j: the spiral angle plus j of `arms` equal turns. */
  function ArmAngle(r: Ring, j: nat): real
    requires r.arms > 0.0
  {
    r.angle0 + (j as real / r.arms) * Pi * 2.0
  }

  /** Where arm j's cube goes: `tightness` from the center at the arm's angle, z waved by the spiral angle. */
  function ArmPosition(r: Ring, host: Host, j: nat): Vec3
    requires r.arms > 0.0
  {
    var angle := ArmAngle(r, j);
    Vec3(r.center.x + host.cos(angle) * r.tightness,
         r.center.y + host.sin(angle) * r.tightness,
         r.center.z + host.sin(r.angle0 * 2.0) * 0.5)
  }

  /** The colour number of the cube spawned when the counter stood at `counter`: a hue shifted by the counter, or the fixed colour. */
  function ArmHex(r: Ring, host: Host, counter: real): int
  {
    if r.randomColor then host.hslHex(RealRem(counter * r.colorShift, 360.0) / 360.0, 0.8, 0.6)
    else host.cssHex(r.fixedColor)
  }

  /** The material colour the base effect makes from that number. */
  function ArmColor(r: Ring, host: Host, counter: real): Color
  {
    if r.randomColor then Unpack(ArmHex(r, host, counter) as real) else Css(r.fixedColor)
  }

  /** The state of arm j's cube, spawned when the counter stood at `counter`. */
  function ArmCube(r: Ring, host: Host, counter: real, j: nat): CubeState
    requires r.arms > 0.0
  {
    ArmState(ArmPosition(r, host, j), ArmAngle(r, j), ArmColor(r, host, counter))
  }

  /** `cubeSize * (1 + (draw - 0.5) * sizeVariation)` */
  function ArmSize(r: Ring, draw: real): real
  {
    r.cubeSize * (1.0 + (draw - 0.5) * r.sizeVariation)
  }

  /**
   * The cubes of one ring: cube j's size comes from draw draws0 + j and its
   * state is ArmCube with the counter at counter0 + j.
   */
  ghost predicate RingSpawned(r: Ring, host: Host, spawned: seq<Cube>, states: map<Cube, CubeState>,
                              draws: seq<real>, counter0: real, draws0: nat)
  {
    forall j :: 0 <= j < |spawned| ==>
      && r.arms > 0.0 && draws0 + j < |draws|
      && spawned[j].size == ArmSize(r, draws[draws0 + j])
      && spawned[j] in states
      && states[spawned[j]] == ArmCube(r, host, counter0 + j as real, j)
  }

  /** A ring grows by one arm when a cube the map did not hold gets arm |spawned|'s state and the next draw. */
  lemma RingGrows(r: Ring, host: Host, spawned: seq<Cube>, cube: Cube, states: map<Cube, CubeState>,
                  draws: seq<real>, draws': seq<real>, counter0: real, draws0: nat, counter: real, arm: nat)
    requires r.arms > 0.0 && cube !in states && arm == |spawned| && counter == counter0 + arm as real
    requires RingSpawned(r, host, spawned, states, draws, counter0, draws0)
    requires |draws| == draws0 + arm && |draws'| == |draws| + 1 && draws'[..|draws|] == draws
    requires cube.size == ArmSize(r, draws'[|draws|])
    ensures RingSpawned(r, host, spawned + [cube], states[cube := ArmCube(r, host, counter, arm)], draws', counter0, draws0)
  {
    var states' := states[cube := ArmCube(r, host, counter, arm)];
    forall j | 0 <= j < |spawned| + 1
      ensures draws0 + j < |draws'| && (spawned + [cube])[j].size == ArmSize(r, draws'[draws0 + j])
      ensures (spawned + [cube])[j] in states'
      ensures states'[(spawned + [cube])[j]] == ArmCube(r, host, counter0 + j as real, j)
    {
      if j < |spawned| {
        assert draws'[draws0 + j] == draws[draws0 + j];
        assert spawned[j] in states;
      }
    }
  }

  class DragSpiral {
    const base: Effect
    var spiralArms: real
    var spiralTightness: real
    var maxCubes: real
    var cubeSize: real
    var fadeSpeed: real
    var colorShift: real
    var sizeVariation: real
    var dragPath: seq<Vec3>
    var spiralAngle: real
    var lastDragPoint: Option<Vec3>
    var cubeCounter: real
    /** Never assigned by the effect itself; an owner may attach an analyser. */
    var audioAnalyzer: Audio.AudioAnalyzer?

    predicate Valid()
      reads this`dragPath, base`cubeArray, base`cubes, base`scene
    {
      base.Valid() && Distinct(base.cubeArray) && |dragPath| <= DragPathLimit
    }

    /** The analyser, when attached, is ready to be read. */
    predicate AnalyzerReady()
      reads this`audioAnalyzer, Audio.Attached(audioAnalyzer)`analyserReady, Audio.Attached(audioAnalyzer)`frequencyData
      reads Audio.DetectorOf(audioAnalyzer)`beatHistory
    {
      audioAnalyzer != null ==> audioAnalyzer.Valid()
    }

    constructor (spiralArms: real, spiralTightness: real, maxCubes: real, cubeSize: real, fadeSpeed: real,
                 rotationSpeed: real, randomColor: bool, fixedColor: string, colorShift: real, sizeVariation: real)
      ensures Valid() && AnalyzerReady() && fresh(base)
      ensures this.spiralArms == spiralArms && this.spiralTightness == spiralTightness
      ensures this.maxCubes == maxCubes && this.cubeSize == cubeSize && this.fadeSpeed == fadeSpeed
      ensures this.colorShift == colorShift && this.sizeVariation == sizeVariation
      ensures base.rotationSpeed == rotationSpeed && base.randomColor == randomColor && base.fixedColor == fixedColor
      ensures base.cubeArray == [] && !base.active && base.scene == null && base.updates == 0 && base.clicks == []
      ensures dragPath == [] && spiralAngle == 0.0 && lastDragPoint == None && cubeCounter == 0.0
      ensures audioAnalyzer == null
    {
      var effect := new Effect();
      effect.rotationSpeed := rotationSpeed;
      effect.randomColor := randomColor;
      effect.fixedColor := fixedColor;
      base := effect;
      this.spiralArms := spiralArms;
      this.spiralTightness := spiralTightness;
      this.maxCubes := maxCubes;
      this.cubeSize := cubeSize;
      this.fadeSpeed := fadeSpeed;
      this.colorShift := colorShift;
      this.sizeVariation := sizeVariation;
      dragPath := [];
      spiralAngle := 0.0;
      lastDragPoint := None;
      cubeCounter := 0.0;
      audioAnalyzer := null;
    }

    /**
     * One drag sample. The first one only records the point; a later one
     * that moved more than 0.1 spawns a ring of cubes around the point,
     * evicts the oldest entries down to maxCubes and appends the point to
     * the drag path, which keeps the newest 20 points; a shorter move
     * changes nothing.
     */
    method OnClick(mouse: Pointer, camera: Camera, host: Host) returns (ghost spawned: seq<Cube>)
      requires Valid() && base.scene != null
      modifies this`dragPath, this`lastDragPoint, this`spiralAngle, this`cubeCounter
      modifies base`cubeArray, base`cubes, base`clicks, base.scene`children, host`seed, host`draws
      ensures Valid() && base.scene == old(base.scene)
      ensures base.clicks == old(base.clicks) + [mouse]
      ensures var p := camera.cast(mouse);
        if old(lastDragPoint).None? then
          lastDragPoint == Some(p) && dragPath == [p] && spawned == []
          && base.cubeArray == old(base.cubeArray) && base.cubes == old(base.cubes)
          && spiralAngle == old(spiralAngle) && cubeCounter == old(cubeCounter)
          && base.scene.children == old(base.scene.children)
        else if MovedEnough(p, old(lastDragPoint).value) then
          lastDragPoint == Some(p) && dragPath == PushPoint(old(dragPath), p)
          && spiralAngle == old(spiralAngle) + 0.2
          && |spawned| == LoopCount(spiralArms)
          && cubeCounter == old(cubeCounter) + |spawned| as real
        else
          lastDragPoint == old(lastDragPoint) && dragPath == old(dragPath) && spawned == []
          && base.cubeArray == old(base.cubeArray) && base.cubes == old(base.cubes)
          && spiralAngle == old(spiralAngle) && cubeCounter == old(cubeCounter)
          && base.scene.children == old(base.scene.children)
      ensures old(lastDragPoint).Some? && MovedEnough(camera.cast(mouse), old(lastDragPoint).value) ==>
        && RingSpawned(RingAt(camera.cast(mouse), old(spiralAngle)), host, spawned, base.cubes, host.draws,
                       old(cubeCounter), |old(host.draws)|)
        && Extends(base.cubes, old(base.cubes))
        && var pushed := old(base.cubeArray) + spawned;
           var gone := pushed[..Evicted(|pushed|, maxCubes)];
           && base.cubeArray == pushed[Evicted(|pushed|, maxCubes)..]
           && base.scene.children == old(base.scene.children) + Elements(spawned) - Elements(gone)
           && (maxCubes >= 0.0 ==> (|base.cubeArray| as real) <= maxCubes)
    {
      base.clicks := base.clicks + [mouse];
      var p := camera.cast(mouse);
      spawned := [];
      if lastDragPoint.None? {
        lastDragPoint := Some(p);
        dragPath := [p];
        return;
      }
      if MovedEnough(p, lastDragPoint.value) {
        ghost var pushed := base.cubeArray;
        spawned := CreateSpiralCubes(p, host);
        EvictionEnforcesCap(|pushed + spawned|, maxCubes);
        lastDragPoint := Some(p);
        dragPath := dragPath + [p];
        if |dragPath| > DragPathLimit {
          dragPath := dragPath[1..];
        }
      }
    }

    /** The ring a drag to `center` spawns at spiral angle `angle0`, with the current settings. */
    function RingAt(center: Vec3, angle0: real): Ring
      reads this`spiralArms, this`spiralTightness, this`colorShift, this`cubeSize, this`sizeVariation
      reads base`randomColor, base`fixedColor
    {
      Ring(center, angle0, spiralArms, spiralTightness, colorShift, cubeSize, sizeVariation, base.randomColor, base.fixedColor)
    }

    /**
     * One ring: `spiralArms` new cubes (rounded up), arm i at angle
     * spiralAngle + 2 pi i / spiralArms and distance spiralTightness from the
     * center, its size varied by one draw and its colour shifted by the
     * running counter; then the angle advances by 0.2 and the oldest
     * entries are evicted down to maxCubes.
     */
    method CreateSpiralCubes(center: Vec3, host: Host) returns (ghost spawned: seq<Cube>)
      requires Valid() && base.scene != null
      modifies this`spiralAngle, this`cubeCounter, base`cubeArray, base`cubes, base.scene`children, host`seed, host`draws
      ensures Valid() && base.scene == old(base.scene)
      ensures |spawned| == LoopCount(spiralArms)
      ensures |host.draws| == |old(host.draws)| + |spawned|
      ensures cubeCounter == old(cubeCounter) + |spawned| as real
      ensures spiralAngle == old(spiralAngle) + 0.2
      ensures RingSpawned(RingAt(center, old(spiralAngle)), host, spawned, base.cubes, host.draws, old(cubeCounter), |old(host.draws)|)
      ensures Extends(base.cubes, old(base.cubes))
      ensures var pushed := old(base.cubeArray) + spawned;
        var gone := pushed[..Evicted(|pushed|, maxCubes)];
        && base.cubeArray == pushed[Evicted(|pushed|, maxCubes)..]
        && base.scene.children == old(base.scene.children) + Elements(spawned) - Elements(gone)
    {
      spawned := SpawnArms(center, host);
      spiralAngle := spiralAngle + 0.2;
      Evict();
    }

    /** The per-arm loop of createSpiralCubes. */
    method SpawnArms(center: Vec3, host: Host) returns (ghost spawned: seq<Cube>)
      requires Valid() && base.scene != null
      modifies this`cubeCounter, base`cubeArray, base`cubes, base.scene`children, host`seed, host`draws
      ensures Valid() && base.scene == old(base.scene)
      ensures |spawned| == LoopCount(spiralArms)
      ensures |host.draws| == |old(host.draws)| + |spawned|
      ensures cubeCounter == old(cubeCounter) + |spawned| as real
      ensures RingSpawned(RingAt(center, spiralAngle), host, spawned, base.cubes, host.draws, old(cubeCounter), |old(host.draws)|)
      ensures Extends(base.cubes, old(base.cubes))
      ensures base.cubeArray == old(base.cubeArray) + spawned
      ensures base.scene.children == old(base.scene.children) + Elements(spawned)
    {
      spawned := [];
      ghost var ring := RingAt(center, spiralAngle);
      ghost var cubes0, draws0, counter0, arr0, children0 := base.cubes, host.draws, cubeCounter, base.cubeArray, base.scene.children;
      var arm: nat := 0;
      while (arm as real) < spiralArms
        invariant Valid() && base.scene == old(base.scene) && ring == RingAt(center, spiralAngle)
        invariant arm == |spawned| && arm <= LoopCount(spiralArms)
        invariant |host.draws| == |draws0| + arm
        invariant host.draws[..|draws0|] == draws0
        invariant cubeCounter == counter0 + arm as real
        invariant RingSpawned(ring, host, spawned, base.cubes, host.draws, counter0, |draws0|)
        invariant Extends(base.cubes, cubes0)
        invariant base.cubeArray == arr0 + spawned
        invariant base.scene.children == children0 + Elements(spawned)
        decreases LoopCount(spiralArms) - arm
      {
        ghost var before, drawn, counter := base.cubes, host.draws, cubeCounter;
        var cube := SpawnArm(center, host, arm);
        assert RingSpawned(ring, host, spawned + [cube], base.cubes, host.draws, counter0, |draws0|) by {
          assert cube !in before;
          RingGrows(ring, host, spawned, cube, before, drawn, host.draws, counter0, |draws0|, counter, arm);
        }
        ExtendsAdd(before, cubes0, cube, base.cubes[cube]);
        ElementsAppend(spawned, cube);
        spawned := spawned + [cube];
        arm := arm + 1;
      }
    }

    /** One arm: a new cube at the arm's place, turned to the arm's angle; the counter goes up by one. */
    method SpawnArm(center: Vec3, host: Host, arm: nat) returns (cube: Cube)
      requires Valid() && base.scene != null && (arm as real) < spiralArms
      modifies this`cubeCounter, base`cubeArray, base`cubes, base.scene`children, host`seed, host`draws
      ensures Valid() && base.scene == old(base.scene)
      ensures fresh(cube)
      ensures |host.draws| == |old(host.draws)| + 1 && host.draws[..|old(host.draws)|] == old(host.draws)
      ensures cube.size == ArmSize(RingAt(center, spiralAngle), host.draws[|old(host.draws)|])
      ensures cubeCounter == old(cubeCounter) + 1.0
      ensures base.cubes == old(base.cubes)[cube := ArmCube(RingAt(center, spiralAngle), host, old(cubeCounter), arm)]
      ensures base.cubeArray == old(base.cubeArray) + [cube]
      ensures base.scene.children == old(base.scene.children) + {cube}
    {
      var ring := RingAt(center, spiralAngle);
      var angle := ArmAngle(ring, arm);
      var position := ArmPosition(ring, host, arm);
      var draw := host.Random();
      var hex := ArmHex(ring, host, cubeCounter);
      cube := base.CreateCube(ArmSize(ring, draw), position, hex as real);
      var made := base.cubes[cube];
      base.cubes := base.cubes[cube := made.(rotation := Vec3(made.rotation.x, made.rotation.y, angle))];
      assert base.CubeColor(hex as real) == ArmColor(ring, host, old(cubeCounter));
      assert base.cubes[cube] == ArmState(position, angle, base.CubeColor(hex as real));
      cubeCounter := cubeCounter + 1.0;
    }

    /** The cleanup loop of createSpiralCubes: `removeCube(0)` once per entry over the cap, rounded up. */
    method Evict()
      requires Valid() && base.scene != null
      modifies base`cubeArray, base.scene`children
      ensures Valid() && base.scene == old(base.scene)
      ensures base.cubeArray == old(base.cubeArray)[Evicted(|old(base.cubeArray)|, maxCubes)..]
      ensures base.scene.children == old(base.scene.children) - Elements(old(base.cubeArray)[..Evicted(|old(base.cubeArray)|, maxCubes)])
    {
      var n := |base.cubeArray|;
      if (n as real) > maxCubes {
        var toRemove := n as real - maxCubes;
        var i: nat := 0;
        ghost var arr0, children0 := base.cubeArray, base.scene.children;
        while (i as real) < toRemove
          invariant Valid() && base.scene == old(base.scene)
          invariant i <= LoopCount(toRemove)
          invariant base.cubeArray == arr0[AtMost(i, n)..]
          invariant base.scene.children == children0 - Elements(arr0[..AtMost(i, n)])
          decreases LoopCount(toRemove) - i
        {
          ghost var e := AtMost(i, n);
          if e < n {
            assert arr0[..e + 1] == arr0[..e] + [arr0[e]];
            ElementsAppend(arr0[..e], arr0[e]);
          }
          RemoveCube(0);
          i := i + 1;
        }
      }
    }

    /**
     * The base update, the beat pulse, then the fade pass (opacity down by
     * fadeSpeed, extra spin when the speed is positive) and the filter that
     * drops every faded-out cube from the array and the scene, keeping the
     * order of the rest.
     */
    method Update(camera: Camera, scene: Scene, mouse: Pointer, host: Host) returns (ghost reading: Option<Reading>)
      requires Valid() && AnalyzerReady()
      modifies base`camera, base`scene, base`mouse, base`cubes, base`updates, base`cubeArray, scene`children
      modifies (if audioAnalyzer != null then {audioAnalyzer.beatDetector} else {})`isBeat
      ensures Valid() && AnalyzerReady()
      ensures base.camera == Some(camera) && base.scene == scene && base.mouse == Some(mouse)
      ensures base.updates == old(base.updates) + 1
      ensures reading.None? <==> audioAnalyzer == null
      ensures audioAnalyzer != null ==>
        !audioAnalyzer.beatDetector.isBeat
        && reading.value == Reading(Audio.BeatInfo(old(audioAnalyzer.beatDetector.isBeat),
                                                   Audio.LatestIntensity(audioAnalyzer.beatDetector.beatHistory),
                                                   host.dateNow - audioAnalyzer.beatDetector.lastBeatTime),
                                    audioAnalyzer.VolumeLevel(), audioAnalyzer.BassLevel(), audioAnalyzer.TrebleLevel())
      ensures var arr := old(base.cubeArray);
        var pulsed := Pulsed(Rotated(old(base.cubes), arr, base.rotationSpeed), arr, reading);
        var faded := Apply(pulsed, Elements(arr), SpiralFadeStep(fadeSpeed, base.rotationSpeed));
        && base.cubeArray == Survivors(arr, faded)
        && base.cubes == faded
        && scene.children == old(scene.children) - FadedOut(arr, faded)
    {
      base.Update(camera, scene, mouse);
      reading := Animate(host);
    }

    /** The part of update after the base update: pulse, fade and filter. */
    method Animate(host: Host) returns (reading: Option<Reading>)
      requires Valid() && AnalyzerReady() && base.scene != null
      modifies base`cubes, base`cubeArray, base.scene`children
      modifies (if audioAnalyzer != null then {audioAnalyzer.beatDetector} else {})`isBeat
      ensures Valid() && AnalyzerReady()
      ensures base.camera == old(base.camera) && base.scene == old(base.scene) && base.mouse == old(base.mouse)
      ensures reading.None? <==> audioAnalyzer == null
      ensures audioAnalyzer != null ==>
        !audioAnalyzer.beatDetector.isBeat
        && reading.value == Reading(Audio.BeatInfo(old(audioAnalyzer.beatDetector.isBeat),
                                                   Audio.LatestIntensity(audioAnalyzer.beatDetector.beatHistory),
                                                   host.dateNow - audioAnalyzer.beatDetector.lastBeatTime),
                                    audioAnalyzer.VolumeLevel(), audioAnalyzer.BassLevel(), audioAnalyzer.TrebleLevel())
      ensures var arr := old(base.cubeArray);
        var faded := Apply(Pulsed(old(base.cubes), arr, reading), Elements(arr), SpiralFadeStep(fadeSpeed, base.rotationSpeed));
        && base.cubeArray == Survivors(arr, faded)
        && base.cubes == faded
        && base.scene.children == old(base.scene.children) - FadedOut(arr, faded)
    {
      reading := PulseToBeat(host);
      FadeAndSpin();
      RemoveFaded();
    }

    /**
     * Without an analyser nothing happens. Otherwise the beat is read (and
     * reset) once, the levels are read, and every cube gets the pulse step.
     */
    method PulseToBeat(host: Host) returns (reading: Option<Reading>)
      requires Valid() && AnalyzerReady()
      modifies base`cubes
      modifies (if audioAnalyzer != null then {audioAnalyzer.beatDetector} else {})`isBeat
      ensures base.camera == old(base.camera) && base.scene == old(base.scene) && base.mouse == old(base.mouse)
      ensures Valid() && AnalyzerReady()
      ensures reading.None? <==> audioAnalyzer == null
      ensures audioAnalyzer != null ==>
        !audioAnalyzer.beatDetector.isBeat
        && reading.value == Reading(Audio.BeatInfo(old(audioAnalyzer.beatDetector.isBeat),
                                                   Audio.LatestIntensity(audioAnalyzer.beatDetector.beatHistory),
                                                   host.dateNow - audioAnalyzer.beatDetector.lastBeatTime),
                                    audioAnalyzer.VolumeLevel(), audioAnalyzer.BassLevel(), audioAnalyzer.TrebleLevel())
      ensures base.cubes == Pulsed(old(base.cubes), base.cubeArray, reading)
    {
      if audioAnalyzer == null {
        return None;
      }
      var beat := audioAnalyzer.GetBeat(host.dateNow);
      var volume := audioAnalyzer.VolumeLevel();
      var bass := audioAnalyzer.BassLevel();
      var treble := audioAnalyzer.TrebleLevel();
      reading := Some(Reading(beat, volume, bass, treble));
      ForEachCube(PulseWith(reading.value));
    }

    /** A forEach over the (distinct) entries that applies `f` to each cube's state. */
    method ForEachCube(f: CubeState -> CubeState)
      requires Valid()
      modifies base`cubes
      ensures Valid()
      ensures base.cubes == Apply(old(base.cubes), Elements(base.cubeArray), f)
    {
      for i := 0 to |base.cubeArray|
        invariant Valid()
        invariant base.cubes == Apply(old(base.cubes), Elements(base.cubeArray[..i]), f)
      {
        var c := base.cubeArray[i];
        assert c !in Elements(base.cubeArray[..i]);
        ElementsAppend(base.cubeArray[..i], c);
        assert base.cubeArray[..i + 1] == base.cubeArray[..i] + [c];
        ApplyStep(old(base.cubes), Elements(base.cubeArray[..i]), c, f);
        base.cubes := base.cubes[c := f(base.cubes[c])];
      }
      assert base.cubeArray[..|base.cubeArray|] == base.cubeArray;
    }

    /** The fade pass of update: every cube loses fadeSpeed of opacity and spins when the speed is positive. */
    method FadeAndSpin()
      requires Valid()
      modifies base`cubes
      ensures base.camera == old(base.camera) && base.scene == old(base.scene) && base.mouse == old(base.mouse)
      ensures Valid()
      ensures base.cubes == Apply(old(base.cubes), Elements(base.cubeArray), SpiralFadeStep(fadeSpeed, base.rotationSpeed))
    {
      ForEachCube(SpiralFadeStep(fadeSpeed, base.rotationSpeed));
    }

    /** The filter of update: faded-out cubes leave the scene and the array; the rest keep their order. */
    method RemoveFaded()
      requires Valid() && base.scene != null
      modifies base`cubeArray, base.scene`children
      ensures Valid() && base.camera == old(base.camera) && base.scene == old(base.scene) && base.mouse == old(base.mouse)
      ensures base.cubeArray == Survivors(old(base.cubeArray), base.cubes)
      ensures base.scene.children == old(base.scene.children) - FadedOut(old(base.cubeArray), base.cubes)
    {
      var arr, scene := base.cubeArray, base.scene;
      ghost var states, children0 := base.cubes, scene.children;
      var kept := [];
      for i := 0 to |arr|
        invariant base.scene == scene && base.cubeArray == arr && base.cubes == states
        invariant AllKnown(arr[..i], states)
        invariant kept == Survivors(arr[..i], states)
        invariant scene.children == children0 - FadedOut(arr[..i], states)
      {
        var c := arr[i];
        FilterStep(arr, states, i);
        if base.cubes[c].opacity <= 0.0 {
          scene.Remove(c);
        } else {
          kept := kept + [c];
        }
      }
      assert arr[..|arr|] == arr;
      SurvivorsDistinct(arr, states);
      base.cubeArray := kept;
    }

    /** Entry `index` leaves the array and its cube the scene, if there is such an entry. */
    method RemoveCube(index: int)
      requires Valid() && base.scene != null
      modifies base`cubeArray, base.scene`children
      ensures Valid() && base.scene == old(base.scene)
      ensures 0 <= index < |old(base.cubeArray)| ==>
        base.cubeArray == RemoveAt(old(base.cubeArray), index)
        && base.scene.children == old(base.scene.children) - {old(base.cubeArray)[index]}
      ensures !(0 <= index < |old(base.cubeArray)|) ==>
        base.cubeArray == old(base.cubeArray) && base.scene.children == old(base.scene.children)
    {
      if 0 <= index {
        base.RemoveCube(index);
      }
    }

    /** The base clear, then the drag state goes back to its initial values. */
    method Clear()
      requires Valid()
      modifies this`dragPath, this`lastDragPoint, this`spiralAngle, this`cubeCounter, base`cubeArray, SceneOf(base.scene)`children
      ensures Valid() && base.cubeArray == []
      ensures old(base.scene) != null ==> base.scene.children == old(base.scene.children) - Elements(old(base.cubeArray))
      ensures dragPath == [] && lastDragPoint == None && spiralAngle == 0.0 && cubeCounter == 0.0
    {
      base.Clear();
      dragPath := [];
      lastDragPoint := None;
      spiralAngle := 0.0;
      cubeCounter := 0.0;
    }

    method SetActive(active: bool)
      modifies base`active
      ensures base.active == active
    {
      base.SetActive(active);
    }

    /** `spiral[p]`, or None when undefined. */
    function Property(p: string): (v: Option<Value>)
      reads this, base
    {
      if p == "name" then Some(Str("DragSpiral"))
      else if p == "spiralArms" then Some(Num(spiralArms))
      else if p == "spiralTightness" then Some(Num(spiralTightness))
      else if p == "maxCubes" then Some(Num(maxCubes))
      else if p == "cubeSize" then Some(Num(cubeSize))
      else if p == "fadeSpeed" then Some(Num(fadeSpeed))
      else if p == "colorShift" then Some(Num(colorShift))
      else if p == "sizeVariation" then Some(Num(sizeVariation))
      else if p == "spiralAngle" then Some(Num(spiralAngle))
      else if p == "cubeCounter" then Some(Num(cubeCounter))
      else if p == "dragPath" then Some(Obj)
      else if p == "lastDragPoint" then (if lastDragPoint.None? then Some(Null) else Some(Obj))
      else if p == "audioAnalyzer" then (if audioAnalyzer == null then None else Some(Obj))
      else base.Property(p)
    }

    predicate Accepts(p: string, v: Value)
    {
      if p in SpiralNumbers then v.Num?
      else if p == "name" || p == "dragPath" || p == "lastDragPoint" || p == "audioAnalyzer" then false
      else base.Accepts(p, v)
    }

    /** `spiral[p] = v`: the spiral's own settings, else the base effect's. */
    method SetProperty(p: string, v: Value)
      modifies this`spiralArms, this`spiralTightness, this`maxCubes, this`cubeSize, this`fadeSpeed
      modifies this`colorShift, this`sizeVariation, this`spiralAngle, this`cubeCounter
      modifies base`rotationSpeed, base`randomColor, base`fixedColor, base`active, base`extras
      ensures Property(p) == if Accepts(p, v) then Some(v) else old(Property(p))
      ensures forall q :: q != p ==> Property(q) == old(Property(q))
    {
      if p in SpiralNumbers {
        if v.Num? {
          if p == "spiralArms" { spiralArms := v.n; }
          else if p == "spiralTightness" { spiralTightness := v.n; }
          else if p == "maxCubes" { maxCubes := v.n; }
          else if p == "cubeSize" { cubeSize := v.n; }
          else if p == "fadeSpeed" { fadeSpeed := v.n; }
          else if p == "colorShift" { colorShift := v.n; }
          else if p == "sizeVariation" { sizeVariation := v.n; }
          else if p == "spiralAngle" { spiralAngle := v.n; }
          else { cubeCounter := v.n; }
        }
      } else if p != "name" && p != "dragPath" && p != "lastDragPoint" && p != "audioAnalyzer" {
        base.SetProperty(p, v);
      }
    }
  }

  /** The numeric settings and counters DragSpiral declares. */
  const SpiralNumbers: set<string> := {"spiralArms", "spiralTightness", "maxCubes", "cubeSize", "fadeSpeed",
                                        "colorShift", "sizeVariation", "spiralAngle", "cubeCounter"}
}
