// effects/Effect.js: the base of every effect. An effect owns an ordered
// array of cube meshes, rotates them on each update, creates cubes into the
// scene and clears them. The per-cube visual state is kept here, keyed by
// the cube, so that a cube stored twice in the array is one cube.
module EffectBase {
  import opened Wrappers
  import opened Render
  import Arith

  /** A JavaScript value written into an effect property by the UI. */
  datatype Value = Num(n: real) | Bool(b: bool) | Str(s: string) | Null | Obj

  const DefaultRotationSpeed: real := 0.02
  const DefaultFixedColor := "#ff00ff"

  /** Names whose values are objects the effect manages itself; the UI never overwrites them. */
  const ObjectNames: set<string> := {"cubeArray", "scene", "camera", "mouse"}

  /** How many times `for (let i = 0; i < x; i++)` runs: the least integer not below x, or 0. */
  function LoopCount(x: real): (n: nat)
    ensures x <= 0.0 ==> n == 0
    ensures x > 0.0 ==> (n as real) >= x && ((n - 1) as real) < x
  {
    if x <= 0.0 then 0 else -((-x).Floor)
  }

  /** JavaScript's `a % n` on numbers for n > 0: the remainder takes the sign of a. */
  function RealRem(a: real, n: real): (r: real)
    requires n > 0.0
    ensures a >= 0.0 ==> 0.0 <= r < n
    ensures 0.0 <= a < n ==> r == a
  {
    var q := Trunc(a / n);
    if a >= 0.0 then RemBounds(a, n); a - n * (q as real) else a - n * (q as real)
  }

  lemma RemBounds(a: real, n: real)
    requires n > 0.0 && a >= 0.0
    ensures var q := Trunc(a / n); 0.0 <= a - n * (q as real) < n
    ensures a < n ==> Trunc(a / n) == 0
  {
    var x := a / n;
    assert x * n == a;
    if x < 0.0 {
      Arith.RealMulStrict(x, 0.0, n);
    }
    assert Trunc(x) == x.Floor;
    Arith.RemainderBounds(a, n, x, x.Floor as real);
    if a < n {
      Arith.RealDivBounds(0.0, a, 1.0, n);
    }
  }

  /** A cube's state turned about x and y by `d`, z unchanged. */
  function Turned(s: CubeState, d: real): CubeState
  {
    s.(rotation := Vec3(s.rotation.x + d, s.rotation.y + d, s.rotation.z))
  }

  predicate AllKnown(arr: seq<Cube>, states: map<Cube, CubeState>)
  {
    forall c :: c in arr ==> c in states
  }

  /**
   * The states after the forEach of Effect.update: each entry of the array
   * turns its cube once, so a cube stored k times turns k times.
   */
  function Spin(states: map<Cube, CubeState>, arr: seq<Cube>, rs: real): (r: map<Cube, CubeState>)
    requires AllKnown(arr, states)
    ensures r.Keys == states.Keys
  {
    if arr == [] then states
    else
      var before := Spin(states, arr[..|arr| - 1], rs);
      before[arr[|arr| - 1] := Turned(before[arr[|arr| - 1]], rs)]
  }

  lemma TurnedTwice(s: CubeState, d: real, e: real)
    ensures Turned(Turned(s, d), e) == Turned(s, d + e)
  {
  }

  /** How many entries of the array hold the cube. */
  function Occurrences(arr: seq<Cube>, c: Cube): nat
  {
    if arr == [] then 0
    else Occurrences(arr[..|arr| - 1], c) + (if arr[|arr| - 1] == c then 1 else 0)
  }

  lemma {:induction false} OccurrencesAbsent(arr: seq<Cube>, c: Cube)
    ensures c !in arr <==> Occurrences(arr, c) == 0
  {
    if arr != [] {
      OccurrencesAbsent(arr[..|arr| - 1], c);
      assert arr == arr[..|arr| - 1] + [arr[|arr| - 1]];
    }
  }

  /** k-fold sum of x: the total turn of k visits at speed x. */
  function Times(x: real, k: nat): real
  {
    if k == 0 then 0.0 else Times(x, k - 1) + x
  }

  lemma {:induction false} TimesIsProduct(x: real, k: nat)
    ensures Times(x, k) == x * (k as real)
  {
    if k > 0 {
      TimesIsProduct(x, k - 1);
      Arith.MulSucc(x, k - 1);
    }
  }

  /** Closed form of Spin: a cube stored k times is turned by k times the speed, z untouched. */
  lemma {:induction false} SpinTurnsByMultiplicity(states: map<Cube, CubeState>, arr: seq<Cube>, rs: real, c: Cube)
    requires AllKnown(arr, states) && c in states
    ensures Spin(states, arr, rs)[c] == Turned(states[c], Times(rs, Occurrences(arr, c)))
  {
    if arr != [] {
      var init := arr[..|arr| - 1];
      SpinTurnsByMultiplicity(states, init, rs, c);
      if arr[|arr| - 1] == c {
        assert Occurrences(arr, c) == Occurrences(init, c) + 1;
        TurnedTwice(states[c], Times(rs, Occurrences(init, c)), rs);
      }
    }
  }

  /** A cube that is not in the array keeps its state under Spin. */
  lemma SpinLeavesOthers(states: map<Cube, CubeState>, arr: seq<Cube>, rs: real, c: Cube)
    requires AllKnown(arr, states) && c in states && c !in arr
    ensures Spin(states, arr, rs)[c] == states[c]
  {
    SpinTurnsByMultiplicity(states, arr, rs, c);
    OccurrencesAbsent(arr, c);
  }

  /** The states after the base update: turned when the rotation speed is positive. */
  function Rotated(states: map<Cube, CubeState>, arr: seq<Cube>, rs: real): (r: map<Cube, CubeState>)
    requires AllKnown(arr, states)
    ensures r.Keys == states.Keys
    ensures rs <= 0.0 ==> r == states
  {
    if rs > 0.0 then Spin(states, arr, rs) else states
  }

  /** A forEach over the cubes of a set: each cube in `touched` gets `f` applied once. */
  function Apply(states: map<Cube, CubeState>, touched: set<Cube>, f: CubeState -> CubeState): (r: map<Cube, CubeState>)
    ensures r.Keys == states.Keys
  {
    map c | c in states :: if c in touched then f(states[c]) else states[c]
  }

  /** Every cube of `states0` is still there with the same state: `states` only added cubes. */
  ghost predicate Extends(states: map<Cube, CubeState>, states0: map<Cube, CubeState>)
  {
    forall c :: c in states0 ==> c in states && states[c] == states0[c]
  }

  /** Adding a cube the map did not hold keeps every earlier entry. */
  lemma ExtendsAdd(states: map<Cube, CubeState>, states0: map<Cube, CubeState>, x: Cube, s: CubeState)
    requires Extends(states, states0) && x !in states
    ensures Extends(states[x := s], states0)
  {
  }

  /** One more visited cube. */
  lemma ApplyStep(states: map<Cube, CubeState>, touched: set<Cube>, x: Cube, f: CubeState -> CubeState)
    requires x in states && x !in touched
    ensures Apply(states, touched + {x}, f) == Apply(states, touched, f)[x := f(states[x])]
  {
  }

  /**
   * A forEach over an array without repeats, one entry further: entry i's
   * cube gets `f` once, and then holds its final state.
   */
  lemma ApplyPrefixStep(states0: map<Cube, CubeState>, arr: seq<Cube>, i: nat, f: CubeState -> CubeState)
    requires i < |arr| && Distinct(arr) && AllKnown(arr, states0)
    ensures var before := Apply(states0, Elements(arr[..i]), f);
      && arr[i] in before && before[arr[i]] == states0[arr[i]]
      && before[arr[i] := f(states0[arr[i]])] == Apply(states0, Elements(arr[..i + 1]), f)
      && Apply(states0, Elements(arr), f)[arr[i]] == f(states0[arr[i]])
  {
    ElementsStep(arr, i);
    ApplyStep(states0, Elements(arr[..i]), arr[i], f);
  }

  /** Cubes in array order whose opacity is still above 0: the filter of the fading effects. */
  function Survivors(arr: seq<Cube>, states: map<Cube, CubeState>): (kept: seq<Cube>)
    requires AllKnown(arr, states)
    ensures |kept| <= |arr|
    ensures forall c :: c in kept ==> c in arr && states[c].opacity > 0.0
    ensures forall c :: c in arr && states[c].opacity > 0.0 ==> c in kept
  {
    if arr == [] then []
    else
      var init, last := arr[..|arr| - 1], arr[|arr| - 1];
      assert arr == init + [last];
      Survivors(init, states) + (if states[last].opacity > 0.0 then [last] else [])
  }

  /** Filtering keeps order: the survivors of a concatenation are the concatenated survivors. */
  lemma {:induction false} SurvivorsAppend(a: seq<Cube>, b: seq<Cube>, states: map<Cube, CubeState>)
    requires AllKnown(a, states) && AllKnown(b, states)
    ensures AllKnown(a + b, states)
    ensures Survivors(a + b, states) == Survivors(a, states) + Survivors(b, states)
    decreases |b|
  {
    if b != [] {
      var binit, last := b[..|b| - 1], b[|b| - 1];
      var tail := if states[last].opacity > 0.0 then [last] else [];
      assert (a + b)[..|a + b| - 1] == a + binit;
      assert (a + b)[|a + b| - 1] == last;
      calc {
        Survivors(a + b, states);
        Survivors(a + binit, states) + tail;
        { SurvivorsAppend(a, binit, states); }
        Survivors(a, states) + Survivors(binit, states) + tail;
        Survivors(a, states) + (Survivors(binit, states) + tail);
        Survivors(a, states) + Survivors(b, states);
      }
    } else {
      assert a + b == a;
    }
  }

  /** An array without repeated cubes keeps that property under filtering. */
  lemma {:induction false} SurvivorsDistinct(arr: seq<Cube>, states: map<Cube, CubeState>)
    requires AllKnown(arr, states) && Distinct(arr)
    ensures Distinct(Survivors(arr, states))
  {
    if arr != [] {
      var init := arr[..|arr| - 1];
      SurvivorsDistinct(init, states);
    }
  }

  /** The cubes of the array the filter drops: those with opacity at most 0. */
  function FadedOut(arr: seq<Cube>, states: map<Cube, CubeState>): (gone: set<Cube>)
    requires AllKnown(arr, states)
    ensures forall c :: c in gone ==> c in arr && states[c].opacity <= 0.0
    ensures forall c :: c in arr && states[c].opacity <= 0.0 ==> c in gone
  {
    set c | c in arr && states[c].opacity <= 0.0
  }

  /** One more entry visited by the filter: it is either kept at the end or dropped. */
  lemma FilterStep(arr: seq<Cube>, states: map<Cube, CubeState>, i: nat)
    requires i < |arr| && AllKnown(arr, states)
    ensures AllKnown(arr[..i], states) && AllKnown(arr[..i + 1], states)
    ensures states[arr[i]].opacity > 0.0 ==>
      Survivors(arr[..i + 1], states) == Survivors(arr[..i], states) + [arr[i]]
      && FadedOut(arr[..i + 1], states) == FadedOut(arr[..i], states)
    ensures states[arr[i]].opacity <= 0.0 ==>
      Survivors(arr[..i + 1], states) == Survivors(arr[..i], states)
      && FadedOut(arr[..i + 1], states) == FadedOut(arr[..i], states) + {arr[i]}
  {
    assert arr[..i + 1] == arr[..i] + [arr[i]];
    assert arr[..i + 1][..i] == arr[..i];
  }

  /** The cubes an array holds, as a set. */
  function Elements(arr: seq<Cube>): set<Cube>
  {
    set c | c in arr
  }

  lemma ElementsAppend(arr: seq<Cube>, c: Cube)
    ensures Elements(arr + [c]) == Elements(arr) + {c}
  {
  }

  /** One more entry of the array: its cube joins the set, and in an array without repeats it is new there. */
  lemma ElementsStep(arr: seq<Cube>, i: nat)
    requires i < |arr|
    ensures Elements(arr[..i + 1]) == Elements(arr[..i]) + {arr[i]}
    ensures Distinct(arr) ==> arr[i] !in Elements(arr[..i])
  {
    assert arr[..i + 1] == arr[..i] + [arr[i]];
  }

  predicate Distinct(arr: seq<Cube>)
  {
    forall i, j :: 0 <= i < j < |arr| ==> arr[i] != arr[j]
  }

  /** `cubeArray.splice(i, 1)` for an index in range. */
  function RemoveAt(arr: seq<Cube>, i: nat): (r: seq<Cube>)
    requires i < |arr|
    ensures |r| == |arr| - 1
    ensures forall k :: 0 <= k < i ==> r[k] == arr[k]
    ensures forall k :: i <= k < |r| ==> r[k] == arr[k + 1]
  {
    arr[..i] + arr[i + 1..]
  }

  /** The rest of the array keeps its relative order: removing entry i from a + [x] + b gives a + b. */
  lemma RemoveAtKeepsOrder(a: seq<Cube>, x: Cube, b: seq<Cube>)
    ensures RemoveAt(a + [x] + b, |a|) == a + b
  {
    assert (a + [x] + b)[..|a|] == a;
    assert (a + [x] + b)[|a| + 1..] == b;
  }

  /** The state the base class gives every cube: at the position, unrotated, full size, opaque. */
  function NewCubeState(position: Vec3, color: Color): (s: CubeState)
    ensures s.opacity == 1.0 && s.scale == 1.0 && s.position == position
  {
    CubeState(position, Vec3(0.0, 0.0, 0.0), 1.0, 1.0, color)
  }

  /**
   * The material colour createCube gives a cube: the colour number unpacked
   * into channels when colours are random, the fixed CSS colour otherwise.
   */
  function NewCubeColor(randomColor: bool, fixedColor: string, color: real): (c: Color)
    ensures randomColor ==> c == Unpack(color)
    ensures !randomColor ==> c == Css(fixedColor)
  {
    if randomColor then Unpack(color) else Css(fixedColor)
  }

  class Effect {
    var cubeArray: seq<Cube>
    /** The visual state of every cube this effect has created. */
    var cubes: map<Cube, CubeState>
    var rotationSpeed: real
    var randomColor: bool
    var fixedColor: string
    var active: bool
    /** `this.scene`, `this.camera`, `this.mouse`: undefined until the first update. */
    var scene: Scene?
    var camera: Option<Camera>
    var mouse: Option<Pointer>
    /** Properties the UI added that the effect does not declare. */
    var extras: map<string, Value>
    /** Number of `update` calls received. */
    ghost var updates: nat
    /** Pointers passed to `onClick`, in call order. */
    ghost var clicks: seq<Pointer>

    predicate Valid()
      reads this`cubeArray, this`cubes, this`scene
    {
      AllKnown(cubeArray, cubes) && (cubeArray != [] ==> scene != null)
    }

    constructor ()
      ensures Valid()
      ensures cubeArray == [] && cubes == map[] && rotationSpeed == DefaultRotationSpeed
      ensures randomColor && fixedColor == DefaultFixedColor && !active
      ensures scene == null && camera == None && mouse == None && extras == map[]
      ensures updates == 0 && clicks == []
    {
      cubeArray := [];
      cubes := map[];
      rotationSpeed := DefaultRotationSpeed;
      randomColor := true;
      fixedColor := DefaultFixedColor;
      active := false;
      scene := null;
      camera := None;
      mouse := None;
      extras := map[];
      updates := 0;
      clicks := [];
    }

    method SetActive(active: bool)
      modifies this`active
      ensures this.active == active
    {
      this.active := active;
    }

    /**
     * Stores camera, scene and pointer, then turns every entry's cube by the
     * rotation speed about x and y when that speed is positive.
     */
    method Update(camera: Camera, scene: Scene, mouse: Pointer)
      requires Valid()
      modifies this`camera, this`scene, this`mouse, this`cubes, this`updates
      ensures Valid()
      ensures this.camera == Some(camera) && this.scene == scene && this.mouse == Some(mouse)
      ensures cubes == Rotated(old(cubes), cubeArray, rotationSpeed)
      ensures updates == old(updates) + 1
    {
      this.camera := Some(camera);
      this.scene := scene;
      this.mouse := Some(mouse);
      updates := updates + 1;
      if rotationSpeed > 0.0 {
        for i := 0 to |cubeArray|
          invariant this.camera == Some(camera) && this.scene == scene && this.mouse == Some(mouse)
          invariant updates == old(updates) + 1
          invariant AllKnown(cubeArray[..i], old(cubes))
          invariant cubes == Spin(old(cubes), cubeArray[..i], rotationSpeed)
        {
          assert cubeArray[..i + 1][..i] == cubeArray[..i];
          var c := cubeArray[i];
          cubes := cubes[c := Turned(cubes[c], rotationSpeed)];
        }
        assert cubeArray[..|cubeArray|] == cubeArray;
      }
    }

    /** The colour a new cube of this effect gets from a colour number. */
    function CubeColor(color: real): Color
      reads this`randomColor, this`fixedColor
    {
      NewCubeColor(randomColor, fixedColor, color)
    }

    /** Appends one new opaque cube at `position` and adds it to the scene. */
    method CreateCube(size: real, position: Vec3, color: real) returns (cube: Cube)
      requires Valid() && scene != null
      modifies this`cubeArray, this`cubes, scene`children
      ensures Valid()
      ensures fresh(cube) && cube.size == size
      ensures cubeArray == old(cubeArray) + [cube]
      ensures cubes == old(cubes)[cube := NewCubeState(position, CubeColor(color))]
      ensures scene.children == old(scene.children) + {cube}
    {
      cube := new Cube(size);
      cubes := cubes[cube := NewCubeState(position, CubeColor(color))];
      cubeArray := cubeArray + [cube];
      scene.Add(cube);
    }

    /** Removes every cube of the array from the scene and empties the array. */
    method Clear()
      requires Valid()
      modifies this`cubeArray, SceneOf(scene)`children
      ensures Valid() && cubeArray == []
      ensures old(scene) != null ==> scene.children == old(scene.children) - Elements(old(cubeArray))
    {
      var i: nat := 0;
      while i < |cubeArray|
        invariant 0 <= i <= |cubeArray| && cubeArray == old(cubeArray)
        invariant scene != null ==> scene.children == old(scene.children) - Elements(cubeArray[..i])
      {
        ElementsAppend(cubeArray[..i], cubeArray[i]);
        assert cubeArray[..i + 1] == cubeArray[..i] + [cubeArray[i]];
        scene.Remove(cubeArray[i]);
        i := i + 1;
      }
      assert cubeArray[..i] == cubeArray;
      cubeArray := [];
    }

    /**
     * `scene.remove(cubeArray[i])` then `cubeArray.splice(i, 1)`: entry i
     * leaves the array and its cube the scene; an index past the end changes
     * nothing. Callers pass only non-negative indices, so the index is a nat.
     */
    method RemoveCube(index: nat)
      requires Valid() && scene != null
      modifies this`cubeArray, scene`children
      ensures Valid()
      ensures index < |old(cubeArray)| ==>
        cubeArray == RemoveAt(old(cubeArray), index)
        && scene.children == old(scene.children) - {old(cubeArray)[index]}
      ensures index >= |old(cubeArray)| ==>
        cubeArray == old(cubeArray) && scene.children == old(scene.children)
    {
      if index < |cubeArray| {
        scene.Remove(cubeArray[index]);
        cubeArray := cubeArray[..index] + cubeArray[index + 1..];
      }
    }

    /** `effect[p]`, or None when the property is undefined. */
    function Property(p: string): (v: Option<Value>)
      reads this
    {
      if p == "rotationSpeed" then Some(Num(rotationSpeed))
      else if p == "randomColor" then Some(Bool(randomColor))
      else if p == "fixedColor" then Some(Str(fixedColor))
      else if p == "active" then Some(Bool(active))
      else if p == "cubeArray" then Some(Obj)
      else if p == "scene" then (if scene == null then None else Some(Obj))
      else if p == "camera" then (if camera.None? then None else Some(Obj))
      else if p == "mouse" then (if mouse.None? then None else Some(Obj))
      else if p in extras then Some(extras[p])
      else None
    }

    /** Whether `effect[p] = v` is kept: declared fields take values of their own kind. */
    predicate Accepts(p: string, v: Value)
    {
      if p == "rotationSpeed" then v.Num?
      else if p == "randomColor" || p == "active" then v.Bool?
      else if p == "fixedColor" then v.Str?
      else p !in ObjectNames
    }

    /** `effect[p] = v` on the base fields, or on an undeclared property. */
    method SetProperty(p: string, v: Value)
      modifies this`rotationSpeed, this`randomColor, this`fixedColor, this`active, this`extras
      ensures Property(p) == if Accepts(p, v) then Some(v) else old(Property(p))
      ensures forall q :: q != p ==> Property(q) == old(Property(q))
    {
      if p == "rotationSpeed" {
        if v.Num? { rotationSpeed := v.n; }
      } else if p == "randomColor" {
        if v.Bool? { randomColor := v.b; }
      } else if p == "active" {
        if v.Bool? { active := v.b; }
      } else if p == "fixedColor" {
        if v.Str? { fixedColor := v.s; }
      } else if p !in ObjectNames {
        extras := extras[p := v];
      }
    }
  }
}
