// The effect-control utilities behind the settings panel: a module-level
// reference to the effects manager, and writes of one property into the
// registered effects, by name, into the first effect of a name, or into all
// of them.
module EffectControls {
  import opened Wrappers
  import opened EffectBase
  import opened Scheduler
  import ClickEffects
  import IdleEffects
  import opened Render
  import Audio

  /** The index of the first click effect called `name`, or the length of the list when there is none (`Array.find`). */
  function FirstNamed(es: seq<ClickRef>, name: string): (k: nat)
    ensures k <= |es|
    ensures k < |es| ==> es[k].Name() == name
    ensures forall j :: 0 <= j < k ==> es[j].Name() != name
  {
    if es == [] then 0
    else if es[0].Name() == name then 0
    else 1 + FirstNamed(es[1..], name)
  }

  /** Every registered kind of effect keeps a number under `rotationSpeed`, so the rotation controls always take effect. */
  lemma RotationSpeedAccepted(x: real)
    ensures forall e :: ClickAccepts(e, "rotationSpeed", Num(x))
    ensures forall e :: IdleAccepts(e, "rotationSpeed", Num(x))
  {
  }

  /** `effect[p] = v` on click effect i of the manager: only that effect's property p can change. */
  method WriteClickAt(m: EffectsManager, i: nat, p: string, v: Value)
    requires m.Valid() && i < |m.onClickEffects|
    modifies SnakeOf(m.onClickEffects[i])`autoFade, SnakeOf(m.onClickEffects[i])`maxLength
    modifies SpiralOf(m.onClickEffects[i])`spiralArms, SpiralOf(m.onClickEffects[i])`spiralTightness
    modifies SpiralOf(m.onClickEffects[i])`maxCubes, SpiralOf(m.onClickEffects[i])`cubeSize
    modifies SpiralOf(m.onClickEffects[i])`fadeSpeed, SpiralOf(m.onClickEffects[i])`colorShift
    modifies SpiralOf(m.onClickEffects[i])`sizeVariation, SpiralOf(m.onClickEffects[i])`spiralAngle
    modifies SpiralOf(m.onClickEffects[i])`cubeCounter
    modifies m.onClickEffects[i].Base()`rotationSpeed, m.onClickEffects[i].Base()`randomColor
    modifies m.onClickEffects[i].Base()`fixedColor, m.onClickEffects[i].Base()`active, m.onClickEffects[i].Base()`extras
    ensures forall j, q :: 0 <= j < |m.onClickEffects| ==>
      ClickProperty(m.onClickEffects[j], q) ==
        if j == i && q == p && ClickAccepts(m.onClickEffects[i], p, v) then Some(v)
        else old(ClickProperty(m.onClickEffects[j], q))
    ensures forall j, q :: 0 <= j < |m.idleEffects| ==>
      IdleProperty(m.idleEffects[j], q) == old(IdleProperty(m.idleEffects[j], q))
  {
    var e := m.onClickEffects[i];
    SetClickProperty(e, p, v);
    forall j, q | 0 <= j < |m.onClickEffects| && j != i
      ensures ClickProperty(m.onClickEffects[j], q) == old(ClickProperty(m.onClickEffects[j], q))
    {
      assert m.onClickEffects[j].Base() != e.Base();
    }
    forall j, q | 0 <= j < |m.idleEffects|
      ensures IdleProperty(m.idleEffects[j], q) == old(IdleProperty(m.idleEffects[j], q))
    {
      assert m.idleEffects[j].Base() in m.idleBases;
    }
  }

  /** `effect[p] = v` on idle effect k of the manager: only that effect's property p can change. */
  method WriteIdleAt(m: EffectsManager, k: nat, p: string, v: Value)
    requires m.Valid() && k < |m.idleEffects|
    modifies RandomOf(m.idleEffects[k])`maxCubes, RandomOf(m.idleEffects[k])`cubeSize
    modifies RandomOf(m.idleEffects[k])`cubeSpawnRate, RandomOf(m.idleEffects[k])`cubeFadeRate
    modifies RandomOf(m.idleEffects[k])`cubeRandomColor
    modifies DragOf(m.idleEffects[k])`pattern, DragOf(m.idleEffects[k])`speed, DragOf(m.idleEffects[k])`pathSize
    modifies DragOf(m.idleEffects[k])`t, DragOf(m.idleEffects[k])`frameCounter, DragOf(m.idleEffects[k])`spawnInterval
    modifies KaleidoOf(m.idleEffects[k])`segments, KaleidoOf(m.idleEffects[k])`baseRadius
    modifies KaleidoOf(m.idleEffects[k])`frequencyBins, KaleidoOf(m.idleEffects[k])`lineWidth
    modifies KaleidoOf(m.idleEffects[k])`hueOffset, KaleidoOf(m.idleEffects[k])`mirrorAlpha
    modifies m.idleEffects[k].Base()`rotationSpeed, m.idleEffects[k].Base()`randomColor
    modifies m.idleEffects[k].Base()`fixedColor, m.idleEffects[k].Base()`active, m.idleEffects[k].Base()`extras
    ensures forall j, q :: 0 <= j < |m.idleEffects| ==>
      IdleProperty(m.idleEffects[j], q) ==
        if j == k && q == p && IdleAccepts(m.idleEffects[k], p, v) then Some(v)
        else old(IdleProperty(m.idleEffects[j], q))
    ensures forall j, q :: 0 <= j < |m.onClickEffects| ==>
      ClickProperty(m.onClickEffects[j], q) == old(ClickProperty(m.onClickEffects[j], q))
  {
    var e := m.idleEffects[k];
    SetIdleProperty(e, p, v);
    forall j, q | 0 <= j < |m.idleEffects| && j != k
      ensures IdleProperty(m.idleEffects[j], q) == old(IdleProperty(m.idleEffects[j], q))
    {
      assert m.idleEffects[j].Base() != e.Base();
    }
    forall j, q | 0 <= j < |m.onClickEffects|
      ensures ClickProperty(m.onClickEffects[j], q) == old(ClickProperty(m.onClickEffects[j], q))
    {
      assert m.onClickEffects[j].Base() in m.clickBases;
    }
  }

  /**
   * The click half of the `forEach` of `updateEffectConfig` (or, with `all`,
   * of `updateGlobalEffectProperty`): every selected click effect gets
   * property p, the other properties and effects, idle ones included, are
   * unchanged.
   */
  method WriteClicks(m: EffectsManager, all: bool, name: string, p: string, v: Value)
    requires m.Valid()
    modifies m.Snakes()`autoFade, m.Snakes()`maxLength
    modifies m.spirals`spiralArms, m.spirals`spiralTightness, m.spirals`maxCubes, m.spirals`cubeSize
    modifies m.spirals`fadeSpeed, m.spirals`colorShift, m.spirals`sizeVariation, m.spirals`spiralAngle
    modifies m.spirals`cubeCounter
    modifies m.clickBases`rotationSpeed, m.clickBases`randomColor, m.clickBases`fixedColor
    modifies m.clickBases`active, m.clickBases`extras
    ensures m.Valid()
    ensures forall j, q :: 0 <= j < |m.onClickEffects| ==>
      ClickProperty(m.onClickEffects[j], q) ==
        if q == p && (all || m.onClickEffects[j].Name() == name) && ClickAccepts(m.onClickEffects[j], p, v) then Some(v)
        else old(ClickProperty(m.onClickEffects[j], q))
    ensures forall j, q :: 0 <= j < |m.idleEffects| ==>
      IdleProperty(m.idleEffects[j], q) == old(IdleProperty(m.idleEffects[j], q))
  {
    var i: nat := 0;
    while i < |m.onClickEffects|
      invariant i <= |m.onClickEffects| && m.Valid()
      invariant forall j, q :: 0 <= j < |m.onClickEffects| ==>
        ClickProperty(m.onClickEffects[j], q) ==
          if j < i && q == p && (all || m.onClickEffects[j].Name() == name) && ClickAccepts(m.onClickEffects[j], p, v) then Some(v)
          else old(ClickProperty(m.onClickEffects[j], q))
      invariant forall j, q :: 0 <= j < |m.idleEffects| ==>
        IdleProperty(m.idleEffects[j], q) == old(IdleProperty(m.idleEffects[j], q))
      decreases |m.onClickEffects| - i
    {
      if all || m.onClickEffects[i].Name() == name {
        WriteClickAt(m, i, p, v);
      }
      i := i + 1;
    }
  }

  /** The idle half of the same `forEach`, which leaves the click effects as they are. */
  method WriteIdles(m: EffectsManager, all: bool, name: string, p: string, v: Value)
    requires m.Valid()
    modifies m.RandomCubes()`maxCubes, m.RandomCubes()`cubeSize, m.RandomCubes()`cubeSpawnRate
    modifies m.RandomCubes()`cubeFadeRate, m.RandomCubes()`cubeRandomColor
    modifies m.drags`pattern, m.drags`speed, m.drags`pathSize, m.drags`t, m.drags`frameCounter, m.drags`spawnInterval
    modifies m.kaleidos`segments, m.kaleidos`baseRadius, m.kaleidos`frequencyBins, m.kaleidos`lineWidth
    modifies m.kaleidos`hueOffset, m.kaleidos`mirrorAlpha
    modifies m.idleBases`rotationSpeed, m.idleBases`randomColor, m.idleBases`fixedColor
    modifies m.idleBases`active, m.idleBases`extras
    ensures m.Valid()
    ensures forall j, q :: 0 <= j < |m.idleEffects| ==>
      IdleProperty(m.idleEffects[j], q) ==
        if q == p && (all || m.idleEffects[j].Name() == name) && IdleAccepts(m.idleEffects[j], p, v) then Some(v)
        else old(IdleProperty(m.idleEffects[j], q))
    ensures forall j, q :: 0 <= j < |m.onClickEffects| ==>
      ClickProperty(m.onClickEffects[j], q) == old(ClickProperty(m.onClickEffects[j], q))
  {
    var k: nat := 0;
    while k < |m.idleEffects|
      invariant k <= |m.idleEffects| && m.Valid()
      invariant forall j, q :: 0 <= j < |m.idleEffects| ==>
        IdleProperty(m.idleEffects[j], q) ==
          if j < k && q == p && (all || m.idleEffects[j].Name() == name) && IdleAccepts(m.idleEffects[j], p, v) then Some(v)
          else old(IdleProperty(m.idleEffects[j], q))
      invariant forall j, q :: 0 <= j < |m.onClickEffects| ==>
        ClickProperty(m.onClickEffects[j], q) == old(ClickProperty(m.onClickEffects[j], q))
      decreases |m.idleEffects| - k
    {
      if all || m.idleEffects[k].Name() == name {
        WriteIdleAt(m, k, p, v);
      }
      k := k + 1;
    }
  }

  /**
   * `[...onClickEffects, ...idleEffects].forEach(...)`: every selected effect,
   * click or idle, gets property p; nothing else changes.
   */
  method WriteAll(m: EffectsManager, all: bool, name: string, p: string, v: Value)
    requires m.Valid()
    modifies m.Snakes()`autoFade, m.Snakes()`maxLength
    modifies m.spirals`spiralArms, m.spirals`spiralTightness, m.spirals`maxCubes, m.spirals`cubeSize
    modifies m.spirals`fadeSpeed, m.spirals`colorShift, m.spirals`sizeVariation, m.spirals`spiralAngle
    modifies m.spirals`cubeCounter
    modifies m.clickBases`rotationSpeed, m.clickBases`randomColor, m.clickBases`fixedColor
    modifies m.clickBases`active, m.clickBases`extras
    modifies m.RandomCubes()`maxCubes, m.RandomCubes()`cubeSize, m.RandomCubes()`cubeSpawnRate
    modifies m.RandomCubes()`cubeFadeRate, m.RandomCubes()`cubeRandomColor
    modifies m.drags`pattern, m.drags`speed, m.drags`pathSize, m.drags`t, m.drags`frameCounter, m.drags`spawnInterval
    modifies m.kaleidos`segments, m.kaleidos`baseRadius, m.kaleidos`frequencyBins, m.kaleidos`lineWidth
    modifies m.kaleidos`hueOffset, m.kaleidos`mirrorAlpha
    modifies m.idleBases`rotationSpeed, m.idleBases`randomColor, m.idleBases`fixedColor
    modifies m.idleBases`active, m.idleBases`extras
    ensures m.Valid()
    ensures forall j, q :: 0 <= j < |m.onClickEffects| ==>
      ClickProperty(m.onClickEffects[j], q) ==
        if q == p && (all || m.onClickEffects[j].Name() == name) && ClickAccepts(m.onClickEffects[j], p, v) then Some(v)
        else old(ClickProperty(m.onClickEffects[j], q))
    ensures forall j, q :: 0 <= j < |m.idleEffects| ==>
      IdleProperty(m.idleEffects[j], q) ==
        if q == p && (all || m.idleEffects[j].Name() == name) && IdleAccepts(m.idleEffects[j], p, v) then Some(v)
        else old(IdleProperty(m.idleEffects[j], q))
  {
    WriteClicks(m, all, name, p, v);
    WriteIdles(m, all, name, p, v);
  }

  /**
   * The module's `effectsManager` and the functions that act through it.
   * With no manager set, every frame below is empty, so nothing changes.
   */
  class Controls {
    var effectsManager: EffectsManager?

    constructor ()
      ensures effectsManager == null
    {
      effectsManager := null;
    }

    /** `setEffectsManager(manager)` */
    method SetEffectsManager(manager: EffectsManager?)
      modifies this`effectsManager
      ensures effectsManager == manager
    {
      effectsManager := manager;
    }

    /** The manager, as a set. */
    function Managers(): set<EffectsManager>
      reads this`effectsManager
    {
      if effectsManager != null then {effectsManager} else {}
    }

    ghost function Snakes(): set<ClickEffects.ClickSnake>
      reads this`effectsManager, Managers()`onClickEffects
    {
      if effectsManager != null then effectsManager.Snakes() else {}
    }

    ghost function Spirals(): set<ClickEffects.DragSpiral>
      reads this`effectsManager, Managers()`spirals
    {
      if effectsManager != null then effectsManager.spirals else {}
    }

    ghost function ClickBases(): set<Effect>
      reads this`effectsManager, Managers()`clickBases
    {
      if effectsManager != null then effectsManager.clickBases else {}
    }

    ghost function RandomCubes(): set<IdleEffects.RandomCubes>
      reads this`effectsManager, Managers()`idleEffects
    {
      if effectsManager != null then effectsManager.RandomCubes() else {}
    }

    ghost function Drags(): set<SimulatedDrag>
      reads this`effectsManager, Managers()`drags
    {
      if effectsManager != null then effectsManager.drags else {}
    }

    ghost function Kaleidos(): set<IdleEffects.Kaleidoscope>
      reads this`effectsManager, Managers()`kaleidos
    {
      if effectsManager != null then effectsManager.kaleidos else {}
    }

    ghost function IdleBases(): set<Effect>
      reads this`effectsManager, Managers()`idleBases
    {
      if effectsManager != null then effectsManager.idleBases else {}
    }

    ghost function Detectors(): set<Audio.BeatDetector>
      reads this`effectsManager, Managers()`detectors
    {
      if effectsManager != null then effectsManager.detectors else {}
    }

    function ManagerScenes(): set<Scene>
      reads this`effectsManager, Managers()`scene
    {
      if effectsManager != null then effectsManager.Scenes() else {}
    }

    /**
     * `updateEffectConfig(effectName, property, value)`: every click and idle
     * effect called `name` gets `p := v`, where it keeps a value of that kind
     * under p; nothing else changes.
     */
    method UpdateEffectConfig(name: string, p: string, v: Value)
      requires effectsManager != null ==> effectsManager.Valid()
      modifies Snakes()`autoFade, Snakes()`maxLength
      modifies Spirals()`spiralArms, Spirals()`spiralTightness, Spirals()`maxCubes, Spirals()`cubeSize
      modifies Spirals()`fadeSpeed, Spirals()`colorShift, Spirals()`sizeVariation, Spirals()`spiralAngle
      modifies Spirals()`cubeCounter
      modifies ClickBases()`rotationSpeed, ClickBases()`randomColor, ClickBases()`fixedColor
      modifies ClickBases()`active, ClickBases()`extras
      modifies RandomCubes()`maxCubes, RandomCubes()`cubeSize, RandomCubes()`cubeSpawnRate
      modifies RandomCubes()`cubeFadeRate, RandomCubes()`cubeRandomColor
      modifies Drags()`pattern, Drags()`speed, Drags()`pathSize, Drags()`t, Drags()`frameCounter, Drags()`spawnInterval
      modifies Kaleidos()`segments, Kaleidos()`baseRadius, Kaleidos()`frequencyBins, Kaleidos()`lineWidth
      modifies Kaleidos()`hueOffset, Kaleidos()`mirrorAlpha
      modifies IdleBases()`rotationSpeed, IdleBases()`randomColor, IdleBases()`fixedColor
      modifies IdleBases()`active, IdleBases()`extras
      ensures effectsManager != null ==> effectsManager.Valid()
      ensures effectsManager != null ==> forall j, q :: 0 <= j < |effectsManager.onClickEffects| ==>
        var e := effectsManager.onClickEffects[j];
        ClickProperty(e, q) ==
          if q == p && e.Name() == name && ClickAccepts(e, p, v) then Some(v) else old(ClickProperty(e, q))
      ensures effectsManager != null ==> forall j, q :: 0 <= j < |effectsManager.idleEffects| ==>
        var e := effectsManager.idleEffects[j];
        IdleProperty(e, q) ==
          if q == p && e.Name() == name && IdleAccepts(e, p, v) then Some(v) else old(IdleProperty(e, q))
    {
      var m := effectsManager;
      if m == null {
        return;
      }
      WriteAll(m, false, name, p, v);
    }

    /**
     * `updateDragEffect(effectName, property, value)`: only the first click
     * effect called `name` can change, and only when it already defines
     * property p (`effect[property] !== undefined`).
     */
    method UpdateDragEffect(name: string, p: string, v: Value)
      requires effectsManager != null ==> effectsManager.Valid()
      modifies Snakes()`autoFade, Snakes()`maxLength
      modifies Spirals()`spiralArms, Spirals()`spiralTightness, Spirals()`maxCubes, Spirals()`cubeSize
      modifies Spirals()`fadeSpeed, Spirals()`colorShift, Spirals()`sizeVariation, Spirals()`spiralAngle
      modifies Spirals()`cubeCounter
      modifies ClickBases()`rotationSpeed, ClickBases()`randomColor, ClickBases()`fixedColor
      modifies ClickBases()`active, ClickBases()`extras
      ensures effectsManager != null ==> effectsManager.Valid()
      ensures effectsManager != null ==> forall j, q :: 0 <= j < |effectsManager.onClickEffects| ==>
        var e := effectsManager.onClickEffects[j];
        ClickProperty(e, q) ==
          if j == FirstNamed(effectsManager.onClickEffects, name) && q == p
             && old(ClickProperty(e, p)).Some? && ClickAccepts(e, p, v)
          then Some(v) else old(ClickProperty(e, q))
    {
      var m := effectsManager;
      if m == null {
        return;
      }
      var k := FirstNamed(m.onClickEffects, name);
      if k < |m.onClickEffects| && ClickProperty(m.onClickEffects[k], p).Some? {
        WriteClickAt(m, k, p, v);
      }
    }

    /** `updateGlobalEffectProperty(property, value)`: every click and idle effect gets `p := v`, where it keeps a value of that kind under p. */
    method UpdateGlobalEffectProperty(p: string, v: Value)
      requires effectsManager != null ==> effectsManager.Valid()
      modifies Snakes()`autoFade, Snakes()`maxLength
      modifies Spirals()`spiralArms, Spirals()`spiralTightness, Spirals()`maxCubes, Spirals()`cubeSize
      modifies Spirals()`fadeSpeed, Spirals()`colorShift, Spirals()`sizeVariation, Spirals()`spiralAngle
      modifies Spirals()`cubeCounter
      modifies ClickBases()`rotationSpeed, ClickBases()`randomColor, ClickBases()`fixedColor
      modifies ClickBases()`active, ClickBases()`extras
      modifies RandomCubes()`maxCubes, RandomCubes()`cubeSize, RandomCubes()`cubeSpawnRate
      modifies RandomCubes()`cubeFadeRate, RandomCubes()`cubeRandomColor
      modifies Drags()`pattern, Drags()`speed, Drags()`pathSize, Drags()`t, Drags()`frameCounter, Drags()`spawnInterval
      modifies Kaleidos()`segments, Kaleidos()`baseRadius, Kaleidos()`frequencyBins, Kaleidos()`lineWidth
      modifies Kaleidos()`hueOffset, Kaleidos()`mirrorAlpha
      modifies IdleBases()`rotationSpeed, IdleBases()`randomColor, IdleBases()`fixedColor
      modifies IdleBases()`active, IdleBases()`extras
      ensures effectsManager != null ==> effectsManager.Valid()
      ensures effectsManager != null ==> forall j, q :: 0 <= j < |effectsManager.onClickEffects| ==>
        var e := effectsManager.onClickEffects[j];
        ClickProperty(e, q) == if q == p && ClickAccepts(e, p, v) then Some(v) else old(ClickProperty(e, q))
      ensures effectsManager != null ==> forall j, q :: 0 <= j < |effectsManager.idleEffects| ==>
        var e := effectsManager.idleEffects[j];
        IdleProperty(e, q) == if q == p && IdleAccepts(e, p, v) then Some(v) else old(IdleProperty(e, q))
    {
      var m := effectsManager;
      if m == null {
        return;
      }
      WriteAll(m, true, "", p, v);
    }

    /**
     * The rotation checkbox of `setupRotationControls`: the effects called
     * `name` turn at the slider's speed when checked and stand still
     * otherwise; no other setting changes.
     */
    method OnRotationToggle(name: string, checked: bool, sliderSpeed: real)
      requires effectsManager != null ==> effectsManager.Valid()
      modifies Snakes()`autoFade, Snakes()`maxLength
      modifies Spirals()`spiralArms, Spirals()`spiralTightness, Spirals()`maxCubes, Spirals()`cubeSize
      modifies Spirals()`fadeSpeed, Spirals()`colorShift, Spirals()`sizeVariation, Spirals()`spiralAngle
      modifies Spirals()`cubeCounter
      modifies ClickBases()`rotationSpeed, ClickBases()`randomColor, ClickBases()`fixedColor
      modifies ClickBases()`active, ClickBases()`extras
      modifies RandomCubes()`maxCubes, RandomCubes()`cubeSize, RandomCubes()`cubeSpawnRate
      modifies RandomCubes()`cubeFadeRate, RandomCubes()`cubeRandomColor
      modifies Drags()`pattern, Drags()`speed, Drags()`pathSize, Drags()`t, Drags()`frameCounter, Drags()`spawnInterval
      modifies Kaleidos()`segments, Kaleidos()`baseRadius, Kaleidos()`frequencyBins, Kaleidos()`lineWidth
      modifies Kaleidos()`hueOffset, Kaleidos()`mirrorAlpha
      modifies IdleBases()`rotationSpeed, IdleBases()`randomColor, IdleBases()`fixedColor
      modifies IdleBases()`active, IdleBases()`extras
      ensures effectsManager != null ==> effectsManager.Valid()
      ensures effectsManager != null ==> forall j, q :: 0 <= j < |effectsManager.onClickEffects| ==>
        var e := effectsManager.onClickEffects[j];
        ClickProperty(e, q) ==
          if q == "rotationSpeed" && e.Name() == name then Some(Num(if checked then sliderSpeed else 0.0))
          else old(ClickProperty(e, q))
      ensures effectsManager != null ==> forall j, q :: 0 <= j < |effectsManager.idleEffects| ==>
        var e := effectsManager.idleEffects[j];
        IdleProperty(e, q) ==
          if q == "rotationSpeed" && e.Name() == name then Some(Num(if checked then sliderSpeed else 0.0))
          else old(IdleProperty(e, q))
    {
      RotationSpeedAccepted(if checked then sliderSpeed else 0.0);
      UpdateEffectConfig(name, "rotationSpeed", Num(if checked then sliderSpeed else 0.0));
    }

    /**
     * The activation checkbox of `setupEffectActivation`:
     * `effectsManager?.setEffectActive(effectName, checked)`.
     */
    method OnActivationToggle(name: string, checked: bool, host: Host)
      requires effectsManager != null ==>
        && effectsManager.Valid() && effectsManager.ScenesReady() && effectsManager.SceneShared()
        && (effectsManager.Ready() || forall j :: 0 <= j < |effectsManager.onClickEffects| ==> effectsManager.onClickEffects[j].Name() != name)
      modifies Managers()`trace, ClickBases()`active, ClickBases()`camera, ClickBases()`scene, ClickBases()`mouse
      modifies ClickBases()`cubes, ClickBases()`updates, ClickBases()`cubeArray, Detectors()`isBeat, ManagerScenes()`children
      ensures effectsManager != null ==>
        && effectsManager.Valid() && effectsManager.ScenesReady() && effectsManager.SceneShared()
        && effectsManager.trace == old(effectsManager.trace)
             + MatchOrder(Selection(effectsManager.onClickEffects, false, name), |effectsManager.onClickEffects|)
      ensures effectsManager != null ==> forall j :: 0 <= j < |effectsManager.onClickEffects| ==>
        var b := effectsManager.onClickEffects[j].Base();
        b.active == if effectsManager.onClickEffects[j].Name() == name then checked else old(b.active)
    {
      var m := effectsManager;
      if m != null {
        m.SetEffectActive(name, checked, host);
      }
    }
  }
}
