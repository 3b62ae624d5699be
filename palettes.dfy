// Colour palettes for effects and the palette lookup (ui/ui-color-palettes.js).
// The random draw of 'random' palettes is a parameter in [0, 1).
module Palettes {

  datatype Mode = Cycle | Random

  datatype Palette = Palette(name: string, colors: seq<string>, mode: Mode)

  const White := "#ffffff"

  /**
   * The properties every object literal inherits from `Object.prototype`. Looked up
   * in the palette table they give a function (or the prototype itself), which is
   * truthy but has no `colors`.
   */
  const InheritedNames: set<string> := {
    "constructor", "hasOwnProperty", "isPrototypeOf", "propertyIsEnumerable",
    "toLocaleString", "toString", "valueOf", "__proto__",
    "__defineGetter__", "__defineSetter__", "__lookupGetter__", "__lookupSetter__"
  }

  /** What getColorFromPalette yields: a colour, `undefined`, or a thrown TypeError. */
  datatype Lookup = Hex(color: string) | Undefined | Thrown

  const ColorPalettes: map<string, Palette> := map[
    "rainbow" := Palette("Rainbow",
      ["#ff0000", "#ff7f00", "#ffff00", "#00ff00", "#0000ff", "#4b0082", "#9400d3"], Cycle),
    "fire" := Palette("Fire",
      ["#ff0000", "#ff4500", "#ff6347", "#ff7f50", "#ffa500", "#ffb347"], Cycle),
    "ocean" := Palette("Ocean",
      ["#000080", "#0000cd", "#1e90ff", "#00bfff", "#87ceeb", "#b0e0e6"], Cycle),
    "forest" := Palette("Forest",
      ["#013220", "#228b22", "#32cd32", "#90ee90", "#98fb98", "#adff2f"], Cycle),
    "sunset" := Palette("Sunset",
      ["#ff1493", "#ff69b4", "#ff8c00", "#ffa500", "#ffb6c1", "#ffc0cb"], Cycle),
    "purple-haze" := Palette("Purple Haze",
      ["#4b0082", "#8b00ff", "#9370db", "#ba55d3", "#da70d6", "#ee82ee"], Cycle),
    "neon" := Palette("Neon",
      ["#ff00ff", "#00ffff", "#ffff00", "#ff1493", "#00ff00", "#ff4500"], Random),
    "monochrome" := Palette("Monochrome",
      ["#000000", "#404040", "#808080", "#c0c0c0", "#ffffff"], Cycle),
    "pastel" := Palette("Pastel",
      ["#ffb3ba", "#ffdfba", "#ffffba", "#baffc9", "#bae1ff", "#e0bbff"], Random),
    "cyberpunk" := Palette("Cyberpunk",
      ["#ff006e", "#fb5607", "#ffbe0b", "#8338ec", "#3a86ff", "#06ffa5"], Random)
  ]

  lemma PalettesNonEmpty(key: string)
    requires key in ColorPalettes
    ensures |ColorPalettes[key].colors| >= 5
  {
  }

  /** JavaScript's `%`: the remainder takes the sign of the dividend. */
  function JsRem(a: int, n: int): (r: int)
    requires n > 0
    ensures a >= 0 ==> r == a % n
    ensures -n < r < n && (r < 0 ==> a < 0)
  {
    if a >= 0 then a % n else -((-a) % n)
  }

  /**
   * getColorFromPalette. A negative counter in cycle mode indexes with a negative
   * remainder and yields `undefined`; an inherited name passes the `!palette` test
   * and then throws when `palette.colors.length` is read.
   */
  function ColorFromPalette(key: string, counter: int, draw: real): (c: Lookup)
    requires 0.0 <= draw < 1.0
    ensures key !in ColorPalettes && key !in InheritedNames ==> c == Hex(White)
    ensures key !in ColorPalettes && key in InheritedNames ==> c == Thrown
    ensures key in ColorPalettes && ColorPalettes[key].mode == Random ==>
              c.Hex? && c.color in ColorPalettes[key].colors
    ensures key in ColorPalettes && ColorPalettes[key].mode == Cycle && counter >= 0 ==>
              var colors := ColorPalettes[key].colors;
              c == Hex(colors[counter % |colors|])
    ensures c == Undefined ==> key in ColorPalettes && ColorPalettes[key].mode == Cycle && counter < 0
  {
    if key !in ColorPalettes then
      if key in InheritedNames then Thrown else Hex(White)
    else
      var colors := ColorPalettes[key].colors;
      PalettesNonEmpty(key);
      if ColorPalettes[key].mode == Random then
        var i := RandomIndex(draw, |colors|);
        Hex(colors[i])
      else
        var i := JsRem(counter, |colors|);
        if i >= 0 then Hex(colors[i]) else Undefined
  }

  /** `Math.floor(draw * n)`, always a valid index. */
  function RandomIndex(draw: real, n: nat): (i: nat)
    requires 0.0 <= draw < 1.0 && n > 0
    ensures i < n
  {
    assert 0.0 <= draw * (n as real) < n as real;
    (draw * (n as real)).Floor
  }

  /** Cycle mode repeats with the palette's length as period. */
  lemma {:induction false} CyclePeriod(key: string, counter: nat, draw: real)
    requires 0.0 <= draw < 1.0
    requires key in ColorPalettes && ColorPalettes[key].mode == Cycle
    ensures var n := |ColorPalettes[key].colors|;
            ColorFromPalette(key, counter + n, draw) == ColorFromPalette(key, counter, draw)
  {
    var n := |ColorPalettes[key].colors|;
    PalettesNonEmpty(key);
    assert (counter + n) % n == counter % n;
  }

  /** The default counter 0 picks the first colour of any cycle palette. */
  lemma DefaultCounterIsFirst(key: string, draw: real)
    requires 0.0 <= draw < 1.0
    requires key in ColorPalettes && ColorPalettes[key].mode == Cycle
    ensures ColorFromPalette(key, 0, draw) == Hex(ColorPalettes[key].colors[0])
  {
  }

  /** A negative counter that is not a multiple of the length yields `undefined`. */
  lemma NegativeCounterUndefined(draw: real)
    requires 0.0 <= draw < 1.0
    ensures ColorFromPalette("rainbow", -1, draw) == Undefined
    ensures ColorFromPalette("rainbow", -7, draw) == Hex("#ff0000")
  {
  }
}
