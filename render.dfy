// The parts of the Three.js scene graph and of the browser host that the
// effects touch: cube identities and their visual state, the scene as a set
// of children, the shader mesh of the kaleidoscope, and a host object that
// supplies randomness, clocks, trigonometry and colour conversion.
module Render {
  import Arith

  datatype Vec3 = Vec3(x: real, y: real, z: real)

  /** Normalised device coordinates of the pointer (a THREE.Vector2). */
  datatype Pointer = Pointer(x: real, y: real)

  /** A material colour: three channels in [0, 1], or a CSS colour string. */
  datatype Color = Rgb(r: real, g: real, b: real) | Css(text: string)

  /**
   * The visual state of one cube mesh: position, Euler rotation, a uniform
   * scale and the material's opacity and colour.
   */
  datatype CubeState = CubeState(position: Vec3, rotation: Vec3, scale: real, opacity: real, color: Color)

  /**
   * What the effects use a camera for: casting a ray through the pointer and
   * intersecting it with the plane z = 0. When the ray misses, Three.js leaves
   * the target vector untouched, so the hit is then the origin.
   */
  datatype Camera = Camera(cast: Pointer -> Vec3)

  /**
   * A cube mesh. Only its identity and box size live here; its mutable state
   * is kept by the effect that owns it, keyed by this object.
   */
  class Cube {
    const size: real

    constructor (size: real)
      ensures this.size == size
    {
      this.size := size;
    }
  }

  /** The full-screen mesh of the kaleidoscope: it remembers its parent scene. */
  class ShaderMesh {
    var parent: Scene?
    var rotationZ: real

    constructor ()
      ensures parent == null && rotationZ == 0.0
    {
      parent := null;
      rotationZ := 0.0;
    }
  }

  /** The scene: adding a child twice keeps it once, removing an absent one does nothing. */
  /** A possibly absent scene, as a set. */
  function SceneOf(s: Scene?): set<Scene>
  {
    if s == null then {} else {s}
  }

  class Scene {
    var children: set<object>

    constructor ()
      ensures children == {}
    {
      children := {};
    }

    method Add(o: object)
      modifies this`children
      ensures children == old(children) + {o}
    {
      children := children + {o};
    }

    method Remove(o: object)
      modifies this`children
      ensures children == old(children) - {o}
    {
      children := children - {o};
    }

    /** `scene.add(mesh)`: the mesh leaves its former parent and records this scene. */
    method AddMesh(m: ShaderMesh)
      modifies this`children, m`parent, (if m.parent == null || m.parent == this then {} else {m.parent})`children
      ensures children == old(children) + {m} && m.parent == this
      ensures m.rotationZ == old(m.rotationZ)
      ensures old(m.parent) != null && old(m.parent) != this ==>
                old(m.parent).children == old(m.parent.children) - {m}
    {
      if m.parent != null && m.parent != this {
        m.parent.children := m.parent.children - {m};
      }
      m.parent := this;
      children := children + {m};
    }

    /** `scene.remove(mesh)`: a child loses its parent; anything else is left alone. */
    method RemoveMesh(m: ShaderMesh)
      modifies this`children, m`parent
      ensures children == old(children) - {m}
      ensures m.parent == if m in old(children) then null else old(m.parent)
      ensures m.rotationZ == old(m.rotationZ)
    {
      if m in children {
        m.parent := null;
        children := children - {m};
      }
    }
  }

  /** `color & 0xFF`, `(color >> 8) & 0xFF`, `(color >> 16) & 0xFF` on the int32 value. */
  function Channels(color: int): (c: (int, int, int))
    ensures 0 <= c.0 < 256 && 0 <= c.1 < 256 && 0 <= c.2 < 256
    ensures c.0 + 256 * c.1 + 65536 * c.2 == color % 16777216
  {
    var r0, q1 := color % 256, color / 256;
    var r1, q2 := q1 % 256, q1 / 256;
    var r2, q3 := q2 % 256, q2 / 256;
    assert color == 16777216 * q3 + (r0 + 256 * r1 + 65536 * r2);
    Arith.DivModUnique(color, 16777216, q3, r0 + 256 * r1 + 65536 * r2);
    Arith.DivModUnique(color, 65536, 256 * q3 + r2, r0 + 256 * r1);
    (r0, r1, (color / 65536) % 256)
  }

  /** The integer part of a number, as the bitwise operators take it. */
  function Trunc(x: real): int
  {
    if x >= 0.0 then x.Floor else -((-x).Floor)
  }

  /**
   * The material colour of a cube made from a colour number: the number is
   * truncated to an integer and each channel is divided by 255.
   */
  function Unpack(color: real): (c: Color)
    ensures c.Rgb?
    ensures 0.0 <= c.r <= 1.0 && 0.0 <= c.g <= 1.0 && 0.0 <= c.b <= 1.0
    ensures 0.0 <= color < 16777216.0 ==>
      var n := color.Floor; c.r * 255.0 + 256.0 * c.g * 255.0 + 65536.0 * c.b * 255.0 == n as real
  {
    var ch := Channels(Trunc(color));
    Rgb(ch.0 as real / 255.0, ch.1 as real / 255.0, ch.2 as real / 255.0)
  }

  /** Packing the three channels back gives the colour for any 24-bit value. */
  lemma ChannelsRoundTrip(color: int)
    requires 0 <= color < 16777216
    ensures var c := Channels(color); c.0 + 256 * c.1 + 65536 * c.2 == color
  {
  }

  /**
   * The browser host: `Math.random`, `Date.now`, `performance.now`, `Math.sin`,
   * `Math.cos` and Three.js colour conversion. Only the range of a random
   * draw is relied on; the draws taken are recorded.
   */
  class Host {
    var seed: nat
    ghost var draws: seq<real>
    var dateNow: int
    var perfNow: real
    const sin: real -> real
    const cos: real -> real
    /** `new THREE.Color().setHSL(h, s, l).getHex()` */
    const hslHex: (real, real, real) -> int
    /** `new THREE.Color(css).getHex()` */
    const cssHex: string -> int

    constructor (seed: nat, sin: real -> real, cos: real -> real,
                 hslHex: (real, real, real) -> int, cssHex: string -> int)
      ensures this.seed == seed && draws == [] && dateNow == 0 && perfNow == 0.0
      ensures this.sin == sin && this.cos == cos && this.hslHex == hslHex && this.cssHex == cssHex
    {
      this.seed := seed;
      draws := [];
      dateNow := 0;
      perfNow := 0.0;
      this.sin, this.cos, this.hslHex, this.cssHex := sin, cos, hslHex, cssHex;
    }

    /** `Math.random()`: some value in [0, 1). */
    method Random() returns (r: real)
      modifies this`seed, this`draws
      ensures 0.0 <= r < 1.0
      ensures draws == old(draws) + [r]
    {
      seed := (seed * 1103515245 + 12345) % 2147483648;
      r := seed as real / 2147483648.0;
      draws := draws + [r];
    }
  }
}
