/** Small value types shared by both tools: optional values, 2-D positions and opaque identifiers. */
module Basics {

  /** An optional value, in place of Rust's `Option`. */
  datatype Option<+T> = None | Some(value: T)

  /** A position or displacement. The editor's `DVec2` is a pair of `f64`; the model uses integer pairs. */
  datatype Vec2 = Vec2(x: int, y: int)
  {
    function Plus(other: Vec2): Vec2 {
      Vec2(x + other.x, y + other.y)
    }

    function Minus(other: Vec2): Vec2 {
      Vec2(x - other.x, y - other.y)
    }
  }

  const Origin: Vec2 := Vec2(0, 0)

  lemma OriginIsNeutral(v: Vec2)
    ensures Origin.Plus(v) == v && v.Plus(Origin) == v
  {
  }

  /** Displacements from `a` to `b` and from `b` to `c` add up to the displacement from `a` to `c`. */
  lemma Telescope(a: Vec2, b: Vec2, c: Vec2)
    ensures b.Minus(a).Plus(c.Minus(b)) == c.Minus(a)
  {
  }

  /** A keyboard key; an event names the key whose state the tool should read. */
  type Key = nat

  /** A layer of the document (`LayerNodeIdentifier`, also used for node ids and overlay layer ids). */
  type LayerId = nat

  /** A manipulator group inside a subpath (`ManipulatorGroupId`). */
  type GroupId = nat
}
