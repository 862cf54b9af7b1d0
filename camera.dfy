/** The first-person camera's input state (Camera.java): pitch/yaw from mouse
 *  deltas and position from the four movement keys. The view and projection
 *  matrices and the trigonometric basis update are not part of this model. */
module Cameras {
  import opened Vectors

  /** Pitch is kept within ±89 degrees. */
  const PitchLimit: real := 89.0

  function Max(a: real, b: real): real { if a >= b then a else b }

  function Min(a: real, b: real): real { if a <= b then a else b }

  /** A value clamped into [lo, hi]: inside the range it is unchanged, outside
   *  it saturates at the nearer bound. */
  function Clamp(value: real, lo: real, hi: real): (r: real)
    requires lo <= hi
    ensures lo <= r <= hi
    ensures lo <= value <= hi ==> r == value
    ensures value < lo ==> r == lo
    ensures value > hi ==> r == hi
  {
    if value < lo then lo else if value > hi then hi else value
  }

  /** `org.joml.Math.clamp(a, b, val)`, which returns max(a, min(b, val)): the
   *  value to clamp is its LAST argument. */
  function JomlClamp(a: real, b: real, val: real): real
  {
    Max(a, Min(b, val))
  }

  /** The pitch as Camera.java line 49 computes it: `Math.clamp(rotation.x, -89, 89)`
   *  with JOML's argument order, i.e. max(pitch, min(-89, 89)). */
  function PitchAsWritten(pitch: real): real
  {
    JomlClamp(pitch, -PitchLimit, PitchLimit)
  }

  /** As written, the call only bounds the pitch from below: any pitch above 89 is kept. */
  lemma PitchAsWrittenBoundsOnlyBelow(pitch: real)
    ensures PitchAsWritten(pitch) == Max(pitch, -PitchLimit)
    ensures pitch > PitchLimit ==> PitchAsWritten(pitch) == pitch
  {
  }

  /** One mouse event with dy = 1000 at sensitivity 0.1 from pitch 0 leaves the
   *  as-written pitch at 100, past the intended 89; the intended clamp gives 89. */
  lemma PitchAsWrittenOvershoots()
    ensures PitchAsWritten(0.0 + 1000.0 * 0.1) == 100.0
    ensures Clamp(0.0 + 1000.0 * 0.1, -PitchLimit, PitchLimit) == PitchLimit
  {
  }

  /** Weight of a pair of opposite keys: +1 for the first alone, -1 for the second alone, 0 for both or neither. */
  function KeyAxis(positive: bool, negative: bool): real
  {
    (if positive then 1.0 else 0.0) - (if negative then 1.0 else 0.0)
  }

  /** The movement vector `processKeyboard` accumulates: W adds front, S
   *  subtracts it, A subtracts right, D adds it. */
  function Movement(w: bool, s: bool, a: bool, d: bool, front: Vec3, right: Vec3): Vec3
  {
    Add(Scale(KeyAxis(w, s), front), Scale(KeyAxis(d, a), right))
  }

  /** Opposite keys cancel: with no key, W+S, A+D, or all four, there is no movement. */
  lemma MovementCancels(w: bool, s: bool, a: bool, d: bool, front: Vec3, right: Vec3)
    requires w == s && a == d
    ensures Movement(w, s, a, d, front, right) == Zero
  {
  }

  /** For an orthonormal front/right pair, as the camera keeps them, the
   *  movement is non-zero exactly when some pair of opposite keys is unbalanced. */
  lemma MovementNonzeroIff(w: bool, s: bool, a: bool, d: bool, front: Vec3, right: Vec3)
    requires LengthSquared(front) == 1.0 && LengthSquared(right) == 1.0 && Dot(front, right) == 0.0
    ensures LengthSquared(Movement(w, s, a, d, front, right)) > 0.0 <==> (w != s || a != d)
  {
    var p, q := KeyAxis(w, s), KeyAxis(d, a);
    LengthOfCombination(p, q, front, right);
  }

  /** |p·f + q·r|² = p² + q² for orthonormal f and r. */
  lemma LengthOfCombination(p: real, q: real, f: Vec3, r: Vec3)
    requires LengthSquared(f) == 1.0 && LengthSquared(r) == 1.0 && Dot(f, r) == 0.0
    ensures LengthSquared(Add(Scale(p, f), Scale(q, r))) == p * p + q * q
  {
    var m := Add(Scale(p, f), Scale(q, r));
    assert Dot(m, f) == p by {
      DotAddLeft(Scale(p, f), Scale(q, r), f);
      DotScaleLeft(p, f, f);
      DotScaleLeft(q, r, f);
      DotSymmetric(r, f);
    }
    assert Dot(m, r) == q by {
      DotAddLeft(Scale(p, f), Scale(q, r), r);
      DotScaleLeft(p, f, r);
      DotScaleLeft(q, r, r);
    }
    DotAddLeft(Scale(p, f), Scale(q, r), m);
    DotScaleLeft(p, f, m);
    DotScaleLeft(q, r, m);
    DotSymmetric(f, m);
    DotSymmetric(r, m);
  }

  lemma DotAddLeft(a: Vec3, b: Vec3, c: Vec3)
    ensures Dot(Add(a, b), c) == Dot(a, c) + Dot(b, c)
  {
  }

  lemma DotScaleLeft(k: real, a: Vec3, b: Vec3)
    ensures Dot(Scale(k, a), b) == k * Dot(a, b)
  {
  }

  lemma DotSymmetric(a: Vec3, b: Vec3)
    ensures Dot(a, b) == Dot(b, a)
  {
  }

  /** The position after one `processKeyboard`: unchanged when the movement
   *  cancels out, otherwise moved by `speed` along the normalised movement. */
  function MovedPosition(position: Vec3, w: bool, s: bool, a: bool, d: bool, front: Vec3, right: Vec3,
                         speed: real, normalize: Vec3 -> Vec3): Vec3
  {
    var m := Movement(w, s, a, d, front, right);
    if LengthSquared(m) > 0.0 then Add(position, Scale(speed, normalize(m))) else position
  }

  /** Pressing no movement key, or only opposite pairs, leaves the camera where it is. */
  lemma BalancedKeysStay(position: Vec3, w: bool, s: bool, a: bool, d: bool, front: Vec3, right: Vec3,
                         speed: real, normalize: Vec3 -> Vec3)
    requires w == s && a == d
    ensures MovedPosition(position, w, s, a, d, front, right, speed, normalize) == position
  {
    MovementCancels(w, s, a, d, front, right);
  }

  class Camera {
    var position: Vec3
    /** x is the pitch and y the yaw, in degrees. */
    var rotation: Vec2
    var front: Vec3
    var right: Vec3
    const up: Vec3
    var speed: real
    var sensitivity: real

    /** The pitch stays within ±89 degrees. */
    ghost predicate Valid()
      reads this
    {
      -PitchLimit <= rotation.x <= PitchLimit
    }

    /** `new Camera()`: the field initialisers, then `updateVectors` at yaw = pitch = 0,
     *  which gives front (1, 0, 0) and right = front × up = (0, 0, 1). */
    constructor ()
      ensures Valid()
      ensures position == Vec3(0.0, 10.0, 0.0) && rotation == Vec2(0.0, 0.0)
      ensures speed == 0.1 && sensitivity == 0.1
      ensures up == Vec3(0.0, 1.0, 0.0) && front == Vec3(1.0, 0.0, 0.0) && right == Vec3(0.0, 0.0, 1.0)
    {
      position := Vec3(0.0, 10.0, 0.0);
      rotation := Vec2(0.0, 0.0);
      up := Vec3(0.0, 1.0, 0.0);
      speed := 0.1;
      sensitivity := 0.1;
      front := Vec3(1.0, 0.0, 0.0);
      right := Vec3(0.0, 0.0, 1.0);
    }

    /** `processKeyboard` with the key states given: sum the movement, and when
     *  it is non-zero move by `speed` along it. `normalize` stands for JOML's
     *  `normalize()` (a square root), which this model leaves abstract. */
    method ProcessKeyboard(w: bool, s: bool, a: bool, d: bool, normalize: Vec3 -> Vec3)
      modifies this`position
      ensures position == MovedPosition(old(position), w, s, a, d, front, right, speed, normalize)
    {
      var movement := Zero;
      if w { movement := Add(movement, front); }
      if s { movement := Sub(movement, front); }
      if a { movement := Sub(movement, right); }
      if d { movement := Add(movement, right); }
      assert movement == Movement(w, s, a, d, front, right);
      if LengthSquared(movement) > 0.0 {
        position := Add(position, Scale(speed, normalize(movement)));
      }
    }

    /** `processMouse`: accumulate dy into pitch and dx into yaw, then clamp the
     *  pitch (after accumulating, so one event can saturate it but not pass it).
     *  The yaw is never clamped; the position does not change. */
    method ProcessMouse(dx: real, dy: real)
      modifies this`rotation
      ensures Valid()
      ensures rotation.x == Clamp(old(rotation.x) + dy * sensitivity, -PitchLimit, PitchLimit)
      ensures rotation.y == old(rotation.y) + dx * sensitivity
    {
      rotation := rotation.(x := rotation.x + dy * sensitivity);
      rotation := rotation.(y := rotation.y + dx * sensitivity);
      rotation := rotation.(x := Clamp(rotation.x, -PitchLimit, PitchLimit));
    }
  }
}
