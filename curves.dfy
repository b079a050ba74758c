/** The yarn centerline and the fiber curve wound around it (yarn_fiber.py, lines 29-64).
    Sine, cosine and pi come from a MathLib value whose numeric behaviour is not fixed, and the
    Frenet frame is a parameter: the model states what the curves are built from, not their values. */
module Curves {
  import opened Vectors

  /** The parts of the math library the curves use. */
  datatype MathLib = MathLib(pi: real, sin: real -> real, cos: real -> real)

  /** The loop shape: roundness a, height h and depth d. */
  datatype Shape = Shape(a: real, h: real, d: real)

  /** Tangent, normal and binormal at one parameter value. */
  datatype Frame = Frame(e1: Vector3, e2: Vector3, e3: Vector3)

  /** The Frenet frame solver, as a function of (t, a, h, d); its numeric values are not modelled. */
  type FrameSolver = (real, real, real, real) -> Frame

  /** The yarn centerline at parameter t for loop roundness a, height h and depth d. */
  function YarnCurve(m: MathLib, t: real, a: real, h: real, d: real): Vector3 {
    Vector3(t + a * m.sin(2.0 * t), h * m.cos(t), d * m.cos(2.0 * t))
  }

  /** One loop advances the centerline by exactly 2π in x, wherever sine repeats after 4π
      at the doubled angle. */
  lemma YarnCurveDrift(m: MathLib, t: real, a: real, h: real, d: real)
    requires m.sin(2.0 * t + 4.0 * m.pi) == m.sin(2.0 * t)
    ensures YarnCurve(m, t + 2.0 * m.pi, a, h, d).x - YarnCurve(m, t, a, h, d).x == 2.0 * m.pi
  {
  }

  /** The angle at which a fiber with twist omega and phase phi sits around the centerline. */
  function WindingAngle(m: MathLib, t: real, omega: real, phi: real): real {
    t * omega - 2.0 * m.cos(t) + phi
  }

  /** The fiber curve: the centerline point displaced in the normal plane by radius r at the
      winding angle. */
  function FiberCurve(m: MathLib, frame: FrameSolver, t: real, a: real, h: real, d: real,
                      r: real, omega: real, phi: real): Vector3
  {
    var gamma := YarnCurve(m, t, a, h, d);
    var f := frame(t, a, h, d);
    var theta := WindingAngle(m, t, omega, phi);
    Vector3(gamma.x + r * (m.cos(theta) * f.e2.x + m.sin(theta) * f.e3.x),
            gamma.y + r * (m.cos(theta) * f.e2.y + m.sin(theta) * f.e3.y),
            gamma.z + r * (m.cos(theta) * f.e2.z + m.sin(theta) * f.e3.z))
  }

  /** A fiber of radius zero collapses onto the centerline. */
  lemma FiberZeroRadius(m: MathLib, frame: FrameSolver, t: real, a: real, h: real, d: real,
                        omega: real, phi: real)
    ensures FiberCurve(m, frame, t, a, h, d, 0.0, omega, phi) == YarnCurve(m, t, a, h, d)
  {
  }

  /** The squared length of a sum expands into both squared lengths plus twice their dot product. */
  lemma Norm2OfSum(u: Vector3, w: Vector3)
    ensures Norm2(Add(u, w)) == Norm2(u) + 2.0 * Dot(u, w) + Norm2(w)
  {
  }

  /** A unit circle in the plane of two orthonormal vectors: c·e2 + s·e3 has unit length
      when c² + s² = 1. */
  lemma UnitCombination(c: real, s: real, e2: Vector3, e3: Vector3)
    requires Norm2(e2) == 1.0 && Norm2(e3) == 1.0 && Dot(e2, e3) == 0.0
    requires c * c + s * s == 1.0
    ensures Norm2(Add(Scale(c, e2), Scale(s, e3))) == 1.0
  {
    Norm2OfSum(Scale(c, e2), Scale(s, e3));
    ScaleNorm2(c, e2);
    ScaleNorm2(s, e3);
    ScaleLinear(c, e2, Scale(s, e3));
    ScaleLinear(s, e3, e2);
    assert Dot(e2, Scale(s, e3)) == Dot(Scale(s, e3), e2);
  }

  /** When the frame's normal and binormal are orthonormal and the math library's sine and cosine
      satisfy sin² + cos² = 1 at the winding angle, the fiber point lies at distance exactly r
      from the centerline point: on the tube of radius r. */
  lemma FiberOnTube(m: MathLib, frame: FrameSolver, t: real, a: real, h: real, d: real,
                    r: real, omega: real, phi: real)
    requires Norm2(frame(t, a, h, d).e2) == 1.0 && Norm2(frame(t, a, h, d).e3) == 1.0
    requires Dot(frame(t, a, h, d).e2, frame(t, a, h, d).e3) == 0.0
    requires var theta := WindingAngle(m, t, omega, phi);
             m.cos(theta) * m.cos(theta) + m.sin(theta) * m.sin(theta) == 1.0
    ensures Norm2(Sub(FiberCurve(m, frame, t, a, h, d, r, omega, phi), YarnCurve(m, t, a, h, d))) == r * r
  {
    var f := frame(t, a, h, d);
    var theta := WindingAngle(m, t, omega, phi);
    var w := Add(Scale(m.cos(theta), f.e2), Scale(m.sin(theta), f.e3));
    UnitCombination(m.cos(theta), m.sin(theta), f.e2, f.e3);
    ScaleNorm2(r, w);
    var eta := FiberCurve(m, frame, t, a, h, d, r, omega, phi);
    var gamma := YarnCurve(m, t, a, h, d);
    assert Sub(eta, gamma) == Scale(r, w);
  }
}
