/**
  The 4x4 matrix helpers the renderers fill their uniforms with. A matrix is a
  16-entry array of reals, column-major as OpenGL reads it. Float arithmetic
  is modelled over exact reals; the cosine and sine of the rotation angle come
  in as parameters.
*/
module CommonUtils {
  /** The x and y factors of a scale matrix. */
  datatype Scale = Scale(x: real, y: real)

  /** The identity: 1 on the diagonal entries 0, 5, 10 and 15, 0 elsewhere. */
  function Identity(): (m: seq<real>)
    ensures |m| == 16
  {
    seq(16, i => if i == 0 || i == 5 || i == 10 || i == 15 then 1.0 else 0.0)
  }

  /** load_identity: zeroes all 16 entries, then sets the diagonal. */
  method LoadIdentity(m: array<real>)
    requires m.Length == 16
    modifies m
    ensures m[..] == Identity()
  {
    for i := 0 to 16
      invariant forall k :: 0 <= k < i ==> m[k] == 0.0
    {
      m[i] := 0.0;
    }
    m[0] := 1.0;
    m[5] := 1.0;
    m[10] := 1.0;
    m[15] := 1.0;
    assert forall k :: 0 <= k < 16 ==> m[k] == Identity()[k];
  }

  /** The rotation about z for an angle with cosine c and sine s. */
  function RotateMat(c: real, s: real): (m: seq<real>)
    ensures |m| == 16
  {
    Identity()[0 := c][1 := s][4 := -s][5 := c]
  }

  /** mat4f_load_rotate_mat: the identity, then the four entries of the 2x2 rotation block. */
  method LoadRotateMat(m: array<real>, c: real, s: real)
    requires m.Length == 16
    modifies m
    ensures m[..] == RotateMat(c, s)
  {
    LoadIdentity(m);
    m[0] := c;
    m[1] := s;
    m[4] := -s;
    m[5] := c;
  }

  /**
    The rotation matrix differs from the identity only in entries 0, 1, 4 and 5,
    its upper-left block has determinant c^2 + s^2 (1 for a true angle), and
    the angle 0 (c = 1, s = 0) gives back the identity.
  */
  lemma {:induction false} RotateMatShape(c: real, s: real)
    ensures forall i :: 0 <= i < 16 && i != 0 && i != 1 && i != 4 && i != 5 ==> RotateMat(c, s)[i] == Identity()[i]
    ensures RotateMat(c, s)[0] * RotateMat(c, s)[5] - RotateMat(c, s)[1] * RotateMat(c, s)[4] == c * c + s * s
    ensures RotateMat(1.0, 0.0) == Identity()
  {
    var m := RotateMat(1.0, 0.0);
    assert forall i :: 0 <= i < 16 ==> m[i] == Identity()[i];
  }

  /** The C++ remainder of a by a positive b: it takes the sign of a (-190 % 180 == -10). */
  function CRem(a: int, b: int): (r: int)
    requires b > 0
    ensures -b < r < b
    ensures a >= 0 ==> r >= 0
    ensures a < 0 ==> r <= 0
  {
    if a >= 0 then a % b else -((-a) % b)
  }

  /** A rotation leaves the frame unswapped exactly when it is a multiple of 180, negative ones included. */
  lemma {:induction false} UnrotatedIffMultipleOf180(rotation: int)
    ensures CRem(rotation, 180) == 0 <==> exists k :: rotation == 180 * k
  {
    if rotation >= 0 {
      if rotation % 180 == 0 {
        assert rotation == 180 * (rotation / 180);
      }
    } else {
      if (-rotation) % 180 == 0 {
        assert rotation == 180 * (-((-rotation) / 180));
      }
    }
    if exists k :: rotation == 180 * k {
      var k :| rotation == 180 * k;
      if rotation >= 0 {
        assert k >= 0 && rotation / 180 == k;
      } else {
        assert -rotation == 180 * (-k) && (-rotation) / 180 == -k;
      }
    }
  }

  /** The frame's width and height after the rotation: swapped unless the rotation is a multiple of 180. */
  function RotatedFrame(rotation: int, frameWidth: nat, frameHeight: nat): (nat, nat)
  {
    if CRem(rotation, 180) == 0 then (frameWidth, frameHeight) else (frameHeight, frameWidth)
  }

  /**
    The dimensions for which mat4f_load_scale_mat divides by no zero: both
    aspect ratios have a positive denominator, and the surface's ratio, the
    divisor of the y factor, can only be 0 when the frame's ratio exceeds it.
  */
  predicate ScaleDefined(rotation: int, surfaceWidth: nat, surfaceHeight: nat, frameWidth: nat, frameHeight: nat)
  {
    var (rw, rh) := RotatedFrame(rotation, frameWidth, frameHeight);
    surfaceHeight > 0 && rh > 0 && (surfaceWidth > 0 || rw > 0)
  }

  /**
    The factors of mat4f_load_scale_mat: a frame wider than the surface (in
    aspect, after the rotation) is narrowed in x, otherwise it is shortened in y.
  */
  function ScaleFactors(rotation: int, surfaceWidth: nat, surfaceHeight: nat, frameWidth: nat, frameHeight: nat): Scale
    requires ScaleDefined(rotation, surfaceWidth, surfaceHeight, frameWidth, frameHeight)
  {
    var (rotatedFrameWidth, rotatedFrameHeight) := RotatedFrame(rotation, frameWidth, frameHeight);
    var surfaceAspectRatio := surfaceWidth as real / surfaceHeight as real;
    var frameAspectRatio := rotatedFrameWidth as real / rotatedFrameHeight as real;
    if frameAspectRatio > surfaceAspectRatio then Scale(surfaceAspectRatio / frameAspectRatio, 1.0)
    else Scale(1.0, frameAspectRatio / surfaceAspectRatio)
  }

  /** For non-negative p and positive q: p/q lies in [0, 1] when p <= q, in [0, 1) when p < q, and is 0 only for p == 0. */
  lemma {:induction false} RatioInUnit(p: real, q: real)
    requires 0.0 <= p <= q && q > 0.0
    ensures 0.0 <= p / q <= 1.0
    ensures p < q ==> p / q < 1.0
    ensures p / q == 0.0 <==> p == 0.0
  {
    assert p / q * q == p;
  }

  /**
    Exactly one axis is reduced: x when the rotated frame's aspect exceeds the
    surface's, y otherwise; the reduced factor lies in [0, 1] and the other is
    1. The x factor is 0 exactly for a zero surface width, the y factor
    exactly for a zero rotated frame width.
  */
  lemma {:induction false} ScaleFactorsOneAxis(rotation: int, surfaceWidth: nat, surfaceHeight: nat, frameWidth: nat, frameHeight: nat)
    requires ScaleDefined(rotation, surfaceWidth, surfaceHeight, frameWidth, frameHeight)
    ensures var (fw, fh) := RotatedFrame(rotation, frameWidth, frameHeight);
            var sAR := surfaceWidth as real / surfaceHeight as real;
            var fAR := fw as real / fh as real;
            var f := ScaleFactors(rotation, surfaceWidth, surfaceHeight, frameWidth, frameHeight);
            (fAR > sAR ==> f.y == 1.0 && f.x == sAR / fAR && 0.0 <= f.x < 1.0) &&
            (fAR <= sAR ==> f.x == 1.0 && f.y == fAR / sAR && 0.0 <= f.y <= 1.0) &&
            (f.x == 0.0 <==> surfaceWidth == 0) && (f.y == 0.0 <==> fw == 0)
  {
    var (fw, fh) := RotatedFrame(rotation, frameWidth, frameHeight);
    var sAR := surfaceWidth as real / surfaceHeight as real;
    var fAR := fw as real / fh as real;
    assert sAR >= 0.0 && fAR >= 0.0;
    assert sAR == 0.0 <==> surfaceWidth == 0;
    assert fAR == 0.0 <==> fw == 0;
    if fAR > sAR {
      RatioInUnit(sAR, fAR);
    } else {
      RatioInUnit(fAR, sAR);
    }
  }

  /** The scale matrix: the identity with the x and y factors on the diagonal, each negated unless its mirror flag is set. */
  function ScaleMat(f: Scale, mirrorX: bool, mirrorY: bool): (m: seq<real>)
    ensures |m| == 16
  {
    Identity()[0 := if mirrorX then f.x else -f.x][5 := if mirrorY then f.y else -f.y]
  }

  /**
    Only entries 0 and 5 differ from the identity; with positive factors the
    sign of entry 0 is positive exactly when mirrorX is set, of entry 5 exactly
    when mirrorY is set, and their magnitudes are the factors.
  */
  lemma {:induction false} ScaleMatShape(f: Scale, mirrorX: bool, mirrorY: bool)
    requires f.x > 0.0 && f.y > 0.0
    ensures forall i :: 0 <= i < 16 && i != 0 && i != 5 ==> ScaleMat(f, mirrorX, mirrorY)[i] == Identity()[i]
    ensures ScaleMat(f, mirrorX, mirrorY)[0] > 0.0 <==> mirrorX
    ensures ScaleMat(f, mirrorX, mirrorY)[5] > 0.0 <==> mirrorY
    ensures ScaleMat(f, mirrorX, mirrorY)[0] * ScaleMat(f, mirrorX, mirrorY)[0] == f.x * f.x
    ensures ScaleMat(f, mirrorX, mirrorY)[5] * ScaleMat(f, mirrorX, mirrorY)[5] == f.y * f.y
  {
  }

  /** mat4f_load_scale_mat: the factors as ScaleFactors chooses them, written over the identity. */
  method LoadScaleMat(m: array<real>, rotation: int, surfaceWidth: nat, surfaceHeight: nat,
                      frameWidth: nat, frameHeight: nat, mirrorX: bool, mirrorY: bool)
    requires m.Length == 16
    requires ScaleDefined(rotation, surfaceWidth, surfaceHeight, frameWidth, frameHeight)
    modifies m
    ensures m[..] == ScaleMat(ScaleFactors(rotation, surfaceWidth, surfaceHeight, frameWidth, frameHeight), mirrorX, mirrorY)
  {
    var rotatedFrameWidth := frameHeight;
    var rotatedFrameHeight := frameWidth;
    if CRem(rotation, 180) == 0 {
      rotatedFrameWidth := frameWidth;
      rotatedFrameHeight := frameHeight;
    }
    var surfaceAspectRatio := surfaceWidth as real / surfaceHeight as real;
    var frameAspectRatio := rotatedFrameWidth as real / rotatedFrameHeight as real;
    var scaleX := 1.0;
    var scaleY := 1.0;
    if frameAspectRatio > surfaceAspectRatio {
      scaleX := surfaceAspectRatio / frameAspectRatio;
    } else {
      scaleY := frameAspectRatio / surfaceAspectRatio;
    }
    LoadIdentity(m);
    m[0] := if mirrorX then scaleX else -scaleX;
    m[5] := if mirrorY then scaleY else -scaleY;
  }
}
