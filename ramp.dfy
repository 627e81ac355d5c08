/**
 * Gamma ramp synthesis: the loop in main.c that fills the three uint16_t
 * tables of one CRTC. Entry j of a channel with scale s is
 * (uint16_t)(0xFFFF * (j / (size - 1)) * s), computed here in exact real
 * arithmetic; for the non-negative values that arise the cast is a floor.
 */
module GammaRamp {
  import opened Kelvin

  /** C's uint16_t. */
  type U16 = x: int | 0 <= x <= 0xFFFF

  /** Normalised position of entry `j`, `(double)j / (double)(size - 1)`. */
  function Position(j: nat, size: nat): (v: real)
    requires 2 <= size && j < size
    ensures InUnit(v)
  {
    j as real / (size - 1) as real
  }

  /** The conversion of a double to uint16_t. C defines it when the value
      truncated towards zero fits, that is for values in (-1, 65536); the
      model needs only the non-negative ones, where it is a floor. */
  function ToU16(x: real): (v: U16)
    requires 0.0 <= x < 65536.0
    ensures v as real <= x < v as real + 1.0
  {
    x.Floor
  }

  /** 0 <= 65535 * p * s <= 65535 for p and s in [0.0, 1.0]. */
  lemma ScaledBounds(p: real, s: real)
    requires InUnit(p) && InUnit(s)
    ensures 0.0 <= 65535.0 * p * s <= 65535.0
  {
    assert 0.0 <= p * s <= p;
  }

  /** Entry `j` of a ramp of length `size` for one channel of scale `scale`. */
  function Entry(j: nat, size: nat, scale: real): (v: U16)
    requires 2 <= size && j < size && InUnit(scale)
  {
    ScaledBounds(Position(j, size), scale);
    ToU16(65535.0 * Position(j, size) * scale)
  }

  /** The table one channel receives. */
  function Ramp(size: nat, scale: real): (r: seq<U16>)
    requires 2 <= size && InUnit(scale)
  {
    seq(size, j requires 0 <= j < size => Entry(j, size, scale))
  }

  /**
   * The ramp-filling loop: after it, each of the three tables holds the ramp
   * of its channel's scale.
   */
  method FillRamps(r: array<U16>, g: array<U16>, b: array<U16>, size: nat, scales: Rgb)
    requires 2 <= size && IsScaleTriple(scales)
    requires r.Length == size && g.Length == size && b.Length == size
    requires r != g && g != b && r != b
    modifies r, g, b
    ensures r[..] == Ramp(size, scales.red)
    ensures g[..] == Ramp(size, scales.green)
    ensures b[..] == Ramp(size, scales.blue)
  {
    for j := 0 to size
      invariant forall k :: 0 <= k < j ==> r[k] == Entry(k, size, scales.red)
      invariant forall k :: 0 <= k < j ==> g[k] == Entry(k, size, scales.green)
      invariant forall k :: 0 <= k < j ==> b[k] == Entry(k, size, scales.blue)
    {
      r[j] := Entry(j, size, scales.red);
      g[j] := Entry(j, size, scales.green);
      b[j] := Entry(j, size, scales.blue);
    }
  }

  /** Scaling law: each entry is the floor of 65535 * j / (size - 1) * scale,
      and lies in [0, 65535]. */
  lemma EntryIsScaledFloor(size: nat, scale: real, j: nat)
    requires 2 <= size && InUnit(scale) && j < size
    ensures |Ramp(size, scale)| == size
    ensures 0 <= Ramp(size, scale)[j] <= 65535
    ensures Ramp(size, scale)[j] == (65535.0 * (j as real / (size - 1) as real) * scale).Floor
  {
  }

  /** The ramp is non-decreasing along its positions. */
  lemma RampMonotone(size: nat, scale: real, i: nat, j: nat)
    requires 2 <= size && InUnit(scale) && i <= j < size
    ensures Ramp(size, scale)[i] <= Ramp(size, scale)[j]
  {
    var d := (size - 1) as real;
    var pi, pj := Position(i, size), Position(j, size);
    assert pi <= pj by {
      assert pj - pi == (j - i) as real / d;
    }
    var xi, xj := 65535.0 * pi * scale, 65535.0 * pj * scale;
    assert xi <= xj by {
      assert (pj - pi) * scale >= 0.0;
      assert xj - xi == 65535.0 * ((pj - pi) * scale);
    }
    assert Ramp(size, scale)[i] == xi.Floor;
    assert Ramp(size, scale)[j] == xj.Floor;
  }

  /** A larger channel scale never lowers an entry. */
  lemma RampMonotoneInScale(size: nat, s1: real, s2: real, j: nat)
    requires 2 <= size && InUnit(s1) && InUnit(s2) && s1 <= s2 && j < size
    ensures Ramp(size, s1)[j] <= Ramp(size, s2)[j]
  {
    var p := 65535.0 * Position(j, size);
    assert 0.0 <= p;
    var x1, x2 := p * s1, p * s2;
    assert x1 <= x2 by {
      assert p * (s2 - s1) >= 0.0;
      assert x2 - x1 == p * (s2 - s1);
    }
    assert Ramp(size, s1)[j] == x1.Floor;
    assert Ramp(size, s2)[j] == x2.Floor;
  }

  /** The ramp starts at 0 and ends at floor(65535 * scale). */
  lemma RampEndpoints(size: nat, scale: real)
    requires 2 <= size && InUnit(scale)
    ensures Ramp(size, scale)[0] == 0
    ensures Ramp(size, scale)[size - 1] == (65535.0 * scale).Floor
  {
    assert Position(size - 1, size) == 1.0;
  }

  /** With scale 1.0 a ramp runs from 0 to 65535. */
  lemma FullScaleRamp(size: nat)
    requires 2 <= size
    ensures Ramp(size, 1.0)[0] == 0 && Ramp(size, 1.0)[size - 1] == 65535
  {
    RampEndpoints(size, 1.0);
  }
}
