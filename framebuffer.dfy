/** Off-screen framebuffers and the size of each level of the blur chain
    (imgui_blur.cpp, class Framebuffer and create_framebuffer). */
module Framebuffers {
  import opened Handles

  /** A texture with its render-target view and shader-resource view, and its pixel size.
      A default-constructed Framebuffer has all three pointers null and size 0 x 0. */
  datatype Framebuffer = Framebuffer(tex: Option<Handle>, rtv: Option<Handle>, srv: Option<Handle>,
                                     width: int, height: int)

  /** What the device hands back for the three creation calls of one framebuffer:
      CreateTexture2D, CreateRenderTargetView, CreateShaderResourceView. None is a failed call. */
  datatype Creation = Creation(tex: Option<Handle>, rtv: Option<Handle>, srv: Option<Handle>)

  /** True when the framebuffer has all three of its objects. */
  predicate Complete(fb: Framebuffer)
  {
    fb.tex.Some? && fb.rtv.Some? && fb.srv.Some?
  }

  /** True when the device creates all three objects. */
  predicate Succeeds(c: Creation)
  {
    c.tex.Some? && c.rtv.Some? && c.srv.Some?
  }

  /** create_framebuffer: records the size first, then creates the texture, the render-target
      view and the shader-resource view in that order, stopping at the first failure.
      The second component is the function's boolean result. */
  function CreateFramebuffer(fb: Framebuffer, width: int, height: int, c: Creation): (r: (Framebuffer, bool))
    ensures r.0.width == width && r.0.height == height
    ensures r.1 <==> Complete(r.0)
    ensures r.1 <==> Succeeds(c)
    ensures r.1 ==> r.0.tex == c.tex && r.0.rtv == c.rtv && r.0.srv == c.srv
    // a failed creation leaves the later pointers as they were
    ensures c.tex.None? ==> r.0.rtv == fb.rtv && r.0.srv == fb.srv
    ensures c.tex.Some? && c.rtv.None? ==> r.0.srv == fb.srv
  {
    var sized := fb.(width := width, height := height);
    if c.tex.None? then (sized.(tex := None), false)
    else if c.rtv.None? then (sized.(tex := c.tex, rtv := None), false)
    else (sized.(tex := c.tex, rtv := c.rtv, srv := c.srv), c.srv.Some?)
  }

  /** 2^i, the value of `1 << i` in the source for the shifts where that is defined. */
  function Pow2(i: nat): (r: nat)
    ensures r >= 1
  {
    if i == 0 then 1 else 2 * Pow2(i - 1)
  }

  /** A dimension of chain level i: the full dimension divided by 2^i, rounded down,
      with no minimum of one pixel. */
  function LevelDim(d: nat, i: nat): int
  {
    d / Pow2(i)
  }

  lemma DivUnique(a: int, d: int, q: int, r: int)
    requires 0 < d && a == d * q + r && 0 <= r < d
    ensures a / d == q
  {
    var q0, r0 := a / d, a % d;
    assert d * q0 + r0 == d * q + r;
    assert d * (q - q0) == r0 - r;
    if q > q0 {
      MulAtLeast(d, q - q0);
    } else if q < q0 {
      MulAtLeast(d, q0 - q);
    }
  }

  lemma MulAtLeast(d: int, k: int)
    requires 0 < d && 1 <= k
    ensures d * k >= d
  {
    assert d * k == d + d * (k - 1);
  }

  /** Each level is half of the previous one, rounded down. */
  lemma {:induction false} LevelDimHalves(d: nat, i: nat)
    ensures LevelDim(d, i + 1) == LevelDim(d, i) / 2
  {
    var p := Pow2(i);
    var q, r := d / p, d % p;
    var q2, r2 := q / 2, q % 2;
    assert d == p * q + r;
    assert q == 2 * q2 + r2;
    assert d == (2 * p) * q2 + (p * r2 + r) by {
      calc {
        d;
        p * q + r;
        p * (2 * q2 + r2) + r;
        (2 * p) * q2 + (p * r2 + r);
      }
    }
    assert 0 <= p * r2 + r < 2 * p by {
      assert r2 == 0 || r2 == 1;
    }
    DivUnique(d, 2 * p, q2, p * r2 + r);
  }

  /** Level 0 is the full size, and no level is larger than the one before it. */
  lemma LevelDimShrinks(d: nat, i: nat)
    ensures LevelDim(d, 0) == d
    ensures LevelDim(d, i + 1) <= LevelDim(d, i)
  {
    LevelDimHalves(d, i);
  }

  /** A level collapses to zero pixels exactly when 2^i exceeds the full dimension. */
  lemma LevelDimZeroIff(d: nat, i: nat)
    ensures LevelDim(d, i) == 0 <==> d < Pow2(i)
  {
    var p := Pow2(i);
    if d >= p {
      assert d == p * (d / p) + d % p;
    } else {
      DivUnique(d, p, 0, d);
    }
  }
}
