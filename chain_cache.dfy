/** The process-wide framebuffer chain and its key (imgui_blur.cpp:120-123, 332-348),
    as values: the specification that the imperative cache in module Blur follows. */
module ChainCache {
  import opened Framebuffers

  /** The file-scope globals g_framebuffers, g_last_iterations, g_last_width, g_last_height. */
  datatype Cache = Cache(framebuffers: seq<Framebuffer>, lastIterations: int, lastWidth: int, lastHeight: int)

  /** Program start: an empty vector and the key (0, 0, 0). */
  const InitialCache := Cache([], 0, 0, 0)

  /** The chain is rebuilt exactly when the request differs from the stored key. */
  predicate NeedsRebuild(c: Cache, iterations: int, width: int, height: int)
  {
    c.lastIterations != iterations || c.lastWidth != width || c.lastHeight != height
  }

  /** Level i of a freshly built chain: ImVector::resize runs no constructor, so the record
      handed to create_framebuffer is whatever the new storage holds (`stale(i)`), and it gets the
      level's size and the device's answers for that level. */
  function ChainLevel(i: nat, width: nat, height: nat, device: nat -> Creation, stale: nat -> Framebuffer)
    : (r: Framebuffer)
    ensures r.width == width / Pow2(i) && r.height == height / Pow2(i)
    ensures Complete(r) <==> Succeeds(device(i))
    ensures device(i).tex.None? ==> r.rtv == stale(i).rtv && r.srv == stale(i).srv
    ensures device(i).tex.Some? && device(i).rtv.None? ==> r.srv == stale(i).srv
  {
    CreateFramebuffer(stale(i), LevelDim(width, i), LevelDim(height, i), device(i)).0
  }

  /** A chain of iterations + 1 freshly built levels. A level whose texture could not be created keeps
      the uninitialised views of the new storage; one whose render-target view failed keeps its read view. */
  function Chain(iterations: nat, width: nat, height: nat, device: nat -> Creation, stale: nat -> Framebuffer)
    : (r: seq<Framebuffer>)
    ensures |r| == iterations + 1
    ensures r[0].width == width && r[0].height == height
    // LevelDim written out, so that the contract gives the size as the source computes it
    ensures forall i :: 0 <= i < |r| ==> r[i].width == width / Pow2(i) && r[i].height == height / Pow2(i)
    ensures forall i :: 0 <= i < |r| ==> (Complete(r[i]) <==> Succeeds(device(i)))
    ensures forall i :: 0 <= i < |r| && device(i).tex.None? ==> r[i].rtv == stale(i).rtv && r[i].srv == stale(i).srv
    ensures forall i :: 0 <= i < |r| && device(i).tex.Some? && device(i).rtv.None? ==> r[i].srv == stale(i).srv
  {
    seq(iterations + 1, i requires 0 <= i => ChainLevel(i, width, height, device, stale))
  }

  /** The cache invariant: either the chain is empty, or it has lastIterations + 1 levels of the
      sizes the stored key prescribes. */
  predicate Consistent(c: Cache)
  {
    c.framebuffers == [] ||
    (c.lastIterations >= 0 && c.lastWidth >= 0 && c.lastHeight >= 0 &&
     |c.framebuffers| == c.lastIterations + 1 &&
     forall i :: 0 <= i < |c.framebuffers| ==>
       c.framebuffers[i].width == LevelDim(c.lastWidth, i) &&
       c.framebuffers[i].height == LevelDim(c.lastHeight, i))
  }

  /** What lines 332-348 do to the cache for a request (iterations, width, height). */
  function Ensure(c: Cache, iterations: nat, width: nat, height: nat, device: nat -> Creation,
                  stale: nat -> Framebuffer): (r: Cache)
    ensures r.lastIterations == iterations && r.lastWidth == width && r.lastHeight == height
    ensures !NeedsRebuild(c, iterations, width, height) ==> r == c
    ensures NeedsRebuild(c, iterations, width, height) ==> r.framebuffers == Chain(iterations, width, height, device, stale)
    ensures Consistent(c) ==> Consistent(r)
  {
    if NeedsRebuild(c, iterations, width, height) then
      Cache(Chain(iterations, width, height, device, stale), iterations, width, height)
    else c
  }

  /** A rebuild whose level-0 texture cannot be created leaves level 0's render-target and read views as
      the new storage held them: never written by the source, then returned by get_texture and released
      by the next clear_destruct. */
  lemma FailedTextureKeepsStorage(c: Cache, iterations: nat, width: nat, height: nat, device: nat -> Creation,
                                  stale: nat -> Framebuffer)
    requires NeedsRebuild(c, iterations, width, height) && device(0).tex.None?
    ensures var r := Ensure(c, iterations, width, height, device, stale).framebuffers;
            r[0].rtv == stale(0).rtv && r[0].srv == stale(0).srv && !Complete(r[0])
  {
  }

  /** A repeated request with the same key rebuilds nothing, whatever the device would answer. */
  lemma RepeatIsNoRebuild(c: Cache, iterations: nat, width: nat, height: nat, d1: nat -> Creation, d2: nat -> Creation,
                          s1: nat -> Framebuffer, s2: nat -> Framebuffer)
    ensures !NeedsRebuild(Ensure(c, iterations, width, height, d1, s1), iterations, width, height)
    ensures Ensure(Ensure(c, iterations, width, height, d1, s1), iterations, width, height, d2, s2)
            == Ensure(c, iterations, width, height, d1, s1)
  {
  }

  /** After a request on a consistent cache the chain is either empty (only when the key was
      already stored and the chain had been emptied) or has iterations + 1 levels. */
  lemma EnsureChainLength(c: Cache, iterations: nat, width: nat, height: nat, device: nat -> Creation,
                          stale: nat -> Framebuffer)
    requires Consistent(c)
    ensures var r := Ensure(c, iterations, width, height, device, stale);
            r.framebuffers == [] <==> (!NeedsRebuild(c, iterations, width, height) && c.framebuffers == [])
    ensures var r := Ensure(c, iterations, width, height, device, stale);
            r.framebuffers != [] ==> |r.framebuffers| == iterations + 1
  {
  }

  /** Each level of a chain is half the size of the level before it, rounded down. */
  lemma {:induction false} ChainHalves(iterations: nat, width: nat, height: nat, device: nat -> Creation,
                                       stale: nat -> Framebuffer, i: nat)
    requires i < iterations
    ensures Chain(iterations, width, height, device, stale)[i + 1].width == Chain(iterations, width, height, device, stale)[i].width / 2
    ensures Chain(iterations, width, height, device, stale)[i + 1].height == Chain(iterations, width, height, device, stale)[i].height / 2
  {
    LevelDimHalves(width, i);
    LevelDimHalves(height, i);
  }

  /** The 800 x 600 case with 3 iterations: levels 800x600, 400x300, 200x150 and 100x75. */
  lemma Chain800x600(device: nat -> Creation, stale: nat -> Framebuffer)
    ensures var r := Chain(3, 800, 600, device, stale);
            |r| == 4 &&
            r[0].width == 800 && r[0].height == 600 && r[1].width == 400 && r[1].height == 300 &&
            r[2].width == 200 && r[2].height == 150 && r[3].width == 100 && r[3].height == 75
  {
    var r := Chain(3, 800, 600, device, stale);
    assert Pow2(1) == 2 && Pow2(2) == 4 && Pow2(3) == 8;
    assert r[1].width == 800 / Pow2(1);
  }
}
