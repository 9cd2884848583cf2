/**
 * The image server node: it cycles through a cache of images loaded from
 * disk, publishing the current frame on every spin. Frames advance on their
 * own (auto-advance, in the direction chosen by the next/prev switches) or
 * one at a time when a switch is toggled (manual mode), optionally wrapping
 * around at either end of the cache.
 *
 * The model assumes a 64-bit build: `current_frame_` and `direction_` are
 * `unsigned int` taken as 32 bits, and the cache size (the `size()` of a
 * container declared in the image loader, which is not part of this model)
 * is taken as a 64-bit `size_t`. The arithmetic between them is written out
 * with its wrap-around.
 */
module ImageServer {
  import opened Wrappers

  const UintLimit := 0x1_0000_0000
  const SizeLimit := 0x1_0000_0000_0000_0000

  /** `unsigned int`. */
  type UInt = x: int | 0 <= x < 0x1_0000_0000

  /** `size_t`, the type of `image_cache_.size()`. */
  type Size = x: int | 0 <= x < 0x1_0000_0000_0000_0000

  // ---------------------------------------------------------------------
  // Stepping through the cache.
  // ---------------------------------------------------------------------

  /**
   * `nextFrame`: one frame on, if that frame exists; otherwise back to the
   * first one when looping, else stay. On an empty cache `size - 1` wraps to
   * the largest `size_t`, so the frame is incremented (with 32-bit wrap).
   */
  function Next(current: UInt, size: Size, loop: bool): (r: UInt)
    ensures current + 1 < size ==> r == (current + 1) % UintLimit
    ensures 0 < size <= current + 1 ==> r == (if loop then 0 else current)
    ensures size == 0 ==> r == (current + 1) % UintLimit
    ensures 0 < size && current < size ==> r < size
  {
    if current < (size - 1) % SizeLimit then (current + 1) % UintLimit
    else if loop then 0
    else current
  }

  /**
   * `prevFrame`: one frame back, if not at the first frame of a non-empty
   * cache; otherwise to the last frame when looping (the `size_t` value cut
   * to 32 bits), else stay.
   */
  function Prev(current: UInt, size: Size, loop: bool): (r: UInt)
    ensures 0 < current && 0 < size ==> r == current - 1
    ensures (current == 0 || size == 0) && !loop ==> r == current
    ensures 0 < size <= UintLimit && current == 0 && loop ==> r == size - 1
    ensures size == 0 && loop ==> r == UintLimit - 1
    ensures UintLimit < size && current == 0 && loop ==> r == (size - 1) % UintLimit
    ensures 0 < size && current < size ==> r < size
  {
    if current > 0 && size > 0 then current - 1
    else if loop then ((size - 1) % SizeLimit) % UintLimit
    else current
  }

  /** With looping on, `Prev` undoes `Next` on every frame of the cache. */
  lemma PrevUndoesNext(current: UInt, size: Size)
    requires 0 < size <= UintLimit && current < size
    ensures Prev(Next(current, size, true), size, true) == current
  {
  }

  /** With looping on, `Next` undoes `Prev` on every frame of the cache. */
  lemma NextUndoesPrev(current: UInt, size: Size)
    requires 0 < size <= UintLimit && current < size
    ensures Next(Prev(current, size, true), size, true) == current
  {
  }

  /** `k` calls of `nextFrame`. */
  function Advance(current: UInt, size: Size, loop: bool, k: nat): UInt
  {
    if k == 0 then current else Next(Advance(current, size, loop, k - 1), size, loop)
  }

  /** `k` calls of `prevFrame`. */
  function Retreat(current: UInt, size: Size, loop: bool, k: nat): UInt
  {
    if k == 0 then current else Prev(Retreat(current, size, loop, k - 1), size, loop)
  }

  /** The remainder is the one determined by any quotient-remainder split. */
  lemma ModUnique(a: int, m: int, q: int, r: int)
    requires 0 < m && 0 <= r < m && a == q * m + r
    ensures a % m == r
  {
    var d := q - a / m;
    assert a == (a / m) * m + a % m;
    assert d * m == a % m - r;
  }

  lemma ModSucc(a: nat, m: nat)
    requires 0 < m
    ensures (a + 1) % m == if a % m + 1 < m then a % m + 1 else 0
  {
    var q, r := a / m, a % m;
    assert a == q * m + r;
    if r + 1 < m {
      ModUnique(a + 1, m, q, r + 1);
    } else {
      ModUnique(a + 1, m, q + 1, 0);
    }
  }

  lemma ModPred(a: int, m: nat)
    requires 0 < m
    ensures (a - 1) % m == if 0 < a % m then a % m - 1 else m - 1
  {
    var q, r := a / m, a % m;
    assert a == q * m + r;
    if 0 < r {
      ModUnique(a - 1, m, q, r - 1);
    } else {
      ModUnique(a - 1, m, q - 1, m - 1);
    }
  }

  /** Within a cache of at most 2^32 frames no 32-bit wrap-around occurs. */
  lemma NextWithin(current: UInt, size: Size, loop: bool)
    requires size <= UintLimit && current < size
    ensures Next(current, size, loop) == if current + 1 < size then current + 1 else if loop then 0 else current
  {
  }

  /** Looping forward through a cache of at most 2^32 frames visits them cyclically. */
  lemma {:induction false} AdvanceCycles(current: UInt, size: Size, k: nat)
    requires 0 < size <= UintLimit && current < size
    ensures Advance(current, size, true, k) == (current + k) % size
    decreases k
  {
    if k != 0 {
      var a: nat := current + k - 1;
      AdvanceCycles(current, size, k - 1);
      var previous := Advance(current, size, true, k - 1);
      assert previous == a % size;
      ModSucc(a, size);
      NextWithin(previous, size, true);
      assert Advance(current, size, true, k) == Next(previous, size, true);
      assert a + 1 == current + k;
    } else {
      ModUnique(current, size, 0, current);
    }
  }

  /** Looping backward visits the frames cyclically in the other direction. */
  lemma {:induction false} RetreatCycles(current: UInt, size: Size, k: nat)
    requires 0 < size <= UintLimit && current < size
    ensures Retreat(current, size, true, k) == (current - k) % size
    decreases k
  {
    if k != 0 {
      RetreatCycles(current, size, k - 1);
      ModPred(current - (k - 1), size);
    } else {
      ModUnique(current, size, 0, current);
    }
  }

  /** Without looping, stepping forward stops at the last frame. */
  lemma {:induction false} AdvanceClamps(current: UInt, size: Size, k: nat)
    requires 0 < size <= UintLimit && current < size
    ensures Advance(current, size, false, k) == if current + k < size then current + k else size - 1
    decreases k
  {
    if k != 0 {
      AdvanceClamps(current, size, k - 1);
    }
  }

  /** Without looping, stepping backward stops at the first frame. */
  lemma {:induction false} RetreatClamps(current: UInt, size: Size, k: nat)
    requires 0 < size && current < size
    ensures Retreat(current, size, false, k) == if k <= current then current - k else 0
    decreases k
  {
    if k != 0 {
      RetreatClamps(current, size, k - 1);
    }
  }

  // ---------------------------------------------------------------------
  // The node's state and its transitions, as values.
  // ---------------------------------------------------------------------

  /** The node's fields, with the two of the image loader it reads. */
  datatype Node = Node(
    lastNextImageState: bool,
    lastPrevImageState: bool,
    currentFrame: UInt,
    direction: UInt,
    imagesLoaded: bool,
    cacheSize: Size)

  /**
   * The dynamic-reconfigure parameters `reconfigureCB` reads. The looping flag
   * that `nextFrame` and `prevFrame` read from the stored configuration is
   * passed separately, as `loop`.
   */
  datatype Config = Config(autoAdvance: bool, nextImage: bool, prevImage: bool)

  /** The current frame is an index into the cache. */
  predicate InCache(n: Node)
  {
    n.currentFrame < n.cacheSize
  }

  /**
   * `reconfigureCB`. In auto-advance mode only the direction is set: backward
   * exactly when prev is on and next is off. In manual mode a toggled next
   * switch steps forward, else a toggled prev switch steps backward, and both
   * switch states are recorded. `loop` is the looping flag of the stored
   * configuration, which `nextFrame` and `prevFrame` read.
   */
  function Reconfigure(n: Node, config: Config, loop: bool): (r: Node)
    ensures r.imagesLoaded == n.imagesLoaded && r.cacheSize == n.cacheSize
    ensures config.autoAdvance ==> r == n.(direction := if !config.nextImage && config.prevImage then 1 else 0)
    ensures !config.autoAdvance ==> r.direction == n.direction
    ensures !config.autoAdvance ==>
      r.lastNextImageState == config.nextImage && r.lastPrevImageState == config.prevImage
    ensures (!config.autoAdvance && n.lastNextImageState == config.nextImage &&
             n.lastPrevImageState == config.prevImage) ==> r == n
  {
    if config.autoAdvance then
      var direction :=
        if config.nextImage && !config.prevImage then 0
        else if !config.nextImage && config.prevImage then 1
        else 0;
      n.(direction := direction)
    else
      var frame :=
        if n.lastNextImageState != config.nextImage then Next(n.currentFrame, n.cacheSize, loop)
        else if n.lastPrevImageState != config.prevImage then Prev(n.currentFrame, n.cacheSize, loop)
        else n.currentFrame;
      n.(currentFrame := frame,
         lastNextImageState := config.nextImage,
         lastPrevImageState := config.prevImage)
  }

  /** The switches are edge-triggered: the same configuration delivered twice acts once. */
  lemma ReconfigureIdempotent(n: Node, config: Config, loop: bool)
    ensures Reconfigure(Reconfigure(n, config, loop), config, loop) == Reconfigure(n, config, loop)
  {
  }

  /** In manual mode, toggling next steps forward, with priority over a toggled prev. */
  lemma ToggledNextSteps(n: Node, config: Config, loop: bool)
    requires !config.autoAdvance && n.lastNextImageState != config.nextImage
    ensures Reconfigure(n, config, loop).currentFrame == Next(n.currentFrame, n.cacheSize, loop)
  {
  }

  /** In manual mode, toggling prev alone steps backward. */
  lemma ToggledPrevSteps(n: Node, config: Config, loop: bool)
    requires !config.autoAdvance && n.lastNextImageState == config.nextImage
    requires n.lastPrevImageState != config.prevImage
    ensures Reconfigure(n, config, loop).currentFrame == Prev(n.currentFrame, n.cacheSize, loop)
  {
  }

  /** The direction only ever holds 0 (forward) or 1 (backward). */
  lemma ReconfigureKeepsDirection(n: Node, config: Config, loop: bool)
    requires n.direction <= 1
    ensures Reconfigure(n, config, loop).direction <= 1
  {
  }

  /** Reconfiguring never moves the current frame out of a non-empty cache. */
  lemma ReconfigureKeepsInCache(n: Node, config: Config, loop: bool)
    requires InCache(n)
    ensures InCache(Reconfigure(n, config, loop))
  {
  }

  /**
   * `spinOnce`: with the images loaded and the current frame in the cache,
   * that frame is published and, under auto-advance, the frame steps in the
   * stored direction. Before the images are loaded the loader runs;
   * `loaded` and `size` are what it leaves in `images_loaded_` and the cache.
   */
  function Spin(n: Node, autoAdvance: bool, loop: bool, loaded: bool, size: Size): (r: (Node, Option<UInt>))
    ensures r.1.Some? <==> n.imagesLoaded && InCache(n)
    ensures r.1.Some? ==> r.1.value == n.currentFrame
    ensures n.imagesLoaded ==> r.0.imagesLoaded && r.0.cacheSize == n.cacheSize
    ensures n.imagesLoaded && !InCache(n) ==> r.0 == n
    ensures !n.imagesLoaded ==> r.0 == n.(imagesLoaded := loaded, cacheSize := size)
    ensures r.0.direction == n.direction
    ensures r.0.lastNextImageState == n.lastNextImageState && r.0.lastPrevImageState == n.lastPrevImageState
  {
    if n.imagesLoaded then
      if n.currentFrame < n.cacheSize then
        var frame :=
          if !autoAdvance then n.currentFrame
          else if n.direction == 0 then Next(n.currentFrame, n.cacheSize, loop)
          else if n.direction == 1 then Prev(n.currentFrame, n.cacheSize, loop)
          else n.currentFrame;
        (n.(currentFrame := frame), Some(n.currentFrame))
      else (n, None)
    else (n.(imagesLoaded := loaded, cacheSize := size), None)
  }

  /**
   * What a publishing spin does to the frame: nothing without auto-advance;
   * with it, one `nextFrame` in direction 0, one `prevFrame` in direction 1,
   * and nothing for any other direction value. Only the frame changes.
   */
  lemma SpinSteps(n: Node, autoAdvance: bool, loop: bool, loaded: bool, size: Size)
    requires n.imagesLoaded && InCache(n)
    ensures var r := Spin(n, autoAdvance, loop, loaded, size).0;
      && (!autoAdvance ==> r == n)
      && (autoAdvance && n.direction == 0 ==> r == n.(currentFrame := Next(n.currentFrame, n.cacheSize, loop)))
      && (autoAdvance && n.direction == 1 ==> r == n.(currentFrame := Prev(n.currentFrame, n.cacheSize, loop)))
      && (autoAdvance && 1 < n.direction ==> r == n)
  {
  }

  /** Once the images are loaded and the frame is in the cache, every later spin publishes. */
  lemma SpinKeepsPublishing(n: Node, autoAdvance: bool, loop: bool, loaded: bool, size: Size)
    requires n.imagesLoaded && InCache(n)
    ensures var next := Spin(n, autoAdvance, loop, loaded, size).0;
      next.imagesLoaded && InCache(next)
  {
  }

  /** `k` spins with images loaded under one configuration. */
  function SpinMany(n: Node, autoAdvance: bool, loop: bool, k: nat): Node
  {
    if k == 0 then n else Spin(SpinMany(n, autoAdvance, loop, k - 1), autoAdvance, loop, false, 0).0
  }

  /**
   * A forward looping slideshow: after `k` spins the frame is `k` on, modulo
   * the number of cached images.
   */
  lemma {:induction false} SlideShow(n: Node, k: nat)
    requires n.imagesLoaded && InCache(n) && n.direction == 0 && n.cacheSize <= UintLimit
    ensures SpinMany(n, true, true, k) == n.(currentFrame := Advance(n.currentFrame, n.cacheSize, true, k))
    decreases k
  {
    if k != 0 {
      SlideShow(n, k - 1);
      AdvanceCycles(n.currentFrame, n.cacheSize, k - 1);
    }
  }

  /**
   * A backward looping slideshow: after `k` spins the frame is `k` back,
   * modulo the number of cached images.
   */
  lemma {:induction false} SlideShowBackward(n: Node, k: nat)
    requires n.imagesLoaded && InCache(n) && n.direction == 1 && n.cacheSize <= UintLimit
    ensures SpinMany(n, true, true, k) == n.(currentFrame := Retreat(n.currentFrame, n.cacheSize, true, k))
    ensures SpinMany(n, true, true, k).currentFrame == (n.currentFrame - k) % n.cacheSize
    decreases k
  {
    RetreatCycles(n.currentFrame, n.cacheSize, k);
    if k != 0 {
      SlideShowBackward(n, k - 1);
    }
  }

  /** Without auto-advance, spinning a loaded node never moves its frame. */
  lemma {:induction false} ManualHolds(n: Node, loop: bool, k: nat)
    requires n.imagesLoaded
    ensures SpinMany(n, false, loop, k) == n
    decreases k
  {
    if k != 0 {
      ManualHolds(n, loop, k - 1);
    }
  }

  /**
   * A frame past the end of the loaded cache (reachable by toggling next
   * before the images are loaded) is never published again by spinning;
   * only a reconfiguration that toggles a switch can bring it back.
   */
  lemma {:induction false} StuckPastEnd(n: Node, autoAdvance: bool, loop: bool, k: nat)
    requires n.imagesLoaded && !InCache(n)
    ensures SpinMany(n, autoAdvance, loop, k) == n
    decreases k
  {
    if k != 0 {
      StuckPastEnd(n, autoAdvance, loop, k - 1);
    }
  }

  /** Toggling next on an empty cache still moves the frame, with 32-bit wrap-around. */
  lemma DriftOnEmptyCache(n: Node, config: Config, loop: bool)
    requires n.cacheSize == 0 && !config.autoAdvance && n.lastNextImageState != config.nextImage
    ensures Reconfigure(n, config, loop).currentFrame == (n.currentFrame + 1) % UintLimit
  {
  }

  // ---------------------------------------------------------------------
  // The node object.
  // ---------------------------------------------------------------------

  class ImageServerNode {
    var lastNextImageState: bool
    var lastPrevImageState: bool
    var currentFrame: UInt
    var direction: UInt
    /** `image_loader_.images_loaded_`. */
    var imagesLoaded: bool
    /** `image_loader_.image_cache_.size()`. */
    var cacheSize: Size

    function State(): Node
      reads this
    {
      Node(lastNextImageState, lastPrevImageState, currentFrame, direction, imagesLoaded, cacheSize)
    }

    /** The direction is forward (0) or backward (1). */
    predicate Valid()
      reads this
    {
      direction <= 1
    }

    /**
     * Both switch states off, frame 0, forward. `loaded` and `size` are the
     * image loader's state after its own construction.
     */
    constructor (loaded: bool, size: Size)
      ensures State() == Node(false, false, 0, 0, loaded, size)
      ensures Valid()
    {
      lastNextImageState := false;
      lastPrevImageState := false;
      currentFrame := 0;
      direction := 0;
      imagesLoaded := loaded;
      cacheSize := size;
    }

    method NextFrame(loop: bool)
      modifies this
      ensures State() == old(State()).(currentFrame := Next(old(currentFrame), cacheSize, loop))
    {
      if currentFrame < (cacheSize - 1) % SizeLimit {
        currentFrame := (currentFrame + 1) % UintLimit;
      } else if loop {
        currentFrame := 0;
      }
    }

    method PrevFrame(loop: bool)
      modifies this
      ensures State() == old(State()).(currentFrame := Prev(old(currentFrame), cacheSize, loop))
    {
      if currentFrame > 0 && cacheSize > 0 {
        currentFrame := currentFrame - 1;
      } else if loop {
        currentFrame := ((cacheSize - 1) % SizeLimit) % UintLimit;
      }
    }

    method ReconfigureCB(config: Config, loop: bool)
      modifies this
      ensures State() == Reconfigure(old(State()), config, loop)
      ensures old(Valid()) ==> Valid()
      ensures old(InCache(State())) ==> InCache(State())
    {
      if config.autoAdvance {
        if config.nextImage && !config.prevImage {
          direction := 0;
        } else if !config.nextImage && config.prevImage {
          direction := 1;
        } else {
          direction := 0;
        }
        return;
      }
      if lastNextImageState != config.nextImage {
        NextFrame(loop);
      } else if lastPrevImageState != config.prevImage {
        PrevFrame(loop);
      }
      lastNextImageState := config.nextImage;
      lastPrevImageState := config.prevImage;
    }

    /** Returns the index of the frame published, if any. */
    method SpinOnce(autoAdvance: bool, loop: bool, loaded: bool, size: Size) returns (published: Option<UInt>)
      modifies this
      ensures (State(), published) == Spin(old(State()), autoAdvance, loop, loaded, size)
      ensures old(Valid()) ==> Valid()
      ensures old(imagesLoaded && InCache(State())) ==> imagesLoaded && InCache(State())
    {
      published := None;
      if imagesLoaded {
        if currentFrame < cacheSize {
          published := Some(currentFrame);
          if autoAdvance {
            if direction == 0 {
              NextFrame(loop);
            } else if direction == 1 {
              PrevFrame(loop);
            }
          }
        }
      } else {
        imagesLoaded, cacheSize := loaded, size;
      }
    }
  }
}
