/** Animations, sprites and animated sprites (src/sprites.c).

    An `Animation` and a `Sprite` are plain C structs that the engine passes and copies
    by value, so they are datatypes here; the C functions that change one through a
    pointer take the old value and return the new one. An `AnimatedSprite` owns a heap
    buffer of animations that it updates in place, so it is a class over an array.
    Time is an exact real number of seconds. */
module Sprites {
  import opened Common
  import opened FrameTime

  // ---------------------------------------------------------------------------
  // Animation
  // ---------------------------------------------------------------------------

  /** `frames` is the (possibly NULL) pointer to the frame rectangles; `frameCount`
      is the separately stored count, which the caller may set independently. */
  datatype Animation = Animation(
    frames: Option<seq<Rect>>,
    frameCount: int,
    currentFrame: int,
    timer: real,
    frameDuration: real,
    loop: bool,
    finished: bool)

  /** `(Animation){0}`, returned when the frame buffer cannot be allocated. */
  const ZeroAnimation := Animation(None, 0, 0, 0.0, 0.0, false, false)

  /** The invariant the animation functions rely on and keep: the current frame is a
      valid index when there are frames, the frame buffer holds at least `frameCount`
      rectangles, and an animation that can advance has a positive frame duration
      (otherwise the accumulator loop of Anim_Update would not terminate). */
  ghost predicate WellFormed(a: Animation) {
    && (a.frameCount > 0 ==> 0 <= a.currentFrame < a.frameCount)
    && (a.frames.Some? ==> a.frameCount <= |a.frames.value|)
    && (a.frameCount > 1 ==> a.frameDuration > 0.0)
  }

  /** Anim_Update does anything at all only for an unfinished animation of two or more frames. */
  predicate Advances(a: Animation) {
    !a.finished && a.frameCount > 1
  }

  /** Anim_Create: wraps a caller-owned frame buffer; the frame duration is 1/fps. */
  function Create(frames: Option<seq<Rect>>, count: int, fps: real, loop: bool): (a: Animation)
    requires fps > 0.0
    ensures a.frames == frames && a.frameCount == count && a.loop == loop
    ensures a.currentFrame == 0 && a.timer == 0.0 && !a.finished
    ensures a.frameDuration > 0.0 && a.frameDuration * fps == 1.0
    ensures WellFormed(a) <==> (frames.Some? ==> count <= |frames.value|)
  {
    Animation(frames, count, 0, 0.0, 1.0 / fps, loop, false)
  }

  /** Frame `i` of a spritesheet laid out as a grid with `cols` columns, starting at
      grid row `row`: frames are taken row-major, `cols` per row. */
  function SheetFrame(frameW: int, frameH: int, cols: int, row: int, i: nat): (r: Rect)
    requires cols != 0
  {
    Rect((i % cols) * frameW, (row + i / cols) * frameH, frameW, frameH)
  }

  /** Anim_CreateFromSheet: allocates `count` rectangles and fills them with the grid
      frames. `allocOk` is the outcome of malloc; a negative count makes the C size
      computation wrap to a huge request, which is modelled as a failed allocation.
      For a non-negative index C's truncating `/` and `%` agree with Dafny's. */
  method CreateFromSheet(frameW: int, frameH: int, cols: int, row: int, count: int,
                         fps: real, loop: bool, allocOk: bool) returns (a: Animation)
    requires fps > 0.0
    requires count > 0 ==> cols != 0
    ensures !allocOk || count < 0 ==> a == ZeroAnimation
    ensures allocOk && count >= 0 ==>
      && a.frames.Some? && |a.frames.value| == count && a.frameCount == count
      && (forall i :: 0 <= i < count ==> a.frames.value[i] == SheetFrame(frameW, frameH, cols, row, i))
      && a == Create(a.frames, count, fps, loop)
    ensures WellFormed(a)
  {
    if !allocOk || count < 0 {
      return ZeroAnimation;
    }
    var buf := new Rect[count];
    for i := 0 to count
      invariant forall k :: 0 <= k < i ==> buf[k] == SheetFrame(frameW, frameH, cols, row, k)
    {
      buf[i] := Rect((i % cols) * frameW, (row + i / cols) * frameH, frameW, frameH);
    }
    a := Animation(Some(buf[..]), count, 0, 0.0, 1.0 / fps, loop, false);
  }

  /** What Anim_Update leaves behind, stated in closed form: with the accumulated time
      `t = timer + dt` holding `k` whole frame durations, a looping animation moves `k`
      frames forward modulo the frame count and keeps the remainder of `t`; a
      non-looping one moves `k` frames forward unless that would step past the last
      frame, in which case it stops on the last frame, marks itself finished and keeps
      the time left after the step that went past. */
  function Updated(a: Animation, dt: real): (r: Animation)
    requires WellFormed(a)
    ensures !Advances(a) ==> r == a
    ensures r == a.(currentFrame := r.currentFrame, timer := r.timer, finished := r.finished)
    ensures a.loop ==> r.finished == a.finished
    ensures Advances(a) ==> 0 <= r.currentFrame < a.frameCount
    ensures r.finished && !a.finished ==> r.currentFrame == a.frameCount - 1
  {
    if !Advances(a) then a
    else
      var d := a.frameDuration;
      var t := a.timer + dt;
      var k := WholeFrames(t, d);
      if a.loop then
        a.(currentFrame := (a.currentFrame + k) % a.frameCount, timer := t - Span(k, d))
      else if k < a.frameCount - a.currentFrame then
        a.(currentFrame := a.currentFrame + k, timer := t - Span(k, d))
      else
        var s := a.frameCount - a.currentFrame;
        a.(currentFrame := a.frameCount - 1, timer := t - Span(s, d), finished := true)
  }

  /** An update keeps the animation well formed and changes only the current frame,
      the accumulator and the finished flag; after it an advancing animation holds
      less than one frame duration unless it has just finished, never a negative
      accumulator when the time fed to it is not negative, and a finished animation
      rests on its last frame. */
  lemma UpdatedKeeps(a: Animation, dt: real)
    requires WellFormed(a)
    ensures var r := Updated(a, dt);
      && WellFormed(r)
      && (!Advances(a) ==> r == a)
      && r == a.(currentFrame := r.currentFrame, timer := r.timer, finished := r.finished)
      && (Advances(a) && !r.finished ==> r.timer < a.frameDuration)
      && (Advances(a) && 0.0 <= a.timer + dt ==> 0.0 <= r.timer)
      && (r.finished ==> a.finished || (!a.loop && r.currentFrame == a.frameCount - 1))
      && (a.loop ==> r.finished == a.finished)
  {
    var t, s := a.timer + dt, a.frameCount - a.currentFrame;
    if Advances(a) && !a.loop && s <= WholeFrames(t, a.frameDuration) {
      WholeFramesAtMost(t, a.frameDuration, s);
    }
  }

  /** Anim_Update: adds `dt` to the accumulator and, for as long as it holds a whole
      frame duration, subtracts one and advances one frame, wrapping or stopping at
      the end. */
  method AnimUpdate(a: Animation, dt: real) returns (r: Animation)
    requires WellFormed(a)
    ensures r == Updated(a, dt)
  {
    if a.finished || a.frameCount <= 1 {
      return a;
    }
    ghost var k;
    r, k := Accumulate(a, a.timer + dt);
    if !r.finished && a.loop {
      WrappedIsMod(a.currentFrame, a.frameCount, k);
    }
  }

  /** The accumulator loop of Anim_Update, run on the accumulated time `t`; `k` counts
      the frame durations it consumed. */
  method Accumulate(a: Animation, t: real) returns (r: Animation, ghost k: nat)
    requires WellFormed(a) && Advances(a)
    ensures r.finished ==>
      && !a.loop && k == a.frameCount - a.currentFrame && k <= WholeFrames(t, a.frameDuration)
      && r == a.(currentFrame := a.frameCount - 1, timer := t - Span(k, a.frameDuration), finished := true)
    ensures !r.finished ==>
      && WholeFrames(t, a.frameDuration) == k
      && (!a.loop ==> k < a.frameCount - a.currentFrame)
      && r == a.(currentFrame := r.currentFrame, timer := t - Span(k, a.frameDuration))
      && (a.loop ==> r.currentFrame == Wrapped(a.currentFrame, a.frameCount, k))
      && (!a.loop ==> r.currentFrame == a.currentFrame + k)
  {
    r := a.(timer := t);
    k := 0;
    while r.timer >= r.frameDuration
      invariant Accumulating(a, t, k, r)
      decreases WholeFrames(t, a.frameDuration) - k
    {
      AccumulateStep(a, t, k, r);
      r := r.(timer := r.timer - r.frameDuration, currentFrame := r.currentFrame + 1);
      k := k + 1;
      if r.currentFrame >= r.frameCount {
        if r.loop {
          r := r.(currentFrame := 0);
        } else {
          r := r.(currentFrame := r.frameCount - 1, finished := true);
          return;
        }
      }
    }
    WholeFramesExact(t, a.frameDuration, k);
  }

  /** The invariant of the accumulator loop after `k` runs. */
  ghost predicate Accumulating(a: Animation, t: real, k: nat, r: Animation) {
    && WellFormed(a) && Advances(a)
    && r == a.(currentFrame := r.currentFrame, timer := r.timer)
    && 0 <= r.currentFrame < r.frameCount
    && r.timer == t - Span(k, a.frameDuration)
    && (k > 0 ==> Span(k, a.frameDuration) <= t)
    && (a.loop ==> r.currentFrame == Wrapped(a.currentFrame, a.frameCount, k))
    && (!a.loop ==> r.currentFrame == a.currentFrame + k)
    && k <= WholeFrames(t, a.frameDuration)
  }

  /** One run of the accumulator loop keeps its invariant, or stops a non-looping
      animation after exactly as many runs as it had frames left. */
  lemma AccumulateStep(a: Animation, t: real, k: nat, r: Animation)
    requires Accumulating(a, t, k, r) && r.timer >= r.frameDuration
    ensures WholeFrames(t, a.frameDuration) >= k + 1
    ensures var s := r.(timer := r.timer - r.frameDuration, currentFrame := r.currentFrame + 1);
      && (s.currentFrame < s.frameCount ==> Accumulating(a, t, k + 1, s))
      && (s.currentFrame >= s.frameCount && a.loop ==> Accumulating(a, t, k + 1, s.(currentFrame := 0)))
      && (s.currentFrame >= s.frameCount && !a.loop ==> k + 1 == a.frameCount - a.currentFrame)
  {
    WholeFramesAtLeast(t, a.frameDuration, k + 1);
  }

  /** The frame index reached from `c` after `k` steps of the looping advance rule:
      one frame forward, back to 0 past the last one. */
  function Wrapped(c: int, n: int, k: nat): int {
    if k == 0 then c
    else
      var p := Wrapped(c, n, k - 1);
      if p + 1 >= n then 0 else p + 1
  }

  /** Stepping `k` frames one at a time with wrap-around is adding `k` modulo the count. */
  lemma {:induction false} WrappedIsMod(c: int, n: int, k: nat)
    requires 0 <= c < n
    ensures Wrapped(c, n, k) == (c + k) % n
  {
    if k == 0 {
      ModUnique(c, n, 0, c);
    } else {
      WrappedIsMod(c, n, k - 1);
      ModStep(c + k - 1, n);
    }
  }

  /** Anim_Reset: back to frame 0 with an empty accumulator, not finished. */
  function Reset(a: Animation): (r: Animation)
    ensures r.frames == a.frames && r.frameCount == a.frameCount
    ensures r.frameDuration == a.frameDuration && r.loop == a.loop
    ensures r.currentFrame == 0 && r.timer == 0.0 && !r.finished
    ensures WellFormed(a) ==> WellFormed(r)
  {
    a.(currentFrame := 0, timer := 0.0, finished := false)
  }

  /** Anim_CurrentFrame: the rectangle of the current frame, or the zero rectangle
      when there is no frame buffer or no frame. */
  function CurrentFrame(a: Animation): (r: Rect)
    requires WellFormed(a)
    ensures a.frames.None? || a.frameCount <= 0 ==> r == ZeroRect
    ensures a.frames.Some? && a.frameCount > 0 ==> r in a.frames.value[..a.frameCount]
    ensures a.frames.Some? && a.frameCount > 0 ==>
      0 <= a.currentFrame < a.frameCount && r == a.frames.value[a.currentFrame]
  {
    if a.frames.None? || a.frameCount <= 0 then ZeroRect
    else a.frames.value[a.currentFrame]
  }

  /** Anim_Free: drops the frame buffer and the count. The current frame, the timer
      and the flags are left as they were. */
  function FreeFrames(a: Animation): (r: Animation)
    ensures r.frames.None? && r.frameCount == 0
    ensures r.currentFrame == a.currentFrame && r.timer == a.timer && r.finished == a.finished
    ensures WellFormed(r) && !Advances(r) && CurrentFrame(r) == ZeroRect
  {
    a.(frames := None, frameCount := 0)
  }

  // --- properties of the animation state machine -----------------------------

  /** A finished animation ignores every update until it is reset, and after the
      reset it advances again. */
  lemma FinishedUntilReset(a: Animation, dt: real)
    requires WellFormed(a) && a.finished
    ensures Updated(a, dt) == a
    ensures a.frameCount > 1 ==> Advances(Reset(a))
  {
  }

  /** Whatever an update did, a reset afterwards lands in the same state as a reset
      without it. */
  lemma ResetForgetsUpdates(a: Animation, dt: real)
    requires WellFormed(a)
    ensures Reset(Updated(a, dt)) == Reset(a)
  {
  }

  /** Time fed to a looping animation exactly `n` frame durations at a time from an
      empty accumulator advances it `n` frames modulo the frame count and leaves the
      accumulator empty. */
  lemma LoopingWholeDurations(a: Animation, n: nat)
    requires WellFormed(a) && Advances(a) && a.loop && a.timer == 0.0
    ensures Updated(a, n as real * a.frameDuration).currentFrame == (a.currentFrame + n) % a.frameCount
    ensures Updated(a, n as real * a.frameDuration).timer == 0.0
  {
    SpanIsProduct(n, a.frameDuration);
    WholeFramesExact(0.0 + n as real * a.frameDuration, a.frameDuration, n);
  }

  /** Splitting the elapsed time of a looping animation into two updates ends in the
      same state as one update with the sum: the accumulator loop keeps animation time
      in step with wall-clock time however the frames are sliced. */
  lemma LoopingUpdatesCompose(a: Animation, d1: real, d2: real)
    requires WellFormed(a) && Advances(a) && a.loop
    requires a.timer >= 0.0 && d1 >= 0.0 && d2 >= 0.0
    ensures Updated(Updated(a, d1), d2) == Updated(a, d1 + d2)
  {
    var d := a.frameDuration;
    var k1 := WholeFrames(a.timer + d1, d);
    var k2 := WholeFrames(a.timer + d1 - Span(k1, d) + d2, d);
    WholeFramesSplit(a.timer, d1, d2, d);
    ModAdd(a.currentFrame, k1, k2, a.frameCount);
  }

  /** A 48x16 sheet holding three 16x16 frames in its first row, played at 15 frames
      per second and looping, shows frame floor(0.2 * 15) mod 3 = 0 after 0.2 s. */
  lemma ThreeFrameSheetExample(frames: seq<Rect>)
    requires frames == [SheetFrame(16, 16, 3, 0, 0), SheetFrame(16, 16, 3, 0, 1), SheetFrame(16, 16, 3, 0, 2)]
    ensures frames[2] == Rect(32, 0, 16, 16)
    ensures Updated(Create(Some(frames), 3, 15.0, true), 0.2).currentFrame == 0
  {
    var a := Create(Some(frames), 3, 15.0, true);
    SpanIsProduct(3, a.frameDuration);
    WholeFramesExact(0.2, a.frameDuration, 3);
  }

  // ---------------------------------------------------------------------------
  // Sprite
  // ---------------------------------------------------------------------------

  datatype Flip = FlipNone | FlipHorizontal | FlipVertical

  /** SDL_FRect: the destination rectangle, in floating-point screen coordinates. */
  datatype FRect = FRect(x: real, y: real, w: real, h: real)

  /** A non-owning texture reference, the region sampled from it (`src`), where and
      how large it is drawn (`dst`), a flip mode and a rotation angle. */
  datatype Sprite = Sprite(texture: Option<Texture>, src: Rect, dst: FRect, flip: Flip, angle: real)

  /** The sprite of a zeroed AnimatedSprite. */
  const ZeroSprite := Sprite(None, ZeroRect, FRect(0.0, 0.0, 0.0, 0.0), FlipNone, 0.0)

  /** Sprite_Create: the sprite is drawn at (x, y) at the size of its source region,
      unflipped and unrotated. */
  function SpriteCreate(tex: Option<Texture>, src: Rect, x: real, y: real): (s: Sprite)
    ensures s.texture == tex && s.src == src && s.flip == FlipNone && s.angle == 0.0
    ensures s.dst.x == x && s.dst.y == y
    ensures s.dst.w == src.w as real && s.dst.h == src.h as real
  {
    Sprite(tex, src, FRect(x, y, src.w as real, src.h as real), FlipNone, 0.0)
  }

  /** Sprite_CreateFull: the whole texture, whose size (w, h) is what the size query
      of the renderer reports. */
  function SpriteCreateFull(tex: Option<Texture>, w: int, h: int, x: real, y: real): (s: Sprite)
    ensures s == SpriteCreate(tex, Rect(0, 0, w, h), x, y)
  {
    Sprite(tex, Rect(0, 0, w, h), FRect(x, y, w as real, h as real), FlipNone, 0.0)
  }

  /** Sprite_SetPos: moves the destination rectangle; its size and the rest stay. */
  function SetPos(s: Sprite, x: real, y: real): (r: Sprite)
    ensures r.dst.x == x && r.dst.y == y && r.dst.w == s.dst.w && r.dst.h == s.dst.h
    ensures r.texture == s.texture && r.src == s.src && r.flip == s.flip && r.angle == s.angle
  {
    s.(dst := s.dst.(x := x, y := y))
  }

  /** Sprite_SetFlip: changes only the flip mode. */
  function SetFlip(s: Sprite, flip: Flip): (r: Sprite)
    ensures r.flip == flip
    ensures r.texture == s.texture && r.src == s.src && r.dst == s.dst && r.angle == s.angle
  {
    s.(flip := flip)
  }

  // ---------------------------------------------------------------------------
  // AnimatedSprite
  // ---------------------------------------------------------------------------

  /** The effect of ASprite_Play on the animation buffer and the current index: an
      index out of range, or the index already playing, changes nothing (so the
      running animation keeps its timer); any other index becomes current and that
      animation is reset. */
  function Played(anims: seq<Animation>, current: int, index: int): (r: (seq<Animation>, int))
    ensures |r.0| == |anims|
    ensures index < 0 || index >= |anims| || index == current ==> r == (anims, current)
    ensures 0 <= index < |anims| && index != current ==>
      r.1 == index && r.0[index] == Reset(anims[index])
      && forall i :: 0 <= i < |anims| && i != index ==> r.0[i] == anims[i]
  {
    if index < 0 || index >= |anims| || index == current then (anims, current)
    else (anims[index := Reset(anims[index])], index)
  }

  /** Playing the same animation twice in a row is the same as playing it once. */
  lemma PlayTwiceIsPlayOnce(anims: seq<Animation>, current: int, index: int)
    ensures var once := Played(anims, current, index);
      Played(once.0, once.1, index) == once
  {
  }

  class AnimatedSprite {
    var sprite: Sprite
    var animations: array?<Animation>
    var animCount: int
    var currentAnim: int

    /** The animations as a sequence (empty once the buffer is gone). */
    ghost function Anims(): seq<Animation>
      reads this, animations
    {
      if animations == null then [] else animations[..]
    }

    ghost predicate Valid()
      reads this, animations
    {
      && (animations == null ==> animCount == 0)
      && (animations != null ==> animations.Length == animCount)
      && (animCount > 0 ==> 0 <= currentAnim < animCount)
      && (forall i :: 0 <= i < |Anims()| ==> WellFormed(Anims()[i]))
    }

    /** ASprite_Create: copies the first `count` animations into a buffer of its own
        and starts on animation 0, showing the first frame of the first animation
        (or the zero rectangle when it has none). `allocOk` is the outcome of malloc;
        a failed allocation (a negative count included) gives the zeroed struct. */
    constructor (tex: Option<Texture>, anims: seq<Animation>, count: int, x: real, y: real, allocOk: bool)
      requires count <= |anims|
      requires forall i :: 0 <= i < count ==> WellFormed(anims[i])
      ensures Valid()
      ensures !allocOk || count < 0 ==>
        animations == null && animCount == 0 && currentAnim == 0 && sprite == ZeroSprite
      ensures allocOk && count >= 0 ==>
        && animations != null && fresh(animations) && Anims() == anims[..count]
        && animCount == count && currentAnim == 0
        && sprite == SpriteCreate(tex, InitialFrame(anims, count), x, y)
    {
      if !allocOk || count < 0 {
        sprite, animations, animCount, currentAnim := ZeroSprite, null, 0, 0;
      } else {
        var copy := new Animation[count];
        for i := 0 to count
          invariant forall k :: 0 <= k < i ==> copy[k] == anims[k]
        {
          copy[i] := anims[i];
        }
        sprite := SpriteCreate(tex, InitialFrame(anims, count), x, y);
        animations, animCount, currentAnim := copy, count, 0;
        assert copy[..] == anims[..count];
      }
    }

    /** ASprite_Play. */
    method Play(animIndex: int)
      requires Valid()
      modifies this, animations
      ensures Valid()
      ensures animations == old(animations) && animCount == old(animCount) && sprite == old(sprite)
      ensures (Anims(), currentAnim) == Played(old(Anims()), old(currentAnim), animIndex)
    {
      if animIndex < 0 || animIndex >= animCount {
        return;
      }
      if currentAnim == animIndex {
        return;
      }
      currentAnim := animIndex;
      animations[animIndex] := Reset(animations[animIndex]);
    }

    /** ASprite_Update: advances the current animation and copies its current frame
        into the sprite's source rectangle. */
    method Update(dt: real)
      requires Valid()
      modifies this, animations
      ensures Valid()
      ensures animations == old(animations) && animCount == old(animCount) && currentAnim == old(currentAnim)
      ensures animCount <= 0 ==> sprite == old(sprite) && Anims() == old(Anims())
      ensures animCount > 0 ==>
        && Anims() == old(Anims())[currentAnim := Updated(old(Anims())[currentAnim], dt)]
        && sprite == old(sprite).(src := CurrentFrame(Anims()[currentAnim]))
    {
      if animCount <= 0 {
        return;
      }
      assert animations[currentAnim] == Anims()[currentAnim];
      var next := AnimUpdate(animations[currentAnim], dt);
      UpdatedKeeps(animations[currentAnim], dt);
      animations[currentAnim] := next;
      sprite := sprite.(src := CurrentFrame(next));
    }

    /** ASprite_Free: frees the frames of every animation, then drops the buffer. */
    method Free()
      requires Valid()
      modifies this, animations
      ensures Valid()
      ensures animations == null && animCount == 0
      ensures sprite == old(sprite) && currentAnim == old(currentAnim)
      ensures old(animations) != null ==>
        forall i :: 0 <= i < old(animations).Length ==> old(animations)[i] == FreeFrames(old(animations[i]))
    {
      if animations != null {
        var buf := animations;
        for i := 0 to animCount
          invariant forall k :: 0 <= k < i ==> buf[k] == FreeFrames(old(buf[k]))
          invariant forall k :: i <= k < buf.Length ==> buf[k] == old(buf[k])
          invariant animations == buf && sprite == old(sprite) && currentAnim == old(currentAnim)
        {
          buf[i] := FreeFrames(buf[i]);
        }
      }
      animations := null;
      animCount := 0;
    }
  }

  /** The source rectangle an AnimatedSprite starts with: the first frame of the first
      animation when there is one, the zero rectangle otherwise. */
  function InitialFrame(anims: seq<Animation>, count: int): (r: Rect)
    requires count <= |anims|
    ensures count > 0 && anims[0].frames.Some? && anims[0].frameCount > 0 && |anims[0].frames.value| > 0
      ==> r == anims[0].frames.value[0]
    ensures !(count > 0 && anims[0].frames.Some? && anims[0].frameCount > 0) ==> r == ZeroRect
  {
    if count > 0 && anims[0].frames.Some? && anims[0].frameCount > 0 && |anims[0].frames.value| > 0
    then anims[0].frames.value[0]
    else ZeroRect
  }
}
