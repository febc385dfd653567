/** The engine loop of src/engine.c and main.c: event dispatch, frame pacing and the
    order of the start-up steps.

    The globals INSTANCE, Last_frame, deltatime and MarioLib are the fields of the
    class `Engine`. SDL's event queue is the sequence of events `SDL_PollEvent` hands
    out before it reports the queue empty; SDL_GetTicks readings are given as Uint32
    values; the outcome of each start-up call is an input; Mix_PlayChannel is recorded
    as the chunk it is asked to play. Drawing (Game_Render) does nothing this model can
    see. */
module Engine {
  import opened Common
  import opened Events
  import Config
  import opened Sound

  // ---------------------------------------------------------------------------
  // Event dispatch (Game_KeyboardInput)
  // ---------------------------------------------------------------------------

  /** The sound library MarioLib can be read by the digit keys: when it is not NULL its
      array exists and holds at least `n` slots. What initSfxLib returns is such a
      library (`InitialisedPlayable`), and Game_Destroy sets it back to NULL. */
  predicate Playable(lib: Option<Lib<Chunk>>) {
    lib.Some? ==> lib.value.slots.Some? && LibShaped(lib.value)
  }

  lemma InitialisedPlayable(audioOk: bool, listing: Option<seq<Option<string>>>, libAlloc: bool,
                            arrayAlloc: bool, loads: seq<Option<Chunk>>)
    requires listing.Some? ==> |listing.value| <= |loads|
    ensures Playable(Initialised(audioOk, listing, libAlloc, arrayAlloc, loads))
  {
  }

  /** The chunk a digit key with this index plays: the library is not NULL, the index
      is below its count and that slot is not NULL. */
  function SfxAt(lib: Option<Lib<Chunk>>, index: int): (r: Option<Chunk>)
    requires Playable(lib) && 0 <= index
    ensures r.Some? <==> lib.Some? && index < lib.value.n && lib.value.slots.value[index].Some?
    ensures r.Some? ==> r == lib.value.slots.value[index]
  {
    if lib.Some? && index < lib.value.n then lib.value.slots.value[index] else None
  }

  /** The events that clear INSTANCE: SDL_QUIT and the Escape key. */
  predicate Stops(e: Event) {
    e.Quit? || (e.KeyDown? && e.key == KeyEscape)
  }

  /** The chunk an event plays: keys 1 to 9 play slots 0 to 8. */
  function SoundOf(lib: Option<Lib<Chunk>>, e: Event): Option<Chunk>
    requires Playable(lib)
  {
    if e.KeyDown? && Key1 <= e.key <= Key9 then SfxAt(lib, e.key - Key1) else None
  }

  /** One turn of the poll loop: the new INSTANCE and the chunk handed to
      Mix_PlayChannel, if any. Only Quit and Escape clear INSTANCE, nothing sets it,
      and only digit keys play; key-up, wheel, mouse and other events change nothing. */
  function Step(instance: bool, lib: Option<Lib<Chunk>>, e: Event): (r: (bool, Option<Chunk>))
    requires Playable(lib)
    ensures r.0 <==> instance && !Stops(e)
    ensures r.1 == SoundOf(lib, e)
    ensures !e.Quit? && !e.KeyDown? ==> r == (instance, None)
  {
    match e
    case Quit => (false, None)
    case KeyDown(key) =>
      (if key == KeyEscape then false else instance,
       if Key1 <= key <= Key9 then SfxAt(lib, key - Key1) else None)
    case _ => (instance, None)
  }

  /** A digit key plays the slot one below its digit exactly when the library is not
      NULL, the index is below `n` and the slot is not NULL. */
  lemma DigitKeyPlays(instance: bool, lib: Option<Lib<Chunk>>, d: int, c: Chunk)
    requires Playable(lib) && 1 <= d <= 9
    ensures Step(instance, lib, KeyDown(Key1 + d - 1)).1 == Some(c) <==>
      lib.Some? && d - 1 < lib.value.n && lib.value.slots.value[d - 1] == Some(c)
  {
  }

  /** Draining the event queue: the final INSTANCE and the chunks played, in order. */
  function Polled(instance: bool, lib: Option<Lib<Chunk>>, events: seq<Event>): (r: (bool, seq<Chunk>))
    requires Playable(lib)
    ensures |r.1| <= |events|
    ensures r.0 ==> instance
    decreases |events|
  {
    if events == [] then (instance, [])
    else
      var (next, sound) := Step(instance, lib, events[0]);
      var rest := Polled(next, lib, events[1..]);
      (rest.0, (if sound.Some? then [sound.value] else []) + rest.1)
  }

  /** INSTANCE survives a poll exactly when it held before and no event of the queue is
      a Quit or an Escape. */
  lemma {:induction false} PolledInstance(instance: bool, lib: Option<Lib<Chunk>>, events: seq<Event>)
    requires Playable(lib)
    ensures Polled(instance, lib, events).0 <==> instance && forall i :: 0 <= i < |events| ==> !Stops(events[i])
    decreases |events|
  {
    if events != [] {
      var next := Step(instance, lib, events[0]).0;
      PolledInstance(next, lib, events[1..]);
      assert forall i :: 1 <= i < |events| ==> events[i] == events[1..][i - 1];
    }
  }

  /** The chunks played are those of the digit keys in the queue, in order, whatever
      INSTANCE is: a Quit or an Escape does not stop the queue from being drained, so
      digit keys behind it still play. */
  lemma {:induction false} PolledSounds(instance: bool, lib: Option<Lib<Chunk>>, events: seq<Event>)
    requires Playable(lib)
    ensures Polled(instance, lib, events).1 == Present(seq(|events|, i requires 0 <= i < |events| => SoundOf(lib, events[i])))
    decreases |events|
  {
    if events != [] {
      var n := |events| - 1;
      var last := events[..n];
      var s := seq(|events|, i requires 0 <= i < |events| => SoundOf(lib, events[i]));
      var sl := seq(|last|, i requires 0 <= i < |last| => SoundOf(lib, last[i]));
      assert s[..n] == sl;
      PolledSounds(instance, lib, last);
      PolledSnoc(instance, lib, events, n);
      assert events[..n + 1] == events;
    }
  }

  /** Draining a queue in two polls is draining it in one. */
  lemma {:induction false} PolledSplit(instance: bool, lib: Option<Lib<Chunk>>, a: seq<Event>, b: seq<Event>)
    requires Playable(lib)
    ensures var first := Polled(instance, lib, a);
      var second := Polled(first.0, lib, b);
      Polled(instance, lib, a + b) == (second.0, first.1 + second.1)
    decreases |a|
  {
    if a == [] {
      assert a + b == b;
      assert [] + Polled(instance, lib, b).1 == Polled(instance, lib, b).1;
    } else {
      assert (a + b)[0] == a[0] && (a + b)[1..] == a[1..] + b;
      var (next, sound) := Step(instance, lib, a[0]);
      PolledSplit(next, lib, a[1..], b);
      var head := if sound.Some? then [sound.value] else [];
      var first := Polled(next, lib, a[1..]);
      var second := Polled(first.0, lib, b);
      assert head + (first.1 + second.1) == (head + first.1) + second.1;
    }
  }

  /** Draining one more event after a prefix of the queue. */
  lemma PolledSnoc(instance: bool, lib: Option<Lib<Chunk>>, events: seq<Event>, k: int)
    requires Playable(lib) && 0 <= k < |events|
    ensures var p := Polled(instance, lib, events[..k]);
      var st := Step(p.0, lib, events[k]);
      Polled(instance, lib, events[..k + 1]) == (st.0, if st.1.Some? then p.1 + [st.1.value] else p.1)
  {
    var p := Polled(instance, lib, events[..k]);
    var one := [events[k]];
    PolledSplit(instance, lib, events[..k], one);
    assert events[..k] + one == events[..k + 1];
    assert one[0] == events[k] && one[1..] == [];
    var st := Step(p.0, lib, events[k]);
    var head := if st.1.Some? then [st.1.value] else [];
    assert Polled(p.0, lib, one) == (st.0, head + []);
    assert head + [] == head && p.1 + [] == p.1;
  }

  // ---------------------------------------------------------------------------
  // Frame pacing (Game_UpdateFrame)
  // ---------------------------------------------------------------------------

  const TwoTo32 := 0x1_0000_0000

  /** A value of SDL_GetTicks: a Uint32. */
  predicate IsTick(t: int) {
    0 <= t < TwoTo32
  }

  /** Uint32 arithmetic: the result reduced modulo 2^32. */
  function U32(x: int): (r: int)
    ensures IsTick(r)
  {
    x % TwoTo32
  }

  /** A Uint32 stored into an int (two's complement). */
  function ToInt32(u: int): (r: int)
    requires IsTick(u)
    ensures -0x8000_0000 <= r < 0x8000_0000 && U32(r) == u
  {
    if u < 0x8000_0000 then u else u - TwoTo32
  }

  /** The milliseconds deltatime is computed from: `actualTime - Last_frame` with
      Last_frame converted to Uint32. */
  function DeltaMs(actualTime: int, lastFrame: int): int {
    U32(actualTime - lastFrame)
  }

  /** Last_frame stores each frame's tick reading, so the next frame measures the
      Uint32 difference of the two readings, which is their plain difference unless
      the tick counter wrapped between them. */
  lemma DeltaBetweenFrames(t1: int, t2: int)
    requires IsTick(t1) && IsTick(t2)
    ensures DeltaMs(t2, ToInt32(t1)) == U32(t2 - t1)
    ensures t1 <= t2 ==> DeltaMs(t2, ToInt32(t1)) == t2 - t1
    ensures t2 < t1 ==> DeltaMs(t2, ToInt32(t1)) == t2 - t1 + TwoTo32
  {
  }

  /** The SDL_Delay of a frame that started at tick `start` and reaches its end at tick
      `now`: WaitTime is `FRAME_TIME_MS - (now - start)` in Uint32 arithmetic stored into
      an int, and the delay happens only when 0 < WaitTime <= FRAME_TIME_MS. */
  function Delay(start: int, now: int): (r: Option<int>)
    requires IsTick(start) && IsTick(now)
    ensures r.Some? <==> U32(now - start) < Config.FrameTimeMs
    ensures r.Some? ==> r.value == Config.FrameTimeMs - U32(now - start)
    ensures r.Some? ==> 0 < r.value <= Config.FrameTimeMs
  {
    var elapsed := U32(now - start);
    var waitTime := ToInt32(U32(Config.FrameTimeMs - elapsed));
    if 0 < waitTime <= Config.FrameTimeMs then Some(waitTime) else None
  }

  /** FRAME_TIME_MS is 16 (1000 / 60 in integer division); a frame that took less pads
      itself to exactly 16 ms, and one that took 16 ms or more does not wait. */
  lemma FramePadding(start: int, now: int)
    requires IsTick(start) && IsTick(now) && start <= now
    ensures Config.FrameTimeMs == 16
    ensures now - start < 16 ==> Delay(start, now) == Some(16 - (now - start))
    ensures now - start >= 16 ==> Delay(start, now).None?
  {
  }

  // ---------------------------------------------------------------------------
  // Start-up (Game_Init)
  // ---------------------------------------------------------------------------

  /** The calls of Game_Init, in order. */
  datatype InitStep = LoadConfig | SdlInit | ImgInit | AudioInit | CreateWindow | CreateRenderer | TtfInit

  const InitOrder := [LoadConfig, SdlInit, ImgInit, AudioInit, CreateWindow, CreateRenderer, TtfInit]

  /** Whether each call succeeds. */
  datatype Outcomes = Outcomes(config: bool, sdl: bool, img: bool, audio: bool,
                               window: bool, renderer: bool, ttf: bool)

  function Succeeds(o: Outcomes, s: InitStep): bool {
    match s
    case LoadConfig => o.config
    case SdlInit => o.sdl
    case ImgInit => o.img
    case AudioInit => o.audio
    case CreateWindow => o.window
    case CreateRenderer => o.renderer
    case TtfInit => o.ttf
  }

  /** Every step but initAudio ends Game_Init when it fails. */
  predicate Fatal(s: InitStep) {
    s != AudioInit
  }

  /** The steps run, from `steps`: each in turn, up to and including the first fatal
      step that fails. */
  function Attempted(steps: seq<InitStep>, o: Outcomes): (r: seq<InitStep>)
    ensures |r| <= |steps| && r == steps[..|r|]
    ensures steps != [] ==> r != []
    ensures forall i :: 0 <= i < |r| - 1 ==> !Fatal(r[i]) || Succeeds(o, r[i])
    ensures |r| < |steps| ==> Fatal(r[|r| - 1]) && !Succeeds(o, r[|r| - 1])
  {
    if steps == [] then []
    else if Fatal(steps[0]) && !Succeeds(o, steps[0]) then [steps[0]]
    else [steps[0]] + Attempted(steps[1..], o)
  }

  /** Game_Init succeeds exactly when every fatal step does. */
  predicate InitOk(o: Outcomes) {
    o.config && o.sdl && o.img && o.window && o.renderer && o.ttf
  }

  /** How many calls Game_Init makes. */
  function CallsMade(o: Outcomes): nat {
    if !o.config then 1 else if !o.sdl then 2 else if !o.img then 3
    else if !o.window then 5 else if !o.renderer then 6 else 7
  }

  /** The calls from initAudio on: initAudio never stops Game_Init. */
  lemma {:induction false} AttemptedFromAudio(o: Outcomes)
    ensures Attempted(InitOrder[3..], o) == InitOrder[3..CallsMade(o)]
    requires o.config && o.sdl && o.img
  {
    var t3 := [AudioInit, CreateWindow, CreateRenderer, TtfInit];
    var t4 := [CreateWindow, CreateRenderer, TtfInit];
    var t5 := [CreateRenderer, TtfInit];
    var t6 := [TtfInit];
    assert InitOrder[3..] == t3 && t3[1..] == t4 && t4[1..] == t5 && t5[1..] == t6 && t6[1..] == [];
    var a5 := Attempted(t5, o);
    var a4 := Attempted(t4, o);
    assert Attempted(t6, o) == [TtfInit];
    assert [CreateRenderer] + [TtfInit] == [CreateRenderer, TtfInit];
    assert a5 == if !o.renderer then [CreateRenderer] else [CreateRenderer, TtfInit];
    assert a4 == if !o.window then [CreateWindow] else [CreateWindow] + a5;
    assert Attempted(t3, o) == [AudioInit] + a4;
  }

  /** The steps attempted are the first CallsMade steps of the order. */
  lemma {:induction false} AttemptedPrefix(o: Outcomes)
    ensures Attempted(InitOrder, o) == InitOrder[..CallsMade(o)]
  {
    var t1 := [SdlInit, ImgInit, AudioInit, CreateWindow, CreateRenderer, TtfInit];
    var t2 := [ImgInit, AudioInit, CreateWindow, CreateRenderer, TtfInit];
    assert InitOrder[1..] == t1 && t1[1..] == t2 && t2[1..] == InitOrder[3..];
    if o.config && o.sdl && o.img {
      AttemptedFromAudio(o);
      assert Attempted(t2, o) == [ImgInit] + InitOrder[3..CallsMade(o)];
    }
    assert Attempted(t1, o) == if !o.sdl then [SdlInit] else [SdlInit] + Attempted(t2, o);
  }

  /** Game_Init: runs the calls in order and returns false at the first fatal failure;
      `attempted` lists the calls made. */
  method GameInit(o: Outcomes) returns (ok: bool, attempted: seq<InitStep>)
    ensures ok == InitOk(o)
    ensures attempted == Attempted(InitOrder, o)
  {
    AttemptedPrefix(o);
    ok := false;
    attempted := [LoadConfig];
    if !o.config {
      return;
    }
    attempted := attempted + [SdlInit];
    if !o.sdl {
      return;
    }
    attempted := attempted + [ImgInit];
    if !o.img {
      return;
    }
    attempted := attempted + [AudioInit];     // the result of initAudio is not looked at
    attempted := attempted + [CreateWindow];
    if !o.window {
      return;
    }
    attempted := attempted + [CreateRenderer];
    if !o.renderer {
      return;
    }
    attempted := attempted + [TtfInit];
    if !o.ttf {
      return;
    }
    ok := true;
  }

  /** Loading the configuration always comes first; a successful start runs every
      step; a failed one ends at a fatal step that failed, after every earlier fatal
      step succeeded; and the outcome of initAudio changes nothing. */
  lemma InitOrdering(o: Outcomes, audio: bool)
    ensures var a := Attempted(InitOrder, o);
      && a[0] == LoadConfig
      && (InitOk(o) ==> a == InitOrder)
      && (!InitOk(o) ==> Fatal(a[|a| - 1]) && !Succeeds(o, a[|a| - 1]))
      && (forall i :: 0 <= i < |a| - 1 ==> !Fatal(a[i]) || Succeeds(o, a[i]))
    ensures Attempted(InitOrder, o.(audio := audio)) == Attempted(InitOrder, o)
    ensures InitOk(o.(audio := audio)) == InitOk(o)
  {
    AttemptedPrefix(o);
    AttemptedPrefix(o.(audio := audio));
    var a := Attempted(InitOrder, o);
    assert InitOk(o) ==> a == InitOrder[..7] == InitOrder;
  }

  // ---------------------------------------------------------------------------
  // The main loop
  // ---------------------------------------------------------------------------

  /** The frames main runs, one queue of events per frame, while INSTANCE holds: each
      frame is run; the loop stops after the first frame whose queue clears INSTANCE.
      Returns the number of frames run and the chunks played. */
  function Session(lib: Option<Lib<Chunk>>, frames: seq<seq<Event>>): (r: (nat, seq<Chunk>))
    requires Playable(lib)
    ensures r.0 <= |frames|
    decreases |frames|
  {
    if frames == [] then (0, [])
    else
      var (alive, played) := Polled(true, lib, frames[0]);
      if alive then
        var rest := Session(lib, frames[1..]);
        (1 + rest.0, played + rest.1)
      else (1, played)
  }

  /** The loop stops at the first frame with a Quit or an Escape: the frames behind it
      are never run, and without such a frame every frame runs. */
  lemma {:induction false} SessionStops(lib: Option<Lib<Chunk>>, frames: seq<seq<Event>>, k: nat)
    requires Playable(lib) && k <= |frames|
    requires forall j, i :: 0 <= j < k && 0 <= i < |frames[j]| ==> !Stops(frames[j][i])
    ensures k < |frames| && (exists i :: 0 <= i < |frames[k]| && Stops(frames[k][i])) ==>
      Session(lib, frames).0 == k + 1
    ensures k == |frames| ==> Session(lib, frames).0 == |frames|
    decreases k
  {
    if frames != [] {
      PolledInstance(true, lib, frames[0]);
      if k > 0 {
        assert forall j, i :: 0 <= j < k - 1 && 0 <= i < |frames[1..][j]| ==>
          frames[1..][j][i] == frames[j + 1][i];
        SessionStops(lib, frames[1..], k - 1);
      }
    }
  }

  /** One frame of a session: the first frame's poll, then the rest if INSTANCE held. */
  lemma SessionStep(lib: Option<Lib<Chunk>>, frames: seq<seq<Event>>, i: nat)
    requires Playable(lib) && i < |frames|
    ensures var p := Polled(true, lib, frames[i]);
      var rest := Session(lib, frames[i + 1..]);
      Session(lib, frames[i..]) == if p.0 then (1 + rest.0, p.1 + rest.1) else (1, p.1)
  {
    assert frames[i..][0] == frames[i];
    assert frames[i..][1..] == frames[i + 1..];
  }

  class Engine {
    /** INSTANCE. */
    var instance: bool
    /** Last_frame (an int). */
    var lastFrame: int
    /** deltatime, in seconds. */
    var deltatime: real
    /** MarioLib. */
    var lib: Option<Lib<Chunk>>

    ghost predicate Valid()
      reads this
    {
      Playable(lib)
    }

    /** The globals' initial values: INSTANCE true, Last_frame 0, deltatime 0, MarioLib NULL. */
    constructor ()
      ensures Valid()
      ensures instance && lastFrame == 0 && deltatime == 0.0 && lib.None?
    {
      instance := true;
      lastFrame := 0;
      deltatime := 0.0;
      lib := None;
    }

    /** Game_Setup: MarioLib is what initSfxLib returned. */
    method Setup(loaded: Option<Lib<Chunk>>)
      requires Playable(loaded)
      modifies this
      ensures Valid() && lib == loaded
      ensures instance == old(instance) && lastFrame == old(lastFrame) && deltatime == old(deltatime)
    {
      lib := loaded;
    }

    /** Game_KeyboardInput over the queue `events`; returns the chunks passed to
        Mix_PlayChannel, in order. */
    method KeyboardInput(events: seq<Event>) returns (played: seq<Chunk>)
      requires Valid()
      modifies this
      ensures Valid() && lib == old(lib) && lastFrame == old(lastFrame) && deltatime == old(deltatime)
      ensures (instance, played) == Polled(old(instance), lib, events)
    {
      played := [];
      for k := 0 to |events|
        invariant Valid() && lib == old(lib) && lastFrame == old(lastFrame) && deltatime == old(deltatime)
        invariant (instance, played) == Polled(old(instance), lib, events[..k])
      {
        PolledSnoc(old(instance), lib, events, k);
        var played1 := HandleEvent(events[k]);
        if played1.Some? {
          played := played + [played1.value];
        }
      }
      assert events[..|events|] == events;
    }

    /** One turn of the switch of Game_KeyboardInput; returns the chunk passed to
        Mix_PlayChannel, if any. */
    method HandleEvent(event: Event) returns (played: Option<Chunk>)
      requires Valid()
      modifies this
      ensures Valid() && lib == old(lib) && lastFrame == old(lastFrame) && deltatime == old(deltatime)
      ensures (instance, played) == Step(old(instance), lib, event)
    {
      played := None;
      match event {
        case Quit =>
          instance := false;
        case KeyDown(key) =>
          if key == KeyEscape {
            instance := false;
          }
          if Key1 <= key <= Key9 {
            var index := key - Key1;
            if lib.Some? && index < lib.value.n && lib.value.slots.value[index].Some? {
              played := lib.value.slots.value[index];
            }
          }
        case _ =>
      }
    }

    /** Game_UpdateFrame, with the two SDL_GetTicks readings; returns the SDL_Delay it
        makes, if any. */
    method UpdateFrame(actualTime: int, now: int) returns (delay: Option<int>)
      requires IsTick(actualTime) && IsTick(now)
      modifies this
      ensures instance == old(instance) && lib == old(lib)
      ensures deltatime == DeltaMs(actualTime, old(lastFrame)) as real / 1000.0
      ensures lastFrame == ToInt32(actualTime)
      ensures delay == Delay(actualTime, now)
    {
      deltatime := U32(actualTime - lastFrame) as real / 1000.0;
      lastFrame := ToInt32(actualTime);
      var waitTime := ToInt32(U32(Config.FrameTimeMs - U32(now - actualTime)));
      delay := None;
      if waitTime > 0 && waitTime <= Config.FrameTimeMs {
        delay := Some(waitTime);
      }
    }

    /** Game_Destroy: frees the sound library (returning the chunks released) and sets
        MarioLib to NULL. */
    method Destroy() returns (released: seq<Chunk>)
      requires Valid()
      modifies this
      ensures Valid() && lib.None? && instance == old(instance)
      ensures released == if old(lib).Some? then ReleasedBy(old(lib).value) else []
    {
      var _, freed := FreeSfxLib(lib);
      released := freed;
      lib := None;
    }

    /** One pass of main's loop: Game_KeyboardInput, Game_UpdateFrame and Game_Render
        (which changes nothing here); returns the chunks played. */
    method Frame(events: seq<Event>, actualTime: int, now: int) returns (played: seq<Chunk>)
      requires Valid() && IsTick(actualTime) && IsTick(now)
      modifies this
      ensures Valid() && lib == old(lib)
      ensures (instance, played) == Polled(old(instance), lib, events)
    {
      played := KeyboardInput(events);
      var _ := UpdateFrame(actualTime, now);
    }

    /** The `while (INSTANCE)` loop of main, from INSTANCE set. */
    method Loop(frames: seq<seq<Event>>, ticks: seq<(int, int)>) returns (framesRun: nat, played: seq<Chunk>)
      requires Valid() && instance
      requires |ticks| == |frames| && forall i :: 0 <= i < |ticks| ==> IsTick(ticks[i].0) && IsTick(ticks[i].1)
      modifies this
      ensures Valid() && lib == old(lib)
      ensures (framesRun, played) == Session(lib, frames)
    {
      framesRun, played := 0, [];
      assert frames[0..] == frames;
      assert [] + Session(lib, frames).1 == Session(lib, frames).1;
      while instance && framesRun < |frames|
        invariant Valid() && lib == old(lib) && framesRun <= |frames|
        invariant instance ==> (framesRun + Session(lib, frames[framesRun..]).0,
                                played + Session(lib, frames[framesRun..]).1) == Session(lib, frames)
        invariant !instance ==> (framesRun, played) == Session(lib, frames)
        decreases |frames| - framesRun
      {
        SessionStep(lib, frames, framesRun);
        var sounds := Frame(frames[framesRun], ticks[framesRun].0, ticks[framesRun].1);
        ghost var rest := Session(lib, frames[framesRun + 1..]);
        assert played + (sounds + rest.1) == (played + sounds) + rest.1;
        played := played + sounds;
        framesRun := framesRun + 1;
      }
      assert instance ==> frames[framesRun..] == [] && played + [] == played;
    }

    /** main: INSTANCE is what Game_Init returns; on success Game_Setup installs
        `loaded`, the loop runs input, update and render for each frame while INSTANCE
        holds (frame `i` has the queue `frames[i]` and the tick readings `ticks[i]`), and
        Game_Destroy runs; on failure the program exits before any of them. */
    method Run(o: Outcomes, loaded: Option<Lib<Chunk>>, frames: seq<seq<Event>>, ticks: seq<(int, int)>)
      returns (ok: bool, framesRun: nat, played: seq<Chunk>, released: seq<Chunk>)
      requires Playable(loaded)
      requires |ticks| == |frames| && forall i :: 0 <= i < |ticks| ==> IsTick(ticks[i].0) && IsTick(ticks[i].1)
      modifies this
      ensures ok == InitOk(o)
      ensures !ok ==> framesRun == 0 && played == [] && released == [] && lib == old(lib)
      ensures ok ==> (framesRun, played) == Session(loaded, frames)
      ensures ok ==> lib.None? && released == if loaded.Some? then ReleasedBy(loaded.value) else []
    {
      var attempted;
      ok, attempted := GameInit(o);
      instance := ok;
      played, released := [], [];
      framesRun := 0;
      if !ok {
        return;
      }
      Setup(loaded);
      framesRun, played := Loop(frames, ticks);
      released := Destroy();
    }
  }
}
