/** The frame-debug viewport and the debug menu of src/debugging.c.

    The C module keeps its state in file-level statics: which panels are open, the
    heap-allocated selector rectangle (`framePointer`), the texture library being
    browsed, the Nuklear-edited image number and frame size, the zoom and the
    drag-to-pan bookkeeping. That state is the class `DebugTools`; each of its methods
    is proved to move the state exactly as a function on `View`, a snapshot of the
    fields, says, and the properties of the debug tools are lemmas about those
    functions.

    Inputs from outside are parameters: the texture-library inputs of initTextureLib,
    the outcome of the selector's malloc, whether a mouse press falls inside the
    zoomed sprite (a float computation in C), and the values the Nuklear property
    widgets hand back. Zoom is an exact real. */
module Debugging {
  import opened Common
  import opened Events
  import opened Img

  const ZoomMin := 0.1
  const ZoomMax := 10.0
  /** How much one wheel step changes the zoom. */
  const ZoomStep := 0.1
  /** The frame size a fresh viewport starts with. */
  const DefaultFrameSize := 16

  /** A snapshot of the module's state. */
  datatype View = View(
    menuActive: bool,
    frameActive: bool,
    perfActive: bool,
    fontActive: bool,
    selector: Option<Rect>,     // framePointer
    sprites: TextureLib,
    imageNum: int,              // inputImageNum
    frameW: int,                // inputFrameW
    frameH: int,                // inputFrameH
    zoom: real,
    panX: int,
    panY: int,
    dragging: bool,
    lastMouseX: int,
    lastMouseY: int)

  /** The static initialisers. */
  const Initial := View(false, false, false, false, None, EmptyLib, 0, DefaultFrameSize, DefaultFrameSize,
                        1.0, 0, 0, false, 0, 0)

  /** What the module keeps true: the zoom is within its clamp, the library can be
      freed, and the viewport is active exactly when a selector exists, in which case
      the library is complete and the image number selects one of its images. */
  predicate ValidView(v: View) {
    && ZoomMin <= v.zoom <= ZoomMax
    && Shaped(v.sprites)
    && (v.frameActive <==> v.selector.Some?)
    && (v.frameActive ==> Complete(v.sprites) && 0 <= v.imageNum < v.sprites.n)
  }

  /** Rectangle `i` of a library; off the library (which a valid state never asks for)
      it is the empty rectangle. */
  function RectAt(lib: TextureLib, i: int): (r: Rect)
    ensures lib.rects.Some? && 0 <= i < |lib.rects.value| && lib.rects.value[i].Some? ==> r == lib.rects.value[i].value
  {
    if lib.rects.Some? && 0 <= i < |lib.rects.value| && lib.rects.value[i].Some? then lib.rects.value[i].value
    else ZeroRect
  }

  /** The size of the image being browsed. */
  function ImageRect(v: View): (r: Rect)
    requires ValidView(v) && v.frameActive
  {
    v.sprites.rects.value[v.imageNum].value
  }

  // ---------------------------------------------------------------------------
  // Selector, zoom and pan steps
  // ---------------------------------------------------------------------------

  /** The wrap-around of one selector coordinate against its largest allowed value:
      below 0 wraps to the far end, beyond it wraps to 0. */
  function WrapAxis(v: int, maxV: int): (r: int)
    ensures maxV >= 0 ==> 0 <= r <= maxV
    ensures 0 <= v <= maxV ==> r == v
    ensures v < 0 ==> r == maxV
    ensures v > maxV && maxV >= 0 ==> r == 0
  {
    if v < 0 then maxV else if v > maxV then 0 else v
  }

  /** A key press while the viewport is active: an arrow key moves the selector by its
      own width or height, and then, whatever the key, both coordinates are wrapped. */
  function Stepped(fp: Rect, key: int, maxX: int, maxY: int): (r: Rect)
    ensures r.w == fp.w && r.h == fp.h
    ensures maxX >= 0 ==> 0 <= r.x <= maxX
    ensures maxY >= 0 ==> 0 <= r.y <= maxY
    ensures key == ArrowRight && 0 <= fp.x + fp.w <= maxX && 0 <= fp.y <= maxY ==> r == fp.(x := fp.x + fp.w)
    ensures key == ArrowLeft && 0 <= fp.x - fp.w <= maxX && 0 <= fp.y <= maxY ==> r == fp.(x := fp.x - fp.w)
    ensures key == ArrowDown && 0 <= fp.x <= maxX && 0 <= fp.y + fp.h <= maxY ==> r == fp.(y := fp.y + fp.h)
    ensures key == ArrowUp && 0 <= fp.x <= maxX && 0 <= fp.y - fp.h <= maxY ==> r == fp.(y := fp.y - fp.h)
    ensures key == ArrowLeft && fp.x - fp.w < 0 ==> r.x == maxX
    ensures key == ArrowRight && 0 <= maxX < fp.x + fp.w ==> r.x == 0
    ensures key == ArrowUp && fp.y - fp.h < 0 ==> r.y == maxY
    ensures key == ArrowDown && 0 <= maxY < fp.y + fp.h ==> r.y == 0
    ensures key !in {ArrowLeft, ArrowRight, ArrowUp, ArrowDown} && 0 <= fp.x <= maxX && 0 <= fp.y <= maxY
      ==> r == fp
  {
    var x := if key == ArrowLeft then fp.x - fp.w else if key == ArrowRight then fp.x + fp.w else fp.x;
    var y := if key == ArrowUp then fp.y - fp.h else if key == ArrowDown then fp.y + fp.h else fp.y;
    fp.(x := WrapAxis(x, maxX), y := WrapAxis(y, maxY))
  }

  /** A step right followed by a step left returns the selector to where it was, as
      long as neither step has to wrap. */
  lemma RightThenLeft(fp: Rect, maxX: int, maxY: int)
    requires 0 <= fp.x && 0 <= fp.w && fp.x + fp.w <= maxX && 0 <= fp.y <= maxY
    ensures Stepped(Stepped(fp, ArrowRight, maxX, maxY), ArrowLeft, maxX, maxY) == fp
  {
  }

  /** Stepping right from the last position that fits wraps back to the left edge. */
  lemma RightWrapsToZero(fp: Rect, maxX: int, maxY: int)
    requires fp.w > 0 && 0 <= maxX && fp.x == maxX && 0 <= fp.y <= maxY
    ensures Stepped(fp, ArrowRight, maxX, maxY).x == 0
  {
  }

  /** Stepping left from the left edge wraps to the last position that fits. */
  lemma LeftWrapsToMax(fp: Rect, maxX: int, maxY: int)
    requires fp.w > 0 && fp.x == 0 && 0 <= fp.y <= maxY
    ensures Stepped(fp, ArrowLeft, maxX, maxY) == fp.(x := maxX)
  {
  }

  /** A wheel event: the scroll amount, negated for a flipped wheel, changes the zoom by
      ZoomStep per unit, and the result is clamped to [ZoomMin, ZoomMax]. */
  function Zoomed(zoom: real, preciseY: real, flipped: bool): (z: real)
    ensures ZoomMin <= z <= ZoomMax
    ensures var dy := if flipped then -preciseY else preciseY;
      ZoomMin <= zoom + dy * ZoomStep <= ZoomMax ==> z == zoom + dy * ZoomStep
    ensures var dy := if flipped then -preciseY else preciseY;
      zoom + dy * ZoomStep < ZoomMin ==> z == ZoomMin
    ensures var dy := if flipped then -preciseY else preciseY;
      zoom + dy * ZoomStep > ZoomMax ==> z == ZoomMax
  {
    var dy := if flipped then -preciseY else preciseY;
    var z := zoom + dy * ZoomStep;
    if z < ZoomMin then ZoomMin else if z > ZoomMax then ZoomMax else z
  }

  /** Scrolling back by the same amount undoes a scroll that did not hit the clamp. */
  lemma ZoomUndo(zoom: real, preciseY: real, flipped: bool)
    requires var dy := if flipped then -preciseY else preciseY;
      ZoomMin <= zoom <= ZoomMax && ZoomMin <= zoom + dy * ZoomStep <= ZoomMax
    ensures Zoomed(Zoomed(zoom, preciseY, flipped), -preciseY, flipped) == zoom
  {
  }

  /** A mouse motion while dragging: the pan moves by exactly the mouse delta and the
      motion becomes the last known position, so pan minus last position is kept. */
  function Dragged(pan: int, last: int, pos: int): (r: (int, int))
    ensures r.1 == pos
    ensures r.0 - r.1 == pan - last
  {
    (pan + (pos - last), pos)
  }

  /** Two motions pan as far as one motion straight to the second position. */
  lemma DragComposes(pan: int, last: int, a: int, b: int)
    ensures var m := Dragged(pan, last, a); Dragged(m.0, m.1, b) == Dragged(pan, last, b)
  {
  }

  /** NK_CLAMP, which nk_property_int applies to an edited value. */
  function ClampNk(lo: int, v: int, hi: int): (r: int)
    ensures lo <= hi ==> lo <= r <= hi
    ensures lo <= v <= hi ==> r == v
  {
    var m := if v < hi then v else hi;
    if m < lo then lo else m
  }

  /** A property widget: `None` when the user left it alone (the value is kept as it
      is), otherwise the value the user dragged or typed, clamped. */
  function Edited(cur: int, edit: Option<int>, lo: int, hi: int): (r: int)
    ensures edit.None? ==> r == cur
    ensures edit.Some? && lo <= hi ==> lo <= r <= hi
  {
    if edit.None? then cur else ClampNk(lo, edit.value, hi)
  }

  /** One frame dimension after its property widget (from 1 to `limit`); when the image
      changed, the image-change block also lowers it to at most `limit`. */
  function Resized(cur: int, edit: Option<int>, limit: int, newImage: bool): (r: int)
    ensures edit.None? && !newImage ==> r == cur
    ensures edit.Some? && 1 <= limit ==> 1 <= r <= limit
    ensures newImage ==> r <= limit
  {
    var s := Edited(cur, edit, 1, limit);
    if newImage && s > limit then limit else s
  }

  // ---------------------------------------------------------------------------
  // The module's operations on a View
  // ---------------------------------------------------------------------------

  /** exitFrameDebug: frees the selector and the library and closes the viewport.
      The second result lists the textures destroyed. */
  function Exited(v: View): (r: (View, seq<Texture>))
    requires ValidView(v)
    ensures ValidView(r.0)
    ensures !r.0.frameActive && r.0.selector.None? && r.0.sprites == EmptyLib
    ensures r.1 == DestroyedBy(v.sprites)
  {
    (v.(selector := None, sprites := EmptyLib, frameActive := false), DestroyedBy(v.sprites))
  }

  /** Exiting twice is exiting once: the second time there is nothing left to free. */
  lemma ExitTwice(v: View)
    requires ValidView(v)
    ensures Exited(Exited(v).0) == (Exited(v).0, [])
  {
  }

  /** toggleDebugMenu: shuts the viewport, the performance metrics and the font debug
      panel, and flips the menu. */
  function MenuToggled(v: View): (r: (View, seq<Texture>))
    requires ValidView(v)
    ensures ValidView(r.0)
    ensures r.0.menuActive == !v.menuActive
    ensures !r.0.frameActive && !r.0.perfActive && !r.0.fontActive
    ensures r.1 == DestroyedBy(v.sprites)
  {
    var e := Exited(v);
    (e.0.(perfActive := false, fontActive := false, menuActive := !v.menuActive), e.1)
  }

  /** A fresh viewport's image, frame size, zoom and pan. */
  function ViewportReset(v: View): View {
    v.(imageNum := 0, frameW := DefaultFrameSize, frameH := DefaultFrameSize, zoom := 1.0, panX := 0, panY := 0)
  }

  /** toggleFrameDebug once the viewport is off and the library has been loaded: an
      empty library leaves the viewport off; a loaded one resets the image number,
      frame size, zoom and pan, and the viewport opens if the selector can be
      allocated. */
  function Opened(v: View, loaded: TextureLib, selectorAlloc: bool): (r: View)
    ensures r.sprites == loaded
    ensures loaded.n <= 0 ==> r == v.(sprites := loaded)
    ensures loaded.n > 0 ==>
      && r.imageNum == 0 && r.frameW == DefaultFrameSize && r.frameH == DefaultFrameSize
      && r.zoom == 1.0 && r.panX == 0 && r.panY == 0
    ensures loaded.n > 0 && selectorAlloc ==>
      r.frameActive && r.selector == Some(Rect(0, 0, DefaultFrameSize, DefaultFrameSize))
    ensures !(loaded.n > 0 && selectorAlloc) ==> r.frameActive == v.frameActive && r.selector == v.selector
    ensures r.menuActive == v.menuActive && r.perfActive == v.perfActive && r.fontActive == v.fontActive
      && r.dragging == v.dragging && r.lastMouseX == v.lastMouseX && r.lastMouseY == v.lastMouseY
  {
    if loaded.n <= 0 then v.(sprites := loaded)
    else
      var reset := ViewportReset(v.(sprites := loaded));
      if !selectorAlloc then reset
      else reset.(selector := Some(Rect(0, 0, DefaultFrameSize, DefaultFrameSize)), frameActive := true)
  }

  /** toggleFrameDebug: an active viewport is exited, otherwise the library `loaded`
      (with the textures its loading destroyed) is installed and the viewport opened. */
  function FrameToggled(v: View, loaded: TextureLib, loadDestroyed: seq<Texture>, selectorAlloc: bool)
    : (r: (View, seq<Texture>))
    requires ValidView(v) && Shaped(loaded) && (loaded.n > 0 ==> Complete(loaded))
    ensures ValidView(r.0)
  {
    if v.frameActive then Exited(v) else (Opened(v, loaded, selectorAlloc), loadDestroyed)
  }

  /** Toggling the viewport on: it opens on image 0 with a 16x16 selector at the origin,
      zoom 1 and no pan exactly when the library loaded something and the selector is
      allocated; toggling it off is exiting. */
  lemma FrameToggleOutcome(v: View, loaded: TextureLib, loadDestroyed: seq<Texture>, selectorAlloc: bool)
    requires ValidView(v) && Shaped(loaded) && (loaded.n > 0 ==> Complete(loaded))
    ensures var r := FrameToggled(v, loaded, loadDestroyed, selectorAlloc).0;
      && (v.frameActive ==> r == Exited(v).0)
      && (!v.frameActive ==> (r.frameActive <==> selectorAlloc && loaded.n > 0) && r.sprites == loaded)
      && (r.frameActive && !v.frameActive ==>
            && r.imageNum == 0 && r.frameW == DefaultFrameSize && r.frameH == DefaultFrameSize
            && r.zoom == 1.0 && r.panX == 0 && r.panY == 0
            && r.selector == Some(Rect(0, 0, DefaultFrameSize, DefaultFrameSize)))
  {
  }

  /** A key other than F3: ignored while the viewport is off, otherwise the selector
      steps and wraps within the image. */
  function KeyStepped(v: View, key: int): (r: View)
    requires ValidView(v)
    ensures ValidView(r)
    ensures !v.frameActive ==> r == v
    ensures r == v.(selector := r.selector)
    ensures v.frameActive ==> r.selector == Some(Stepped(v.selector.value, key,
      ImageRect(v).w - v.selector.value.w, ImageRect(v).h - v.selector.value.h))
  {
    if !v.frameActive then v
    else
      var img := ImageRect(v);
      var fp := v.selector.value;
      v.(selector := Some(Stepped(fp, key, img.w - fp.w, img.h - fp.h)))
  }

  /** A mouse press: a left press on the sprite of an active viewport starts a drag. */
  function Pressed(v: View, button: int, x: int, y: int, inside: bool): (r: View)
    ensures v.frameActive && button == ButtonLeft && inside ==>
      r == v.(dragging := true, lastMouseX := x, lastMouseY := y)
    ensures !(v.frameActive && button == ButtonLeft && inside) ==> r == v
  {
    if !v.frameActive || button != ButtonLeft || !inside then v
    else v.(dragging := true, lastMouseX := x, lastMouseY := y)
  }

  /** A mouse release: a left release ends any drag. */
  function Released(v: View, button: int): (r: View)
    ensures button == ButtonLeft ==> !r.dragging
    ensures r == v.(dragging := r.dragging)
    ensures button != ButtonLeft ==> r == v
  {
    if button == ButtonLeft then v.(dragging := false) else v
  }

  /** A mouse motion: while dragging, both axes pan by the mouse delta. */
  function Moved(v: View, x: int, y: int): (r: View)
    ensures !v.dragging ==> r == v
    ensures v.dragging ==>
      && r.lastMouseX == x && r.lastMouseY == y
      && r.panX - r.lastMouseX == v.panX - v.lastMouseX && r.panY - r.lastMouseY == v.panY - v.lastMouseY
    ensures r == v.(panX := r.panX, panY := r.panY, lastMouseX := r.lastMouseX, lastMouseY := r.lastMouseY)
  {
    if !v.dragging then v
    else
      var dx := Dragged(v.panX, v.lastMouseX, x);
      var dy := Dragged(v.panY, v.lastMouseY, y);
      v.(panX := dx.0, lastMouseX := dx.1, panY := dy.0, lastMouseY := dy.1)
  }

  /** A wheel event: zooms an active viewport. */
  function Scrolled(v: View, preciseY: real, flipped: bool): (r: View)
    ensures !v.frameActive ==> r == v
    ensures r == v.(zoom := r.zoom)
    ensures v.frameActive ==> ZoomMin <= r.zoom <= ZoomMax
  {
    if !v.frameActive then v else v.(zoom := Zoomed(v.zoom, preciseY, flipped))
  }

  /** handleDebugEvent. `inside` says whether a mouse press lands on the zoomed sprite. */
  function Handled(v: View, e: Event, inside: bool): (r: (View, seq<Texture>))
    requires ValidView(v)
    ensures ValidView(r.0)
  {
    match e
    case KeyDown(key) => if key == KeyF3 then MenuToggled(v) else (KeyStepped(v, key), [])
    case MouseButtonDown(button, x, y) => (Pressed(v, button, x, y, inside), [])
    case MouseButtonUp(button, _, _) => (Released(v, button), [])
    case MouseMotion(x, y) => (Moved(v, x, y), [])
    case MouseWheel(preciseY, flipped) => (Scrolled(v, preciseY, flipped), [])
    case _ => (v, [])
  }

  /** F3 always toggles the menu, whatever else is open. */
  lemma F3TogglesMenu(v: View, inside: bool)
    requires ValidView(v)
    ensures Handled(v, KeyDown(KeyF3), inside) == MenuToggled(v)
  {
  }

  /** While the viewport is off, keys other than F3 and the wheel change nothing. */
  lemma InactiveIgnoresInput(v: View, e: Event, inside: bool)
    requires ValidView(v) && !v.frameActive
    requires (e.KeyDown? && e.key != KeyF3) || e.MouseWheel? || e.MouseButtonDown?
    ensures Handled(v, e, inside) == (v, [])
  {
  }

  /** After any key press other than F3 on an active viewport, the selector lies within
      the image whenever the selector fits in it at all. */
  lemma KeyKeepsSelectorInImage(v: View, key: int, inside: bool)
    requires ValidView(v) && v.frameActive && key != KeyF3
    ensures var r := Handled(v, KeyDown(key), inside).0;
      var img := ImageRect(v);
      && r.selector.Some? && r.selector.value.w == v.selector.value.w && r.selector.value.h == v.selector.value.h
      && (img.w - r.selector.value.w >= 0 ==> 0 <= r.selector.value.x && r.selector.value.x + r.selector.value.w <= img.w)
      && (img.h - r.selector.value.h >= 0 ==> 0 <= r.selector.value.y && r.selector.value.y + r.selector.value.h <= img.h)
  {
  }

  /** Drag-to-pan: a left press on the sprite starts a drag at the press position; while
      dragging, every motion pans by the mouse delta, keeping pan minus last position;
      a left release ends the drag whether or not the viewport is active. */
  lemma DragPans(v: View, x: int, y: int, inside: bool)
    requires ValidView(v)
    ensures var r := Handled(v, MouseButtonDown(ButtonLeft, x, y), inside).0;
      v.frameActive && inside ==> r.dragging && r.lastMouseX == x && r.lastMouseY == y
    ensures var r := Handled(v, MouseMotion(x, y), inside).0;
      v.dragging ==>
        && r.panX == v.panX + (x - v.lastMouseX) && r.panY == v.panY + (y - v.lastMouseY)
        && r.panX - r.lastMouseX == v.panX - v.lastMouseX && r.panY - r.lastMouseY == v.panY - v.lastMouseY
    ensures !Handled(v, MouseButtonUp(ButtonLeft, x, y), inside).0.dragging
  {
  }

  /** Only the menu toggle frees anything. */
  lemma OnlyF3Frees(v: View, e: Event, inside: bool)
    requires ValidView(v) && e != KeyDown(KeyF3)
    ensures Handled(v, e, inside).1 == []
  {
  }

  /** The open panel of renderFrameDebug: the three property widgets (image number
      within the library, frame size from 1 to the image's size), then the
      image-change block, which moves the selector to the origin and shrinks the frame
      size to fit the new image. */
  function PanelEdited(v: View, imageEdit: Option<int>, wEdit: Option<int>, hEdit: Option<int>): (r: View)
    ensures imageEdit.None? && wEdit.None? && hEdit.None? ==> r == v
    ensures imageEdit.Some? && v.sprites.n > 0 ==> 0 <= r.imageNum < v.sprites.n
    ensures var rect := RectAt(v.sprites, r.imageNum);
      && (wEdit.Some? && rect.w >= 1 ==> 1 <= r.frameW <= rect.w)
      && (hEdit.Some? && rect.h >= 1 ==> 1 <= r.frameH <= rect.h)
    ensures r.imageNum != v.imageNum ==>
      && r.frameW <= RectAt(v.sprites, r.imageNum).w
      && r.frameH <= RectAt(v.sprites, r.imageNum).h
      && (r.selector.Some? <==> v.selector.Some?)
      && (r.selector.Some? ==> r.selector.value == v.selector.value.(x := 0, y := 0))
    ensures r.imageNum == v.imageNum ==> r.selector == v.selector
    ensures r == v.(imageNum := r.imageNum, frameW := r.frameW, frameH := r.frameH, selector := r.selector)
  {
    var img := Edited(v.imageNum, imageEdit, 0, v.sprites.n - 1);
    var rect := RectAt(v.sprites, img);
    var newImage := img != v.imageNum;
    v.(imageNum := img,
       frameW := Resized(v.frameW, wEdit, rect.w, newImage),
       frameH := Resized(v.frameH, hEdit, rect.h, newImage),
       selector := if newImage then Moved0(v.selector) else v.selector)
  }

  /** The selector moved to the origin. */
  function Moved0(selector: Option<Rect>): Option<Rect> {
    match selector
    case Some(fp) => Some(fp.(x := 0, y := 0))
    case None => None
  }

  /** renderFrameDebug without its drawing: the selector first takes the frame size;
      a panel the user closed exits the viewport. */
  function Rendered(v: View, panelOpen: bool, imageEdit: Option<int>, wEdit: Option<int>, hEdit: Option<int>)
    : (r: (View, seq<Texture>))
    requires ValidView(v)
    ensures ValidView(r.0)
  {
    if !v.frameActive then (v, [])
    else
      var sized := v.(selector := Some(v.selector.value.(w := v.frameW, h := v.frameH)));
      if !panelOpen then Exited(sized) else (PanelEdited(sized, imageEdit, wEdit, hEdit), [])
  }

  /** Changing the image resets the selector to the origin and leaves a frame size no
      larger than the new image. */
  lemma ImageChangeResets(v: View, imageEdit: Option<int>, wEdit: Option<int>, hEdit: Option<int>)
    requires ValidView(v) && v.frameActive
    ensures var r := Rendered(v, true, imageEdit, wEdit, hEdit).0;
      r.imageNum != v.imageNum ==>
        && r.selector.value.x == 0 && r.selector.value.y == 0
        && r.frameW <= ImageRect(r).w && r.frameH <= ImageRect(r).h
  {
  }

  /** Closing the panel is exiting the viewport. */
  lemma ClosedPanelExits(v: View, imageEdit: Option<int>, wEdit: Option<int>, hEdit: Option<int>)
    requires ValidView(v) && v.frameActive
    ensures Rendered(v, false, imageEdit, wEdit, hEdit) == Exited(v)
  {
  }

  // ---------------------------------------------------------------------------
  // The module state
  // ---------------------------------------------------------------------------

  class DebugTools {
    var menuActive: bool
    var frameActive: bool
    var perfActive: bool
    var fontActive: bool
    var selector: Option<Rect>
    var sprites: TextureLib
    var imageNum: int
    var frameW: int
    var frameH: int
    var zoom: real
    var panX: int
    var panY: int
    var dragging: bool
    var lastMouseX: int
    var lastMouseY: int

    ghost function State(): View
      reads this
    {
      View(menuActive, frameActive, perfActive, fontActive, selector, sprites, imageNum, frameW, frameH,
           zoom, panX, panY, dragging, lastMouseX, lastMouseY)
    }

    ghost predicate Valid()
      reads this
    {
      ValidView(State())
    }

    /** The static initialisers. */
    constructor ()
      ensures Valid() && State() == Initial
    {
      menuActive, frameActive, perfActive, fontActive := false, false, false, false;
      selector, sprites := None, EmptyLib;
      imageNum, frameW, frameH := 0, DefaultFrameSize, DefaultFrameSize;
      zoom, panX, panY := 1.0, 0, 0;
      dragging, lastMouseX, lastMouseY := false, 0, 0;
    }

    /** exitFrameDebug. */
    method ExitFrameDebug() returns (destroyed: seq<Texture>)
      requires Valid()
      modifies this
      ensures Valid()
      ensures (State(), destroyed) == Exited(old(State()))
    {
      if selector.Some? {
        selector := None;
      }
      var freed;
      freed, destroyed := FreeTextureLib(Some(sprites));
      sprites := freed.value;
      frameActive := false;
    }

    /** toggleDebugMenu. */
    method ToggleDebugMenu() returns (destroyed: seq<Texture>)
      requires Valid()
      modifies this
      ensures Valid()
      ensures (State(), destroyed) == MenuToggled(old(State()))
    {
      destroyed := ExitFrameDebug();
      perfActive := false;
      fontActive := false;
      menuActive := !menuActive;
    }

    /** toggleFrameDebug, with the inputs of initTextureLib and of the selector's malloc. */
    method ToggleFrameDebug(listing: Option<seq<string>>, texturesAlloc: bool, rectsAlloc: bool,
                            images: seq<ImageLoad>, selectorAlloc: bool) returns (destroyed: seq<Texture>)
      requires Valid() && FileCount(listing) <= |images|
      modifies this
      ensures Valid()
      ensures var (lib, loadDestroyed) := Initialised(listing, texturesAlloc, rectsAlloc, images);
        (State(), destroyed) == FrameToggled(old(State()), lib, loadDestroyed, selectorAlloc)
    {
      if frameActive {
        destroyed := ExitFrameDebug();
        return;
      }
      var lib;
      lib, destroyed := InitTextureLib(listing, texturesAlloc, rectsAlloc, images);
      OpenViewport(lib, selectorAlloc);
    }

    /** The part of toggleFrameDebug after initTextureLib. */
    method OpenViewport(lib: TextureLib, selectorAlloc: bool)
      modifies this
      ensures State() == Opened(old(State()), lib, selectorAlloc)
    {
      sprites := lib;
      if lib.n <= 0 {
        return;
      }
      ResetViewport();
      if selectorAlloc {
        selector := Some(Rect(0, 0, frameW, frameH));
        frameActive := true;
      }
    }

    /** The resets of toggleFrameDebug once a library has been loaded. */
    method ResetViewport()
      modifies this
      ensures State() == ViewportReset(old(State()))
    {
      imageNum, frameW, frameH := 0, DefaultFrameSize, DefaultFrameSize;
      zoom, panX, panY := 1.0, 0, 0;
    }

    /** handleDebugEvent. */
    method HandleDebugEvent(e: Event, inside: bool) returns (destroyed: seq<Texture>)
      requires Valid()
      modifies this
      ensures Valid()
      ensures (State(), destroyed) == Handled(old(State()), e, inside)
    {
      destroyed := [];
      match e {
        case KeyDown(key) =>
          if key == KeyF3 {
            destroyed := ToggleDebugMenu();
          } else {
            StepSelector(key);
          }
        case MouseButtonDown(button, x, y) =>
          PressMouse(button, x, y, inside);
        case MouseButtonUp(button, _, _) =>
          if button == ButtonLeft {
            dragging := false;
          }
        case MouseMotion(x, y) =>
          MoveMouse(x, y);
        case MouseWheel(preciseY, flipped) =>
          ScrollWheel(preciseY, flipped);
        case _ =>
      }
    }

    /** The key-down case of handleDebugEvent for keys other than F3. */
    method StepSelector(key: int)
      requires Valid()
      modifies this
      ensures State() == KeyStepped(old(State()), key)
    {
      if !frameActive {
        return;
      }
      var img := sprites.rects.value[imageNum].value;
      var fp := selector.value;
      var maxX := img.w - fp.w;
      var maxY := img.h - fp.h;
      var x, y := fp.x, fp.y;
      if key == ArrowLeft { x := x - fp.w; }
      if key == ArrowRight { x := x + fp.w; }
      if key == ArrowUp { y := y - fp.h; }
      if key == ArrowDown { y := y + fp.h; }
      if x < 0 {
        x := maxX;
      } else if x > maxX {
        x := 0;
      }
      if y < 0 {
        y := maxY;
      } else if y > maxY {
        y := 0;
      }
      selector := Some(fp.(x := x, y := y));
    }

    /** The mouse-button-down case of handleDebugEvent. */
    method PressMouse(button: int, x: int, y: int, inside: bool)
      modifies this
      ensures State() == Pressed(old(State()), button, x, y, inside)
    {
      if !frameActive || button != ButtonLeft {
        return;
      }
      if inside {
        dragging := true;
        lastMouseX := x;
        lastMouseY := y;
      }
    }

    /** The mouse-motion case of handleDebugEvent. */
    method MoveMouse(x: int, y: int)
      modifies this
      ensures State() == Moved(old(State()), x, y)
    {
      if dragging {
        panX := panX + (x - lastMouseX);
        panY := panY + (y - lastMouseY);
        lastMouseX := x;
        lastMouseY := y;
      }
    }

    /** The mouse-wheel case of handleDebugEvent. */
    method ScrollWheel(preciseY: real, flipped: bool)
      modifies this
      ensures State() == Scrolled(old(State()), preciseY, flipped)
    {
      if !frameActive {
        return;
      }
      var dy := preciseY;
      if flipped {
        dy := -dy;
      }
      zoom := zoom + dy * ZoomStep;
      if zoom < ZoomMin {
        zoom := ZoomMin;
      }
      if zoom > ZoomMax {
        zoom := ZoomMax;
      }
    }

    /** The state-changing part of renderFrameDebug (its drawing is not modelled). */
    method RenderFrameDebug(panelOpen: bool, imageEdit: Option<int>, wEdit: Option<int>, hEdit: Option<int>)
      returns (destroyed: seq<Texture>)
      requires Valid()
      modifies this
      ensures Valid()
      ensures (State(), destroyed) == Rendered(old(State()), panelOpen, imageEdit, wEdit, hEdit)
    {
      destroyed := [];
      if !frameActive {
        return;
      }
      selector := Some(selector.value.(w := frameW, h := frameH));
      if !panelOpen {
        destroyed := ExitFrameDebug();
        return;
      }
      EditPanel(imageEdit, wEdit, hEdit);
    }

    /** The widgets of the open panel and the image-change block. */
    method EditPanel(imageEdit: Option<int>, wEdit: Option<int>, hEdit: Option<int>)
      modifies this
      ensures State() == PanelEdited(old(State()), imageEdit, wEdit, hEdit)
    {
      var img := Edited(imageNum, imageEdit, 0, sprites.n - 1);
      var rect := RectAt(sprites, img);
      var newImage := img != imageNum;
      if newImage && selector.Some? {
        selector := Some(selector.value.(x := 0, y := 0));
      }
      imageNum := img;
      frameW := Resized(frameW, wEdit, rect.w, newImage);
      frameH := Resized(frameH, hEdit, rect.h, newImage);
    }
  }
}
