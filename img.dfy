/** The texture library of src/img.c: two parallel arrays, one of textures and one of
    rectangle pointers, with a shared count `n`.

    The library is the `texture` struct, which the engine returns and stores by value,
    so it is a datatype whose arrays are sequences of optional slots (`None` is NULL).
    Everything outside the bookkeeping is an input: the directory listing, the outcome
    of each allocation, and for every image whether it decodes, the texture SDL creates
    for it (unchecked in C, so it may be NULL), that texture's size and the bytes the
    freshly malloc'd rectangle happens to hold. */
module Img {
  import opened Common

  datatype TextureLib = TextureLib(
    textures: Option<seq<Option<Texture>>>,
    rects: Option<seq<Option<Rect>>>,
    n: int)

  /** `(texture){0}`, and what freeTextureLib leaves behind. */
  const EmptyLib := TextureLib(None, None, 0)

  /** The count never exceeds the length of an array that is present: the C loops read
      slots `0 .. n-1` of every non-NULL array. */
  predicate Shaped(t: TextureLib) {
    && (t.textures.Some? ==> t.n <= |t.textures.value|)
    && (t.rects.Some? ==> t.n <= |t.rects.value|)
  }

  /** A library that can be browsed: `n` slots in both arrays, every rectangle present. */
  predicate Complete(t: TextureLib) {
    && t.n > 0 && t.textures.Some? && t.rects.Some?
    && |t.textures.value| == t.n && |t.rects.value| == t.n
    && forall i :: 0 <= i < t.n ==> t.rects.value[i].Some?
  }

  /** What the outside world does for one image file of the directory. */
  datatype ImageLoad = ImageLoad(
    decoded: bool,              // IMG_Load returned a surface
    texture: Option<Texture>,   // SDL_CreateTextureFromSurface
    w: int, h: int,             // the texture's size
    rectAlloc: bool,            // malloc of its rectangle
    rectGarbage: Rect)          // what that uninitialised rectangle holds

  /** The image survives its step of the loading loop. */
  predicate LoadsOk(im: ImageLoad) {
    im.decoded && im.rectAlloc
  }

  /** assignRect: anchors the rectangle at the origin with the texture's size, unless
      either pointer is NULL or the size is not positive, in which case the rectangle
      keeps whatever it held. */
  function AssignRect(tex: Option<Texture>, rect: Option<Rect>, w: int, h: int): (r: Option<Rect>)
    ensures r.Some? <==> rect.Some?
    ensures rect.Some? && tex.Some? && w > 0 && h > 0 ==> r == Some(Rect(0, 0, w, h))
    ensures !(rect.Some? && tex.Some? && w > 0 && h > 0) ==> r == rect
  {
    if rect.None? || tex.None? then rect
    else if w <= 0 || h <= 0 then rect
    else Some(Rect(0, 0, w, h))
  }

  /** A rectangle assigned once is not changed by assigning it again. */
  lemma AssignRectIdempotent(tex: Option<Texture>, rect: Option<Rect>, w: int, h: int)
    ensures AssignRect(tex, AssignRect(tex, rect, w, h), w, h) == AssignRect(tex, rect, w, h)
  {
  }

  /** The rectangle slot the loading loop leaves for a loaded image. */
  function LoadedRect(im: ImageLoad): Option<Rect> {
    AssignRect(im.texture, Some(im.rectGarbage), im.w, im.h)
  }

  /** The index of the first image from `from` on whose step fails, or `n` if none does. */
  function FirstFailure(images: seq<ImageLoad>, from: nat, n: nat): (f: nat)
    requires from <= n <= |images|
    ensures from <= f <= n
    ensures forall j :: from <= j < f ==> LoadsOk(images[j])
    ensures f < n ==> !LoadsOk(images[f])
    decreases n - from
  {
    if from == n then n
    else if !LoadsOk(images[from]) then from
    else FirstFailure(images, from + 1, n)
  }

  /** The library of a directory whose images all loaded. */
  function Loaded(images: seq<ImageLoad>, n: nat): (t: TextureLib)
    requires n <= |images|
    ensures t.n == n && t.textures.Some? && t.rects.Some?
    ensures |t.textures.value| == n && |t.rects.value| == n
    ensures forall i :: 0 <= i < n ==> t.textures.value[i] == images[i].texture
    ensures forall i :: 0 <= i < n ==> t.rects.value[i].Some?
    ensures forall i :: 0 <= i < n && images[i].texture.Some? && images[i].w > 0 && images[i].h > 0 ==>
      t.rects.value[i] == Some(Rect(0, 0, images[i].w, images[i].h))
  {
    TextureLib(Some(seq(n, i requires 0 <= i < n => images[i].texture)),
               Some(seq(n, i requires 0 <= i < n => LoadedRect(images[i]))), n)
  }

  /** The textures created before the loop gave up at image `f`: one per earlier
      image, and one for image `f` itself when it was its rectangle that failed. */
  function CreatedBefore(images: seq<ImageLoad>, f: nat): (s: seq<Option<Texture>>)
    requires f < |images|
    ensures |s| == f || |s| == f + 1
    ensures |s| == f + 1 <==> images[f].decoded
    ensures forall j :: 0 <= j < |s| ==> s[j] == images[j].texture
  {
    seq(if images[f].decoded then f + 1 else f, j requires 0 <= j <= f => images[j].texture)
  }

  function FileCount(listing: Option<seq<string>>): nat {
    if listing.None? then 0 else |listing.value|
  }

  /** The textures freeTextureLib destroys: the non-NULL ones among the first `n` slots. */
  function DestroyedBy(t: TextureLib): seq<Texture>
    requires Shaped(t)
  {
    if t.textures.Some? && t.n > 0 then Present(t.textures.value[..t.n]) else []
  }

  /** freeTextureLib: NULL is ignored; otherwise every non-NULL texture among the first
      `n` slots is destroyed and the struct is reset to NULL arrays and `n = 0`, so
      freeing it again destroys nothing. `destroyed` lists the textures passed to
      SDL_DestroyTexture, in order. */
  method FreeTextureLib(txr: Option<TextureLib>) returns (r: Option<TextureLib>, destroyed: seq<Texture>)
    requires txr.Some? ==> Shaped(txr.value)
    ensures txr.None? ==> r.None? && destroyed == []
    ensures txr.Some? ==> r == Some(EmptyLib) && destroyed == DestroyedBy(txr.value)
    ensures r.Some? ==> Shaped(r.value) && DestroyedBy(r.value) == []
  {
    if txr.None? {
      return None, [];
    }
    var t := txr.value;
    destroyed := [];
    var i := 0;
    while i < t.n
      invariant 0 <= i <= (if t.n > 0 then t.n else 0)
      invariant t.textures.Some? ==> destroyed == Present(t.textures.value[..i])
      invariant t.textures.None? ==> destroyed == []
    {
      if t.textures.Some? {
        assert t.textures.value[..i + 1] == t.textures.value[..i] + [t.textures.value[i]];
        if t.textures.value[i].Some? {
          destroyed := destroyed + [t.textures.value[i].value];
        }
      }
      i := i + 1;
    }
    r := Some(EmptyLib);
  }

  /** What initTextureLib returns, and the textures a failed load destroyed on its way
      out. All or nothing: the library holds every file of the directory exactly when
      both arrays were allocated and every image loaded, and has `n = 0` otherwise. */
  function Initialised(listing: Option<seq<string>>, texturesAlloc: bool, rectsAlloc: bool,
                       images: seq<ImageLoad>): (r: (TextureLib, seq<Texture>))
    requires FileCount(listing) <= |images|
    ensures Shaped(r.0)
    ensures r.0.n == 0 || r.0.n == FileCount(listing)
    ensures r.0.n > 0 ==> Complete(r.0) && r.0 == Loaded(images, FileCount(listing))
    ensures r.0.n > 0 <==>
      && FileCount(listing) > 0 && texturesAlloc && rectsAlloc
      && forall i :: 0 <= i < FileCount(listing) ==> LoadsOk(images[i])
    ensures r.1 != [] ==> r.0 == EmptyLib
  {
    var n := FileCount(listing);
    if n == 0 then (EmptyLib, [])
    else if !texturesAlloc then (TextureLib(None, if rectsAlloc then Some(Nulls(n)) else None, 0), [])
    else if !rectsAlloc then (TextureLib(Some(Nulls(n)), None, 0), [])
    else
      var f := FirstFailure(images, 0, n);
      if f == n then (Loaded(images, n), [])
      else (EmptyLib, Present(CreatedBefore(images, f)))
  }

  /** initTextureLib. */
  method InitTextureLib(listing: Option<seq<string>>, texturesAlloc: bool, rectsAlloc: bool,
                        images: seq<ImageLoad>) returns (lib: TextureLib, destroyed: seq<Texture>)
    requires FileCount(listing) <= |images|
    ensures (lib, destroyed) == Initialised(listing, texturesAlloc, rectsAlloc, images)
  {
    var n := FileCount(listing);
    if n == 0 {
      return EmptyLib, [];
    }
    if !texturesAlloc {
      return TextureLib(None, if rectsAlloc then Some(Nulls(n)) else None, 0), [];
    }
    if !rectsAlloc {
      return TextureLib(Some(Nulls(n)), None, 0), [];
    }
    lib, destroyed := LoadImages(images, n);
  }

  /** The loading loop of initTextureLib over `n` files, once both arrays exist: stops
      at the first image whose step fails and rolls the library back. */
  method LoadImages(images: seq<ImageLoad>, n: nat) returns (lib: TextureLib, destroyed: seq<Texture>)
    requires 0 < n <= |images|
    ensures FirstFailure(images, 0, n) == n ==> lib == Loaded(images, n) && destroyed == []
    ensures FirstFailure(images, 0, n) < n ==>
      lib == EmptyLib && destroyed == Present(CreatedBefore(images, FirstFailure(images, 0, n)))
  {
    var texs := new Option<Texture>[n](_ => None);
    var rs := new Option<Rect>[n](_ => None);
    for i := 0 to n
      invariant forall j :: 0 <= j < i ==> LoadsOk(images[j])
      invariant forall j :: 0 <= j < n ==> texs[j] == if j < i then images[j].texture else None
      invariant forall j :: 0 <= j < n ==> rs[j] == if j < i then LoadedRect(images[j]) else None
    {
      var im := images[i];
      if !LoadsOk(im) {
        // a texture exists for this image only when it was its rectangle that failed
        if im.decoded {
          texs[i] := im.texture;
        }
        FailsAt(images, n, i);
        destroyed := RollBack(texs, rs, images, i);
        return EmptyLib, destroyed;
      }
      texs[i] := im.texture;
      rs[i] := LoadedRect(im);
    }
    lib := TextureLib(Some(texs[..]), Some(rs[..]), n);
    IsLoaded(texs[..], rs[..], images, n);
    destroyed := [];
  }

  /** Arrays filled slot by slot from every image make up the loaded library. */
  lemma IsLoaded(texs: seq<Option<Texture>>, rs: seq<Option<Rect>>, images: seq<ImageLoad>, n: nat)
    requires |texs| == |rs| == n <= |images|
    requires forall j :: 0 <= j < n ==> texs[j] == images[j].texture && rs[j] == LoadedRect(images[j])
    ensures TextureLib(Some(texs), Some(rs), n) == Loaded(images, n)
  {
    assert texs == Loaded(images, n).textures.value;
    assert rs == Loaded(images, n).rects.value;
  }

  /** The loop fails first at an image whose step fails after all earlier ones succeeded. */
  lemma FailsAt(images: seq<ImageLoad>, n: nat, i: nat)
    requires i < n <= |images|
    requires forall j :: 0 <= j < i ==> LoadsOk(images[j])
    requires !LoadsOk(images[i])
    ensures FirstFailure(images, 0, n) == i
  {
  }

  /** The freeTextureLib call of a failed loop step at image `f`: the texture array then
      holds the textures created so far followed by NULL slots. */
  method RollBack(texs: array<Option<Texture>>, rs: array<Option<Rect>>, images: seq<ImageLoad>, f: nat)
    returns (destroyed: seq<Texture>)
    requires texs.Length == rs.Length && f < texs.Length <= |images|
    requires forall j :: 0 <= j < texs.Length ==> texs[j] == if j < |CreatedBefore(images, f)| then images[j].texture else None
    ensures destroyed == Present(CreatedBefore(images, f))
  {
    var created := CreatedBefore(images, f);
    assert texs[..] == created + Nulls(texs.Length - |created|);
    PresentIgnoresNulls(created, texs.Length - |created|);
    var freed;
    freed, destroyed := FreeTextureLib(Some(TextureLib(Some(texs[..]), Some(rs[..]), texs.Length)));
    assert texs[..][..texs.Length] == texs[..];
  }
}
