/** The cached text objects of src/text.c.

    A `Text` keeps the texture it last rendered, its rectangle, colour, font and
    content; the content is compared on every update so that the texture is only
    rendered again when the content changes. C strings are `string`s without NUL
    characters, a null `char *` is `None`, and `strdup` copies are values. The font
    rasteriser (TTF_RenderUTF8_Blended) is an input that gives the size of the
    surface it produced, or `None` when it failed; SDL_CreateTextureFromSurface is an
    input that gives the created texture, or `None`. */
module TextCache {
  import opened Common

  /** SDL_Color: four channels of 0..255. */
  datatype Color = Color(r: int, g: int, b: int, a: int)

  /** defaultColor: opaque white. */
  const White := Color(255, 255, 255, 255)

  /** A TTF_Font handle. */
  datatype Font = Font(id: nat)

  /** The fields of a Text, as a value. */
  datatype TextView = TextView(
    texture: Option<Texture>,
    rect: Rect,
    color: Color,
    font: Option<Font>,
    content: Option<string>)

  /** Whether there is something to render: content that is neither null nor empty. */
  predicate HasContent(t: TextView) {
    t.content.Some? && t.content.value != []
  }

  /** Text_Render: the previous texture is released first (the result has no texture
      unless a new one is made); with no content, or when the rasteriser fails, there is
      no texture and the rectangle keeps its size; otherwise the texture is the one
      created from the surface and the rectangle takes the surface's size. */
  function Rendered(t: TextView, raster: Option<(int, int)>, created: Option<Texture>): (r: TextView)
    ensures r.content == t.content && r.color == t.color && r.font == t.font
    ensures r.rect.x == t.rect.x && r.rect.y == t.rect.y
    ensures r.texture.Some? ==> HasContent(t) && raster.Some? && r.texture == created
    ensures !HasContent(t) || raster.None? ==> r.texture.None? && r.rect == t.rect
    ensures HasContent(t) && raster.Some? ==>
      r.texture == created && r.rect.w == raster.value.0 && r.rect.h == raster.value.1
  {
    var released := t.(texture := None);
    if !HasContent(t) || raster.None? then released
    else released.(texture := created, rect := t.rect.(w := raster.value.0, h := raster.value.1))
  }

  /** The previous texture does not matter to a render: it is always released. */
  lemma RenderIgnoresOldTexture(t: TextView, old_: Option<Texture>, raster: Option<(int, int)>, created: Option<Texture>)
    ensures Rendered(t.(texture := old_), raster, created) == Rendered(t, raster, created)
  {
  }

  /** Rendering twice with the same rasteriser outcome is rendering once. */
  lemma RenderTwice(t: TextView, raster: Option<(int, int)>, created: Option<Texture>)
    ensures Rendered(Rendered(t, raster, created), raster, created) == Rendered(t, raster, created)
  {
  }

  /** Whether Text_Set returns at once: both the current and the new content are
      non-null and equal. */
  predicate Unchanged(t: TextView, content: Option<string>) {
    t.content.Some? && content.Some? && t.content.value == content.value
  }

  /** Text_Set: equal content changes nothing; otherwise the content is replaced (null
      when the argument is null) and the text is rendered again. */
  function SetTo(t: TextView, content: Option<string>, raster: Option<(int, int)>, created: Option<Texture>): (r: TextView)
    ensures r.content == content && r.color == t.color && r.font == t.font
    ensures r.rect.x == t.rect.x && r.rect.y == t.rect.y
    ensures Unchanged(t, content) ==> r == t
    ensures !Unchanged(t, content) ==>
      && (r.texture.Some? <==> HasContent(r) && raster.Some? && created.Some?)
      && (r.texture.Some? ==> r.texture == created)
  {
    if Unchanged(t, content) then t
    else Rendered(t.(content := content), raster, created)
  }

  /** Setting the content the text already has, when it is not null, changes nothing
      whatever the rasteriser would do; any other content ends up as the text's content. */
  lemma SetSameIsNoop(t: TextView, content: Option<string>, raster: Option<(int, int)>, created: Option<Texture>)
    ensures t.content.Some? && content == t.content ==> SetTo(t, content, raster, created) == t
    ensures SetTo(t, content, raster, created).content == content
  {
  }

  /** Setting the same content twice is setting it once, the second time whatever the
      rasteriser would do. */
  lemma SetIdempotent(t: TextView, content: Option<string>, r1: Option<(int, int)>, c1: Option<Texture>,
                      r2: Option<(int, int)>, c2: Option<Texture>)
    ensures SetTo(SetTo(t, content, r1, c1), content, r2, c2) == SetTo(t, content, r1, c1)
  {
  }

  /** The text Text_CreateColored starts from: `Text text = {0}` with the position,
      colour and font filled in. */
  function Blank(x: int, y: int, color: Color, font: Option<Font>): TextView {
    TextView(None, Rect(x, y, 0, 0), color, font, None)
  }

  /** Text_CreateColored: the blank text at (x, y), and when there is content, a copy
      of it, rendered. */
  function CreatedColored(content: Option<string>, x: int, y: int, color: Color, font: Option<Font>,
                          raster: Option<(int, int)>, created: Option<Texture>): (r: TextView)
    ensures r.rect.x == x && r.rect.y == y && r.color == color && r.font == font
    ensures r.content == content
    ensures content.None? ==> r == Blank(x, y, color, font)
  {
    var t := Blank(x, y, color, font);
    if content.Some? then Rendered(t.(content := content), raster, created) else t
  }

  /** Text_Create: Text_CreateColored in white. */
  function Created(content: Option<string>, x: int, y: int, font: Option<Font>,
                   raster: Option<(int, int)>, created: Option<Texture>): (r: TextView)
    ensures r.color == White && r.rect.x == x && r.rect.y == y && r.content == content
  {
    CreatedColored(content, x, y, White, font, raster, created)
  }

  /** Creating a text is setting its content on a blank text. */
  lemma CreateIsSetOnBlank(content: Option<string>, x: int, y: int, color: Color, font: Option<Font>,
                           raster: Option<(int, int)>, created: Option<Texture>)
    ensures CreatedColored(content, x, y, color, font, raster, created)
      == SetTo(Blank(x, y, color, font), content, raster, created)
  {
  }

  /** Text_Free: no texture and no content; the rest stays. */
  function Freed(t: TextView): (r: TextView)
    ensures r.texture.None? && r.content.None?
    ensures r.rect == t.rect && r.color == t.color && r.font == t.font
  {
    t.(texture := None, content := None)
  }

  /** Freeing twice is freeing once, and a freed text renders to nothing. */
  lemma FreeTwice(t: TextView, raster: Option<(int, int)>, created: Option<Texture>)
    ensures Freed(Freed(t)) == Freed(t)
    ensures Rendered(Freed(t), raster, created) == Freed(t)
  {
  }

  class Text {
    var texture: Option<Texture>
    var rect: Rect
    var color: Color
    var font: Option<Font>
    var content: Option<string>

    function View(): TextView
      reads this
    {
      TextView(texture, rect, color, font, content)
    }

    /** Text_CreateColored (Text_Create passes `White`). */
    constructor CreateColored(content: Option<string>, x: int, y: int, color: Color, font: Option<Font>,
                              raster: Option<(int, int)>, created: Option<Texture>)
      ensures View() == CreatedColored(content, x, y, color, font, raster, created)
    {
      texture := None;
      rect := Rect(x, y, 0, 0);
      this.color := color;
      this.font := font;
      this.content := None;
      new;
      if content.Some? {
        this.content := content;
        var _ := Render(raster, created);
      }
    }

    /** Text_Create. */
    constructor Create(content: Option<string>, x: int, y: int, font: Option<Font>,
                       raster: Option<(int, int)>, created: Option<Texture>)
      ensures View() == Created(content, x, y, font, raster, created)
    {
      texture := None;
      rect := Rect(x, y, 0, 0);
      color := White;
      this.font := font;
      this.content := None;
      new;
      if content.Some? {
        this.content := content;
        var _ := Render(raster, created);
      }
    }

    /** Text_Render; returns the texture it destroyed, if any. */
    method Render(raster: Option<(int, int)>, created: Option<Texture>) returns (released: Option<Texture>)
      modifies this
      ensures released == old(texture)
      ensures View() == Rendered(old(View()), raster, created)
    {
      released := texture;
      texture := None;
      if content.None? || content.value == [] {
        return;
      }
      if raster.None? {
        return;
      }
      texture := created;
      rect := rect.(w := raster.value.0, h := raster.value.1);
    }

    /** Text_Set; returns the texture it destroyed, if any. */
    method Set(newContent: Option<string>, raster: Option<(int, int)>, created: Option<Texture>)
      returns (released: Option<Texture>)
      modifies this
      ensures released == if Unchanged(old(View()), newContent) then None else old(texture)
      ensures View() == SetTo(old(View()), newContent, raster, created)
    {
      if content.Some? && newContent.Some? && content.value == newContent.value {
        return None;
      }
      content := newContent;
      released := Render(raster, created);
    }

    /** Text_Draw: the texture and rectangle it copies to the renderer, if there is a
        texture. */
    method Draw() returns (drawn: Option<(Texture, Rect)>)
      ensures texture.None? ==> drawn.None?
      ensures texture.Some? ==> drawn == Some((texture.value, rect))
    {
      if texture.Some? {
        return Some((texture.value, rect));
      }
      return None;
    }

    /** Text_Free; returns the texture it destroyed, if any. */
    method Free() returns (released: Option<Texture>)
      modifies this
      ensures released == old(texture)
      ensures View() == Freed(old(View()))
    {
      released := texture;
      texture := None;
      content := None;
    }
  }
}
