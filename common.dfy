/** Shared value types of the engine: optional values (a C pointer that may be NULL),
    integer rectangles (SDL_Rect) and opaque handles for objects owned by SDL. */
module Common {

  /** A value that may be absent; `None` stands for a NULL pointer. */
  datatype Option<+T> = None | Some(value: T)

  /** SDL_Rect: integer position and size. */
  datatype Rect = Rect(x: int, y: int, w: int, h: int)

  /** `(SDL_Rect){0}`. */
  const ZeroRect := Rect(0, 0, 0, 0)

  /** An SDL_Texture created by the renderer; only its identity matters here. */
  datatype Texture = Texture(id: nat)

  /** `n` NULL slots, as a zero-filled (or, in this model, null-initialised) pointer array. */
  function Nulls<T>(n: nat): (r: seq<Option<T>>)
    ensures |r| == n && forall i :: 0 <= i < n ==> r[i].None?
  {
    seq(n, _ => None)
  }

  /** The non-NULL entries of a pointer array, in order: what a loop that releases
      every non-NULL slot releases. */
  function Present<T>(s: seq<Option<T>>): (r: seq<T>)
    ensures |r| <= |s|
    ensures forall i :: 0 <= i < |s| && s[i].Some? ==> s[i].value in r
  {
    if s == [] then []
    else
      var init := s[..|s| - 1];
      assert s == init + [s[|s| - 1]];
      Present(init) + (if s[|s| - 1].Some? then [s[|s| - 1].value] else [])
  }

  /** Trailing NULL slots release nothing. */
  lemma {:induction false} PresentIgnoresNulls<T>(s: seq<Option<T>>, k: nat)
    ensures Present(s + Nulls(k)) == Present(s)
  {
    if k == 0 {
      assert s + Nulls(k) == s;
    } else {
      var t := s + Nulls(k);
      assert t[..|t| - 1] == s + Nulls(k - 1);
      assert t[|t| - 1].None?;
      PresentIgnoresNulls(s, k - 1);
    }
  }

  // --- decimal digits -----------------------------------------------------------

  predicate IsDigit(c: char) {
    '0' <= c <= '9'
  }

  predicate AllDigits(s: seq<char>) {
    forall i :: 0 <= i < |s| ==> IsDigit(s[i])
  }

  /** The value of a string of decimal digits, as atoi and `%d` read it. */
  function Decimal(ds: seq<char>): (v: nat)
    requires AllDigits(ds)
  {
    if ds == [] then 0 else Decimal(ds[..|ds| - 1]) * 10 + (ds[|ds| - 1] as int - '0' as int)
  }

  function Pow10(k: nat): (p: nat)
    ensures p >= 1
  {
    if k == 0 then 1 else 10 * Pow10(k - 1)
  }

  /** `k` digits make a number below 10^k. */
  lemma {:induction false} DecimalBelow(ds: seq<char>)
    requires AllDigits(ds)
    ensures Decimal(ds) < Pow10(|ds|)
  {
    if ds != [] {
      DecimalBelow(ds[..|ds| - 1]);
    }
  }

  lemma {:induction false} Pow10Mono(i: nat, j: nat)
    requires i <= j
    ensures Pow10(i) <= Pow10(j)
  {
    if i < j {
      Pow10Mono(i, j - 1);
    }
  }
}
