/**
 * The state of a sprite and the pure operations on it, shared by both
 * revisions of the Sprite class. A sprite is an integer rectangle (a QRect
 * in the editor) with a name and two flip flags. `setSize` folds a negative
 * extent into an origin shift and raises the matching flip flag, so that
 * hit-testing works on a rectangle of non-negative size; `toRCSS` undoes the
 * fold so that the text it writes carries the rectangle as originally given.
 */
module SpriteGeometry {
  import opened PyValues

  datatype Rect = Rect(x: int, y: int, width: int, height: int)

  datatype Point = Point(x: int, y: int)

  datatype SpriteState = SpriteState(name: string, rect: Rect, flippedW: bool, flippedH: bool)

  /** The rectangle of a QRect built with no arguments: origin 0,0 and no extent. */
  const EmptyRect := Rect(0, 0, 0, 0)

  function Min(a: int, b: int): int { if a <= b then a else b }

  function Max(a: int, b: int): int { if a <= b then b else a }

  /** One axis of `setSize`: a negative extent moves the origin by that extent. */
  function FoldAxis(pos: int, extent: int): (int, int)
  {
    if extent < 0 then (pos + extent, -extent) else (pos, extent)
  }

  /**
   * `setSize(x, y, w, h)`: a negative `w` stores `x + w` and `-w` and sets
   * the horizontal flip flag, and likewise `h`, `y` and the vertical flag.
   * A flag that is already set stays set.
   */
  function SetSize(st: SpriteState, x: int, y: int, w: int, h: int): (r: SpriteState)
    ensures r.rect.width >= 0 && r.rect.height >= 0
    ensures r.name == st.name
  {
    var (nx, nw) := FoldAxis(x, w);
    var (ny, nh) := FoldAxis(y, h);
    SpriteState(st.name, Rect(nx, ny, nw, nh), st.flippedW || w < 0, st.flippedH || h < 0)
  }

  /** A sprite freshly built by `Sprite(name, x, y, w, h)`. */
  function Construct(name: string, x: int, y: int, w: int, h: int): SpriteState
  {
    SetSize(SpriteState(name, EmptyRect, false, false), x, y, w, h)
  }

  function FlipX(st: SpriteState): SpriteState { st.(flippedW := !st.flippedW) }

  function FlipY(st: SpriteState): SpriteState { st.(flippedH := !st.flippedH) }

  function SetName(st: SpriteState, name: string): SpriteState { st.(name := name) }

  /** Geometry equality, which is what `==` on two QRects compares. */
  predicate SameRect(a: SpriteState, b: SpriteState) { a.rect == b.rect }

  /** `aabbTest(p)`: the point lies strictly inside the stored rectangle. */
  predicate AabbTest(st: SpriteState, p: Point)
  {
    var r := st.rect;
    p.x > r.x && p.y > r.y && p.x < r.x + r.width && p.y < r.y + r.height
  }

  /**
   * The rectangle `toRCSS` writes: on a flipped axis the extent is negated
   * and the origin moved back by the stored extent.
   */
  function EmittedRect(st: SpriteState): Rect
  {
    var r := st.rect;
    var (x, w) := if st.flippedW then (r.x + r.width, -r.width) else (r.x, r.width);
    var (y, h) := if st.flippedH then (r.y + r.height, -r.height) else (r.y, r.height);
    Rect(x, y, w, h)
  }

  /** The RCSS text of a sprite rectangle: `name: Xpx Ypx Wpx Hpx;`. */
  function SpriteDeclaration(name: string, r: Rect): string
  {
    name + ": " + IntToString(r.x) + "px " + IntToString(r.y) + "px "
    + IntToString(r.width) + "px " + IntToString(r.height) + "px;"
  }

  /** `toRCSS()`. */
  function ToRCSS(st: SpriteState): string
  {
    SpriteDeclaration(st.name, EmittedRect(st))
  }

  // ---------------------------------------------------------------------
  // Properties
  // ---------------------------------------------------------------------

  /** A negative extent is folded into the origin and raises its flip flag. */
  lemma SetSizeFoldsNegativeExtent(st: SpriteState, x: int, y: int, w: int, h: int)
    ensures var r := SetSize(st, x, y, w, h);
      && (w < 0 ==> r.rect.x == x + w && r.rect.width == -w && r.flippedW)
      && (w >= 0 ==> r.rect.x == x && r.rect.width == w && r.flippedW == st.flippedW)
      && (h < 0 ==> r.rect.y == y + h && r.rect.height == -h && r.flippedH)
      && (h >= 0 ==> r.rect.y == y && r.rect.height == h && r.flippedH == st.flippedH)
  {
  }

  /**
   * Folding keeps the covered area: after `setSize(x, y, w, h)` a point hits
   * exactly when it lies strictly between `x` and `x + w` and strictly
   * between `y` and `y + h`, whichever way round each pair is.
   */
  lemma SetSizeKeepsArea(st: SpriteState, x: int, y: int, w: int, h: int, p: Point)
    ensures AabbTest(SetSize(st, x, y, w, h), p) <==>
      Min(x, x + w) < p.x < Max(x, x + w) && Min(y, y + h) < p.y < Max(y, y + h)
  {
  }

  /** Points on the boundary of a sprite do not hit it. */
  lemma BoundaryMisses(st: SpriteState, p: Point)
    requires p.x == st.rect.x || p.y == st.rect.y
      || p.x == st.rect.x + st.rect.width || p.y == st.rect.y + st.rect.height
    ensures !AabbTest(st, p)
  {
  }

  /**
   * Round trip: a sprite freshly built from any rectangle, of any signs,
   * writes back exactly that rectangle.
   */
  lemma ConstructRoundTrip(name: string, x: int, y: int, w: int, h: int)
    ensures EmittedRect(Construct(name, x, y, w, h)) == Rect(x, y, w, h)
    ensures ToRCSS(Construct(name, x, y, w, h)) == SpriteDeclaration(name, Rect(x, y, w, h))
  {
  }

  /**
   * Writing a sprite, reading the written rectangle back into a new sprite
   * and writing that again gives the same text.
   */
  lemma ReparseIsStable(st: SpriteState)
    ensures var e := EmittedRect(st);
      ToRCSS(Construct(st.name, e.x, e.y, e.width, e.height)) == ToRCSS(st)
  {
    var e := EmittedRect(st);
    ConstructRoundTrip(st.name, e.x, e.y, e.width, e.height);
  }

  /**
   * `setSize` never clears a flag: resizing a flipped sprite with a
   * non-negative width keeps the flag, so `toRCSS` writes the negated width.
   */
  lemma SetSizeKeepsFlip(st: SpriteState, x: int, y: int, w: int, h: int)
    requires st.flippedW && w >= 0
    ensures SetSize(st, x, y, w, h).flippedW
    ensures EmittedRect(SetSize(st, x, y, w, h)).width == -w
    ensures EmittedRect(SetSize(st, x, y, w, h)).x == x + w
  {
  }

  /** Flipping twice restores the flag; a flip touches nothing else. */
  lemma FlipIsInvolution(st: SpriteState)
    ensures FlipX(FlipX(st)) == st && FlipY(FlipY(st)) == st
    ensures FlipX(st).rect == st.rect && FlipX(st).name == st.name && FlipX(st).flippedH == st.flippedH
    ensures FlipY(st).rect == st.rect && FlipY(st).name == st.name && FlipY(st).flippedW == st.flippedW
  {
  }

  /** A flip changes only the sign convention of the written rectangle. */
  lemma FlipXMirrorsEmittedWidth(st: SpriteState)
    ensures EmittedRect(FlipX(st)).width == -EmittedRect(st).width
    ensures EmittedRect(FlipX(st)).x == EmittedRect(st).x + EmittedRect(st).width
    ensures EmittedRect(FlipX(st)).y == EmittedRect(st).y
    ensures EmittedRect(FlipX(st)).height == EmittedRect(st).height
  {
  }

  /** Renaming changes the name only. */
  lemma SetNameOnlyRenames(st: SpriteState, name: string)
    ensures SetName(st, name).name == name
    ensures SetName(st, name).rect == st.rect
    ensures SetName(st, name).flippedW == st.flippedW && SetName(st, name).flippedH == st.flippedH
  {
  }

  /** The written text has no line break when the name has none. */
  lemma ToRCSSIsOneLine(st: SpriteState)
    requires '\n' !in st.name
    ensures '\n' !in ToRCSS(st)
  {
    var e := EmittedRect(st);
    NumeralIsOneLine(e.x);
    NumeralIsOneLine(e.y);
    NumeralIsOneLine(e.width);
    NumeralIsOneLine(e.height);
  }

  lemma NumeralIsOneLine(i: int)
    ensures '\n' !in IntToString(i)
  {
    IntToStringChars(i);
  }
}
