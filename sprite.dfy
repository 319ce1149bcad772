/**
 * The Sprite class of the editor's models (a QRect with a name and two flip
 * flags) and the Python list of sprites that a spritesheet, a parsed
 * `@spritesheet` rule and a sprite list model share by reference.
 */
module Sprites {
  import opened SpriteGeometry

  class Sprite {
    var name: string
    var x: int
    var y: int
    var width: int
    var height: int
    var flippedW: bool
    var flippedH: bool

    /** The sprite's current state as a value. */
    function State(): SpriteState
      reads this
    {
      SpriteState(name, Rect(x, y, width, height), flippedW, flippedH)
    }

    /** `Sprite(name, x, y, w, h)`: an empty QRect, unflipped, then `setSize`. */
    constructor(name: string, x: int, y: int, w: int, h: int)
      ensures State() == Construct(name, x, y, w, h)
    {
      this.name := name;
      this.x, this.y, this.width, this.height := 0, 0, 0, 0;
      this.flippedW, this.flippedH := false, false;
      new;
      SetSize(x, y, w, h);
    }

    method SetName(name: string)
      modifies this
      ensures State() == SpriteGeometry.SetName(old(State()), name)
    {
      this.name := name;
    }

    function IsFlippedX(): bool
      reads this
    {
      flippedW
    }

    function IsFlippedY(): bool
      reads this
    {
      flippedH
    }

    method FlipX()
      modifies this
      ensures State() == SpriteGeometry.FlipX(old(State()))
    {
      flippedW := !flippedW;
    }

    method FlipY()
      modifies this
      ensures State() == SpriteGeometry.FlipY(old(State()))
    {
      flippedH := !flippedH;
    }

    method SetSize(x: int, y: int, w: int, h: int)
      modifies this
      ensures State() == SpriteGeometry.SetSize(old(State()), x, y, w, h)
      ensures width >= 0 && height >= 0
    {
      var x, y, w, h := x, y, w, h;
      if w < 0 {
        x := x + w;
        w := -w;
        flippedW := true;
      }
      if h < 0 {
        y := y + h;
        h := -h;
        flippedH := true;
      }
      this.x, this.y, this.width, this.height := x, y, w, h;
    }

    predicate AabbTest(p: Point)
      reads this
    {
      SpriteGeometry.AabbTest(State(), p)
    }

    function ToRCSS(): string
      reads this
    {
      SpriteGeometry.ToRCSS(State())
    }
  }

  /**
   * A sprite built from any rectangle, whatever the signs of its extents,
   * writes that rectangle back; renaming it changes only the name written.
   */
  method FreshSpriteRoundTrip(name: string, newName: string, x: int, y: int, w: int, h: int)
    returns (text: string)
    ensures text == SpriteDeclaration(newName, Rect(x, y, w, h))
  {
    var s := new Sprite(name, x, y, w, h);
    s.SetName(newName);
    ConstructRoundTrip(newName, x, y, w, h);
    text := s.ToRCSS();
  }

  /** A Python list of sprites: one object, shared by everyone holding it. */
  class SpriteList {
    var items: seq<Sprite>

    constructor(items: seq<Sprite>)
      ensures this.items == items
    {
      this.items := items;
    }
  }

  /** The states of a sequence of sprites, element by element. */
  function States(items: seq<Sprite>): (r: seq<SpriteState>)
    reads items
    ensures |r| == |items|
    ensures forall k :: 0 <= k < |items| ==> r[k] == items[k].State()
  {
    if items == [] then [] else States(items[..|items| - 1]) + [items[|items| - 1].State()]
  }

  /** No two sprites of the sequence share a name. */
  predicate DistinctNames(items: seq<Sprite>)
    reads items
  {
    forall i, j :: 0 <= i < j < |items| ==> items[i].name != items[j].name
  }
}
