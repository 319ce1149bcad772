/**
 * The earlier revision of the Sprite class (Myth/Sprite.py), used by the
 * first main window. Its geometry behaves as in the later revision; in
 * addition a sprite may be attached to the list-widget item that shows it,
 * and renaming the sprite renames that item too.
 */
module LegacySprites {
  import opened SpriteGeometry

  /** The list-widget item that shows a sprite's name. */
  class ListItem {
    var text: string

    constructor(text: string)
      ensures this.text == text
    {
      this.text := text;
    }
  }

  class Sprite {
    var listItem: ListItem?
    var name: string
    var x: int
    var y: int
    var width: int
    var height: int
    var flippedW: bool
    var flippedH: bool

    function State(): SpriteState
      reads this
    {
      SpriteState(name, Rect(x, y, width, height), flippedW, flippedH)
    }

    /** `Sprite(name, x, y, w, h)`: no list item attached yet. */
    constructor(name: string, x: int, y: int, w: int, h: int)
      ensures State() == Construct(name, x, y, w, h)
      ensures listItem == null
    {
      this.listItem := null;
      this.name := name;
      this.x, this.y, this.width, this.height := 0, 0, 0, 0;
      this.flippedW, this.flippedH := false, false;
      new;
      SetSize(x, y, w, h);
    }

    /** Renames the sprite and, when one is attached, its list item. */
    method SetName(name: string)
      modifies this, listItem
      ensures State() == SpriteGeometry.SetName(old(State()), name)
      ensures listItem == old(listItem)
      ensures listItem != null ==> listItem.text == name
    {
      this.name := name;
      if listItem != null {
        listItem.text := name;
      }
    }

    method SetSize(x: int, y: int, w: int, h: int)
      modifies this
      ensures State() == SpriteGeometry.SetSize(old(State()), x, y, w, h)
      ensures listItem == old(listItem)
      ensures width >= 0 && height >= 0
      ensures old(flippedW) ==> flippedW
      ensures old(flippedH) ==> flippedH
    {
      var x, y, w, h := x, y, w, h;
      if w < 0 {
        x := x + w;
        w := -w;
        flippedW := true;
      }
      if h < 0 {
        y := y + h;
        h := -h;
        flippedH := true;
      }
      this.x, this.y, this.width, this.height := x, y, w, h;
    }

    predicate AabbTest(p: Point)
      reads this
    {
      SpriteGeometry.AabbTest(State(), p)
    }

    function ToRCSS(): string
      reads this
    {
      SpriteGeometry.ToRCSS(State())
    }
  }

  /**
   * A sprite of this revision writes back the rectangle it was built from,
   * whatever the signs of its extents, and renaming it leaves that text's
   * rectangle alone.
   */
  method FreshSpriteRoundTrip(name: string, newName: string, x: int, y: int, w: int, h: int)
    returns (text: string)
    ensures text == SpriteDeclaration(newName, Rect(x, y, w, h))
  {
    var s := new Sprite(name, x, y, w, h);
    s.SetName(newName);
    ConstructRoundTrip(newName, x, y, w, h);
    text := s.ToRCSS();
  }
}
