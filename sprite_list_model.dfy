/**
 * The list model behind the sprite list widget: the sheet's own sprite list
 * (shared by reference), a selected sprite, and the operations the editor
 * uses to add, remove, hit-test and select sprites. Qt's row-change
 * notifications are not modelled.
 */
module SpriteListModels {
  import opened PyValues
  import opened SpriteGeometry
  import opened Sprites
  import opened Spritesheets

  /** `len(list(filter(lambda s: s.name() == name, items)))`. */
  function CountNamed(items: seq<Sprite>, name: string): nat
    reads items
  {
    if items == [] then 0
    else CountNamed(items[..|items| - 1], name) + (if items[|items| - 1].name == name then 1 else 0)
  }

  lemma {:induction false} CountNamedPositive(items: seq<Sprite>, name: string)
    ensures CountNamed(items, name) > 0 <==> exists k :: 0 <= k < |items| && items[k].name == name
  {
    if items != [] {
      var init := items[..|items| - 1];
      CountNamedPositive(init, name);
      if exists k :: 0 <= k < |init| && init[k].name == name {
        var k :| 0 <= k < |init| && init[k].name == name;
        assert items[k] == init[k];
      }
      if exists k :: 0 <= k < |items| && items[k].name == name {
        var k :| 0 <= k < |items| && items[k].name == name;
        if k < |init| {
          assert init[k] == items[k];
        }
      }
    }
  }

  /** The position of the first sprite whose rectangle equals that of `st`. */
  function FirstSameRect(states: seq<SpriteState>, st: SpriteState): (k: nat)
    ensures k <= |states|
    ensures k < |states| ==> SameRect(states[k], st)
    ensures forall j :: 0 <= j < k ==> !SameRect(states[j], st)
  {
    if states == [] then 0
    else if SameRect(states[0], st) then 0
    else 1 + FirstSameRect(states[1..], st)
  }

  /** The position of the first sprite named `name`. */
  function FirstNamed(items: seq<Sprite>, name: string): (k: nat)
    reads items
    ensures k <= |items|
    ensures k < |items| ==> items[k].name == name
    ensures forall j :: 0 <= j < k ==> items[j].name != name
  {
    if items == [] then 0
    else if items[0].name == name then 0
    else 1 + FirstNamed(items[1..], name)
  }

  /** The sprites containing `p`, in list order. */
  function Hits(items: seq<Sprite>, p: Point): seq<Sprite>
    reads items
  {
    if items == [] then []
    else
      var last := items[|items| - 1];
      Hits(items[..|items| - 1], p) + (if last.AabbTest(p) then [last] else [])
  }

  /** A sprite is hit exactly when it belongs to the list and contains the point. */
  lemma {:induction false} HitsAreExactlyTheContaining(items: seq<Sprite>, p: Point)
    ensures forall s :: s in Hits(items, p) <==> s in items && s.AabbTest(p)
  {
    if items != [] {
      var init := items[..|items| - 1];
      HitsAreExactlyTheContaining(init, p);
      assert items == init + [items[|items| - 1]];
    }
  }

  /** Hits keep list order: those of `a + b` are those of `a`, then those of `b`. */
  lemma {:induction false} HitsConcat(a: seq<Sprite>, b: seq<Sprite>, p: Point)
    ensures Hits(a + b, p) == Hits(a, p) + Hits(b, p)
    decreases |b|
  {
    if b == [] {
      assert a + b == a;
    } else {
      var init := b[..|b| - 1];
      assert (a + b)[..|a + b| - 1] == a + init;
      assert (a + b)[|a + b| - 1] == b[|b| - 1];
      HitsConcat(a, init, p);
    }
  }

  /** Removing the element at `i` shortens a list by one and keeps every other element. */
  lemma RemoveAt<T>(s: seq<T>, i: nat)
    requires i < |s|
    ensures |s[..i] + s[i + 1..]| == |s| - 1
    ensures multiset(s[..i] + s[i + 1..]) + multiset{s[i]} == multiset(s)
  {
    assert s == s[..i] + [s[i]] + s[i + 1..];
  }

  class SpriteListModel {
    /** The list of sprites, the same object the sheet holds. */
    const list: SpriteList
    const sheet: Spritesheet?
    var selected: Sprite?

    constructor(sprites: SpriteList, sheet: Spritesheet?)
      ensures list == sprites && this.sheet == sheet && selected == null
    {
      list := sprites;
      this.sheet := sheet;
      selected := null;
    }

    function RowCount(): nat
      reads this, list
    {
      |list.items|
    }

    /** `findDupes(name)`: some sprite of the list is called `name`. */
    function FindDupes(name: string): (r: bool)
      reads this, list, list.items
      ensures r <==> exists k :: 0 <= k < |list.items| && list.items[k].name == name
    {
      CountNamedPositive(list.items, name);
      CountNamed(list.items, name) > 0
    }

    /**
     * `insertRow(sprite)`: refused when the name is taken; otherwise the
     * sprite goes at the end. A list of distinct names stays so.
     */
    method InsertRow(sprite: Sprite) returns (inserted: bool)
      modifies list
      ensures inserted <==> !exists k :: 0 <= k < |old(list.items)| && old(list.items)[k].name == sprite.name
      ensures inserted ==> list.items == old(list.items) + [sprite] && RowCount() == old(RowCount()) + 1
      ensures !inserted ==> list.items == old(list.items)
      ensures DistinctNames(old(list.items)) ==> DistinctNames(list.items)
    {
      if FindDupes(sprite.name) {
        return false;
      }
      list.items := list.items + [sprite];
      inserted := true;
    }

    /**
     * `removeRow(sprite)`: the first sprite whose rectangle equals the given
     * one's (QRect `==`) is removed, and the selection cleared when it equals
     * the given sprite. With no such sprite, `list.index` raises ValueError
     * and nothing changes.
     */
    method RemoveRow(sprite: Sprite) returns (r: Outcome)
      modifies this, list
      ensures var before := old(States(list.items));
        var idx := FirstSameRect(before, sprite.State());
        && (idx == |before| ==> r == Fail(ValueError(NotInList)) && list.items == old(list.items) && selected == old(selected))
        && (idx < |before| ==>
          && r == Pass
          && list.items == old(list.items)[..idx] + old(list.items)[idx + 1..]
          && |list.items| == |old(list.items)| - 1
          && multiset(list.items) + multiset{old(list.items)[idx]} == multiset(old(list.items))
          && selected == (if old(selected) != null && SameRect(old(selected.State()), sprite.State()) then null else old(selected)))
    {
      var idx := FirstSameRect(States(list.items), sprite.State());
      if idx == |list.items| {
        return Fail(ValueError(NotInList));
      }
      if selected != null && SameRect(selected.State(), sprite.State()) {
        selected := null;
      }
      RemoveAt(list.items, idx);
      list.items := list.items[..idx] + list.items[idx + 1..];
      r := Pass;
    }

    /** `hitTest(pos)`: the sprites containing `pos`, in list order. */
    method HitTest(pos: Point) returns (hit: seq<Sprite>)
      ensures hit == Hits(list.items, pos)
      ensures forall s :: s in hit <==> s in list.items && s.AabbTest(pos)
    {
      hit := [];
      var items := list.items;
      var i := 0;
      while i < |items|
        invariant 0 <= i <= |items|
        invariant hit == Hits(items[..i], pos)
      {
        assert items[..i + 1][..i] == items[..i];
        if items[i].AabbTest(pos) {
          hit := hit + [items[i]];
        }
        i := i + 1;
      }
      assert items[..i] == items;
      HitsAreExactlyTheContaining(items, pos);
    }

    method SetSelected(sprite: Sprite?)
      modifies this
      ensures selected == sprite
    {
      selected := sprite;
    }

    /**
     * `setSelectedByName(name)`: selects the first sprite with that name;
     * with none, returns false and keeps the selection.
     */
    method SetSelectedByName(name: string) returns (found: bool)
      modifies this
      ensures found <==> exists k :: 0 <= k < |list.items| && list.items[k].name == name
      ensures found ==> selected == list.items[FirstNamed(list.items, name)]
      ensures !found ==> selected == old(selected)
    {
      var items := list.items;
      var i := 0;
      while i < |items|
        invariant 0 <= i <= |items|
        invariant forall j :: 0 <= j < i ==> items[j].name != name
        invariant selected == old(selected)
      {
        if items[i].name == name {
          selected := items[i];
          assert FirstNamed(items, name) == i;
          return true;
        }
        i := i + 1;
      }
      found := false;
    }

    method ClearSelection()
      modifies this
      ensures selected == null
    {
      selected := null;
    }
  }

  /** The message `list.index` raises with when nothing matches. */
  const NotInList := "list.index(x): x not in list"
}
