/**
 * The undoable editing commands and the window they act on. A command
 * captures the state it will need to undo when it is built, may decide at
 * that point that it would change nothing and stay off the undo stack, and
 * is otherwise pushed, which (as with Qt's QUndoStack) runs its `redo` at
 * once and discards any commands that had been undone.
 *
 * The window is modelled as the state the commands touch: the props
 * dictionary of the loaded `@spritesheet` rule, the sprite list model,
 * the undo stack and the status-bar text. `addSprite` and `deleteSprite`
 * are taken to be the sprite list model's `insertRow` and `removeRow`, and
 * `loadImage(path)` to succeed exactly for the paths in `loadable`.
 */
module Commands {
  import opened PyValues
  import opened SpriteGeometry
  import opened Sprites
  import opened SpriteListModels

  // ---------------------------------------------------------------------
  // Paths
  // ---------------------------------------------------------------------

  /** `os.path.basename(p)`: the text after the last `/`. */
  function Basename(p: string): string
  {
    if p == [] then []
    else if p[|p| - 1] == '/' then []
    else Basename(p[..|p| - 1]) + [p[|p| - 1]]
  }

  /**
   * The base name is the longest suffix without a `/`: it ends the path, and
   * is either the whole path or preceded by a `/`.
   */
  lemma {:induction false} BasenameIsLastSegment(p: string)
    ensures var b := Basename(p);
      && '/' !in b
      && |b| <= |p|
      && p[|p| - |b|..] == b
      && (|b| < |p| ==> p[|p| - |b| - 1] == '/')
  {
    if p != [] && p[|p| - 1] != '/' {
      var init := p[..|p| - 1];
      BasenameIsLastSegment(init);
      var b := Basename(init);
      assert p[|p| - |b| - 1..] == init[|init| - |b|..] + [p[|p| - 1]];
      if |b| < |init| {
        assert p[|p| - |b| - 2] == init[|init| - |b| - 1];
      }
    }
  }

  /** A path without `/` is its own base name. */
  lemma {:induction false} BasenameOfPlainName(p: string)
    requires '/' !in p
    ensures Basename(p) == p
  {
    if p != [] {
      assert p[..|p| - 1] <= p;
      BasenameOfPlainName(p[..|p| - 1]);
    }
  }

  // ---------------------------------------------------------------------
  // The effect of each command, on values
  // ---------------------------------------------------------------------

  /** `do(path)` of the image command: on a successful load, `src` becomes the base name. */
  function LoadSource(props: map<string, Value>, path: string, loadable: set<string>): map<string, Value>
  {
    if path in loadable then props["src" := Text(Basename(path))] else props
  }

  /** The image command's `undo` as written: `do(prev)`, which stores the base name of `prev`. */
  function ImageUndoAsWritten(props: map<string, Value>, prev: Value, loadable: set<string>): map<string, Value>
  {
    if prev.Text? then LoadSource(props, prev.s, loadable) else props
  }

  /** The image command's `undo` as intended: on a successful load, `src` is `prev` again. */
  function RestoreSource(props: map<string, Value>, prev: Value, loadable: set<string>): map<string, Value>
  {
    if prev.Text? && prev.s in loadable then props["src" := prev] else props
  }

  /** What `addSprite(s)` leaves in the list: `s` appended unless its name is taken. */
  function AddEffect(items: seq<Sprite>, s: Sprite): seq<Sprite>
    reads items, s
  {
    if exists k :: 0 <= k < |items| && items[k].name == s.name then items else items + [s]
  }

  /** What `deleteSprite(s)` leaves in the list: the first sprite with the rectangle of `s` removed. */
  function RemoveEffect(items: seq<Sprite>, s: Sprite): seq<Sprite>
    reads items, s
  {
    var k := FirstSameRect(States(items), s.State());
    if k == |items| then items else items[..k] + items[k + 1..]
  }

  /** The selection `deleteSprite(s)` leaves: cleared when the selected sprite equals `s` and a row goes. */
  function SelectionAfterRemove(items: seq<Sprite>, selected: Sprite?, s: Sprite): Sprite?
    reads items, selected, s
  {
    if FirstSameRect(States(items), s.State()) == |items| then selected
    else if selected != null && SameRect(selected.State(), s.State()) then null
    else selected
  }

  /** A truthy new name: given and not empty. */
  predicate Renames(newName: Option<string>)
  {
    newName.Some? && newName.value != ""
  }

  /** The sprite-modify command's `redo`: the new geometry, and the new name when one is given. */
  function ModifyRedo(st: SpriteState, r: Rect, newName: Option<string>): SpriteState
  {
    var resized := SpriteGeometry.SetSize(st, r.x, r.y, r.width, r.height);
    if Renames(newName) then SpriteGeometry.SetName(resized, newName.value) else resized
  }

  /** The sprite-modify command's `undo` as written: the old geometry and name; the flip flags stay. */
  function ModifyUndoAsWritten(st: SpriteState, prev: SpriteState): SpriteState
  {
    SpriteGeometry.SetName(SpriteGeometry.SetSize(st, prev.rect.x, prev.rect.y, prev.rect.width, prev.rect.height), prev.name)
  }

  /** The sprite-modify command's `undo` as intended: flip flags that differ are flipped back too. */
  function ModifyUndo(st: SpriteState, prev: SpriteState): SpriteState
  {
    var restored := ModifyUndoAsWritten(st, prev);
    var fx := if restored.flippedW != prev.flippedW then SpriteGeometry.FlipX(restored) else restored;
    if fx.flippedH != prev.flippedH then SpriteGeometry.FlipY(fx) else fx
  }

  function SetMessage(prop: string, from: Value, to: Value): string
  {
    "Set " + prop + " from " + Str(from) + " to " + Str(to)
  }

  const SameValueMessage := "Old and new value are the same, ignoring"
  const SameImageMessage := "Selected image has already been loaded, ignoring"

  // ---------------------------------------------------------------------
  // Undo and redo are inverse
  // ---------------------------------------------------------------------

  /**
   * Setting a prop and undoing gives back the dictionary, when the previous
   * value was read from it; no other key is ever touched.
   */
  lemma SetPropRoundTrip(m: map<string, Value>, prop: string, newValue: Value)
    requires prop in m
    ensures m[prop := newValue][prop := m[prop]] == m
    ensures forall key :: key in m && key != prop ==> key in m[prop := newValue] && m[prop := newValue][key] == m[key]
  {
    assert m[prop := newValue][prop := m[prop]].Keys == m.Keys;
  }

  /**
   * With both images loadable, setting an image and undoing gives back the
   * previous `src`, whatever directories it names.
   */
  lemma ImageUndoRestores(props: map<string, Value>, path: string, loadable: set<string>)
    requires "src" in props && props["src"].Text? && props["src"].s in loadable
    ensures RestoreSource(LoadSource(props, path, loadable), props["src"], loadable) == props
  {
    var after := LoadSource(props, path, loadable);
    assert after.Keys == props.Keys;
    assert after["src" := props["src"]] == props;
  }

  /**
   * As written, undo stores the base name of the previous source: a sheet
   * whose `src` is `img/hud.png` comes back as `hud.png`.
   */
  lemma ImageUndoAsWrittenDropsDirectory()
    ensures var props := map["src" := Text("img/hud.png")];
      var loadable := {"img/hud.png", "/tmp/new.png"};
      var undone := ImageUndoAsWritten(LoadSource(props, "/tmp/new.png", loadable), props["src"], loadable);
      undone["src"] == Text("hud.png") && undone != props
  {
    var p := "img/hud.png";
    assert "img/" + "hud.png" == p;
    BasenameAfterSlash("img/", "hud.png");
  }

  /** The base name of `dir + name`, where `dir` ends in `/` and `name` has none. */
  lemma {:induction false} BasenameAfterSlash(dir: string, name: string)
    requires |dir| > 0 && dir[|dir| - 1] == '/' && '/' !in name
    ensures Basename(dir + name) == name
    decreases |name|
  {
    if name == [] {
      assert dir + name == dir;
    } else {
      var init := name[..|name| - 1];
      assert (dir + name)[..|dir + name| - 1] == dir + init;
      assert init <= name;
      BasenameAfterSlash(dir, init);
    }
  }

  /** Redo on an unflipped sprite writes back exactly the rectangle asked for. */
  lemma ModifyRedoWritesNewRect(st: SpriteState, r: Rect, newName: Option<string>)
    requires !st.flippedW && !st.flippedH
    ensures EmittedRect(ModifyRedo(st, r, newName)) == r
    ensures ModifyRedo(st, r, newName).name == if Renames(newName) then newName.value else st.name
  {
  }

  /**
   * Modifying a sprite and undoing gives back its name, its geometry and its
   * flip flags, so it writes the same RCSS text as before.
   */
  lemma ModifyUndoRestores(st: SpriteState, r: Rect, newName: Option<string>)
    requires st.rect.width >= 0 && st.rect.height >= 0
    ensures ModifyUndo(ModifyRedo(st, r, newName), st) == st
    ensures ToRCSS(ModifyUndo(ModifyRedo(st, r, newName), st)) == ToRCSS(st)
  {
    var redone := ModifyRedo(st, r, newName);
    var restored := ModifyUndoAsWritten(redone, st);
    assert restored.rect == st.rect && restored.name == st.name;
  }

  /**
   * As written, undo keeps a flip flag that redo raised: a 10 by 10 sprite
   * at the origin, resized to a width of -10 and restored, writes its width
   * as -10.
   */
  lemma ModifyUndoAsWrittenKeepsFlip()
    ensures var st := Construct("a", 0, 0, 10, 10);
      var undone := ModifyUndoAsWritten(ModifyRedo(st, Rect(0, 0, -10, 10), None), st);
      && undone.rect == st.rect
      && undone.flippedW && !st.flippedW
      && EmittedRect(undone) == Rect(10, 0, -10, 10)
      && EmittedRect(st) == Rect(0, 0, 10, 10)
  {
  }

  /**
   * What the attribute `sprite.name` holds: the class's `name()` method, or
   * a string that `sprite.name = ...` stored on the instance, hiding the
   * method.
   */
  datatype NameSlot = NameMethod | NameShadowed(text: string)

  /** `toRCSS()`, whose first step calls `self.name()`: a hidden method leaves a string, and calling it raises TypeError. */
  function ToRCSSWithSlot(slot: NameSlot, st: SpriteState): Result<string>
  {
    match slot
    case NameMethod => Ok(ToRCSS(st))
    case NameShadowed(_) => Raised(TypeError)
  }

  /** The rename in the modify command's `redo` as written: a truthy new name is assigned to the attribute `name`. */
  function ModifyRenameAsWritten(slot: NameSlot, newName: Option<string>): NameSlot
  {
    if Renames(newName) then NameShadowed(newName.value) else slot
  }

  /**
   * As written, a rename never reaches `_name`: redo hides `name()` behind
   * the new string, so writing the sprite raises TypeError, while the
   * corrected redo writes the new name. Undo stores back what `sprite.name`
   * held when the command was built, the bound method, so the sprite writes
   * its old text again.
   */
  lemma ModifyRenameAsWrittenBreaksToRCSS(st: SpriteState, r: Rect, newName: Option<string>)
    requires Renames(newName)
    ensures var resized := SpriteGeometry.SetSize(st, r.x, r.y, r.width, r.height);
      && ToRCSSWithSlot(ModifyRenameAsWritten(NameMethod, newName), resized) == Raised(TypeError)
      && resized.name == st.name
    ensures ToRCSSWithSlot(NameMethod, ModifyRedo(st, r, newName)).Ok?
    ensures ModifyRedo(st, r, newName).name == newName.value
  {
  }

  /**
   * Creating a sprite whose name and rectangle are both new, then undoing,
   * gives back the list; with a sprite of equal rectangle already listed,
   * undo removes that one instead.
   */
  lemma CreateUndoRestores(items: seq<Sprite>, s: Sprite)
    requires forall k :: 0 <= k < |items| ==> items[k].name != s.name
    requires forall k :: 0 <= k < |items| ==> !SameRect(items[k].State(), s.State())
    ensures AddEffect(items, s) == items + [s]
    ensures RemoveEffect(AddEffect(items, s), s) == items
  {
    var added := items + [s];
    var states := States(added);
    var k := FirstSameRect(states, s.State());
    assert states[|items|] == s.State();
    assert k == |items|;
    assert added[..k] == items && added[k + 1..] == [];
  }

  /**
   * Deleting a sprite that the list holds under a unique name, when no
   * earlier sprite shares its rectangle, then undoing, keeps every sprite of
   * the list: the deleted one comes back at the end.
   */
  lemma DeleteUndoKeepsSprites(items: seq<Sprite>, s: Sprite)
    requires DistinctNames(items)
    requires FirstSameRect(States(items), s.State()) < |items|
    requires items[FirstSameRect(States(items), s.State())] == s
    ensures var k := FirstSameRect(States(items), s.State());
      AddEffect(RemoveEffect(items, s), s) == items[..k] + items[k + 1..] + [s]
    ensures multiset(AddEffect(RemoveEffect(items, s), s)) == multiset(items)
  {
    var k := FirstSameRect(States(items), s.State());
    var rest := RemovedAt(items, s, k);
    OthersNamedApart(items, k, rest);
    AddUnderFreshName(rest, s);
    RemoveAt(items, k);
  }

  /** Removing the sprite at the first equal rectangle leaves the others, in order. */
  lemma RemovedAt(items: seq<Sprite>, s: Sprite, k: nat) returns (rest: seq<Sprite>)
    requires k == FirstSameRect(States(items), s.State()) && k < |items|
    ensures rest == items[..k] + items[k + 1..] && RemoveEffect(items, s) == rest
  {
    rest := items[..k] + items[k + 1..];
  }

  /** In a list of distinct names, no sprite but the one at `k` has its name. */
  lemma OthersNamedApart(items: seq<Sprite>, k: nat, rest: seq<Sprite>)
    requires DistinctNames(items) && k < |items| && rest == items[..k] + items[k + 1..]
    ensures forall j :: 0 <= j < |rest| ==> rest[j].name != items[k].name
  {
    forall j | 0 <= j < |rest|
      ensures rest[j].name != items[k].name
    {
      if j < k {
        assert rest[j] == items[j];
      } else {
        assert rest[j] == items[j + 1];
      }
    }
  }

  /** A sprite whose name no listed sprite has is appended. */
  lemma AddUnderFreshName(items: seq<Sprite>, s: Sprite)
    requires forall j :: 0 <= j < |items| ==> items[j].name != s.name
    ensures AddEffect(items, s) == items + [s]
  {
  }

  // ---------------------------------------------------------------------
  // The commands and the window
  // ---------------------------------------------------------------------

  /** A command with the state it captured when it was built. */
  datatype Command =
    | SetProp(dst: PropsDict, prop: string, newValue: Value, prev: Value)
    | SetImage(path: string, prev: Value)
    | CreateSprite(sprite: Sprite)
    | DeleteSprite(sprite: Sprite)
    | ModifySprite(sprite: Sprite, newRect: Rect, newName: Option<string>, before: SpriteState)

  /** The window's status bar, which shows the last message. */
  class StatusBar {
    var message: string

    constructor()
      ensures message == ""
    {
      message := "";
    }
  }

  class Window {
    /** `css.props` of the loaded `@spritesheet` rule. */
    const props: PropsDict
    const sprites: SpriteListModel
    /** The paths `loadImage` succeeds on. */
    const loadable: set<string>
    const statusBar: StatusBar
    var stack: seq<Command>
    var index: nat

    constructor(props: PropsDict, sprites: SpriteListModel, statusBar: StatusBar, loadable: set<string>)
      ensures this.props == props && this.sprites == sprites && this.statusBar == statusBar
      ensures this.loadable == loadable
      ensures stack == [] && index == 0
    {
      this.props := props;
      this.sprites := sprites;
      this.statusBar := statusBar;
      this.loadable := loadable;
      stack := [];
      index := 0;
    }

    /** The index of the next command to redo lies within the stack. */
    predicate Valid()
      reads this
    {
      index <= |stack|
    }

    /** The objects a command's `redo` and `undo` may change besides the window. */
    function Footprint(c: Command): set<object>
    {
      match c
      case SetProp(dst, _, _, _) => {dst, statusBar}
      case SetImage(_, _) => {props}
      case CreateSprite(_) => {sprites, sprites.list}
      case DeleteSprite(_) => {sprites, sprites.list}
      case ModifySprite(sprite, _, _, _) => {sprite}
    }

    /** The effect of `c.redo()` between the old state and this one. */
    twostate predicate Redone(c: Command)
      reads Footprint(c)
    {
      match c
      case SetProp(dst, prop, newValue, prev) =>
        dst.entries == old(dst.entries)[prop := newValue] && statusBar.message == SetMessage(prop, prev, newValue)
      case SetImage(path, _) =>
        props.entries == LoadSource(old(props.entries), path, loadable)
      case CreateSprite(s) =>
        sprites.list.items == old(AddEffect(sprites.list.items, s))
      case DeleteSprite(s) =>
        && sprites.list.items == old(RemoveEffect(sprites.list.items, s))
        && sprites.selected == old(SelectionAfterRemove(sprites.list.items, sprites.selected, s))
      case ModifySprite(s, r, newName, _) =>
        s.State() == ModifyRedo(old(s.State()), r, newName)
    }

    /** The effect of `c.undo()` between the old state and this one. */
    twostate predicate Undone(c: Command)
      reads Footprint(c)
    {
      match c
      case SetProp(dst, prop, newValue, prev) =>
        dst.entries == old(dst.entries)[prop := prev] && statusBar.message == SetMessage(prop, newValue, prev)
      case SetImage(_, prev) =>
        props.entries == RestoreSource(old(props.entries), prev, loadable)
      case CreateSprite(s) =>
        && sprites.list.items == old(RemoveEffect(sprites.list.items, s))
        && sprites.selected == old(SelectionAfterRemove(sprites.list.items, sprites.selected, s))
      case DeleteSprite(s) =>
        sprites.list.items == old(AddEffect(sprites.list.items, s))
      case ModifySprite(s, _, _, prev) =>
        s.State() == ModifyUndo(old(s.State()), prev)
    }

    method AddSpriteRow(s: Sprite)
      modifies sprites.list
      ensures sprites.list.items == old(AddEffect(sprites.list.items, s))
    {
      var _ := sprites.InsertRow(s);
    }

    /** An exception `removeRow` raises inside `redo` or `undo` is reported by Qt and dropped. */
    method DeleteSpriteRow(s: Sprite)
      modifies sprites, sprites.list
      ensures sprites.list.items == old(RemoveEffect(sprites.list.items, s))
      ensures sprites.selected == old(SelectionAfterRemove(sprites.list.items, sprites.selected, s))
    {
      var _ := sprites.RemoveRow(s);
    }

    method RunRedo(c: Command)
      modifies Footprint(c)
      ensures Redone(c)
    {
      match c
      case SetProp(dst, prop, newValue, prev) =>
        dst.entries := dst.entries[prop := newValue];
        statusBar.message := SetMessage(prop, prev, newValue);
      case SetImage(path, _) =>
        if path in loadable {
          props.entries := props.entries["src" := Text(Basename(path))];
        }
      case CreateSprite(s) =>
        AddSpriteRow(s);
      case DeleteSprite(s) =>
        DeleteSpriteRow(s);
      case ModifySprite(s, r, newName, _) =>
        s.SetSize(r.x, r.y, r.width, r.height);
        if Renames(newName) {
          s.SetName(newName.value);
        }
    }

    method RunUndo(c: Command)
      modifies Footprint(c)
      ensures Undone(c)
    {
      match c
      case SetProp(dst, prop, newValue, prev) =>
        dst.entries := dst.entries[prop := prev];
        statusBar.message := SetMessage(prop, newValue, prev);
      case SetImage(_, prev) =>
        if prev.Text? && prev.s in loadable {
          props.entries := props.entries["src" := prev];
        }
      case CreateSprite(s) =>
        DeleteSpriteRow(s);
      case DeleteSprite(s) =>
        AddSpriteRow(s);
      case ModifySprite(s, _, _, prev) =>
        s.SetSize(prev.rect.x, prev.rect.y, prev.rect.width, prev.rect.height);
        s.SetName(prev.name);
        if s.IsFlippedX() != prev.flippedW {
          s.FlipX();
        }
        if s.IsFlippedY() != prev.flippedH {
          s.FlipY();
        }
    }

    /**
     * `undo.push(c)`: runs `c.redo()`, drops the commands above the current
     * index and puts `c` on top.
     */
    method Push(c: Command)
      requires Valid()
      modifies this, Footprint(c)
      ensures Valid()
      ensures Redone(c)
      ensures stack == old(stack)[..old(index)] + [c] && index == old(index) + 1
    {
      RunRedo(c);
      stack := stack[..index] + [c];
      index := index + 1;
    }

    /** `undo.undo()`: steps back over the last command done, if any. */
    method Undo()
      requires Valid()
      modifies this, if 0 < index <= |stack| then Footprint(stack[index - 1]) else {}
      ensures Valid() && stack == old(stack)
      ensures old(index) == 0 ==> index == 0
      ensures old(index) > 0 ==> index == old(index) - 1 && Undone(old(stack[index - 1]))
    {
      if index > 0 {
        RunUndo(stack[index - 1]);
        index := index - 1;
      }
    }

    /** `undo.redo()`: does again the next command undone, if any. */
    method Redo()
      requires Valid()
      modifies this, if index < |stack| then Footprint(stack[index]) else {}
      ensures Valid() && stack == old(stack)
      ensures old(index) == |stack| ==> index == old(index)
      ensures old(index) < |stack| ==> index == old(index) + 1 && Redone(old(stack[index]))
    {
      if index < |stack| {
        RunRedo(stack[index]);
        index := index + 1;
      }
    }

    /**
     * `CommandSetProp(win, dst, prop, new)`: only a dict can be edited (for
     * anything else the bare `raise` fails with RuntimeError); the previous
     * value is read from `dst[prop]`; the command is pushed exactly when the
     * new value differs from it.
     */
    method NewSetProp(dst: PropsDict?, prop: string, newValue: Value) returns (r: Outcome)
      requires Valid()
      modifies this, dst, statusBar
      ensures Valid()
      ensures dst == null ==> r == Fail(RuntimeError) && stack == old(stack) && index == old(index)
      ensures dst != null && prop !in old(dst.entries) ==>
        r == Fail(KeyError(prop)) && stack == old(stack) && index == old(index) && dst.entries == old(dst.entries)
      ensures dst != null && prop in old(dst.entries) && newValue == old(dst.entries[prop]) ==>
        && r == Pass && stack == old(stack) && index == old(index) && dst.entries == old(dst.entries)
        && statusBar.message == SameValueMessage
      ensures dst != null && prop in old(dst.entries) && newValue != old(dst.entries[prop]) ==>
        && r == Pass
        && stack == old(stack)[..old(index)] + [SetProp(dst, prop, newValue, old(dst.entries[prop]))]
        && index == old(index) + 1
        && dst.entries == old(dst.entries)[prop := newValue]
    {
      if dst == null {
        return Fail(RuntimeError);
      }
      if prop !in dst.entries {
        return Fail(KeyError(prop));
      }
      var prev := dst.entries[prop];
      if newValue != prev {
        Push(SetProp(dst, prop, newValue, prev));
      } else {
        statusBar.message := SameValueMessage;
      }
      r := Pass;
    }

    /**
     * Editing a prop and, when the edit was pushed, undoing it at once
     * leaves the dictionary and the undo index as they were; the pushed
     * command stays on the stack for a later redo.
     */
    method SetPropThenUndo(dst: PropsDict?, prop: string, newValue: Value) returns (r: Outcome)
      requires Valid()
      modifies this, dst, statusBar
      ensures Valid() && index == old(index)
      ensures dst != null ==> dst.entries == old(dst.entries)
      ensures dst != null && prop in old(dst.entries) && newValue != old(dst.entries[prop]) ==>
        && stack == old(stack)[..old(index)] + [SetProp(dst, prop, newValue, old(dst.entries[prop]))]
        && statusBar.message == SetMessage(prop, newValue, old(dst.entries[prop]))
    {
      var before := index;
      r := NewSetProp(dst, prop, newValue);
      if index > before {
        SetPropRoundTrip(old(dst.entries), prop, newValue);
        Undo();
      }
    }

    /**
     * `CommandSetImage(win, new)` as written: after reading `props["src"]`,
     * the comparison calls `os.path.basename`, and `os` is never imported.
     */
    method NewSetImageAsWritten(path: string) returns (r: Outcome)
      ensures "src" !in props.entries ==> r == Fail(KeyError("src"))
      ensures "src" in props.entries ==> r == Fail(NameError("os"))
    {
      if "src" !in props.entries {
        return Fail(KeyError("src"));
      }
      r := Fail(NameError("os"));
    }

    /**
     * `CommandSetImage(win, new)` with `os` imported: pushed exactly when the
     * base name of the new path differs from the current `src`.
     */
    method NewSetImage(path: string) returns (r: Outcome)
      requires Valid()
      modifies this, props, statusBar
      ensures Valid()
      ensures "src" !in old(props.entries) ==>
        r == Fail(KeyError("src")) && stack == old(stack) && index == old(index) && props.entries == old(props.entries)
      ensures "src" in old(props.entries) && Text(Basename(path)) == old(props.entries["src"]) ==>
        && r == Pass && stack == old(stack) && index == old(index) && props.entries == old(props.entries)
        && statusBar.message == SameImageMessage
      ensures "src" in old(props.entries) && Text(Basename(path)) != old(props.entries["src"]) ==>
        && r == Pass
        && stack == old(stack)[..old(index)] + [SetImage(path, old(props.entries["src"]))]
        && index == old(index) + 1
        && props.entries == LoadSource(old(props.entries), path, loadable)
    {
      if "src" !in props.entries {
        return Fail(KeyError("src"));
      }
      var prev := props.entries["src"];
      if Text(Basename(path)) != prev {
        Push(SetImage(path, prev));
      } else {
        statusBar.message := SameImageMessage;
      }
      r := Pass;
    }

    /** `CommandCreateSprite(win, sprite)`: always pushed; redo adds the sprite. */
    method NewCreateSprite(sprite: Sprite)
      requires Valid()
      modifies this, sprites, sprites.list
      ensures Valid()
      ensures stack == old(stack)[..old(index)] + [CreateSprite(sprite)] && index == old(index) + 1
      ensures sprites.list.items == old(AddEffect(sprites.list.items, sprite))
    {
      Push(CreateSprite(sprite));
    }

    /** `CommandDeleteSprite(win, sprite)`: always pushed; redo removes the sprite. */
    method NewDeleteSprite(sprite: Sprite)
      requires Valid()
      modifies this, sprites, sprites.list
      ensures Valid()
      ensures stack == old(stack)[..old(index)] + [DeleteSprite(sprite)] && index == old(index) + 1
      ensures sprites.list.items == old(RemoveEffect(sprites.list.items, sprite))
    {
      Push(DeleteSprite(sprite));
    }

    /**
     * `CommandModifySprite(win, sprite, x, y, w, h, newname)` as written: it
     * reads `sprite.rect`, which neither Sprite class has, so construction
     * raises AttributeError and nothing is pushed.
     */
    method NewModifySpriteAsWritten(sprite: Sprite, x: int, y: int, w: int, h: int, newName: Option<string>)
      returns (r: Outcome)
      ensures r == Fail(AttributeError("rect"))
    {
      r := Fail(AttributeError("rect"));
    }

    /**
     * `CommandModifySprite` reading the sprite's own geometry, name and flip
     * flags: always pushed; redo applies the new geometry and, when given, the
     * new name.
     */
    method NewModifySprite(sprite: Sprite, x: int, y: int, w: int, h: int, newName: Option<string>)
      requires Valid()
      modifies this, sprite
      ensures Valid()
      ensures stack == old(stack)[..old(index)] + [ModifySprite(sprite, Rect(x, y, w, h), newName, old(sprite.State()))]
      ensures index == old(index) + 1
      ensures sprite.State() == ModifyRedo(old(sprite.State()), Rect(x, y, w, h), newName)
    {
      Push(ModifySprite(sprite, Rect(x, y, w, h), newName, sprite.State()));
    }
  }
}
