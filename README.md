# rcss-sprite-ed document model in Dafny

rcss-sprite-ed is a Qt editor for the `@spritesheet` blocks of RmlUi style
sheets (RCSS). A block names a sheet, points at an image (`src`), may give a
`resolution`, and declares one rectangle per sprite:

    @spritesheet hud {
        src: hud.png;
        resolution: 2x;
        cursor: 10px 20px 30px 40px;
    }

This project models the editor's document core and proves properties of it:

- **Parser:** the tinycss extension that reads such a block. It has the sheet's name, the reserved
  `src`/`resolution` properties, sprite rectangles, and per-declaration errors that do
  not stop the parse.
- **Sprites:** both revisions of the sprite class. A rectangle drawn with a negative
  extent is folded into the positive and a flip flag remembers it, so that writing
  the sprite back gives the rectangle that was drawn.
- **Spritesheet:** the entity and its serializer.
- **List models:** the sprite and spritesheet lists behind the editor's widgets
  (insert without duplicate names, remove, hit-test, selection).
- **Undo commands:** the five commands behind the editor's undo history.
- **Image formats:** the image-format tables used by the file dialogs.

Python's dynamic values are a `Value` datatype (`None`, `int`, `str`) with
`str()` and truthiness. Exceptions are the `Result`/`Outcome` datatypes. The
built-in `int()` on text is modelled in full for ASCII digits: whitespace,
sign and single underscores.

Objects that the source changes in place are classes:
- sprites;
- the Python lists of sprites, which a sheet, a parsed rule and a list model share by reference (`SpriteList`);
- the props dictionary (`PropsDict`);
- sheets, list models, the parser (for its error flag), the error list, the status bar and the window with its undo stack.

The parser's loop over declarations is a method. It is proved against
`Accumulate`, a left fold of `Step`, one declaration at a time. The
properties are proved about the fold: every declaration lands once, errors are
isolated, the last `src` wins, and the worked example above. The serializer is
a method proved against the function `Serialized`. The framing, the
conditional resolution line, the path comment and the line count are proved
about that function.

Where the code and the written description of the program disagree, the model
follows the code:
- `setSize` sets a flip flag on a negative extent; it never toggles one back.
- `src` concatenates every token of the declaration, whitespace included.
- `resolution` must pass `int()`. `1.5x` falls through to the sprite branch and becomes an arity error there.
- No pass reports a missing `src`: the only failure is the KeyError of `Spritesheet.fromRCSS`.
- Creating or modifying a sprite checks nothing at the command level. A duplicate name is refused silently by `insertRow` when the command runs.
- There is no flip command, no resolution command and no line-range bookkeeping.

## Model

| member | source | states |
|---|---|---|
| `PyValues.IntRoundTrip` | Myth/RCSSParser.py:50-53 | `int()` of the decimal text of any integer gives that integer back |
| `PyValues.ParseIntSigned` | Myth/RCSSParser.py:52-53 | `int()` of a minus sign followed by well-formed digits is the negated digit value |
| `PyValues.ParseIntNeedsDigit` | Myth/RCSSParser.py:52-56 | text without any digit makes `int()` raise ValueError |
| `PyValues.NatToStringValue` | Myth/Models/Sprite.py:90 | the decimal text of a natural number is well-formed digits that spell that number |
| `PyValues.IntToStringChars` | Myth/Models/Sprite.py:90 | the decimal text of an integer holds only digits, except a leading `-` for a negative one |
| `SpriteGeometry.SetSize` | Myth/Models/Sprite.py:47-61 | after `setSize` width and height are never negative and the name is kept |
| `SpriteGeometry.SetSizeFoldsNegativeExtent` | Myth/Models/Sprite.py:50-57 | a negative width stores x+w and -w and sets the flag; a non-negative one stores x and w and keeps the flag; the same for height |
| `SpriteGeometry.SetSizeKeepsFlip` | Myth/Models/Sprite.py:47-57 | `setSize` never clears a flip flag, so a flipped sprite resized with a positive width writes that width negated |
| `SpriteGeometry.SetSizeKeepsArea` | Myth/Models/Sprite.py:47-73 | after `setSize`, a point hits exactly when it lies strictly inside the drawn rectangle, whatever the signs of its extents |
| `SpriteGeometry.BoundaryMisses` | Myth/Models/Sprite.py:63-73 | a point on any edge of the rectangle is not a hit |
| `SpriteGeometry.FlipIsInvolution` | Myth/Models/Sprite.py:41-45 | flipping twice restores the sprite; a flip changes only its own flag |
| `SpriteGeometry.FlipXMirrorsEmittedWidth` | Myth/Models/Sprite.py:83-85 | flipping horizontally negates the written width and moves the written x to the other edge |
| `SpriteGeometry.SetNameOnlyRenames` | Myth/Models/Sprite.py:29-33 | `setName` then `name()` gives the new name; geometry and flags are unchanged |
| `SpriteGeometry.ConstructRoundTrip` | Myth/Models/Sprite.py:75-90 | a sprite built from any rectangle writes `name: Xpx Ypx Wpx Hpx;` with exactly that rectangle |
| `SpriteGeometry.ReparseIsStable` | Myth/Models/Sprite.py:75-90 | building a sprite from the rectangle another one writes gives the same text again |
| `SpriteGeometry.ToRCSSIsOneLine` | Myth/Models/Sprite.py:90 | a sprite whose name has no newline writes one line |
| `Sprites.Sprite.constructor` | Myth/Models/Sprite.py:16-20 | a new sprite is the empty rectangle, unflipped, after `setSize` |
| `Sprites.Sprite.SetName` | Myth/Models/Sprite.py:32-33 | only the name changes |
| `Sprites.Sprite.FlipX` | Myth/Models/Sprite.py:41-42 | only the horizontal flag changes, to its negation |
| `Sprites.Sprite.FlipY` | Myth/Models/Sprite.py:44-45 | only the vertical flag changes, to its negation |
| `Sprites.Sprite.SetSize` | Myth/Models/Sprite.py:47-61 | the new state is the folded rectangle; width and height are not negative |
| `Sprites.FreshSpriteRoundTrip` | Myth/Models/Sprite.py:16-90 | a sprite built from any rectangle and renamed writes the new name and the original rectangle |
| `LegacySprites.Sprite.constructor` | Myth/Sprite.py:8-12 | a new sprite of the earlier revision is folded the same way and has no list item |
| `LegacySprites.Sprite.SetName` | Myth/Sprite.py:17-20 | the name changes and an attached list item shows the new name |
| `LegacySprites.Sprite.SetSize` | Myth/Sprite.py:22-36 | the folded rectangle; extents not negative; flags only ever go from false to true |
| `LegacySprites.FreshSpriteRoundTrip` | Myth/Sprite.py:50-65 | a sprite of the earlier revision writes back the rectangle it was built from, after a rename too |
| `RCSSParser.ParseSpritesheetName` | Myth/RCSSParser.py:29-33 | a head of one IDENT names the sheet; any other head gives `UNNAMED` |
| `RCSSParser.FirstNotInteger` | Myth/RCSSParser.py:69-71 | the first declaration whose four values are not all integers, where `Sprite(...)` raises |
| `RCSSParser.AccumulateConcat` | Myth/RCSSParser.py:42-73 | parsing two runs of declarations is parsing each: sprites and errors concatenate, later props override |
| `RCSSParser.ArityErrorIsIsolated` | Myth/RCSSParser.py:63-67 | a declaration with the wrong number of values adds exactly its one message and nothing else; the rest parse as without it |
| `RCSSParser.EveryDeclarationLandsOnce` | Myth/RCSSParser.py:42-73 | sprites + errors + reserved declarations = declarations |
| `RCSSParser.WellFormedSpritesParse` | Myth/RCSSParser.py:56-71 | declarations of four integers each give one sprite each, in order, and no error |
| `RCSSParser.PropsKeysAreDeclared` | Myth/RCSSParser.py:45-55 | props holds only `src` and `resolution`, each from a declaration of that name |
| `RCSSParser.LastSrcWins` | Myth/RCSSParser.py:50-55 | `src` is the concatenated text of the last `src` declaration |
| `RCSSParser.ResolutionFallsThrough` | Myth/RCSSParser.py:52-56 | a `resolution` that `int()` refuses is read as a sprite declaration |
| `RCSSParser.FractionalResolutionIsAnError` | Myth/RCSSParser.py:52-65 | `resolution: 1.5` becomes the message `Sprite resolution has 1 props, expected 4` |
| `RCSSParser.HudExample` | Myth/RCSSParser.py:29-73 | the `hud` block above gives name `hud`, `src` `hud.png`, resolution 2, one sprite `cursor` (10,20,30,40) unflipped, no errors |
| `RCSSParser.AtRuleGuard` | Myth/RCSSParser.py:76-81 | a `@spritesheet` rule is accepted exactly in the stylesheet context with a block; otherwise a ParseError |
| `RCSSParser.AtRuleGuardAsWrittenMisreports` | Myth/RCSSParser.py:77-81 | the rules the guard rejects fail with NameError `ParseError` instead, and never with a ParseError |
| `RCSSParser.CollectSpriteProps` | Myth/RCSSParser.py:57-61 | the loop keeps the values of the non-whitespace tokens, in order |
| `RCSSParser.SpritesheetRule.constructor` | Myth/RCSSParser.py:10-16 | the record holds name, sprite list, props, nested rules, line and column |
| `RCSSParser.Parser.constructor` | Myth/RCSSParser.py:24-27 | the error flag starts false |
| `RCSSParser.Parser.ParseSpritesheetDeclarations` | Myth/RCSSParser.py:35-73 | props, errors and fresh distinct sprites are those of the fold; TypeError exactly when some sprite's values are not integers; the flag is set once an error is appended and never reset |
| `RCSSParser.Parser.ParseDeclaration` | Myth/RCSSParser.py:45-71 | one pass of the loop body is one step of the fold, or TypeError |
| `RCSSParser.Parser.ParseAtRule` | Myth/RCSSParser.py:75-88 | any other at-rule gets the base parser's outcome `base`: its messages appended, then its exception or its record; a rejected `@spritesheet` rule raises ParseError with the corrected guard (as written it is NameError); otherwise a fresh rule with the head's name, the fold's sprites and props, and body errors appended before declaration errors |
| `Spritesheets.Spritesheet.constructor` | Myth/Models/Spritesheet.py:8-14 | fields as given; `src` defaults to `none` and resolution to None |
| `Spritesheets.Spritesheet.FromRCSS` | Myth/Models/Spritesheet.py:16-19 | KeyError for a missing `src`, then for a missing `resolution`; otherwise a sheet with an empty basepath sharing the rule's sprite list |
| `Spritesheets.Spritesheet.SetBasepath` | Myth/Models/Spritesheet.py:21-22 | only the basepath changes |
| `Spritesheets.Spritesheet.SetResolution` | Myth/Models/Spritesheet.py:30-31 | only the resolution changes |
| `Spritesheets.Spritesheet.SetSource` | Myth/Models/Spritesheet.py:39-40 | only the source changes |
| `Spritesheets.Spritesheet.Serialize` | Myth/Models/Spritesheet.py:48-65 | the text is `Serialized` of the sheet's fields and its sprites' current states |
| `Spritesheets.Spritesheet.SerializeHead` | Myth/Models/Spritesheet.py:49-58 | the text before the sprites: opening, path comment, `src`, the resolution line when truthy, a blank line |
| `Spritesheets.Spritesheet.SerializeSprites` | Myth/Models/Spritesheet.py:60-61 | one tab-indented line per sprite, in list order |
| `Spritesheets.SerializedFraming` | Myth/Models/Spritesheet.py:49-63 | the text starts `@spritesheet <name>` newline `{` newline and ends `}` newline |
| `Spritesheets.SerializedPathComment` | Myth/Models/Spritesheet.py:36-53 | after the opening come the path comment `basepath/src` and the `src` line |
| `Spritesheets.ResolutionLineIffTruthy` | Myth/Models/Spritesheet.py:55-56 | a falsy resolution (None, 0, empty) gives the text without it; a truthy one inserts exactly its line after the `src` line |
| `Spritesheets.SpriteLinesConcat` | Myth/Models/Spritesheet.py:60-61 | the sprite lines of two runs of sprites are the lines of each |
| `Spritesheets.SerializedLineCount` | Myth/Models/Spritesheet.py:48-65 | with no newline inside the fields, the text has 6 lines plus one per sprite plus one with a resolution |
| `SpriteListModels.CountNamedPositive` | Myth/Models/SpriteListModel.py:26-30 | the filter finds a sprite exactly when some sprite has the name |
| `SpriteListModels.FirstSameRect` | Myth/Models/SpriteListModel.py:43-47 | the position `list.index` finds: the first sprite equal as a rectangle, or none |
| `SpriteListModels.FirstNamed` | Myth/Models/SpriteListModel.py:63-68 | the first sprite with the name, or none |
| `SpriteListModels.HitsAreExactlyTheContaining` | Myth/Models/SpriteListModel.py:50-55 | a sprite is hit exactly when it is listed and contains the point |
| `SpriteListModels.HitsConcat` | Myth/Models/SpriteListModel.py:50-55 | hits keep list order |
| `SpriteListModels.SpriteListModel.constructor` | Myth/Models/SpriteListModel.py:10-13 | the model shares the given list and starts with no selection |
| `SpriteListModels.SpriteListModel.FindDupes` | Myth/Models/SpriteListModel.py:26-30 | true exactly when some sprite has the name |
| `SpriteListModels.SpriteListModel.InsertRow` | Myth/Models/SpriteListModel.py:32-40 | refused, list unchanged, for a taken name; otherwise appended; distinct names stay distinct |
| `SpriteListModels.SpriteListModel.RemoveRow` | Myth/Models/SpriteListModel.py:42-48 | ValueError and no change without an equal rectangle; otherwise the first equal one removed (one shorter, the rest kept in order) and the selection cleared exactly when it equals the given sprite |
| `SpriteListModels.SpriteListModel.HitTest` | Myth/Models/SpriteListModel.py:50-55 | the sprites containing the point, in list order |
| `SpriteListModels.SpriteListModel.SetSelected` | Myth/Models/SpriteListModel.py:60-61 | the given sprite is selected |
| `SpriteListModels.SpriteListModel.SetSelectedByName` | Myth/Models/SpriteListModel.py:63-68 | true and the first sprite with the name selected, or false and the selection kept |
| `SpriteListModels.SpriteListModel.ClearSelection` | Myth/Models/SpriteListModel.py:70-71 | nothing is selected |
| `SpritesheetListModels.FirstSheetNamed` | Myth/Models/SpritesheetListModel.py:34-36 | the first sheet with the name, or none |
| `SpritesheetListModels.SpritesheetListModel.constructor` | Myth/Models/SpritesheetListModel.py:10-12 | the model holds the given sheets, nothing selected |
| `SpritesheetListModels.SpritesheetListModel.GetSheetListModel` | Myth/Models/SpritesheetListModel.py:22-25 | None without a match; otherwise a new sprite list model over the matching sheet's own list |
| `SpritesheetListModels.SpritesheetListModel.SetSheetImage` | Myth/Models/SpritesheetListModel.py:27-28 | only the given sheet's source changes |
| `SpritesheetListModels.SpritesheetListModel.GetSheetImage` | Myth/Models/SpritesheetListModel.py:30-36 | `basepath/src` of the first sheet with the name (the selected sheet's without one), None without a match, AttributeError with neither name nor selection |
| `SpritesheetListModels.SpritesheetListModel.SetSelectedByName` | Myth/Models/SpritesheetListModel.py:44-49 | true and the first sheet with the name selected, or false and the selection kept |
| `SpritesheetListModels.SpritesheetListModel.ClearSelection` | Myth/Models/SpritesheetListModel.py:51-52 | nothing is selected |
| `Commands.BasenameIsLastSegment` | Myth/Commands.py:50 | the base name has no `/`, ends the path, and is the whole path or follows a `/` |
| `Commands.SetPropRoundTrip` | Myth/Commands.py:27-33 | redo then undo gives the dictionary back; no other key is touched |
| `Commands.ImageUndoRestores` | Myth/Commands.py:48-58 | with both images loadable, setting an image and undoing gives `src` back |
| `Commands.ImageUndoAsWrittenDropsDirectory` | Myth/Commands.py:57-58 | as written, undoing over a `src` of `img/hud.png` leaves `hud.png` |
| `Commands.ModifyRedoWritesNewRect` | Myth/Commands.py:121-125 | on an unflipped sprite redo writes the new rectangle, and renames only for a non-empty name |
| `Commands.ModifyUndoRestores` | Myth/Commands.py:127-130 | redo then undo gives back name, geometry and flip flags, so the same text |
| `Commands.ModifyRenameAsWrittenBreaksToRCSS` | Myth/Commands.py:103-129 | as written, a rename assigns a string over `name()`, so `toRCSS` raises TypeError and `_name` keeps the old name; the corrected redo writes the new name |
| `Commands.ModifyUndoAsWrittenKeepsFlip` | Myth/Commands.py:127-130 | as written, undo after a redo to width -10 keeps the flag, so the sprite writes a width of -10 |
| `Commands.CreateUndoRestores` | Myth/Commands.py:69-75 | creating a sprite with a new name and rectangle and undoing gives the list back |
| `Commands.DeleteUndoKeepsSprites` | Myth/Commands.py:86-92 | deleting a listed sprite and undoing keeps every sprite, the deleted one moved to the end |
| `Commands.Window.AddSpriteRow` | Myth/Commands.py:70 | `addSprite`: appended unless the name is taken |
| `Commands.Window.DeleteSpriteRow` | Myth/Commands.py:74 | `deleteSprite`: the first equal rectangle removed, selection cleared when equal |
| `Commands.Window.RunRedo` | Myth/Commands.py:27-125 | each command's `redo` as its own effect on the objects it names, with the modify command's rename done by `setName` (corrected: the code assigns to the attribute `name`) |
| `Commands.Window.RunUndo` | Myth/Commands.py:31-130 | each command's `undo`, with the corrected image and modify undo, the old name given back by `setName` |
| `Commands.Window.SetPropThenUndo` | Myth/Commands.py:7-33 | editing a prop and undoing a pushed edit at once leaves the dictionary and the undo index as they were, with the edit kept for redo |
| `Commands.Window.Push` | Myth/Commands.py:22-25 | pushing runs redo, drops undone commands and puts the command on top |
| `Commands.Window.Undo` | Myth/Commands.py:31-33 | steps back over the last command done and runs its undo; nothing at the bottom |
| `Commands.Window.Redo` | Myth/Commands.py:27-29 | runs the next undone command's redo and steps forward; nothing at the top |
| `Commands.Window.NewSetProp` | Myth/Commands.py:7-25 | RuntimeError for a non-dict, KeyError for a missing key, no push when the value is the same, otherwise pushed and applied |
| `Commands.Window.NewSetImageAsWritten` | Myth/Commands.py:41-43 | as written: KeyError without `src`, otherwise NameError `os` |
| `Commands.Window.NewSetImage` | Myth/Commands.py:36-46 | pushed exactly when the new base name differs from `src`; `src` then becomes it if the image loads |
| `Commands.Window.NewCreateSprite` | Myth/Commands.py:61-67 | always pushed; the sprite is added |
| `Commands.Window.NewDeleteSprite` | Myth/Commands.py:78-84 | always pushed; the sprite is removed |
| `Commands.Window.NewModifySpriteAsWritten` | Myth/Commands.py:112-117 | as written: AttributeError `rect`, nothing pushed |
| `Commands.Window.NewModifySprite` | Myth/Commands.py:96-119 | corrected half: always pushed, capturing the old state (the name read through `name()`, not the bound method); the sprite gets the new rectangle and, when given, the new name through `setName` |
| `ImageFormats.SupportedList` | Myth/Util.py:5-15 | six formats PNG, BMP, JPG, GIF, JP2, TGA, no two described alike |
| `ImageFormats.FoldIsSeparatorThenJoin` | Myth/Util.py:18 | the fold puts one `;;` before every description |
| `ImageFormats.QtFilterOf` | Myth/Util.py:17-23 | the descriptions separated by `;;`, no leading separator, then `;;All files (*.*)` |
| `ImageFormats.QtFilterText` | Myth/Util.py:5-23 | the editor's filter string lists its six descriptions in table order, then the catch-all |
| `ImageFormats.AllInOneListsEveryFormat` | Myth/Util.py:25-26 | each format's ` *.<code>` glob follows those of the formats before it |
| `ImageFormats.AllInOneText` | Myth/Util.py:5-26 | `Supported images ( *.png *.bmp *.jpg *.gif *.jp2 *.tga)` |
| `ImageFormats.FromQtOf` | Myth/Util.py:28-33 | the code of the first row with the description, None exactly when no row has it |
| `ImageFormats.FromQtRoundTrip` | Myth/Util.py:5-33 | each row's description gives back its code; the catch-all gives None |

## Left out

- The tinycss tokenizer and the `CSS21Parser` base class are an external library. Declarations, tokens, nested at-rules and body errors are abstract records, and the base class's handling of every other at-rule (a ParseError for an unknown keyword such as `@keyframes`, appended errors for `@media` or `@page`) is a parameter of `parse_at_rule`: the messages it appends and the exception it raises, if any.
- Qt is not modelled: model notifications, painting (`repaint`), widgets and dialogs. The status bar is kept only as its last message.
- `loadImage` is the opaque set `loadable` of paths that load; `print` is dropped.
- `addSprite` and `deleteSprite` of the main window are not part of this model. They are taken to be the sprite list model's `insertRow` and `removeRow`. An exception `removeRow` raises inside `redo` is taken to be swallowed, leaving the list unchanged.
- `QUndoStack` is modelled by its push, undo and redo alone (no merge, no clean state, no macros).
- Commands.Window.RunUndo: the image command's undo with a previous `src` that is not a string does nothing. Python would call `loadImage` on it.
- A set-prop target that is not a dict is modelled as `null`.
- `removeRow` compares the selection with `==`. When nothing is selected the model takes `None == sprite` to be false.
- Sprite `==` is QRect geometry equality, so `removeRow` and `CommandDeleteSprite` can remove a different sprite with the same rectangle. The model keeps that behaviour; `Commands.DeleteUndoKeepsSprites` assumes the first equal rectangle is the sprite itself.
- Mutable default arguments (`sprites=[]`, `sheets=[]`) shared between calls, and the `_properties` table of the sprite, are not modelled.
- `int()` accepts only ASCII digits here. Python also accepts other Unicode decimal digits.
- RCSSParser.Parser.ParseSpritesheetDeclarations: a fractional numeric token such as `1.5px` is not modelled as a float. It is a value that is not an integer, so the sprite branch raises TypeError. The source passes the float to QRect's setters, and the Qt binding, which is not part of this model, may truncate it and build the sprite.
- SpriteGeometry.ConstructRoundTrip: QRect stores 32-bit coordinates, and the Qt binding raises OverflowError outside that range. The model's integers are unbounded, so the round trip is stated for every integer, and the same holds for `Sprites.Sprite.SetSize`.
- Floating-point resolutions are not modelled: a value `int()` refuses falls through to the sprite branch, as in the code.
- Saving files, checksums, backups and line ranges appear in no file of this model.
- The main window, image selection, sprite edit dialog, packer and about windows are UI code and are not part of this model.

## Findings

| source | as written | input that shows it | evidently intended | confidence | as-written member | corrected member |
|---|---|---|---|---|---|---|
| Myth/RCSSParser.py:78 | both rejections raise a ParseError that the module never imports | a `@spritesheet` rule inside another block, or one without a block | a ParseError with the message | high, not executed | `RCSSParser.AtRuleGuardAsWritten` | `RCSSParser.AtRuleGuard` |
| Myth/Commands.py:43 | the image command calls `os.path.basename`, and `os` is never imported | any image choice while the sheet has a `src` | compare and store the base name of the chosen path | high, not executed | `Commands.Window.NewSetImageAsWritten` | `Commands.Window.NewSetImage` |
| Myth/Commands.py:113 | the modify command reads `sprite.rect`, which neither sprite class has | any sprite edit | read the sprite's own x, y, width and height | high, not executed | `Commands.Window.NewModifySpriteAsWritten` | `Commands.Window.NewModifySprite` |
| Myth/Commands.py:124 | the modify command keeps `sprite.name` (line 103, the bound method) and renames by assigning to `sprite.name` (lines 124 and 129), hiding the `name()` method | with line 113 corrected, an edit of sprite `a` with new name `b`: `toRCSS` then calls a string and raises TypeError, and `_name` stays `a` | read the name with `name()` and rename with `setName` | high, not executed | `Commands.ModifyRenameAsWrittenBreaksToRCSS` | `Commands.ModifyRedoWritesNewRect` |
| Myth/Commands.py:128 | undo restores geometry and name but not the flip flags `setSize` raised | sprite `a` at (0,0,10,10) edited to width -10, then undone: it writes `a: 10px 0px -10px 10px;` | undo gives back the sprite as it was | medium, not executed | `Commands.ModifyUndoAsWritten` | `Commands.ModifyUndo` |
| Myth/Commands.py:58 | undo reloads the previous `src` and stores its base name | `src` `img/hud.png`, new image `/tmp/new.png`, undo: `src` is `hud.png` | undo gives back the previous `src` | low, not executed | `Commands.ImageUndoAsWritten` | `Commands.RestoreSource` |
