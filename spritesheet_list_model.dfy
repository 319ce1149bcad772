/**
 * The list model behind the sheet list widget: the parsed sheets, a
 * selected sheet, lookup of a sheet's sprite list model and image path, and
 * selection by name. Qt's notifications are not modelled.
 */
module SpritesheetListModels {
  import opened PyValues
  import opened Sprites
  import opened Spritesheets
  import opened SpriteListModels

  /** The position of the first sheet named `name`. */
  function FirstSheetNamed(sheets: seq<Spritesheet>, name: string): (k: nat)
    ensures k <= |sheets|
    ensures k < |sheets| ==> sheets[k].name == name
    ensures forall j :: 0 <= j < k ==> sheets[j].name != name
  {
    if sheets == [] then 0
    else if sheets[0].name == name then 0
    else 1 + FirstSheetNamed(sheets[1..], name)
  }

  class SpritesheetListModel {
    const sheets: seq<Spritesheet>
    var selected: Spritesheet?

    constructor(sheets: seq<Spritesheet>)
      ensures this.sheets == sheets && selected == null
    {
      this.sheets := sheets;
      selected := null;
    }

    function RowCount(): nat
      reads this
    {
      |sheets|
    }

    /**
     * `getSheetListModel(name)`: a new sprite list model over the first
     * matching sheet's own sprite list, so that edits made through it alter
     * the sheet; `None` when no sheet has that name.
     */
    method GetSheetListModel(sheetName: string) returns (m: SpriteListModel?)
      ensures var k := FirstSheetNamed(sheets, sheetName);
        && (k == |sheets| ==> m == null)
        && (k < |sheets| ==> m != null && fresh(m) && m.list == sheets[k].sprites && m.sheet == sheets[k]
                             && m.selected == null)
    {
      var i := 0;
      while i < |sheets|
        invariant 0 <= i <= |sheets|
        invariant forall j :: 0 <= j < i ==> sheets[j].name != sheetName
      {
        if sheets[i].name == sheetName {
          assert FirstSheetNamed(sheets, sheetName) == i;
          m := new SpriteListModel(sheets[i].sprites, sheets[i]);
          return;
        }
        i := i + 1;
      }
      m := null;
    }

    /** `setSheetImage(sheet, image)`: only that sheet's source changes. */
    method SetSheetImage(sheet: Spritesheet, image: Value)
      modifies sheet
      ensures sheet.src == image
      ensures sheet.basepath == old(sheet.basepath) && sheet.resolution == old(sheet.resolution)
    {
      sheet.SetSource(image);
    }

    /**
     * `getSheetImage(name=None)`: the long path of the first sheet with that
     * name, or `None` when there is none. Without a name, the selected
     * sheet's name is used; with nothing selected, reading `.name()` of
     * `None` raises AttributeError.
     */
    method GetSheetImage(sheetName: Option<string>) returns (r: Result<Option<string>>)
      ensures sheetName.None? && selected == null ==> r == Raised(AttributeError("name"))
      ensures sheetName.Some? || selected != null ==>
        var name := if sheetName.Some? then sheetName.value else selected.name;
        var k := FirstSheetNamed(sheets, name);
        && (k == |sheets| ==> r == Ok(None))
        && (k < |sheets| ==> r == Ok(Some(LongPath(sheets[k].basepath, sheets[k].src))))
    {
      var name: string;
      if sheetName.Some? {
        name := sheetName.value;
      } else {
        if selected == null {
          return Raised(AttributeError("name"));
        }
        name := selected.name;
      }
      var i := 0;
      while i < |sheets|
        invariant 0 <= i <= |sheets|
        invariant forall j :: 0 <= j < i ==> sheets[j].name != name
      {
        if sheets[i].name == name {
          assert FirstSheetNamed(sheets, name) == i;
          return Ok(Some(sheets[i].basepath + "/" + Str(sheets[i].src)));
        }
        i := i + 1;
      }
      r := Ok(None);
    }

    /**
     * `setSelectedByName(name)`: selects the first sheet with that name;
     * with none, returns false and keeps the selection.
     */
    method SetSelectedByName(sheetName: string) returns (found: bool)
      modifies this
      ensures found <==> exists k :: 0 <= k < |sheets| && sheets[k].name == sheetName
      ensures found ==> selected == sheets[FirstSheetNamed(sheets, sheetName)]
      ensures !found ==> selected == old(selected)
    {
      var i := 0;
      while i < |sheets|
        invariant 0 <= i <= |sheets|
        invariant forall j :: 0 <= j < i ==> sheets[j].name != sheetName
        invariant selected == old(selected)
      {
        if sheets[i].name == sheetName {
          selected := sheets[i];
          assert FirstSheetNamed(sheets, sheetName) == i;
          return true;
        }
        i := i + 1;
      }
      found := false;
    }

    method ClearSelection()
      modifies this
      ensures selected == null
    {
      selected := null;
    }
  }
}
