/**
 * The image formats the editor offers when loading or saving a sheet's
 * image: a fixed table of (Qt file-dialog description, format code) pairs,
 * the two filter strings built from it for Qt's file dialogs, and the
 * lookup from a chosen filter back to its format code.
 */
module ImageFormats {
  import opened PyValues

  /** One row of the table: the dialog description and the format code. */
  datatype ImageFormat = ImageFormat(desc: string, code: string)

  const Table: seq<ImageFormat> := [
    ImageFormat("PNG image (*.apng, *.png)", "PNG"),
    ImageFormat("BMP image (*.bmp)", "BMP"),
    ImageFormat("JPEG image (*.jpg *.jpeg)", "JPG"),
    ImageFormat("GIF image (*.gif)", "GIF"),
    ImageFormat("JPEG2000 image (*.j2c, *.j2k, *.jp2, *.jpc, *.jpf, *.jpx)", "JP2"),
    ImageFormat("TGA image (*.tga)", "TGA")
  ]

  const AllFiles := "All files (*.*)"

  /**
   * `supportedImageFormatsList()`: the table itself, six rows in the order
   * PNG, BMP, JPG, GIF, JP2, TGA, no two with the same description.
   */
  function SupportedList(): (r: seq<ImageFormat>)
    ensures |r| == 6
    ensures r[0].code == "PNG" && r[1].code == "BMP" && r[2].code == "JPG"
    ensures r[3].code == "GIF" && r[4].code == "JP2" && r[5].code == "TGA"
    ensures forall i, j :: 0 <= i < j < |r| ==> r[i].desc != r[j].desc
  {
    TableDescsDistinct();
    Table
  }

  // ---------------------------------------------------------------------
  // The Qt filter list
  // ---------------------------------------------------------------------

  /** `reduce(lambda a, v: a + ";;" + v[0], fmts, "")`. */
  function FoldDescs(fmts: seq<ImageFormat>): string
  {
    if fmts == [] then ""
    else FoldDescs(fmts[..|fmts| - 1]) + ";;" + fmts[|fmts| - 1].desc
  }

  /** The descriptions joined with `;;` between each two. */
  function Joined(fmts: seq<ImageFormat>): string
  {
    if fmts == [] then ""
    else if |fmts| == 1 then fmts[0].desc
    else Joined(fmts[..|fmts| - 1]) + ";;" + fmts[|fmts| - 1].desc
  }

  /** Python's `s[2:]`: empty when `s` is shorter. */
  function DropTwo(s: string): string
  {
    if |s| < 2 then "" else s[2..]
  }

  /** The fold puts one `;;` in front of every description, the first one included. */
  lemma {:induction false} FoldIsSeparatorThenJoin(fmts: seq<ImageFormat>)
    ensures fmts == [] ==> FoldDescs(fmts) == ""
    ensures fmts != [] ==> FoldDescs(fmts) == ";;" + Joined(fmts)
  {
    if |fmts| == 1 {
      assert fmts[..0] == [];
    } else if |fmts| > 1 {
      var init := fmts[..|fmts| - 1];
      FoldIsSeparatorThenJoin(init);
    }
  }

  /**
   * `supportedImageFormatsQt()` over a table: the fold with its leading
   * `;;` cut off, then the catch-all filter. The result is the descriptions
   * separated by `;;`, followed by the catch-all.
   */
  function QtFilterOf(fmts: seq<ImageFormat>): (r: string)
    ensures fmts != [] ==> r == Joined(fmts) + ";;" + AllFiles
    ensures fmts == [] ==> r == ";;" + AllFiles
  {
    FoldIsSeparatorThenJoin(fmts);
    assert fmts != [] ==> (";;" + Joined(fmts))[2..] == Joined(fmts);
    DropTwo(FoldDescs(fmts)) + ";;" + AllFiles
  }

  /** One more row of a table adds `;;` and its description to the join. */
  lemma JoinedStep(fmts: seq<ImageFormat>, i: nat)
    requires 1 <= i < |fmts|
    ensures Joined(fmts[..i + 1]) == Joined(fmts[..i]) + ";;" + fmts[i].desc
  {
    assert fmts[..i + 1][..i] == fmts[..i];
  }

  /** The filter string of the editor's own table: its six descriptions in table order, then the catch-all. */
  lemma QtFilterText()
    ensures QtFilterOf(Table) ==
      Table[0].desc + ";;" + Table[1].desc + ";;" + Table[2].desc + ";;" + Table[3].desc + ";;"
      + Table[4].desc + ";;" + Table[5].desc + ";;" + AllFiles
  {
    var t := Table;
    assert t[..1] == [t[0]];
    JoinedStep(t, 1);
    JoinedStep(t, 2);
    JoinedStep(t, 3);
    JoinedStep(t, 4);
    JoinedStep(t, 5);
    assert t[..6] == t;
  }

  // ---------------------------------------------------------------------
  // The all-in-one filter
  // ---------------------------------------------------------------------

  /** ASCII lower case, as `str.lower()` acts on the table's codes. */
  function LowerChar(c: char): char
  {
    if 'A' <= c <= 'Z' then (c as int - 'A' as int + 'a' as int) as char else c
  }

  function Lower(s: string): (r: string)
    ensures |r| == |s|
    ensures forall i :: 0 <= i < |s| ==> r[i] == LowerChar(s[i])
  {
    if s == [] then [] else [LowerChar(s[0])] + Lower(s[1..])
  }

  /** The glob of one format: ` *.` and its code in lower case. */
  function Glob(f: ImageFormat): string
  {
    " *." + Lower(f.code)
  }

  /** `reduce(lambda a, v: a + f" *.{v[1].lower()}", fmts, start)`. */
  function FoldGlobs(fmts: seq<ImageFormat>, start: string): string
  {
    if fmts == [] then start
    else FoldGlobs(fmts[..|fmts| - 1], start) + Glob(fmts[|fmts| - 1])
  }

  /**
   * `supportedImageFormatsQtAllInOne()` over a table: one filter naming a
   * glob per format, built from the format code rather than the
   * description's extensions.
   */
  function AllInOneOf(fmts: seq<ImageFormat>): string
  {
    FoldGlobs(fmts, "Supported images (") + ")"
  }

  /**
   * The fold only appends: the text so far is a prefix of the result, and
   * what follows is each remaining format's glob in turn.
   */
  lemma FoldGlobsAppends(fmts: seq<ImageFormat>, start: string, i: nat)
    requires i <= |fmts|
    ensures FoldGlobs(fmts, start) == FoldGlobs(fmts[..i], start) + FoldGlobs(fmts[i..], "")
  {
    assert fmts == fmts[..i] + fmts[i..];
    FoldGlobsConcat(fmts[..i], fmts[i..], start);
  }

  /** Folding a concatenation folds the first part, then appends the second part's globs. */
  lemma {:induction false} FoldGlobsConcat(front: seq<ImageFormat>, back: seq<ImageFormat>, start: string)
    ensures FoldGlobs(front + back, start) == FoldGlobs(front, start) + FoldGlobs(back, "")
    decreases |back|
  {
    if back == [] {
      assert front + back == front;
    } else {
      var init := back[..|back| - 1];
      FoldGlobsConcat(front, init, start);
      var whole := front + back;
      assert whole[..|whole| - 1] == front + init;
      assert whole[|whole| - 1] == back[|back| - 1];
      var a, b, last := FoldGlobs(front, start), FoldGlobs(init, ""), Glob(back[|back| - 1]);
      assert a + b + last == a + (b + last);
    }
  }

  /** Every format's glob appears in the all-in-one filter, after the globs of the formats before it. */
  lemma AllInOneListsEveryFormat(fmts: seq<ImageFormat>, i: nat)
    requires i < |fmts|
    ensures AllInOneOf(fmts) ==
      FoldGlobs(fmts[..i], "Supported images (") + Glob(fmts[i]) + FoldGlobs(fmts[i + 1..], "") + ")"
  {
    FoldGlobsAppends(fmts, "Supported images (", i);
    GlobsFromHere(fmts, i);
  }

  /** The globs from row `i` on: that row's, then those of the rows after it. */
  lemma GlobsFromHere(fmts: seq<ImageFormat>, i: nat)
    requires i < |fmts|
    ensures FoldGlobs(fmts[i..], "") == Glob(fmts[i]) + FoldGlobs(fmts[i + 1..], "")
  {
    var rest := fmts[i..];
    FoldGlobsAppends(rest, "", 1);
    assert rest[..1] == [fmts[i]];
    assert [fmts[i]][..0] == [];
    assert FoldGlobs(rest[..1], "") == "" + Glob(fmts[i]);
    assert rest[1..] == fmts[i + 1..];
  }

  /** The six globs, one per row of the table. */
  lemma TableGlobs()
    ensures Glob(Table[0]) == " *.png" && Glob(Table[1]) == " *.bmp" && Glob(Table[2]) == " *.jpg"
    ensures Glob(Table[3]) == " *.gif" && Glob(Table[4]) == " *.jp2" && Glob(Table[5]) == " *.tga"
  {
    assert Lower("PNG") == "png" && Lower("BMP") == "bmp" && Lower("JPG") == "jpg";
    assert Lower("GIF") == "gif" && Lower("JP2") == "jp2" && Lower("TGA") == "tga";
  }

  /** One more row of a table adds its glob to the fold. */
  lemma FoldGlobsStep(fmts: seq<ImageFormat>, start: string, i: nat)
    requires i < |fmts|
    ensures FoldGlobs(fmts[..i + 1], start) == FoldGlobs(fmts[..i], start) + Glob(fmts[i])
  {
    assert fmts[..i + 1][..i] == fmts[..i];
  }

  /**
   * The all-in-one filter of the editor's own table: one glob per code, so
   * `.jpeg`, `.apng` and all but one JPEG2000 extension are not offered.
   */
  lemma AllInOneText()
    ensures AllInOneOf(Table) == "Supported images (" + " *.png" + " *.bmp" + " *.jpg" + " *.gif" + " *.jp2" + " *.tga" + ")"
  {
    var t := Table;
    var s := "Supported images (";
    TableGlobs();
    assert t[..0] == [];
    FoldGlobsStep(t, s, 0);
    FoldGlobsStep(t, s, 1);
    FoldGlobsStep(t, s, 2);
    FoldGlobsStep(t, s, 3);
    FoldGlobsStep(t, s, 4);
    FoldGlobsStep(t, s, 5);
    assert t[..6] == t;
  }

  // ---------------------------------------------------------------------
  // From a chosen filter back to the format
  // ---------------------------------------------------------------------

  /** `list(filter(lambda v: v[0] == fmt, fmts))`. */
  function Matching(fmts: seq<ImageFormat>, fmt: string): seq<ImageFormat>
  {
    if fmts == [] then []
    else (if fmts[0].desc == fmt then [fmts[0]] else []) + Matching(fmts[1..], fmt)
  }

  /** The matches start with the first row described by `fmt`, and there is one exactly when such a row exists. */
  lemma {:induction false} MatchingStartsWithFirst(fmts: seq<ImageFormat>, fmt: string)
    ensures Matching(fmts, fmt) != [] <==> exists i :: 0 <= i < |fmts| && fmts[i].desc == fmt
    ensures Matching(fmts, fmt) != [] ==> exists i ::
      && 0 <= i < |fmts| && fmts[i].desc == fmt && Matching(fmts, fmt)[0] == fmts[i]
      && forall j :: 0 <= j < i ==> fmts[j].desc != fmt
  {
    if fmts != [] && fmts[0].desc != fmt {
      var tail := fmts[1..];
      MatchingStartsWithFirst(tail, fmt);
      if exists i :: 0 <= i < |fmts| && fmts[i].desc == fmt {
        var i :| 0 <= i < |fmts| && fmts[i].desc == fmt;
        assert tail[i - 1] == fmts[i];
      }
      if Matching(fmts, fmt) != [] {
        var i :| && 0 <= i < |tail| && tail[i].desc == fmt && Matching(tail, fmt)[0] == tail[i]
          && forall j :: 0 <= j < i ==> tail[j].desc != fmt;
        assert fmts[i + 1] == tail[i];
        forall j | 0 <= j < i + 1
          ensures fmts[j].desc != fmt
        {
          if j > 0 {
            assert fmts[j] == tail[j - 1];
          }
        }
      }
    }
  }

  /**
   * `supportedImageFormatFromQt(fmt)`: the code of the first row whose
   * description is `fmt`, or None when no row has it.
   */
  function FromQtOf(fmts: seq<ImageFormat>, fmt: string): (r: Option<string>)
    ensures r.None? <==> forall i :: 0 <= i < |fmts| ==> fmts[i].desc != fmt
    ensures r.Some? ==> exists i ::
      && 0 <= i < |fmts| && fmts[i].desc == fmt && r.value == fmts[i].code
      && forall j :: 0 <= j < i ==> fmts[j].desc != fmt
  {
    MatchingStartsWithFirst(fmts, fmt);
    var entries := Matching(fmts, fmt);
    if |entries| > 0 then Some(entries[0].code) else None
  }

  /** No two rows of the table share a description. */
  lemma TableDescsDistinct()
    ensures forall i, j :: 0 <= i < j < |Table| ==> Table[i].desc != Table[j].desc
  {
    var t := Table;
    forall i, j | 0 <= i < j < |t|
      ensures t[i].desc != t[j].desc
    {
      assert i == 0 || i == 1 || i == 2 || i == 3 || i == 4;
      assert j == 1 || j == 2 || j == 3 || j == 4 || j == 5;
      assert t[i].desc[0] != t[j].desc[0] || |t[i].desc| != |t[j].desc|;
    }
  }

  /** No description is as short as the catch-all filter. */
  lemma DescLength(k: nat)
    requires k < |Table|
    ensures |Table[k].desc| > |AllFiles|
  {
    if k == 0 {
    } else if k == 1 {
    } else if k == 2 {
    } else if k == 3 {
    } else if k == 4 {
    } else {
    }
  }

  /**
   * Choosing any row's description in the dialog gives back that row's
   * format code; the catch-all filter gives None.
   */
  lemma FromQtRoundTrip(i: nat)
    requires i < |Table|
    ensures FromQtOf(Table, Table[i].desc) == Some(Table[i].code)
    ensures FromQtOf(Table, AllFiles) == None
  {
    TableDescsDistinct();
    var t := Table;
    forall k | 0 <= k < |t|
      ensures t[k].desc != AllFiles
    {
      DescLength(k);
    }
  }
}
