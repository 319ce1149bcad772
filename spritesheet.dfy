/**
 * The Spritesheet entity: a named sheet with a base path, an image source,
 * an optional resolution and the list of its sprites, and the RCSS text
 * `serialize` writes for it.
 */
module Spritesheets {
  import opened PyValues
  import opened SpriteGeometry
  import opened Sprites
  import RCSSParser

  /** `f"{basepath}/{source}"`. */
  function LongPath(basepath: string, src: Value): string
  {
    basepath + "/" + Str(src)
  }

  /** The opening of every serialized sheet. */
  function Opening(name: string): string
  {
    "@spritesheet " + name + "\n" + "{\n"
  }

  /** The path comment and the `src` line. */
  function SourceLines(basepath: string, src: Value): string
  {
    PathComment(basepath, src) + SrcLine(src)
  }

  function PathComment(basepath: string, src: Value): string
  {
    "\t/* Path: " + LongPath(basepath, src) + " */\n"
  }

  function SrcLine(src: Value): string
  {
    "\tsrc: " + Str(src) + ";\n"
  }

  /** The `resolution` line, written only for a truthy resolution. */
  function ResolutionLine(resolution: Value): string
  {
    if Truthy(resolution) then "\tresolution: " + Str(resolution) + "x;\n" else ""
  }

  /** The `toRCSS()` text of each sprite, in list order. */
  function RCSSTexts(sprites: seq<SpriteState>): (r: seq<string>)
    ensures |r| == |sprites|
    ensures forall k :: 0 <= k < |sprites| ==> r[k] == ToRCSS(sprites[k])
  {
    seq(|sprites|, k requires 0 <= k < |sprites| => ToRCSS(sprites[k]))
  }

  /** Each text on a line of its own, indented by a tab. */
  function IndentedLines(texts: seq<string>): string
  {
    if texts == [] then "" else IndentedLines(texts[..|texts| - 1]) + Indented(texts[|texts| - 1])
  }

  function Indented(text: string): string
  {
    "\t" + text + "\n"
  }

  /** One tab-indented `toRCSS()` line per sprite, in list order. */
  function SpriteLines(sprites: seq<SpriteState>): string
  {
    IndentedLines(RCSSTexts(sprites))
  }

  /** The text `serialize()` returns for a sheet in this state. */
  function Serialized(name: string, basepath: string, src: Value, resolution: Value,
                      sprites: seq<SpriteState>): string
  {
    Opening(name) + SourceLines(basepath, src) + ResolutionLine(resolution) + "\n"
    + SpriteLines(sprites) + "}\n"
  }

  class Spritesheet {
    const name: string
    /** The sprite list, shared with whoever built the sheet. */
    const sprites: SpriteList
    var basepath: string
    var src: Value
    var resolution: Value

    /** `Spritesheet(basepath, name, sprites, src="none", resolution=None)`. */
    constructor(basepath: string, name: string, sprites: SpriteList,
                src: Value := Text("none"), resolution: Value := NoneValue)
      ensures this.basepath == basepath && this.name == name && this.sprites == sprites
      ensures this.src == src && this.resolution == resolution
    {
      this.name := name;
      this.sprites := sprites;
      this.basepath := basepath;
      this.src := src;
      this.resolution := resolution;
    }

    /**
     * `fromRCSS(css)`: a sheet with an empty base path over the rule's own
     * sprite list. Looking up `src`, then `resolution`, raises KeyError for
     * the first one the rule's props lack.
     */
    static method FromRCSS(css: RCSSParser.SpritesheetRule) returns (r: Result<Spritesheet>)
      ensures "src" !in css.props.entries ==> r == Raised(KeyError("src"))
      ensures "src" in css.props.entries && "resolution" !in css.props.entries
        ==> r == Raised(KeyError("resolution"))
      ensures "src" in css.props.entries && "resolution" in css.props.entries ==>
        && r.Ok? && fresh(r.value)
        && r.value.name == css.name && r.value.sprites == css.declarations && r.value.basepath == ""
        && r.value.src == css.props.entries["src"]
        && r.value.resolution == css.props.entries["resolution"]
    {
      var props := css.props.entries;
      if "src" !in props {
        return Raised(KeyError("src"));
      }
      if "resolution" !in props {
        return Raised(KeyError("resolution"));
      }
      var sheet := new Spritesheet("", css.name, css.declarations, props["src"], props["resolution"]);
      r := Ok(sheet);
    }

    method SetBasepath(path: string)
      modifies this
      ensures basepath == path
      ensures src == old(src) && resolution == old(resolution)
    {
      basepath := path;
    }

    method SetResolution(res: Value)
      modifies this
      ensures resolution == res
      ensures basepath == old(basepath) && src == old(src)
    {
      resolution := res;
    }

    method SetSource(source: Value)
      modifies this
      ensures src == source
      ensures basepath == old(basepath) && resolution == old(resolution)
    {
      src := source;
    }

    function SourceLongPath(): string
      reads this
    {
      LongPath(basepath, src)
    }

    /** `serialize()`: the sheet written as an `@spritesheet` block. */
    method Serialize() returns (ret: string)
      ensures ret == Serialized(name, basepath, src, resolution, States(sprites.items))
    {
      ret := SerializeHead();
      ret := SerializeSprites(ret);
      ret := ret + "}\n";
    }

    /** The opening, the path comment, the `src` and `resolution` lines and the blank line. */
    method SerializeHead() returns (ret: string)
      ensures ret == Opening(name) + SourceLines(basepath, src) + ResolutionLine(resolution) + "\n"
    {
      ret := "@spritesheet " + name + "\n";
      ret := ret + "{\n";
      ghost var opening := ret;
      ret := ret + ("\t/* Path: " + SourceLongPath() + " */\n");
      ret := ret + ("\tsrc: " + Str(src) + ";\n");
      Assoc(opening, PathComment(basepath, src), SrcLine(src));
      if Truthy(resolution) {
        ret := ret + ("\tresolution: " + Str(resolution) + "x;\n");
      }
      ret := ret + "\n";
    }

    /** The loop over the sprites: one `toRCSS()` line each, appended to `head`. */
    method SerializeSprites(head: string) returns (ret: string)
      ensures ret == head + SpriteLines(States(sprites.items))
    {
      ret := head;
      var items := sprites.items;
      ghost var states := States(items);
      var i := 0;
      while i < |items|
        invariant 0 <= i <= |items|
        invariant ret == head + SpriteLines(states[..i])
      {
        var line := "\t" + items[i].ToRCSS() + "\n";
        assert line == Indented(ToRCSS(states[i]));
        SpriteLinesStep(states, i);
        Assoc(head, SpriteLines(states[..i]), line);
        ret := ret + line;
        i := i + 1;
      }
      assert states[..i] == states;
    }
  }

  lemma Assoc(a: string, b: string, c: string)
    ensures a + b + c == a + (b + c)
  {
  }

  /** The sprite lines of one more sprite of the list. */
  lemma SpriteLinesStep(states: seq<SpriteState>, i: nat)
    requires i < |states|
    ensures SpriteLines(states[..i + 1]) == SpriteLines(states[..i]) + Indented(ToRCSS(states[i]))
  {
    assert states[..i + 1] == states[..i] + [states[i]];
    RCSSTextsConcat(states[..i], [states[i]]);
    var texts := RCSSTexts(states[..i]) + [ToRCSS(states[i])];
    assert texts[..|texts| - 1] == RCSSTexts(states[..i]);
  }

  // ---------------------------------------------------------------------
  // Layout of the serialized text
  // ---------------------------------------------------------------------

  /**
   * Where the pieces of a text made of six consecutive pieces lie: the
   * first at the start, the second right after it, the last at the end.
   */
  lemma Pieces(a: string, b: string, c: string, d: string, e: string, f: string)
    ensures var t := a + b + c + d + e + f;
      && |t| == |a| + |b| + |c| + |d| + |e| + |f|
      && t[..|a|] == a
      && t[|a|..|a| + |b|] == b
      && t[|t| - |f|..] == f
  {
    var t := a + b + c + d + e + f;
    assert t == a + (b + (c + d + e + f));
    assert t == (a + b + c + d + e) + f;
  }

  /** The text starts with `@spritesheet {name}` and `{`, each on its own line, and ends with `}`. */
  lemma SerializedFraming(name: string, basepath: string, src: Value, resolution: Value,
                          sprites: seq<SpriteState>)
    ensures var text := Serialized(name, basepath, src, resolution, sprites);
      var opening := "@spritesheet " + name + "\n{\n";
      && |text| >= |opening| + 2
      && text[..|opening|] == opening
      && text[|text| - 2..] == "}\n"
  {
    Pieces(Opening(name), SourceLines(basepath, src), ResolutionLine(resolution), "\n", SpriteLines(sprites), "}\n");
    assert Opening(name) == "@spritesheet " + name + "\n{\n";
  }

  /**
   * The path comment, built from `sourceLongPath()`, and the `src` line
   * follow the opening.
   */
  lemma SerializedPathComment(name: string, basepath: string, src: Value, resolution: Value,
                              sprites: seq<SpriteState>)
    ensures var text := Serialized(name, basepath, src, resolution, sprites);
      var before := |Opening(name)|;
      var lines := "\t/* Path: " + basepath + "/" + Str(src) + " */\n" + "\tsrc: " + Str(src) + ";\n";
      && |text| >= before + |lines|
      && text[before..before + |lines|] == lines
  {
    var lines := SourceLines(basepath, src);
    Pieces(Opening(name), lines, ResolutionLine(resolution), "\n", SpriteLines(sprites), "}\n");
    SourceLinesText(basepath, src);
  }

  /** The two lines after the opening, written out. */
  lemma SourceLinesText(basepath: string, src: Value)
    ensures SourceLines(basepath, src)
      == "\t/* Path: " + basepath + "/" + Str(src) + " */\n" + "\tsrc: " + Str(src) + ";\n"
  {
  }

  /** Inserting a piece `x` between `a` and `b` of a text `a + b`; an empty piece changes nothing. */
  lemma Insertion(a: string, x: string, b: string)
    ensures |a + b| >= |a|
    ensures a + x + b == (a + b)[..|a|] + x + (a + b)[|a|..]
    ensures x == "" ==> a + x + b == a + b
  {
    assert (a + b)[..|a|] == a && (a + b)[|a|..] == b;
    if x == "" {
      assert a + x == a;
    }
  }

  /**
   * A falsy resolution (None, 0 or "") writes the same text as no
   * resolution at all; a truthy one inserts exactly the line
   * `\tresolution: {r}x;` after the `src` line.
   */
  lemma ResolutionLineIffTruthy(name: string, basepath: string, src: Value, resolution: Value,
                                sprites: seq<SpriteState>)
    ensures var with := Serialized(name, basepath, src, resolution, sprites);
      var without := Serialized(name, basepath, src, NoneValue, sprites);
      var k := |Opening(name) + SourceLines(basepath, src)|;
      && |without| >= k
      && (!Truthy(resolution) ==> with == without)
      && (Truthy(resolution) ==> with == without[..k] + ("\tresolution: " + Str(resolution) + "x;\n") + without[k..])
  {
    var head := Opening(name) + SourceLines(basepath, src);
    var tail := "\n" + SpriteLines(sprites) + "}\n";
    SerializedAroundResolution(name, basepath, src, resolution, sprites);
    SerializedAroundResolution(name, basepath, src, NoneValue, sprites);
    Insertion(head, ResolutionLine(resolution), tail);
    Insertion(head, ResolutionLine(NoneValue), tail);
  }

  lemma SerializedAroundResolution(name: string, basepath: string, src: Value, resolution: Value,
                                   sprites: seq<SpriteState>)
    ensures Serialized(name, basepath, src, resolution, sprites)
      == Opening(name) + SourceLines(basepath, src) + ResolutionLine(resolution)
         + ("\n" + SpriteLines(sprites) + "}\n")
  {
    Regroup(Opening(name) + SourceLines(basepath, src), ResolutionLine(resolution), "\n", SpriteLines(sprites), "}\n");
  }

  /** Regrouping the last pieces of a serialized text. */
  lemma Regroup(head: string, res: string, blank: string, body: string, close: string)
    ensures head + res + blank + body + close == head + res + (blank + body + close)
  {
  }

  /** The lines of consecutive stretches of texts follow one another. */
  lemma {:induction false} IndentedLinesConcat(a: seq<string>, b: seq<string>)
    ensures IndentedLines(a + b) == IndentedLines(a) + IndentedLines(b)
    decreases |b|
  {
    if b == [] {
      assert a + b == a;
    } else {
      var init := b[..|b| - 1];
      assert (a + b)[..|a + b| - 1] == a + init;
      assert (a + b)[|a + b| - 1] == b[|b| - 1];
      IndentedLinesConcat(a, init);
    }
  }

  lemma RCSSTextsConcat(a: seq<SpriteState>, b: seq<SpriteState>)
    ensures RCSSTexts(a + b) == RCSSTexts(a) + RCSSTexts(b)
  {
    var r := RCSSTexts(a + b);
    assert |r| == |RCSSTexts(a) + RCSSTexts(b)|;
    forall k | 0 <= k < |r|
      ensures r[k] == (RCSSTexts(a) + RCSSTexts(b))[k]
    {
      if k < |a| {
        assert (a + b)[k] == a[k];
      } else {
        assert (a + b)[k] == b[k - |a|];
      }
    }
  }

  /** The sprite lines of `a + b` are those of `a` followed by those of `b`. */
  lemma SpriteLinesConcat(a: seq<SpriteState>, b: seq<SpriteState>)
    ensures SpriteLines(a + b) == SpriteLines(a) + SpriteLines(b)
  {
    RCSSTextsConcat(a, b);
    IndentedLinesConcat(RCSSTexts(a), RCSSTexts(b));
  }

  // ---------------------------------------------------------------------
  // Counting lines
  // ---------------------------------------------------------------------

  function Newlines(s: string): nat
  {
    if s == [] then 0 else Newlines(s[..|s| - 1]) + (if s[|s| - 1] == '\n' then 1 else 0)
  }

  lemma {:induction false} NewlinesConcat(a: string, b: string)
    ensures Newlines(a + b) == Newlines(a) + Newlines(b)
    decreases |b|
  {
    if b == [] {
      assert a + b == a;
    } else {
      assert (a + b)[..|a + b| - 1] == a + b[..|b| - 1];
      NewlinesConcat(a, b[..|b| - 1]);
    }
  }

  lemma {:induction false} NoNewlines(s: string)
    requires '\n' !in s
    ensures Newlines(s) == 0
  {
    if s != [] {
      assert s[..|s| - 1] <= s;
      NoNewlines(s[..|s| - 1]);
    }
  }

  /** Each text makes exactly one line, provided it has no line break itself. */
  lemma {:induction false} IndentedLinesCount(texts: seq<string>)
    requires forall k :: 0 <= k < |texts| ==> '\n' !in texts[k]
    ensures Newlines(IndentedLines(texts)) == |texts|
  {
    if texts != [] {
      var init := texts[..|texts| - 1];
      var last := texts[|texts| - 1];
      IndentedLinesCount(init);
      LineOfText("\t" + last);
      NewlinesConcat(IndentedLines(init), "\t" + last + "\n");
      assert IndentedLines(texts) == IndentedLines(init) + ("\t" + last + "\n");
    }
  }

  /** Each sprite writes exactly one line, provided its name has no line break. */
  lemma SpriteLinesCount(sprites: seq<SpriteState>)
    requires forall k :: 0 <= k < |sprites| ==> '\n' !in sprites[k].name
    ensures Newlines(SpriteLines(sprites)) == |sprites|
  {
    var texts := RCSSTexts(sprites);
    forall k | 0 <= k < |texts|
      ensures '\n' !in texts[k]
    {
      ToRCSSIsOneLine(sprites[k]);
    }
    IndentedLinesCount(texts);
  }

  /**
   * With no line break inside the name, the base path, the source or the
   * sprite names, the text has six lines plus one per sprite, and one more
   * when the resolution is written.
   */
  lemma SerializedLineCount(name: string, basepath: string, src: Value, resolution: Value,
                            sprites: seq<SpriteState>)
    requires '\n' !in name && '\n' !in basepath && '\n' !in Str(src)
    requires '\n' !in Str(resolution)
    requires forall k :: 0 <= k < |sprites| ==> '\n' !in sprites[k].name
    ensures Newlines(Serialized(name, basepath, src, resolution, sprites))
      == 6 + |sprites| + (if Truthy(resolution) then 1 else 0)
  {
    var opening := Opening(name);
    var source := SourceLines(basepath, src);
    var res := ResolutionLine(resolution);
    var body := SpriteLines(sprites);
    var extra := if Truthy(resolution) then 1 else 0;
    OpeningLineCount(name);
    SourceLineCount(basepath, src);
    ResolutionLineCount(resolution);
    assert Newlines(res) == extra;
    SpriteLinesCount(sprites);
    TerminatedLine("", "");
    TerminatedLine("", "}");
    var head := opening + source + res + "\n";
    HeadLineCount(opening, source, res, extra);
    NewlinesConcat(head, body);
    NewlinesConcat(head + body, "}\n");
  }

  lemma HeadLineCount(opening: string, source: string, res: string, extra: nat)
    requires Newlines(opening) == 2 && Newlines(source) == 2 && Newlines(res) == extra
    ensures Newlines(opening + source + res + "\n") == 5 + extra
  {
    TerminatedLine("", "");
    NewlinesConcat(opening, source);
    NewlinesConcat(opening + source, res);
    NewlinesConcat(opening + source + res, "\n");
  }

  lemma OpeningLineCount(name: string)
    requires '\n' !in name
    ensures Newlines(Opening(name)) == 2
  {
    TerminatedLine("@spritesheet " + name, "");
    TerminatedLine("", "{");
    NewlinesConcat("@spritesheet " + name + "\n", "{\n");
  }

  lemma SourceLineCount(basepath: string, src: Value)
    requires '\n' !in basepath && '\n' !in Str(src)
    ensures Newlines(SourceLines(basepath, src)) == 2
  {
    TerminatedLine("\t/* Path: " + LongPath(basepath, src), " */");
    assert " */" + "\n" == " */\n";
    assert PathComment(basepath, src) == "\t/* Path: " + LongPath(basepath, src) + (" */" + "\n");
    TerminatedLine("\tsrc: " + Str(src), ";");
    assert ";" + "\n" == ";\n";
    assert SrcLine(src) == "\tsrc: " + Str(src) + (";" + "\n");
    NewlinesConcat(PathComment(basepath, src), SrcLine(src));
  }

  lemma ResolutionLineCount(resolution: Value)
    requires '\n' !in Str(resolution)
    ensures Newlines(ResolutionLine(resolution)) == if Truthy(resolution) then 1 else 0
  {
    if Truthy(resolution) {
      TerminatedLine("\tresolution: " + Str(resolution), "x;");
      assert "x;" + "\n" == "x;\n";
      assert ResolutionLine(resolution) == "\tresolution: " + Str(resolution) + ("x;" + "\n");
    } else {
      NoNewlines(ResolutionLine(resolution));
    }
  }

  /** A line `a` followed by a terminator `end` and a line break counts once. */
  lemma TerminatedLine(a: string, end: string)
    requires '\n' !in a && '\n' !in end
    ensures Newlines(a + (end + "\n")) == 1
    ensures Newlines(a + end + "\n") == 1
  {
    assert a + (end + "\n") == (a + end) + "\n";
    NoNewlines(a + end);
    NewlinesConcat(a + end, "\n");
  }

  lemma LineOfText(s: string)
    requires '\n' !in s
    ensures Newlines(s + "\n") == 1
  {
    NoNewlines(s);
    NewlinesConcat(s, "\n");
  }
}
