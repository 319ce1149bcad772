/**
 * The `@spritesheet` extension of the CSS 2.1 parser. The tokenizer and the
 * base parser belong to the tinycss library and are not part of this model:
 * what they produce (declarations made of typed tokens, and the result of
 * parsing an at-rule's body) is taken here as given input.
 *
 * A `@spritesheet` block is named by its head, and each declaration of its
 * body becomes one of three things: a reserved property (`src`, or
 * `resolution` when its text is an integer), a sprite (exactly four
 * non-whitespace tokens), or an error message (any other count). Errors
 * accumulate; a bad sprite never stops the parse.
 */
module RCSSParser {
  import opened PyValues
  import opened SpriteGeometry
  import opened Sprites

  /** A tokenizer token: its type (`"IDENT"`, `"S"` for whitespace, ...) and value. */
  datatype Token = Token(kind: string, value: Value)

  /** `name: value-tokens;` */
  datatype Declaration = Declaration(name: string, value: seq<Token>)

  /** An at-rule nested in a block body, passed through untouched. */
  datatype NestedAtRule = NestedAtRule(keyword: string, line: int, column: int)

  /**
   * What the base parser's `parse_declarations_and_at_rules` makes of an
   * at-rule's body: declarations, nested at-rules and its own errors.
   */
  datatype BodyParse = BodyParse(declarations: seq<Declaration>, atRules: seq<NestedAtRule>, errors: seq<string>)

  /** An at-rule as the base parser hands it over; `body` is absent for `@x head;`. */
  datatype AtRule = AtRule(keyword: string, head: seq<Token>, body: Option<BodyParse>, line: int, column: int)

  /** The arguments a sprite declaration passes to `Sprite(name, x, y, w, h)`. */
  datatype SpriteArgs = SpriteArgs(name: string, x: int, y: int, w: int, h: int)

  /** What one body declaration turns into. */
  datatype DeclKind =
    | Reserved(key: string, value: Value)
    | SpriteCandidate(args: SpriteArgs)
    | WrongArity(message: string)
    | NotInteger

  /** What the declaration loop has built so far. */
  datatype DeclsAcc = DeclsAcc(sprites: seq<SpriteArgs>, props: map<string, Value>, errors: seq<string>)

  /** The result of `parse_spritesheet_declarations`: sprites, props and errors. */
  datatype ParsedDecls = ParsedDecls(sprites: seq<Sprite>, props: map<string, Value>, errors: seq<string>)

  const Unnamed := "UNNAMED"

  /** `parse_spritesheet_name`: a lone identifier names the sheet; names are optional. */
  function ParseSpritesheetName(head: seq<Token>): (name: string)
    ensures |head| == 1 && head[0].kind == "IDENT" ==> name == Str(head[0].value)
    ensures !(|head| == 1 && head[0].kind == "IDENT") ==> name == Unnamed
  {
    if |head| == 1 && head[0].kind == "IDENT" then Str(head[0].value) else Unnamed
  }

  /** `"".join(str(v.value) for v in tokens)`: the text of a reserved property. */
  function ConcatValues(tokens: seq<Token>): string
  {
    if tokens == [] then "" else ConcatValues(tokens[..|tokens| - 1]) + Str(tokens[|tokens| - 1].value)
  }

  /** The values of the tokens that are not whitespace (type `"S"`), in order. */
  function NonSpaceValues(tokens: seq<Token>): seq<Value>
  {
    if tokens == [] then []
    else
      var last := tokens[|tokens| - 1];
      NonSpaceValues(tokens[..|tokens| - 1]) + (if last.kind == "S" then [] else [last.value])
  }

  function ArityMessage(name: string, count: nat): string
  {
    "Sprite " + name + " has " + IntToString(count) + " props, expected 4"
  }

  /**
   * Sorting one declaration. `src` keeps its concatenated text; `resolution`
   * goes through `int()`, and when that raises ValueError the declaration
   * falls into the sprite branch like any other name. Four integer values
   * make a sprite; any other count is an error; four values that are not
   * all integers make `Sprite(...)` raise TypeError.
   */
  function Classify(d: Declaration): DeclKind
  {
    var text := ConcatValues(d.value);
    if d.name == "src" then Reserved("src", Text(text))
    else if d.name == "resolution" && ParseInt(text).Some? then Reserved("resolution", Int(ParseInt(text).value))
    else SpriteBranch(d)
  }

  /** The `except ValueError` branch: the declaration read as a sprite. */
  function SpriteBranch(d: Declaration): DeclKind
  {
    var vs := NonSpaceValues(d.value);
    if |vs| != 4 then WrongArity(ArityMessage(d.name, |vs|))
    else if vs[0].Int? && vs[1].Int? && vs[2].Int? && vs[3].Int? then
      SpriteCandidate(SpriteArgs(d.name, vs[0].i, vs[1].i, vs[2].i, vs[3].i))
    else NotInteger
  }

  const NoDecls := DeclsAcc([], map[], [])

  /** The effect of one declaration on what has been built. */
  function Step(acc: DeclsAcc, d: Declaration): DeclsAcc
  {
    match Classify(d)
    case Reserved(key, value) => acc.(props := acc.props[key := value])
    case SpriteCandidate(args) => acc.(sprites := acc.sprites + [args])
    case WrongArity(message) => acc.(errors := acc.errors + [message])
    case NotInteger => acc
  }

  /** The declarations processed in order, left to right. */
  function Accumulate(ds: seq<Declaration>): DeclsAcc
  {
    if ds == [] then NoDecls else Step(Accumulate(ds[..|ds| - 1]), ds[|ds| - 1])
  }

  /** The position of the first declaration whose sprite construction raises. */
  function FirstNotInteger(ds: seq<Declaration>): (k: nat)
    ensures k <= |ds|
    ensures k < |ds| ==> Classify(ds[k]).NotInteger?
    ensures forall j :: 0 <= j < k ==> !Classify(ds[j]).NotInteger?
  {
    if ds == [] then 0
    else if Classify(ds[0]).NotInteger? then 0
    else 1 + FirstNotInteger(ds[1..])
  }

  /** The sprite states `Sprite(...)` builds from each argument list. */
  function Built(args: seq<SpriteArgs>): (r: seq<SpriteState>)
    ensures |r| == |args|
  {
    if args == [] then []
    else
      var a := args[|args| - 1];
      Built(args[..|args| - 1]) + [Construct(a.name, a.x, a.y, a.w, a.h)]
  }

  // ---------------------------------------------------------------------
  // Properties of the declaration loop
  // ---------------------------------------------------------------------

  /** What two runs over consecutive stretches of declarations build together. */
  function Combine(x: DeclsAcc, y: DeclsAcc): DeclsAcc
  {
    DeclsAcc(x.sprites + y.sprites, x.props + y.props, x.errors + y.errors)
  }

  lemma StepCombine(x: DeclsAcc, y: DeclsAcc, d: Declaration)
    ensures Step(Combine(x, y), d) == Combine(x, Step(y, d))
  {
    match Classify(d)
    case Reserved(key, value) =>
      assert (x.props + y.props)[key := value] == x.props + y.props[key := value];
    case SpriteCandidate(args) =>
      assert x.sprites + y.sprites + [args] == x.sprites + (y.sprites + [args]);
    case WrongArity(message) =>
      assert x.errors + y.errors + [message] == x.errors + (y.errors + [message]);
    case NotInteger =>
  }

  /**
   * The loop treats each declaration on its own: running it over `a + b`
   * gives the sprites and errors of `a` followed by those of `b`, in input
   * order, and the props of `a` overwritten by those of `b`.
   */
  lemma {:induction false} AccumulateConcat(a: seq<Declaration>, b: seq<Declaration>)
    ensures Accumulate(a + b) == Combine(Accumulate(a), Accumulate(b))
    decreases |b|
  {
    var x := Accumulate(a);
    if b == [] {
      assert a + b == a;
      assert x.props + map[] == x.props;
      assert x.sprites + [] == x.sprites && x.errors + [] == x.errors;
    } else {
      var rest := b[..|b| - 1];
      var d := b[|b| - 1];
      assert (a + b)[..|a + b| - 1] == a + rest;
      assert (a + b)[|a + b| - 1] == d;
      AccumulateConcat(a, rest);
      StepCombine(x, Accumulate(rest), d);
    }
  }

  /**
   * A sprite declaration with the wrong number of values adds exactly its
   * own message and is skipped; the declarations around it are parsed as if
   * it were not there.
   */
  lemma ArityErrorIsIsolated(a: seq<Declaration>, d: Declaration, b: seq<Declaration>)
    requires Classify(d).WrongArity?
    ensures var all := Accumulate(a + [d] + b);
      var before := Accumulate(a);
      var after := Accumulate(b);
      && all.sprites == before.sprites + after.sprites
      && all.props == before.props + after.props
      && all.errors == before.errors + [Classify(d).message] + after.errors
  {
    AccumulateConcat(a + [d], b);
    AccumulateConcat(a, [d]);
    assert [d][..0] == [];
  }

  function CountReserved(ds: seq<Declaration>): nat
  {
    if ds == [] then 0
    else CountReserved(ds[..|ds| - 1]) + (if Classify(ds[|ds| - 1]).Reserved? then 1 else 0)
  }

  /**
   * When no sprite construction raises, every declaration lands in exactly
   * one place: a prop, a sprite or an error message.
   */
  lemma {:induction false} EveryDeclarationLandsOnce(ds: seq<Declaration>)
    requires forall k :: 0 <= k < |ds| ==> !Classify(ds[k]).NotInteger?
    ensures |Accumulate(ds).sprites| + |Accumulate(ds).errors| + CountReserved(ds) == |ds|
  {
    if ds != [] {
      EveryDeclarationLandsOnce(ds[..|ds| - 1]);
    }
  }

  /**
   * A block made only of well-formed sprite declarations yields one sprite
   * per declaration, in order, and no error.
   */
  lemma {:induction false} WellFormedSpritesParse(ds: seq<Declaration>)
    requires forall k :: 0 <= k < |ds| ==> Classify(ds[k]).SpriteCandidate?
    ensures |Accumulate(ds).sprites| == |ds|
    ensures forall k :: 0 <= k < |ds| ==> Accumulate(ds).sprites[k] == Classify(ds[k]).args
    ensures Accumulate(ds).errors == []
  {
    if ds != [] {
      var init := ds[..|ds| - 1];
      var d := ds[|ds| - 1];
      forall k | 0 <= k < |init|
        ensures Classify(init[k]).SpriteCandidate?
      {
        assert init[k] == ds[k];
      }
      WellFormedSpritesParse(init);
      var before := Accumulate(init);
      assert Accumulate(ds) == Step(before, d);
      assert Accumulate(ds).sprites == before.sprites + [Classify(d).args];
      assert Accumulate(ds).errors == before.errors;
      forall k | 0 <= k < |ds|
        ensures Accumulate(ds).sprites[k] == Classify(ds[k]).args
      {
        if k < |init| {
          assert ds[k] == init[k];
        }
      }
    }
  }

  /** Only the declarations named `src` or `resolution` put keys into props. */
  lemma {:induction false} PropsKeysAreDeclared(ds: seq<Declaration>)
    ensures forall key :: key in Accumulate(ds).props ==>
      (key == "src" || key == "resolution") && exists k :: 0 <= k < |ds| && ds[k].name == key
  {
    if ds != [] {
      var init := ds[..|ds| - 1];
      PropsKeysAreDeclared(init);
      forall key | key in Accumulate(ds).props
        ensures (key == "src" || key == "resolution") && exists k :: 0 <= k < |ds| && ds[k].name == key
      {
        if key in Accumulate(init).props {
          var k :| 0 <= k < |init| && init[k].name == key;
          assert ds[k] == init[k];
        } else {
          assert ds[|ds| - 1].name == key;
        }
      }
    }
  }

  /**
   * `src` keeps the concatenated text of its tokens, and a later `src`
   * declaration overwrites an earlier one.
   */
  lemma LastSrcWins(a: seq<Declaration>, d: Declaration, b: seq<Declaration>)
    requires d.name == "src"
    requires forall k :: 0 <= k < |b| ==> b[k].name != "src"
    ensures "src" in Accumulate(a + [d] + b).props
    ensures Accumulate(a + [d] + b).props["src"] == Text(ConcatValues(d.value))
  {
    AccumulateConcat(a + [d], b);
    AccumulateConcat(a, [d]);
    assert [d][..0] == [];
    PropsKeysAreDeclared(b);
  }

  /**
   * A `resolution` whose text `int()` rejects is read as a sprite
   * declaration named `resolution`; with a single value, such as `1.5x`,
   * that is an arity error.
   */
  lemma ResolutionFallsThrough(d: Declaration)
    requires d.name == "resolution" && ParseInt(ConcatValues(d.value)).None?
    ensures Classify(d) == SpriteBranch(d)
    ensures !Classify(d).Reserved?
  {
  }

  lemma FractionalResolutionIsAnError()
    ensures Classify(Declaration("resolution", [Token("DIMENSION", Text("1.5"))]))
      == WrongArity("Sprite resolution has 1 props, expected 4")
  {
    var d := Declaration("resolution", [Token("DIMENSION", Text("1.5"))]);
    assert d.value[..0] == [];
    assert ConcatValues(d.value) == "1.5";
    FractionIsNotAnInt();
    ResolutionFallsThrough(d);
    assert NonSpaceValues(d.value) == [Text("1.5")];
    OneValueMessage();
  }

  lemma OneValueMessage()
    ensures ArityMessage("resolution", 1) == "Sprite resolution has 1 props, expected 4"
  {
    assert IntToString(1) == "1";
  }

  /** `int("1.5")` raises ValueError. */
  lemma FractionIsNotAnInt()
    ensures ParseInt("1.5") == None
  {
    var s := "1.5";
    assert StripLeft(s) == s by {
      assert !IsSpace('1');
    }
    assert StripRight(s) == s by {
      assert !IsSpace('5');
    }
    assert !WellFormedDigits(s) by {
      assert !IsDigit(s[1]) && s[1] != '_';
    }
  }

  /** The declarations of `src: hud.png; resolution: 2x; cursor: 10px 20px 30px 40px;`. */
  const HudSrc := Declaration("src", [Token("IDENT", Text("hud")), Token("DELIM", Text(".")), Token("IDENT", Text("png"))])
  const HudResolution := Declaration("resolution", [Token("DIMENSION", Int(2))])
  const HudCursor := Declaration("cursor", [
    Token("DIMENSION", Int(10)), Token("S", Text(" ")), Token("DIMENSION", Int(20)), Token("S", Text(" ")),
    Token("DIMENSION", Int(30)), Token("S", Text(" ")), Token("DIMENSION", Int(40))])

  /**
   * `@spritesheet hud { src: hud.png; resolution: 2x; cursor: 10px 20px 30px 40px; }`
   * as the tokenizer delivers it: one sheet named `hud` with source
   * `hud.png`, resolution 2, one unflipped sprite `cursor` at (10, 20, 30, 40)
   * and no error.
   */
  lemma HudExample()
    ensures ParseSpritesheetName([Token("IDENT", Text("hud"))]) == "hud"
    ensures var acc := Accumulate([HudSrc, HudResolution, HudCursor]);
      && acc.props == map["src" := Text("hud.png"), "resolution" := Int(2)]
      && acc.errors == []
      && Built(acc.sprites) == [SpriteState("cursor", Rect(10, 20, 30, 40), false, false)]
  {
    var ds := [HudSrc, HudResolution, HudCursor];
    HudClassified();
    assert ds[..2][..1][..0] == [] && ds[..2][..1] == [HudSrc] && ds[..2] == [HudSrc, HudResolution];
    var one := Accumulate([HudSrc]);
    assert [HudSrc][..0] == [];
    assert one == Step(Accumulate([]), HudSrc);
    assert Accumulate([]) == NoDecls;
    assert NoDecls.props["src" := Text("hud.png")] == map["src" := Text("hud.png")];
    assert one == DeclsAcc([], map["src" := Text("hud.png")], []);
    var two := Accumulate([HudSrc, HudResolution]);
    assert two == DeclsAcc([], map["src" := Text("hud.png"), "resolution" := Int(2)], []);
    var acc := Accumulate(ds);
    assert acc == DeclsAcc([SpriteArgs("cursor", 10, 20, 30, 40)], two.props, []);
    assert acc.sprites[..0] == [];
    assert Built(acc.sprites) == [Construct("cursor", 10, 20, 30, 40)];
  }

  lemma HudClassified()
    ensures Classify(HudSrc) == Reserved("src", Text("hud.png"))
    ensures Classify(HudResolution) == Reserved("resolution", Int(2))
    ensures Classify(HudCursor) == SpriteCandidate(SpriteArgs("cursor", 10, 20, 30, 40))
  {
    HudSrcClassified();
    HudResolutionClassified();
    HudCursorClassified();
  }

  lemma HudSrcClassified()
    ensures Classify(HudSrc) == Reserved("src", Text("hud.png"))
  {
    HudSrcText();
  }

  lemma HudResolutionClassified()
    ensures Classify(HudResolution) == Reserved("resolution", Int(2))
  {
    IntRoundTrip(2);
    assert HudResolution.value[..0] == [];
    assert ConcatValues(HudResolution.value) == IntToString(2);
  }

  lemma HudCursorClassified()
    ensures Classify(HudCursor) == SpriteCandidate(SpriteArgs("cursor", 10, 20, 30, 40))
  {
    HudCursorValues();
    assert Classify(HudCursor) == SpriteBranch(HudCursor);
  }

  lemma HudSrcText()
    ensures ConcatValues(HudSrc.value) == "hud.png"
  {
    var v := HudSrc.value;
    assert v[..1][..0] == [];
    assert ConcatValues(v[..1]) == "hud";
    assert v[..2][..1] == v[..1];
    assert ConcatValues(v[..2]) == "hud.";
    assert v[..3][..2] == v[..2];
    assert v[..3] == v;
  }

  lemma HudCursorValues()
    ensures NonSpaceValues(HudCursor.value) == [Int(10), Int(20), Int(30), Int(40)]
  {
    var v := HudCursor.value;
    assert v[..1][..0] == [];
    assert NonSpaceValues(v[..1]) == [Int(10)];
    assert v[..2][..1] == v[..1];
    assert NonSpaceValues(v[..2]) == [Int(10)];
    assert v[..3][..2] == v[..2];
    assert NonSpaceValues(v[..3]) == [Int(10), Int(20)];
    assert v[..4][..3] == v[..3];
    assert NonSpaceValues(v[..4]) == [Int(10), Int(20)];
    assert v[..5][..4] == v[..4];
    assert NonSpaceValues(v[..5]) == [Int(10), Int(20), Int(30)];
    assert v[..6][..5] == v[..5];
    assert NonSpaceValues(v[..6]) == [Int(10), Int(20), Int(30)];
    assert v[..7][..6] == v[..6];
    assert v[..7] == v;
  }

  /** `SpritesheetRule`: the record a `@spritesheet` block parses into. */
  class SpritesheetRule {
    const name: string
    const declarations: SpriteList
    const props: PropsDict
    const atRules: seq<NestedAtRule>
    const line: int
    const column: int

    constructor(name: string, declarations: SpriteList, props: PropsDict, atRules: seq<NestedAtRule>,
                line: int, column: int)
      ensures this.name == name && this.declarations == declarations && this.props == props
      ensures this.atRules == atRules && this.line == line && this.column == column
    {
      this.name := name;
      this.declarations := declarations;
      this.props := props;
      this.atRules := atRules;
      this.line := line;
      this.column := column;
    }
  }

  /** What `parse_at_rule` returns: a spritesheet record, or the base parser's own result. */
  datatype ParsedRule = Sheet(sheet: SpritesheetRule) | BaseParserRule(rule: AtRule)

  /**
   * What the base class's `parse_at_rule` does with an at-rule this parser
   * hands on: the messages it appends to the caller's error list, and the
   * exception it raises (a ParseError for an unknown keyword such as
   * `@keyframes`), or None when it returns its own record.
   */
  datatype BaseParse = BaseParse(appended: seq<string>, raises: Option<Exception>)

  /** The caller's error list, which `parse_at_rule` extends in place. */
  class ErrorList {
    var messages: seq<string>

    constructor(messages: seq<string>)
      ensures this.messages == messages
    {
      this.messages := messages;
    }
  }

  /**
   * The checks `parse_at_rule` makes before reading a `@spritesheet` body,
   * with the ParseError each one raises.
   */
  function AtRuleGuard(rule: AtRule, context: string): (r: Option<Exception>)
    ensures r == None <==> context == "stylesheet" && rule.body.Some?
    ensures r.Some? ==> r.value.ParseError?
  {
    if context != "stylesheet" then Some(ParseError("@spritesheet rule not allowed in " + context))
    else if rule.body.None? then Some(ParseError("invalid @spritesheet rule: missing block"))
    else None
  }

  /**
   * The same checks as the source writes them: `ParseError` is never
   * imported into the module, so evaluating the `raise` raises NameError.
   */
  function AtRuleGuardAsWritten(rule: AtRule, context: string): Option<Exception>
  {
    if context != "stylesheet" || rule.body.None? then Some(NameError("ParseError")) else None
  }

  /**
   * As written, each rejected rule fails with NameError instead of the
   * ParseError the guard means to raise, so a caller catching ParseError
   * (as tinycss does for its own errors) does not catch it.
   */
  lemma AtRuleGuardAsWrittenMisreports(rule: AtRule, context: string)
    ensures AtRuleGuardAsWritten(rule, context).Some? <==> AtRuleGuard(rule, context).Some?
    ensures AtRuleGuardAsWritten(rule, context).Some? ==>
      && AtRuleGuardAsWritten(rule, context).value == NameError("ParseError")
      && !AtRuleGuardAsWritten(rule, context).value.ParseError?
      && AtRuleGuard(rule, context).value.ParseError?
  {
  }

  lemma AccumulateExtend(ds: seq<Declaration>, i: nat)
    requires i < |ds|
    ensures Accumulate(ds[..i + 1]) == Step(Accumulate(ds[..i]), ds[i])
  {
    assert ds[..i + 1][..i] == ds[..i];
  }

  lemma BuiltAppend(args: seq<SpriteArgs>, a: SpriteArgs)
    ensures Built(args + [a]) == Built(args) + [Construct(a.name, a.x, a.y, a.w, a.h)]
  {
    assert (args + [a])[..|args|] == args;
  }

  lemma StatesAppend(items: seq<Sprite>, s: Sprite)
    ensures States(items + [s]) == States(items) + [s.State()]
  {
    assert (items + [s])[..|items|] == items;
  }

  /** The inner loop of the sprite branch: every token value except whitespace. */
  method CollectSpriteProps(tokens: seq<Token>) returns (spriteProps: seq<Value>)
    ensures spriteProps == NonSpaceValues(tokens)
  {
    spriteProps := [];
    var j := 0;
    while j < |tokens|
      invariant 0 <= j <= |tokens|
      invariant spriteProps == NonSpaceValues(tokens[..j])
    {
      assert tokens[..j + 1][..j] == tokens[..j];
      if tokens[j].kind != "S" {
        spriteProps := spriteProps + [tokens[j].value];
      }
      j := j + 1;
    }
    assert tokens[..j] == tokens;
  }

  class Parser {
    var hadSpritesheetError: bool

    constructor()
      ensures !hadSpritesheetError
    {
      hadSpritesheetError := false;
    }

    /**
     * `parse_spritesheet_declarations`: builds the props, sprites and errors
     * of the declarations in order, exactly as `Accumulate` describes, and
     * raises TypeError at the first sprite whose values are not integers.
     * The error flag is only ever raised.
     */
    method ParseSpritesheetDeclarations(inputDecls: seq<Declaration>) returns (r: Result<ParsedDecls>)
      modifies this
      ensures var k := FirstNotInteger(inputDecls);
        hadSpritesheetError == (old(hadSpritesheetError) || Accumulate(inputDecls[..k]).errors != [])
      ensures r.Raised? <==> FirstNotInteger(inputDecls) < |inputDecls|
      ensures r.Raised? ==> r.exception == TypeError
      ensures r.Ok? ==> var acc := Accumulate(inputDecls);
        && r.value.props == acc.props
        && r.value.errors == acc.errors
        && States(r.value.sprites) == Built(acc.sprites)
      ensures r.Ok? ==> forall s :: s in r.value.sprites ==> fresh(s)
      ensures r.Ok? ==> forall i, j :: 0 <= i < j < |r.value.sprites| ==> r.value.sprites[i] != r.value.sprites[j]
    {
      var props: map<string, Value> := map[];
      var decls: seq<Sprite> := [];
      var errors: seq<string> := [];
      ghost var acc := NoDecls;
      var i := 0;
      while i < |inputDecls|
        invariant 0 <= i <= FirstNotInteger(inputDecls)
        invariant acc == Accumulate(inputDecls[..i])
        invariant props == acc.props && errors == acc.errors
        invariant States(decls) == Built(acc.sprites)
        invariant hadSpritesheetError == (old(hadSpritesheetError) || errors != [])
        invariant forall s :: s in decls ==> fresh(s)
        invariant forall a, b :: 0 <= a < b < |decls| ==> decls[a] != decls[b]
      {
        var raised;
        raised, decls, props, errors := ParseDeclaration(inputDecls[i], acc, decls, props, errors);
        if raised {
          return Raised(TypeError);
        }
        AccumulateExtend(inputDecls, i);
        acc := Step(acc, inputDecls[i]);
        i := i + 1;
      }
      assert inputDecls[..i] == inputDecls;
      r := Ok(ParsedDecls(decls, props, errors));
    }

    /**
     * One pass of the declaration loop: the reserved-property attempt, and
     * when it does not apply, the sprite branch. Reports whether building
     * the sprite raised TypeError.
     */
    method ParseDeclaration(d: Declaration, ghost acc: DeclsAcc,
                            decls: seq<Sprite>, props: map<string, Value>, errors: seq<string>)
      returns (raised: bool, decls': seq<Sprite>, props': map<string, Value>, errors': seq<string>)
      requires props == acc.props && errors == acc.errors && States(decls) == Built(acc.sprites)
      modifies this
      ensures raised <==> Classify(d).NotInteger?
      ensures raised ==> hadSpritesheetError == old(hadSpritesheetError)
      ensures !raised ==> var next := Step(acc, d);
        && props' == next.props && errors' == next.errors && States(decls') == Built(next.sprites)
        && hadSpritesheetError == (old(hadSpritesheetError) || errors' != errors)
      ensures forall s :: s in decls' ==> s in decls || fresh(s)
      ensures (forall a, b :: 0 <= a < b < |decls| ==> decls[a] != decls[b]) ==>
        forall a, b :: 0 <= a < b < |decls'| ==> decls'[a] != decls'[b]
    {
      decls', props', errors' := decls, props, errors;
      raised := false;
      ghost var kind := Classify(d);
      var text := ConcatValues(d.value);
      if d.name == "src" {
        props' := props'[d.name := Text(text)];
        return;
      } else if d.name == "resolution" {
        var n := ParseInt(text);
        if n.Some? {
          props' := props'[d.name := Int(n.value)];
          return;
        }
      }
      var spriteProps := CollectSpriteProps(d.value);
      if |spriteProps| != 4 {
        errors' := errors' + [ArityMessage(d.name, |spriteProps|)];
        hadSpritesheetError := true;
      } else if spriteProps[0].Int? && spriteProps[1].Int? && spriteProps[2].Int? && spriteProps[3].Int? {
        assert kind.SpriteCandidate? && kind.args.name == d.name;
        ghost var statesBefore := States(decls);
        var s := new Sprite(d.name, spriteProps[0].i, spriteProps[1].i, spriteProps[2].i, spriteProps[3].i);
        assert States(decls) == statesBefore;
        StatesAppend(decls, s);
        BuiltAppend(acc.sprites, kind.args);
        decls' := decls' + [s];
      } else {
        raised := true;
      }
    }

    /**
     * `parse_at_rule`: a `@spritesheet` rule becomes a SpritesheetRule whose
     * name comes from its head and whose sprites and props come from its
     * body's declarations; the body's own errors, then the declaration
     * errors, are appended to the caller's list. Every other at-keyword is
     * left to the base parser, whose behaviour on this rule is `base`.
     */
    method ParseAtRule(rule: AtRule, errors: ErrorList, context: string, base: BaseParse)
      returns (r: Result<ParsedRule>)
      modifies this, errors
      ensures rule.keyword != "@spritesheet" ==>
        && r == (if base.raises.Some? then Raised(base.raises.value) else Ok(BaseParserRule(rule)))
        && errors.messages == old(errors.messages) + base.appended
        && hadSpritesheetError == old(hadSpritesheetError)
      ensures rule.keyword == "@spritesheet" && AtRuleGuard(rule, context).Some? ==>
        r == Raised(AtRuleGuard(rule, context).value) && errors.messages == old(errors.messages)
        && hadSpritesheetError == old(hadSpritesheetError)
      ensures rule.keyword == "@spritesheet" && AtRuleGuard(rule, context).None? ==>
        var body := rule.body.value;
        var ds := body.declarations;
        var acc := Accumulate(ds);
        && hadSpritesheetError == (old(hadSpritesheetError) || Accumulate(ds[..FirstNotInteger(ds)]).errors != [])
        && (r.Raised? <==> FirstNotInteger(ds) < |ds|)
        && (r.Raised? ==> r.exception == TypeError && errors.messages == old(errors.messages) + body.errors)
        && (r.Ok? ==>
          && r.value.Sheet?
          && fresh(r.value.sheet) && fresh(r.value.sheet.declarations) && fresh(r.value.sheet.props)
          && r.value.sheet.name == ParseSpritesheetName(rule.head)
          && States(r.value.sheet.declarations.items) == Built(acc.sprites)
          && r.value.sheet.props.entries == acc.props
          && r.value.sheet.atRules == body.atRules
          && r.value.sheet.line == rule.line && r.value.sheet.column == rule.column
          && errors.messages == old(errors.messages) + body.errors + acc.errors)
    {
      if rule.keyword != "@spritesheet" {
        errors.messages := errors.messages + base.appended;
        if base.raises.Some? {
          return Raised(base.raises.value);
        }
        return Ok(BaseParserRule(rule));
      }
      var failure := AtRuleGuard(rule, context);
      if failure.Some? {
        return Raised(failure.value);
      }
      var name := ParseSpritesheetName(rule.head);
      var body := rule.body.value;
      errors.messages := errors.messages + body.errors;
      var parsed := ParseSpritesheetDeclarations(body.declarations);
      if parsed.Raised? {
        return Raised(parsed.exception);
      }
      errors.messages := errors.messages + parsed.value.errors;
      var sprites := new SpriteList(parsed.value.sprites);
      var props := new PropsDict(parsed.value.props);
      var sheet := new SpritesheetRule(name, sprites, props, body.atRules, rule.line, rule.column);
      r := Ok(Sheet(sheet));
    }
  }
}
