/**
  `Relation`: an edge between two elements, drawn as
  `<obj1> "<q1>" <shape> "<q2>" <obj2>: <<stereotype>>...` with all runs of
  whitespace collapsed to single spaces.
*/
module Relations {
  import opened PyText
  import opened CodeGen
  import UmlObject

  datatype RelationType =
    | Association | ReflexiveAssociation | Dependency | Realization | RealizationCanonical
    | RealizationElided | Composition | Aggregation | Extension | Call

  datatype Orientation = Undefined | Up | Down | Left | Right
  {
    function Value(): (r: string)
      ensures SpaceFree(r)
    {
      match this
      case Undefined => ""
      case Up => "up"
      case Down => "down"
      case Left => "left"
      case Right => "right"
    }
  }

  /** Where the orientation goes in a shape template. */
  const Placeholder: string := "{}"
  const StereotypeStart: string := "<<"
  const StereotypeEnd: string := ">>"

  /** The two halves of a shape template, around its placeholder; every relation kind has one. */
  function ShapeHalves(t: RelationType): (r: (string, string))
    ensures SpaceFree(r.0) && SpaceFree(r.1) && '{' !in r.0 && '{' !in r.1
  {
    match t
    case Aggregation => ("o-", "-")
    case Composition => ("*-", "-")
    case Extension => ("-", "-|>")
    case Association => ("-", "-")
    case ReflexiveAssociation => ("-", "-")
    case Dependency => ("-", "->")
    case Call => ("-", "->")
    case Realization => (".", "..|>")
    case RealizationCanonical => (".", ".|>")
    case RealizationElided => (".", ".|>")
  }

  /** `Relation.relation_shape_map[t]`. */
  function Template(t: RelationType): string
  {
    ShapeHalves(t).0 + Placeholder + ShapeHalves(t).1
  }

  /** `shape.replace("{}", orientation.value)`. */
  function Shape(t: RelationType, o: Orientation): string
  {
    ReplaceAll(Template(t), Placeholder, o.Value())
  }

  /** The orientation lands between the two halves of the template, and the shape holds no whitespace. */
  lemma ShapeFill(t: RelationType, o: Orientation)
    ensures Shape(t, o) == ShapeHalves(t).0 + o.Value() + ShapeHalves(t).1
    ensures SpaceFree(Shape(t, o))
  {
    ReplaceAllOnce(ShapeHalves(t).0, Placeholder, ShapeHalves(t).1, o.Value());
  }

  /** A quantifier pair; either side may be missing. */
  type Quantifier = (Option<string>, Option<string>)

  datatype Relation = Relation(obj1: string, relType: RelationType, obj2: string,
                               stereotypes: seq<string>, quantifiers: Quantifier, orientation: Orientation)

  /**
    `Relation.__init__`: both endpoints are turned into identifiers; missing
    quantifiers become two empty strings and missing stereotypes the empty list.
  */
  function NewRelation(py: Py, obj1: string, relType: RelationType, obj2: string,
                       stereotypes: Option<seq<string>>, quantifiers: Option<Quantifier>,
                       orientation: Orientation): (r: Relation)
    ensures r.obj1 == UmlObject.VariableName(py, obj1) && r.obj2 == UmlObject.VariableName(py, obj2)
    ensures r.relType == relType && r.orientation == orientation
    ensures r.stereotypes == if stereotypes.None? then [] else stereotypes.value
    ensures r.quantifiers == if quantifiers.None? then (Some(""), Some("")) else quantifiers.value
  {
    Relation(UmlObject.VariableName(py, obj1), relType, UmlObject.VariableName(py, obj2),
             if stereotypes.None? then [] else stereotypes.value,
             if quantifiers.None? then (Some(""), Some("")) else quantifiers.value, orientation)
  }

  /** One side of a quantifier: quoted when present and not empty, otherwise nothing. */
  function QuoteQuantifier(q: Option<string>): (r: string)
    ensures q.Some? && q.value != [] ==> r == "\"" + q.value + "\""
    ensures q.None? || q.value == [] ==> r == ""
  {
    if q.Some? && |q.value| > 0 then "\"" + q.value + "\"" else ""
  }

  /** `Relation._format_quantifier`. */
  function FormatQuantifier(q: Quantifier): (r: (string, string))
    ensures r == (QuoteQuantifier(q.0), QuoteQuantifier(q.1))
  {
    (QuoteQuantifier(q.0), QuoteQuantifier(q.1))
  }

  /** Every stereotype between `<<` and `>>`. */
  function Wrapped(st: seq<string>): (r: seq<string>)
    ensures |r| == |st| && forall i :: 0 <= i < |st| ==> r[i] == StereotypeStart + st[i] + StereotypeEnd
  {
    seq(|st|, i requires 0 <= i < |st| => StereotypeStart + st[i] + StereotypeEnd)
  }

  /** The stereotypes, wrapped, one per line. */
  function StereotypesText(st: seq<string>): string
  {
    StdJoin(Wrapped(st), "\n")
  }

  /** `Relation._format_stereotypes`: a newline after every wrapped stereotype but the last. */
  method FormatStereotypes(st: seq<string>) returns (out: string)
    ensures out == StereotypesText(st)
  {
    out := "";
    for i := 0 to |st|
      invariant i == 0 ==> out == ""
      invariant 0 < i ==> out == StdJoin(Wrapped(st[..i]), "\n") + (if i < |st| then "\n" else "")
    {
      var w := StereotypeStart + st[i] + StereotypeEnd;
      assert Wrapped(st[..i + 1]) == Wrapped(st[..i]) + [w];
      if i == 0 {
        assert Wrapped(st[..1]) == [w];
      } else {
        StdJoinAppend(Wrapped(st[..i]), w, "\n");
      }
      out := out + w;
      if i != |st| - 1 {
        out := out + "\n";
      }
    }
    assert st[..|st|] == st;
  }

  /** The line before its whitespace is collapsed. */
  function RawLine(r: Relation): string
  {
    var q1, q2 := FormatQuantifier(r.quantifiers).0, FormatQuantifier(r.quantifiers).1;
    var stereotypes := if |r.stereotypes| > 0 then ": " + StereotypesText(r.stereotypes) else "";
    r.obj1 + " " + q1 + " " + Shape(r.relType, r.orientation) + " " + q2 + " " + r.obj2 + stereotypes
  }

  /**
    `Relation.gen_code`: the raw line with every run of whitespace made one
    space and nothing at either end; it never reports an error.
  */
  function RelationCode(r: Relation): (out: Out)
    ensures out.errors == []
    ensures WellSpaced(out.text)
    ensures NonSpace(out.text) == NonSpace(RawLine(r))
  {
    StripAfterCollapse(RawLine(r));
    CollapseShape(RawLine(r));
    Out(Strip(Collapse(RawLine(r))), [])
  }

  /** A piece of the line as a list of words: none when it is empty. */
  function Piece(x: string): seq<string>
  {
    if x == [] then [] else [x]
  }

  /**
    The words of a relation line: the endpoints, quoted quantifiers and
    shape that are not empty, the second endpoint carrying the colon when
    there are stereotypes, then each wrapped stereotype.
  */
  function Words(r: Relation): seq<string>
  {
    var q1, q2 := FormatQuantifier(r.quantifiers).0, FormatQuantifier(r.quantifiers).1;
    var colon := if |r.stereotypes| > 0 then ":" else "";
    Piece(r.obj1) + Piece(q1) + Piece(Shape(r.relType, r.orientation)) + Piece(q2) + Piece(r.obj2 + colon)
      + Wrapped(r.stereotypes)
  }

  predicate AllSpaceFree(ss: seq<string>)
  {
    forall i :: 0 <= i < |ss| ==> SpaceFree(ss[i])
  }

  /** A quoted quantifier without whitespace has none either. */
  lemma QuoteSpaceFree(q: Option<string>)
    requires q.Some? ==> SpaceFree(q.value)
    ensures SpaceFree(QuoteQuantifier(q))
  {
    assert SpaceFree("\"");
  }

  /** Wrapping whitespace-free stereotypes gives words. */
  lemma WrappedAreWords(st: seq<string>)
    requires AllSpaceFree(st)
    ensures forall i :: 0 <= i < |st| ==> IsWord(Wrapped(st)[i])
  {
    forall i | 0 <= i < |st| ensures IsWord(Wrapped(st)[i]) {
      assert Wrapped(st)[i] == "<<" + st[i] + ">>";
    }
  }

  /** The words of a whitespace-free string: itself, or none when it is empty. */
  lemma SplitPiece(x: string)
    requires SpaceFree(x)
    ensures SplitWs(x) == Piece(x)
  {
    SplitWsSpaceFree(x);
  }

  /** The second endpoint with its stereotypes splits into the endpoint (with its colon) and the wrapped stereotypes. */
  lemma TailWords(obj2: string, st: seq<string>)
    requires SpaceFree(obj2) && AllSpaceFree(st)
    ensures var colon := if |st| > 0 then ":" else "";
      SplitWs(obj2 + (if |st| > 0 then ": " + StereotypesText(st) else "")) == Piece(obj2 + colon) + Wrapped(st)
  {
    if |st| == 0 {
      SplitPiece(obj2);
      assert obj2 + "" == obj2;
    } else {
      var w := Wrapped(st);
      assert SpaceFree(obj2 + ":") by { assert SpaceFree(":"); }
      assert SplitWs(StdJoin(w, "\n")) == w by {
        WrappedAreWords(st);
        NonEmptyKeepsWords(w);
        SplitWsOfJoin(w, '\n');
      }
      ColonSpace(obj2, StdJoin(w, "\n"));
      SplitWsConcat(obj2 + ":", ' ', StdJoin(w, "\n"));
      SplitPiece(obj2 + ":");
    }
  }

  /** A colon and a space after a text: the text with its colon, then the space. */
  lemma ColonSpace(x: string, y: string)
    ensures x + (": " + y) == (x + ":") + [' '] + y
  {
    assert ": " + y == ":" + [' '] + y;
  }

  /** Splitting the raw line on whitespace splits each piece separately. */
  lemma RawLineSplit(r: Relation)
    ensures var q1, q2 := FormatQuantifier(r.quantifiers).0, FormatQuantifier(r.quantifiers).1;
      var stereotypes := if |r.stereotypes| > 0 then ": " + StereotypesText(r.stereotypes) else "";
      SplitWs(RawLine(r))
        == SplitWs(r.obj1) + SplitWs(q1) + SplitWs(Shape(r.relType, r.orientation)) + SplitWs(q2) + SplitWs(r.obj2 + stereotypes)
  {
    var q1, q2 := FormatQuantifier(r.quantifiers).0, FormatQuantifier(r.quantifiers).1;
    var stereotypes := if |r.stereotypes| > 0 then ": " + StereotypesText(r.stereotypes) else "";
    var a2 := r.obj1 + " " + q1;
    var a3 := a2 + " " + Shape(r.relType, r.orientation);
    var a4 := a3 + " " + q2;
    assert RawLine(r) == a4 + [' '] + (r.obj2 + stereotypes);
    SplitWsConcat(a4, ' ', r.obj2 + stereotypes);
    SplitWsConcat(a3, ' ', q2);
    SplitWsConcat(a2, ' ', Shape(r.relType, r.orientation));
    SplitWsConcat(r.obj1, ' ', q1);
  }

  /** The pieces before the second endpoint are single words, or none when empty. */
  lemma HeadPieces(r: Relation)
    requires SpaceFree(r.obj1)
    requires r.quantifiers.0.Some? ==> SpaceFree(r.quantifiers.0.value)
    requires r.quantifiers.1.Some? ==> SpaceFree(r.quantifiers.1.value)
    ensures var q := FormatQuantifier(r.quantifiers);
      && SplitWs(r.obj1) == Piece(r.obj1) && SplitWs(q.0) == Piece(q.0)
      && SplitWs(Shape(r.relType, r.orientation)) == Piece(Shape(r.relType, r.orientation))
      && SplitWs(q.1) == Piece(q.1)
  {
    var q := FormatQuantifier(r.quantifiers);
    SplitPiece(r.obj1);
    QuoteSpaceFree(r.quantifiers.0);
    SplitPiece(q.0);
    ShapeFill(r.relType, r.orientation);
    SplitPiece(Shape(r.relType, r.orientation));
    QuoteSpaceFree(r.quantifiers.1);
    SplitPiece(q.1);
  }

  /** Splitting the raw line on whitespace gives its words. */
  lemma RawLineWords(r: Relation)
    requires SpaceFree(r.obj1) && SpaceFree(r.obj2) && AllSpaceFree(r.stereotypes)
    requires r.quantifiers.0.Some? ==> SpaceFree(r.quantifiers.0.value)
    requires r.quantifiers.1.Some? ==> SpaceFree(r.quantifiers.1.value)
    ensures SplitWs(RawLine(r)) == Words(r)
  {
    var q := FormatQuantifier(r.quantifiers);
    var colon := if |r.stereotypes| > 0 then ":" else "";
    var head := Piece(r.obj1) + Piece(q.0) + Piece(Shape(r.relType, r.orientation)) + Piece(q.1);
    RawLineSplit(r);
    HeadPieces(r);
    TailWords(r.obj2, r.stereotypes);
    AppendRegroup(head, Piece(r.obj2 + colon), Wrapped(r.stereotypes));
  }

  /** Regrouping a concatenation of three word lists. */
  lemma AppendRegroup(x: seq<string>, y: seq<string>, z: seq<string>)
    ensures x + (y + z) == x + y + z
  {
  }

  /**
    When no endpoint, quantifier or stereotype holds whitespace, the line is
    its words joined by single spaces: empty quantifiers leave no gap and
    the stereotypes end up on the same line, one space apart.
  */
  lemma RelationLine(r: Relation)
    requires SpaceFree(r.obj1) && SpaceFree(r.obj2) && AllSpaceFree(r.stereotypes)
    requires r.quantifiers.0.Some? ==> SpaceFree(r.quantifiers.0.value)
    requires r.quantifiers.1.Some? ==> SpaceFree(r.quantifiers.1.value)
    ensures RelationCode(r).text == StdJoin(Words(r), " ")
  {
    StripAfterCollapse(RawLine(r));
    RawLineWords(r);
  }

  /** Strings that are all non-empty are all kept. */
  lemma {:induction false} NonEmptyKeepsWords(ws: seq<string>)
    requires forall i :: 0 <= i < |ws| ==> ws[i] != []
    ensures NonEmpty(ws) == ws
  {
    if ws != [] {
      NonEmptyKeepsWords(ws[1..]);
      assert [ws[0]] + ws[1..] == ws;
    }
  }

  /** The extension relation of the repository's own tests: no quantifiers, no stereotypes. */
  const AnimalDog := Relation("animal", Extension, "dog", [], (Some(""), Some("")), Undefined)

  lemma ExtensionWords()
    ensures Words(AnimalDog) == ["animal", "--|>", "dog"]
  {
    assert Shape(Extension, Undefined) == "--|>" by {
      ShapeFill(Extension, Undefined);
    }
    assert FormatQuantifier(AnimalDog.quantifiers) == ("", "");
    assert Wrapped([]) == [] && "dog" + "" == "dog";
    ThreeWords("animal", "--|>", "dog");
  }

  /** Three words with two empty pieces between them and nothing after. */
  lemma ThreeWords(a: string, b: string, c: string)
    requires a != [] && b != [] && c != []
    ensures Piece(a) + Piece("") + Piece(b) + Piece("") + Piece(c) + [] == [a, b, c]
  {
  }

  lemma ExtensionJoin()
    ensures StdJoin(["animal", "--|>", "dog"], " ") == "animal --|> dog"
  {
    var ws := ["animal", "--|>", "dog"];
    assert ws[1..] == ["--|>", "dog"] && ws[1..][1..] == ["dog"];
  }

  lemma ExtensionLine()
    ensures RelationCode(AnimalDog).text == StdJoin(Words(AnimalDog), " ")
  {
    assert SpaceFree("animal") && SpaceFree("dog");
    RelationLine(AnimalDog);
  }

  /** The extension line the repository's own tests expect. */
  lemma ExtensionExample()
    ensures RelationCode(AnimalDog).text == "animal --|> dog"
  {
    ExtensionLine();
    ExtensionWords();
    ExtensionJoin();
  }

  /** The association relation of the repository's own tests: both quantifiers and one stereotype. */
  const PersonAccount := Relation("person", Association, "account", ["use"], (Some("1"), Some("*")), Undefined)

  lemma AssociationWords()
    ensures Words(PersonAccount) == ["person", "\"1\"", "--", "\"*\"", "account:", "<<use>>"]
  {
    assert Shape(Association, Undefined) == "--" by {
      ShapeFill(Association, Undefined);
    }
    assert FormatQuantifier(PersonAccount.quantifiers) == ("\"1\"", "\"*\"") by {
      assert "\"" + "1" + "\"" == "\"1\"" && "\"" + "*" + "\"" == "\"*\"";
    }
    assert Wrapped(["use"]) == ["<<use>>"] by {
      assert "<<" + "use" + ">>" == "<<use>>";
    }
    assert "account" + ":" == "account:";
  }

  lemma AssociationJoin()
    ensures StdJoin(["person", "\"1\"", "--", "\"*\"", "account:", "<<use>>"], " ") == "person \"1\" -- \"*\" account: <<use>>"
  {
    var ws := ["person", "\"1\"", "--", "\"*\"", "account:", "<<use>>"];
    assert ws[1..][1..][1..][1..][1..] == ["<<use>>"];
  }

  lemma AssociationLine()
    ensures RelationCode(PersonAccount).text == StdJoin(Words(PersonAccount), " ")
  {
    assert SpaceFree("person") && SpaceFree("account") && SpaceFree("use") && SpaceFree("1") && SpaceFree("*");
    RelationLine(PersonAccount);
  }

  /** The association line with quantifiers and a stereotype that the repository's own tests expect. */
  lemma AssociationExample()
    ensures RelationCode(PersonAccount).text == "person \"1\" -- \"*\" account: <<use>>"
  {
    AssociationLine();
    AssociationWords();
    AssociationJoin();
  }
}
