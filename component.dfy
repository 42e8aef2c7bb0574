/**
  `Component`: a component box, `<keyword> "<label>" as <alias> <colour>`.
*/
module Components {
  import opened PyText
  import opened CodeGen
  import opened UmlObject
  import Colors

  datatype Component = Component(name: Name, shapeAttrs: ShapeAttributes)

  /** `Component.__init__`: the name and shape attributes as every element stores them. */
  function NewComponent(name: Option<string>, shapeAttrs: Option<ShapeAttributes>): (r: Component)
    ensures r.name != [] && r.name == NormalizeName(name)
    ensures shapeAttrs.None? ==> r.shapeAttrs == map[]
  {
    Component.Component(NormalizeName(name), NormalizeAttrs(shapeAttrs))
  }

  /** `Component.get_component_diagram`: only "database" is singled out, and it maps to itself. */
  function ComponentDiagram(attr: string): (r: string)
    ensures r == attr
  {
    if attr == Database.Value() then Database.Value() else attr
  }

  /** The keyword: the container shape type attribute when there is one, `component` otherwise. */
  function Keyword(attrs: ShapeAttributes): (r: string)
    ensures ContainerShapeTypeAttr in attrs ==> r == attrs[ContainerShapeTypeAttr]
    ensures ContainerShapeTypeAttr !in attrs ==> r == "component"
  {
    if ContainerShapeTypeAttr in attrs then ComponentDiagram(attrs[ContainerShapeTypeAttr]) else "component"
  }

  /** The label shown in quotes: the name with no `"` left in it. */
  function Label(name: string): (r: string)
    ensures |r| == |name| && '"' !in r
  {
    ReplaceChar(name, '"', [NameReplacementChar])
  }

  /** In the label every `"` of the name becomes `_` and every other character stays where it was. */
  lemma LabelReplacesQuotes(name: string)
    ensures forall i :: 0 <= i < |name| ==> Label(name)[i] == (if name[i] == '"' then NameReplacementChar else name[i])
  {
    ReplaceCharAt(name, '"', NameReplacementChar);
  }

  /** A name with one `"` is shown with `_` in its place. */
  lemma LabelOfQuoted(a: string, b: string)
    requires '"' !in a && '"' !in b
    ensures Label(a + ['"'] + b) == a + [NameReplacementChar] + b
  {
    ReplaceCharConcat(a + ['"'], b, '"', [NameReplacementChar]);
    ReplaceCharConcat(a, ['"'], '"', [NameReplacementChar]);
    assert ReplaceChar(['"'], '"', [NameReplacementChar]) == [NameReplacementChar] by {
      assert ['"'][1..] == [];
    }
  }

  /** `Component.gen_code`: never reports an error, not even for an invalid colour. */
  function ComponentCode(py: Py, c: Component): (r: Out)
    ensures r.errors == []
  {
    Out(Keyword(c.shapeAttrs) + " \"" + Label(c.name) + "\" as " + VariableName(py, c.name) + " "
        + ColorSlot(py, c.shapeAttrs), [])
  }

  /** A component line's pieces regrouped around its two quotes. */
  lemma QuotedParts(keyword: string, shown: string, alias: string, color: string)
    ensures keyword + " \"" + shown + "\" as " + alias + " " + color
         == (keyword + " ") + ['"'] + shown + ['"'] + (" as " + alias + " " + color)
  {
  }

  /** What follows the label's closing quote holds no quote when the colour holds none. */
  lemma ComponentTailQuoteFree(py: Py, alias: string, color: string)
    requires '"' !in alias && '"' !in color
    ensures '"' !in " as " + alias + " " + color
  {
  }

  /**
    When neither the keyword nor the colour holds a `"`, the text splits on
    `"` into the keyword, the label and the alias with its colour.
  */
  lemma ComponentSplitsOnQuotes(py: Py, c: Component)
    requires Sound(py)
    requires '"' !in Keyword(c.shapeAttrs) && '"' !in ColorSlot(py, c.shapeAttrs)
    ensures Split(ComponentCode(py, c).text, '"')
         == [Keyword(c.shapeAttrs) + " ", Label(c.name), " as " + VariableName(py, c.name) + " " + ColorSlot(py, c.shapeAttrs)]
  {
    var head := Keyword(c.shapeAttrs) + " ";
    var tail := " as " + VariableName(py, c.name) + " " + ColorSlot(py, c.shapeAttrs);
    QuotedParts(Keyword(c.shapeAttrs), Label(c.name), VariableName(py, c.name), ColorSlot(py, c.shapeAttrs));
    VariableNameQuoteFree(py, c.name);
    ComponentTailQuoteFree(py, VariableName(py, c.name), ColorSlot(py, c.shapeAttrs));
    assert '"' !in head;
    SplitThree(head, Label(c.name), tail, '"');
  }

  /** An invalid colour leaves the slot empty: the text ends with the alias and one space. */
  lemma ComponentInvalidColor(py: Py, c: Component)
    requires ColorAttr in c.shapeAttrs && Colors.Normalize(py, c.shapeAttrs[ColorAttr]).1.Some?
    ensures var t := ComponentCode(py, c).text;
      var tail := " as " + VariableName(py, c.name) + " ";
      |tail| <= |t| && t[|t| - |tail|..] == tail
    ensures ComponentCode(py, c).errors == []
  {
    var tail := " as " + VariableName(py, c.name) + " ";
    var head := Keyword(c.shapeAttrs) + " \"" + Label(c.name) + "\"";
    assert ComponentCode(py, c).text == head + tail;
  }

  /** The component of the repository's own tests, with a quote in its name. */
  const Ejb: Component := Component.Component("ejb://VeryRare.\"Name", map[ColorAttr := "#0000FF"])

  lemma EjbLabel()
    ensures Label(Ejb.name) == "ejb://VeryRare._Name"
  {
    var a, b := "ejb://VeryRare.", "Name";
    assert a + [NameReplacementChar] + b == "ejb://VeryRare._Name";
    assert Ejb.name == a + ['"'] + b;
    LabelOfQuoted(a, b);
  }

  lemma EjbAlias(py: Py)
    requires Sound(py)
    ensures VariableName(py, Ejb.name) == "ejb___VeryRare__Name"
  {
    var n := Ejb.name;
    forall i | 0 <= i < |n| ensures IsAscii(n[i]) {
    }
  }

  lemma EjbColor(py: Py)
    requires Colors.HashKept(py, "#0000FF")
    ensures ColorSlot(py, Ejb.shapeAttrs) == "#0000FF"
  {
    assert Colors.CatalogueKey(py, "#0000FF")[0] == '#' by {
      assert Upper(py.snakecase("#0000FF"))[0] == UpperChar('#');
    }
    Colors.NormalizeHashLiteral(py, "#0000FF");
  }

  /** The expected line up to the alias, piece by piece. */
  lemma EjbLineHead()
    ensures "component" + " \"" + "ejb://VeryRare._Name" + "\" as " == "component \"ejb://VeryRare._Name\" as "
  {
    assert "component" + " \"" == "component \"";
    assert "component \"" + "ejb://VeryRare._Name" == "component \"ejb://VeryRare._Name";
  }

  /** The expected line from the alias on, piece by piece. */
  lemma EjbLineTail()
    ensures "component \"ejb://VeryRare._Name\" as " + "ejb___VeryRare__Name" + " " + "#0000FF"
         == "component \"ejb://VeryRare._Name\" as ejb___VeryRare__Name #0000FF"
  {
    assert "component \"ejb://VeryRare._Name\" as " + "ejb___VeryRare__Name"
        == "component \"ejb://VeryRare._Name\" as ejb___VeryRare__Name";
    assert "component \"ejb://VeryRare._Name\" as ejb___VeryRare__Name" + " "
        == "component \"ejb://VeryRare._Name\" as ejb___VeryRare__Name ";
  }

  /** The expected line, piece by piece. */
  lemma EjbLine()
    ensures "component" + " \"" + "ejb://VeryRare._Name" + "\" as " + "ejb___VeryRare__Name" + " " + "#0000FF"
         == "component \"ejb://VeryRare._Name\" as ejb___VeryRare__Name #0000FF"
  {
    EjbLineHead();
    EjbLineTail();
  }

  /**
    The expected line of the repository's own tests, given that the
    sanitiser treats ASCII as Python does and that `snakecase` keeps the
    colour literal's leading `#`.
  */
  lemma EjbExample(py: Py)
    requires Sound(py) && Colors.HashKept(py, "#0000FF")
    ensures ComponentCode(py, Ejb) == Out("component \"ejb://VeryRare._Name\" as ejb___VeryRare__Name #0000FF", [])
  {
    EjbLine();
    assert Keyword(Ejb.shapeAttrs) == "component";
    EjbLabel();
    EjbAlias(py);
    EjbColor(py);
  }
}
