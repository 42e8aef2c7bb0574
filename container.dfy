/**
  `Container`: a named box (package, namespace, cloud, ...) around other
  elements, which may be containers themselves; and the element tree every
  composite renderer walks.
*/
module Containers {
  import opened PyText
  import opened CodeGen
  import opened UmlCode
  import opened UmlObject
  import opened Joiner
  import opened Variables
  import opened Methods
  import opened Relations
  import opened Components
  import opened Classes

  /** A diagram element: one of the leaf kinds or a container of further elements. */
  datatype Obj =
    | VariableObj(variable: Variable)
    | MethodObj(meth: Method)
    | RelationObj(relation: Relation)
    | ComponentObj(component: Component)
    | ClassObj(cls: Class)
    | ContainerObj(name: Name, objs: seq<Obj>, kind: ContainerShapeType, shapeAttrs: ShapeAttributes)

  /** `Container.__init__`: the kind defaults to a package. */
  function NewContainer(name: Option<string>, objs: seq<Obj>, kind: Option<ContainerShapeType>,
                        shapeAttrs: Option<ShapeAttributes>): (r: Obj)
    ensures r.ContainerObj? && r.name == NormalizeName(name) && r.objs == objs
    ensures r.kind == (if kind.None? then Package else kind.value)
    ensures r.shapeAttrs == NormalizeAttrs(shapeAttrs)
  {
    ContainerObj(NormalizeName(name), objs, if kind.None? then Package else kind.value, NormalizeAttrs(shapeAttrs))
  }

  /**
    The keyword and the stereotype of a container kind: namespaces, clouds
    and databases have their own keyword; everything else is a package,
    marked `<<kind>>` unless it is a plain package.
  */
  function KindWords(kind: ContainerShapeType): (r: (string, string))
    ensures r.0 != []
    ensures kind == Namespace || kind == Cloud || kind == Database ==> r == (kind.Value(), "")
    ensures kind == Package ==> r == ("package", "")
    ensures kind == Node || kind == Frame || kind == Folder ==> r == ("package", StereotypeStart + kind.Value() + StereotypeEnd)
  {
    if kind in [Namespace, Cloud, Database] then (kind.Value(), "")
    else if kind != Package then ("package", StereotypeStart + kind.Value() + StereotypeEnd)
    else ("package", "")
  }

  /** The header before its spaces are squeezed. */
  function RawHeader(name: string, kind: ContainerShapeType, color: string): string
  {
    var (keyword, stereotype) := KindWords(kind);
    keyword + " \"" + name + "\" " + stereotype + " " + color + " {"
  }

  /** `re.sub(' +', ' ', ...).strip()` of the raw header. */
  function ContainerHeader(name: string, kind: ContainerShapeType, color: string): string
  {
    Strip(Squeeze(RawHeader(name, kind, color)))
  }

  /**
    The header starts with the keyword's first letter, which stripping
    leaves alone, and ends with `{`: it is the raw header with every run of
    spaces squeezed to one, the name's own runs included, and nothing else
    changed.
  */
  lemma ContainerHeaderShape(name: string, kind: ContainerShapeType, color: string)
    ensures var raw := RawHeader(name, kind, color);
      var h := ContainerHeader(name, kind, color);
      && h == Squeeze(raw)
      && h != [] && h[0] == KindWords(kind).0[0] && h[|h| - 1] == '{'
      && SingleSpaced(h)
      && NoBlanks(h) == NoBlanks(raw)
  {
    RawHeaderEnds(name, kind, color);
    SqueezedHeader(RawHeader(name, kind, color), ContainerHeader(name, kind, color), KindWords(kind).0[0]);
  }

  /** The shape of a squeezed and stripped header, from the shape of the raw one. */
  lemma SqueezedHeader(raw: string, h: string, first: char)
    requires h == Strip(Squeeze(raw))
    requires raw != [] && raw[0] == first && !IsSpace(first) && raw[|raw| - 1] == '{'
    ensures h == Squeeze(raw) && h != [] && h[0] == first && h[|h| - 1] == '{'
    ensures SingleSpaced(h) && NoBlanks(h) == NoBlanks(raw)
  {
    SqueezeShape(raw);
    StripKeepsTrimmed(Squeeze(raw));
  }

  /** The raw header starts with the keyword and ends with `{`. */
  lemma RawHeaderEnds(name: string, kind: ContainerShapeType, color: string)
    ensures var raw := RawHeader(name, kind, color);
      raw != [] && raw[0] == KindWords(kind).0[0] && !IsSpace(raw[0]) && raw[|raw| - 1] == '{'
  {
  }

  /**
    `gen_code` of every element in the context's style. A container is its
    header, its children's join on the next line after four spaces, and a
    closing brace on a line of its own; its colour error is discarded and it
    reports the children's errors.
  */
  function Render(py: Py, o: Obj, style: CodeStyle): Out
    decreases o
  {
    match o
    case VariableObj(v) => VariableCode(py, v, style)
    case MethodObj(m) => MethodCode(py, m, style)
    case RelationObj(r) => RelationCode(r)
    case ComponentObj(c) => ComponentCode(py, c)
    case ClassObj(c) => ClassCode(py, c, style)
    case ContainerObj(name, objs, kind, attrs) =>
      var items := seq(|objs|, i requires 0 <= i < |objs| => Generated(Render(py, objs[i], style)));
      var d := Join(Zone(items), style);
      Out(ContainerHeader(name, kind, ColorSlot(py, attrs)) + "\n" + Indent + d.text + "\n" + "}", d.errors)
  }

  /** The rendered children of a container as join items. */
  function ChildItems(py: Py, objs: seq<Obj>, style: CodeStyle): (r: seq<Item>)
    ensures |r| == |objs| && forall i :: 0 <= i < |objs| ==> r[i] == Generated(Render(py, objs[i], style))
  {
    seq(|objs|, i requires 0 <= i < |objs| => Generated(Render(py, objs[i], style)))
  }

  /** The rendered children of two elements. */
  lemma ChildItemsPair(py: Py, a: Obj, b: Obj, style: CodeStyle)
    ensures ChildItems(py, [a, b], style) == [Generated(Render(py, a, style)), Generated(Render(py, b, style))]
  {
    var r := ChildItems(py, [a, b], style);
    PairOf(r, Generated(Render(py, a, style)), Generated(Render(py, b, style)));
  }

  /** A sequence of two elements is the pair of its elements. */
  lemma PairOf<T>(r: seq<T>, x: T, y: T)
    requires |r| == 2 && r[0] == x && r[1] == y
    ensures r == [x, y]
  {
  }

  /** No element reports an error, however deeply containers nest. */
  lemma {:induction false} RenderNeverFails(py: Py, o: Obj, style: CodeStyle)
    ensures Render(py, o, style).errors == []
    decreases o
  {
    if o.ContainerObj? {
      var items := ChildItems(py, o.objs, style);
      forall i | 0 <= i < |o.objs| ensures ToStr(items[i], style).errors == [] {
        RenderNeverFails(py, o.objs[i], style);
      }
      JoinFailsOnlyThroughItems(Zone(items), style);
      assert Render(py, o, style).errors == Join(Zone(items), style).errors;
    }
  }

  /** Any header and indented join laid out as a container's lines. */
  lemma ContainerText(h: string, j: string, texts: seq<string>)
    requires texts != [] && Indent + j == StdJoin(Prefixed(Indent, texts), "\n")
    ensures h + "\n" + Indent + j + "\n" + "}" == StdJoin([h] + Prefixed(Indent, texts) + ["}"], "\n")
  {
    var lines := Prefixed(Indent, texts);
    StdJoinConcat(lines, ["}"], "\n");
    StdJoinConcat([h], lines + ["}"], "\n");
    assert [h] + lines + ["}"] == [h] + (lines + ["}"]);
    assert h + "\n" + Indent + j + "\n" + "}" == h + "\n" + (Indent + j) + "\n" + "}";
  }

  /**
    A container's text is its header, then its children's texts each on a
    line of its own after four spaces (one empty indented line when there
    are none), then `}` with no new line after it.
  */
  lemma ContainerLayout(py: Py, o: Obj, style: CodeStyle)
    requires o.ContainerObj?
    ensures Render(py, o, style).text
         == StdJoin([ContainerHeader(o.name, o.kind, ColorSlot(py, o.shapeAttrs))]
                    + Prefixed(Indent, JoinedTexts(ChildItems(py, o.objs, style), style)) + ["}"], "\n")
  {
    var items := ChildItems(py, o.objs, style);
    var texts := JoinedTexts(items, style);
    var j := Join(Zone(items), style).text;
    RenderContainer(py, o, style);
    ZoneLines(items, style);
    ContainerText(ContainerHeader(o.name, o.kind, ColorSlot(py, o.shapeAttrs)), j, texts);
  }

  /** One unfolding of `Render` on a container, with its children as join items. */
  lemma RenderContainer(py: Py, o: Obj, style: CodeStyle)
    requires o.ContainerObj?
    ensures var d := Join(Zone(ChildItems(py, o.objs, style)), style);
      Render(py, o, style)
      == Out(ContainerHeader(o.name, o.kind, ColorSlot(py, o.shapeAttrs)) + "\n" + Indent + d.text + "\n" + "}", d.errors)
  {
  }

  /** The element as it is after one rendering: the Go renderer renames every method in it. */
  function AfterRenderObj(o: Obj, style: CodeStyle): (r: Obj)
    decreases o
  {
    match o
    case MethodObj(m) => MethodObj(AfterRender(m, style))
    case ClassObj(c) => ClassObj(ClassAfterRender(c, style))
    case ContainerObj(name, objs, kind, attrs) =>
      ContainerObj(name, seq(|objs|, i requires 0 <= i < |objs| => AfterRenderObj(objs[i], style)), kind, attrs)
    case _ => o
  }

  /**
    Rendering a tree a second time gives the same text as the first time,
    and renders after that rename nothing more.
  */
  lemma {:induction false} RenderTwiceObj(py: Py, o: Obj, style: CodeStyle)
    ensures Render(py, AfterRenderObj(o, style), style) == Render(py, o, style)
    ensures AfterRenderObj(AfterRenderObj(o, style), style) == AfterRenderObj(o, style)
    decreases o
  {
    match o
    case MethodObj(m) => RenderTwice(py, m, style);
    case ClassObj(c) => ClassRenderTwice(py, c, style);
    case ContainerObj(name, objs, kind, attrs) =>
      var o' := AfterRenderObj(o, style);
      forall i | 0 <= i < |objs|
        ensures Render(py, o'.objs[i], style) == Render(py, objs[i], style)
        ensures AfterRenderObj(o'.objs[i], style) == o'.objs[i]
      {
        RenderTwiceObj(py, objs[i], style);
      }
      RenderTwiceContainer(py, o, style);
    case _ =>
  }

  /** Every element of a list as it is after one rendering. */
  function AfterRenderAll(objs: seq<Obj>, style: CodeStyle): (r: seq<Obj>)
    ensures |r| == |objs| && forall i :: 0 <= i < |objs| ==> r[i] == AfterRenderObj(objs[i], style)
  {
    seq(|objs|, i requires 0 <= i < |objs| => AfterRenderObj(objs[i], style))
  }

  /**
    A list of elements renders after its renaming to the same items as
    before it, and a second renaming leaves it as the first one did.
  */
  lemma ChildItemsAfterRender(py: Py, objs: seq<Obj>, style: CodeStyle)
    ensures ChildItems(py, AfterRenderAll(objs, style), style) == ChildItems(py, objs, style)
    ensures AfterRenderAll(AfterRenderAll(objs, style), style) == AfterRenderAll(objs, style)
  {
    var after := AfterRenderAll(objs, style);
    forall i | 0 <= i < |objs|
      ensures Render(py, after[i], style) == Render(py, objs[i], style)
      ensures AfterRenderObj(after[i], style) == after[i]
    {
      RenderTwiceObj(py, objs[i], style);
    }
  }

  /** A container renders twice alike once each of its children does. */
  lemma RenderTwiceContainer(py: Py, o: Obj, style: CodeStyle)
    requires o.ContainerObj?
    requires var o' := AfterRenderObj(o, style);
      forall i :: 0 <= i < |o.objs| ==>
        Render(py, o'.objs[i], style) == Render(py, o.objs[i], style) && AfterRenderObj(o'.objs[i], style) == o'.objs[i]
    ensures Render(py, AfterRenderObj(o, style), style) == Render(py, o, style)
    ensures AfterRenderObj(AfterRenderObj(o, style), style) == AfterRenderObj(o, style)
  {
    var o' := AfterRenderObj(o, style);
    assert ChildItems(py, o'.objs, style) == ChildItems(py, o.objs, style);
    assert AfterRenderObj(o', style).objs == o'.objs;
  }

  // ------------------------------------------------------------------ the repository's own container test

  /** The interface `i1` and the light-blue component `A` inside the package `comp1`. */
  const InterfaceI1: Obj := ClassObj(Class("i1", Interface, [], [], map[]))
  const ComponentA: Obj := ComponentObj(Component.Component("A", map[ColorAttr := "#ADD8E6"]))
  const Comp1: Obj := ContainerObj("comp1", [InterfaceI1, ComponentA], Package, map[])

  lemma InterfaceI1Text(py: Py, style: CodeStyle)
    requires Sound(py)
    ensures Render(py, InterfaceI1, style).text == "interface \"i1\" as i1"
  {
    VariableNameKeepsAlphanumeric(py, "i1");
    assert "interface \"" + "i1" + "\" as " + "i1" + "" == "interface \"i1\" as i1";
  }

  /** The light-blue colour is a hex literal and is kept as it is. */
  lemma ComponentAColor(py: Py)
    requires Colors.HashKept(py, "#ADD8E6")
    ensures ColorSlot(py, ComponentA.component.shapeAttrs) == "#ADD8E6"
  {
    assert Colors.CatalogueKey(py, "#ADD8E6")[0] == '#' by {
      assert Upper(py.snakecase("#ADD8E6"))[0] == UpperChar('#');
    }
    Colors.NormalizeHashLiteral(py, "#ADD8E6");
  }

  /** The expected line of `A`, piece by piece. */
  lemma ComponentALine()
    ensures "component" + " \"" + "A" + "\" as " + "A" + " " + "#ADD8E6" == "component \"A\" as A #ADD8E6"
  {
  }

  lemma ComponentAText(py: Py, style: CodeStyle)
    requires Sound(py) && Colors.HashKept(py, "#ADD8E6")
    ensures Render(py, ComponentA, style).text == "component \"A\" as A #ADD8E6"
  {
    VariableNameKeepsAlphanumeric(py, "A");
    assert Label("A") == "A";
    ComponentAColor(py);
    ComponentALine();
  }

  /** Three spaces before the brace squeeze to one. */
  lemma SqueezeSlots()
    ensures Squeeze("   {") == " {"
  {
    assert Squeeze("   {") == Squeeze("  {");
    assert Squeeze("  {") == Squeeze(" {");
    assert Squeeze(" {") == " " + Squeeze("{");
  }

  /**
    A plain package with no colour, whose name has no run of spaces, gets
    the header `package "<name>" {`.
  */
  lemma PackageHeader(name: string)
    requires forall i :: 0 <= i < |name| - 1 ==> !(name[i] == ' ' && name[i + 1] == ' ')
    ensures ContainerHeader(name, Package, "") == "package \"" + name + "\" {"
  {
    var x := "package \"" + name + "\"";
    assert RawHeader(name, Package, "") == x + "   {";
    forall i | 0 <= i < |x| - 1 ensures !(x[i] == ' ' && x[i + 1] == ' ') {
      if 9 <= i && i + 1 < 9 + |name| {
        assert x[i] == name[i - 9] && x[i + 1] == name[i - 8];
      }
    }
    SqueezeNoRuns(x);
    SqueezeSlots();
    SqueezeConcat(x, "   {");
    assert x + " {" == "package \"" + name + "\" {";
    StripKeepsTrimmed(x + " {");
  }

  /** A plain package: its header, then its children's zone, then the closing brace. */
  lemma PackageText(py: Py, name: Name, objs: seq<Obj>, style: CodeStyle)
    requires forall i :: 0 <= i < |name| - 1 ==> !(name[i] == ' ' && name[i + 1] == ' ')
    ensures Render(py, ContainerObj(name, objs, Package, map[]), style).text
         == "package \"" + name + "\" {" + "\n" + Indent + Join(Zone(ChildItems(py, objs, style)), style).text + "\n" + "}"
  {
    var o := ContainerObj(name, objs, Package, map[]);
    assert ColorSlot(py, o.shapeAttrs) == "";
    PackageHeader(name);
    RenderContainer(py, o, style);
  }

  /**
    A plain package of two elements, the second of which renders to some
    text: the header, then each element's text on its own indented line.
  */
  lemma PackageOfTwo(py: Py, name: Name, a: Obj, b: Obj, style: CodeStyle)
    requires forall i :: 0 <= i < |name| - 1 ==> !(name[i] == ' ' && name[i + 1] == ' ')
    requires Render(py, b, style).text != ""
    ensures Render(py, ContainerObj(name, [a, b], Package, map[]), style).text
         == "package \"" + name + "\" {" + "\n" + Indent
            + (Render(py, a, style).text + MemberSeparator + Render(py, b, style).text) + "\n" + "}"
  {
    ChildItemsPair(py, a, b, style);
    ZonePair(Render(py, a, style), Render(py, b, style), style);
    PackageText(py, name, [a, b], style);
  }

  /** Regrouping a container's text so that it grows from the left. */
  lemma ContainerRegroup(h: string, a: string, b: string)
    ensures h + "\n" + Indent + (a + MemberSeparator + b) + "\n" + "}"
         == h + "\n" + Indent + a + MemberSeparator + b + "\n" + "}"
  {
  }

  /** The expected text up to the first child, piece by piece. */
  lemma Comp1LineHead()
    ensures "package \"comp1\" {" + "\n" + Indent + "interface \"i1\" as i1"
         == "package \"comp1\" {\n    interface \"i1\" as i1"
  {
    assert "package \"comp1\" {" + "\n" == "package \"comp1\" {\n";
    assert "package \"comp1\" {\n" + Indent == "package \"comp1\" {\n    ";
  }

  /** The expected text from the second child on, piece by piece. */
  lemma Comp1LineTail()
    ensures "package \"comp1\" {\n    interface \"i1\" as i1" + MemberSeparator + "component \"A\" as A #ADD8E6" + "\n" + "}"
         == "package \"comp1\" {\n    interface \"i1\" as i1\n    component \"A\" as A #ADD8E6\n}"
  {
    assert "package \"comp1\" {\n    interface \"i1\" as i1" + MemberSeparator
        == "package \"comp1\" {\n    interface \"i1\" as i1\n    ";
    assert "package \"comp1\" {\n    interface \"i1\" as i1\n    " + "component \"A\" as A #ADD8E6"
        == "package \"comp1\" {\n    interface \"i1\" as i1\n    component \"A\" as A #ADD8E6";
  }

  /** The expected text, piece by piece. */
  lemma Comp1Line()
    ensures "package \"comp1\" {" + "\n" + Indent + ("interface \"i1\" as i1" + MemberSeparator + "component \"A\" as A #ADD8E6")
            + "\n" + "}"
         == "package \"comp1\" {\n    interface \"i1\" as i1\n    component \"A\" as A #ADD8E6\n}"
  {
    ContainerRegroup("package \"comp1\" {", "interface \"i1\" as i1", "component \"A\" as A #ADD8E6");
    Comp1LineHead();
    Comp1LineTail();
  }

  /** The package's header text. */
  lemma Comp1Header()
    ensures "package \"" + "comp1" + "\" {" == "package \"comp1\" {"
  {
  }

  /**
    The expected text of the repository's container test, given that the
    sanitiser treats ASCII as Python does and that `snakecase` keeps the
    colour literal's leading `#`.
  */
  lemma Comp1Example(py: Py)
    requires Sound(py) && Colors.HashKept(py, "#ADD8E6")
    ensures Render(py, Comp1, C)
         == Out("package \"comp1\" {\n    interface \"i1\" as i1\n    component \"A\" as A #ADD8E6\n}", [])
  {
    InterfaceI1Text(py, C);
    ComponentAText(py, C);
    Comp1Header();
    PackageOfTwo(py, "comp1", InterfaceI1, ComponentA, C);
    Comp1Line();
    RenderNeverFails(py, Comp1, C);
  }
}
