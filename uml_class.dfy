/**
  `Class`: a class block with an attributes zone and a methods zone, or,
  for an interface, a one-line lollipop.
*/
module Classes {
  import opened PyText
  import opened CodeGen
  import opened UmlCode
  import opened UmlObject
  import opened Joiner
  import opened Variables
  import opened Methods

  /**
    `ClassType`. `INTERFACE_LOLLIPOP` has the same value as `INTERFACE`, so
    Python makes it a second name for that member: there is one interface kind.
  */
  datatype ClassType = RegularClass | Abstract | Interface
  {
    function Value(): string
    {
      match this
      case RegularClass => "class"
      case Abstract => "abstract class"
      case Interface => "interface"
    }
  }

  const InterfaceLollipop: ClassType := Interface

  const AttributesZoneDivider: string := "/' Attributes '/"
  const MethodsZoneDivider: string := "/' Methods '/"

  /** The separator between two members of a zone: a new line indented by four spaces. */
  const MemberSeparator: string := "\n    "
  const Indent: string := "    "

  datatype Class = Class(name: Name, kind: ClassType, attrs: seq<Variable>, methods: seq<Method>,
                         shapeAttrs: ShapeAttributes)

  /** `Class.__init__`: missing attributes and methods become empty lists. */
  function NewClass(name: Option<string>, kind: ClassType, attrs: Option<seq<Variable>>,
                    methods: Option<seq<Method>>, shapeAttrs: Option<ShapeAttributes>): (r: Class)
    ensures r.name == NormalizeName(name) && r.kind == kind
    ensures r.attrs == (if attrs.None? then [] else attrs.value)
    ensures r.methods == (if methods.None? then [] else methods.value)
    ensures r.shapeAttrs == NormalizeAttrs(shapeAttrs)
  {
    Class(NormalizeName(name), kind, if attrs.None? then [] else attrs.value,
          if methods.None? then [] else methods.value, NormalizeAttrs(shapeAttrs))
  }

  /**
    `Class.gen_lollipop`: `interface "<name>" as <alias>`, the colour after
    one more space when there is one.
  */
  function Lollipop(py: Py, name: Name, color: string): (r: string)
  {
    var alias := VariableName(py, name);
    "interface \"" + name + "\" as " + alias + (if color != "" then " " + color else "")
  }

  /** The methods as join items, each rendered in the context's style. */
  function MethodItems(py: Py, methods: seq<Method>, style: CodeStyle): (r: seq<Item>)
    ensures |r| == |methods| && forall i :: 0 <= i < |methods| ==> r[i] == Generated(MethodCode(py, methods[i], style))
  {
    seq(|methods|, i requires 0 <= i < |methods| => Generated(MethodCode(py, methods[i], style)))
  }

  /**
    A zone of a class, or the children of a container: one item per line
    after four spaces, no bounds, nothing when there are none.
  */
  function Zone(items: seq<Item>): JoinItem
  {
    NewJoinItem(Some(items), MemberSeparator, None, Some(""))
  }

  /** A zone of two rendered items, the second not empty: the two texts on consecutive indented lines. */
  lemma ZonePair(x: Out, y: Out, style: CodeStyle)
    requires y.text != ""
    ensures Join(Zone([Generated(x), Generated(y)]), style).text == x.text + MemberSeparator + y.text
  {
    JoinPair(Generated(x), Generated(y), MemberSeparator, EmptyBound, Some(""), style);
  }

  /** The first line of a block: `<kind> <name> <colour> {`. */
  function Header(c: Class, color: string): string
  {
    c.kind.Value() + " " + c.name + " " + color + " {"
  }

  /**
    `Class.gen_code`. An interface is drawn as a lollipop, whatever its
    members. Any other kind is a block holding the two zones. A colour that
    `normalize` rejects is dropped and no error is reported for it.
  */
  function ClassCode(py: Py, c: Class, style: CodeStyle): (r: Out)
    ensures r.errors == []
  {
    var color := ColorSlot(py, c.shapeAttrs);
    if c.kind == Interface then Out(Lollipop(py, c.name, color), [])
    else
      var attrs := Join(Zone(RenderedArgs(py, c.attrs, style)), style);
      var methods := Join(Zone(MethodItems(py, c.methods, style)), style);
      ZonesNeverFail(py, c, style);
      Out(Header(c, color) + "\n"
          + Indent + AttributesZoneDivider + "\n"
          + Indent + attrs.text + "\n\n"
          + Indent + MethodsZoneDivider + "\n"
          + Indent + methods.text + "\n"
          + "}\n", attrs.errors + methods.errors)
  }

  /** Neither zone reports an error: no variable or method renderer ever does. */
  lemma ZonesNeverFail(py: Py, c: Class, style: CodeStyle)
    ensures Join(Zone(RenderedArgs(py, c.attrs, style)), style).errors == []
    ensures Join(Zone(MethodItems(py, c.methods, style)), style).errors == []
  {
    JoinFailsOnlyThroughItems(Zone(RenderedArgs(py, c.attrs, style)), style);
    JoinFailsOnlyThroughItems(Zone(MethodItems(py, c.methods, style)), style);
  }

  /** An interface of either spelling is a lollipop; its members are never shown. */
  lemma InterfaceIsLollipop(py: Py, c: Class, style: CodeStyle, attrs: seq<Variable>, methods: seq<Method>)
    requires c.kind == InterfaceLollipop
    ensures ClassCode(py, c, style) == Out(Lollipop(py, c.name, ColorSlot(py, c.shapeAttrs)), [])
    ensures ClassCode(py, c.(attrs := attrs, methods := methods), style) == ClassCode(py, c, style)
  {
  }

  /** The lollipop's text around its two quotes. */
  lemma LollipopParts(py: Py, name: Name, color: string)
    ensures Lollipop(py, name, color)
         == "interface " + ['"'] + name + ['"'] + (" as " + VariableName(py, name) + (if color != "" then " " + color else ""))
  {
  }

  /** What follows the name's closing quote holds no quote when the colour holds none. */
  lemma LollipopTailQuoteFree(py: Py, name: Name, color: string)
    requires Sound(py)
    requires '"' !in color
    ensures '"' !in " as " + VariableName(py, name) + (if color != "" then " " + color else "")
  {
    VariableNameQuoteFree(py, name);
  }

  /**
    The lollipop splits on `"` into the keyword, the name and the alias with
    the colour (after one space when there is one), when neither the name
    nor the colour holds a `"`.
  */
  lemma LollipopSplits(py: Py, name: Name, color: string)
    requires Sound(py)
    requires '"' !in name && '"' !in color
    ensures Split(Lollipop(py, name, color), '"')
         == ["interface ", name, " as " + VariableName(py, name) + (if color != "" then " " + color else "")]
  {
    LollipopParts(py, name, color);
    LollipopTailQuoteFree(py, name, color);
    SplitThree("interface ", name, " as " + VariableName(py, name) + (if color != "" then " " + color else ""), '"');
  }

  /** Without a colour the header keeps both spaces around the empty slot. */
  lemma HeaderWithoutColor(c: Class)
    ensures Header(c, "") == c.kind.Value() + " " + c.name + "  {"
  {
  }

  /** The lines of a block: header, attributes zone, a blank line, methods zone, closing brace. */
  function BlockLines(header: string, attrTexts: seq<string>, methodTexts: seq<string>): seq<string>
  {
    [header, Indent + AttributesZoneDivider] + Prefixed(Indent, attrTexts)
      + ["", Indent + MethodsZoneDivider] + Prefixed(Indent, methodTexts) + ["}", ""]
  }

  /** One zone laid out with its indentation. */
  lemma ZoneLines(items: seq<Item>, style: CodeStyle)
    ensures Indent + Join(Zone(items), style).text == StdJoin(Prefixed(Indent, JoinedTexts(items, style)), "\n")
  {
    assert MemberSeparator == "\n" + Indent;
    JoinUnbounded(items, MemberSeparator, style);
    IndentedJoin(Indent, JoinedTexts(items, style), "\n");
  }

  /** Regrouping the pieces of a block around its line breaks. */
  lemma BlockRegroup(h: string, d1: string, ja: string, d2: string, jm: string, nl: string, cb: string)
    ensures h + nl + Indent + d1 + nl + Indent + ja + (nl + nl) + Indent + d2 + nl + Indent + jm + nl + (cb + nl)
         == (h + nl + (Indent + d1)) + nl
            + ((Indent + ja) + nl + (("" + nl + (Indent + d2)) + nl + ((Indent + jm) + nl + (cb + nl + ""))))
  {
  }

  /** The joined lines of a block, grouped as the joins of its parts. */
  lemma BlockLinesJoin(h: string, at: seq<string>, mt: seq<string>)
    requires at != [] && mt != []
    ensures StdJoin(BlockLines(h, at, mt), "\n")
         == (h + "\n" + (Indent + AttributesZoneDivider)) + "\n"
            + (StdJoin(Prefixed(Indent, at), "\n") + "\n"
               + (("" + "\n" + (Indent + MethodsZoneDivider)) + "\n"
                  + (StdJoin(Prefixed(Indent, mt), "\n") + "\n" + ("}" + "\n" + ""))))
  {
    var a := Prefixed(Indent, at);
    var m := Prefixed(Indent, mt);
    var top := [h, Indent + AttributesZoneDivider];
    var mid := ["", Indent + MethodsZoneDivider];
    var bottom := ["}", ""];
    assert BlockLines(h, at, mt) == top + (a + (mid + (m + bottom)));
    StdJoinPair(bottom[0], bottom[1], "\n");
    StdJoinPair(top[0], top[1], "\n");
    StdJoinPair(mid[0], mid[1], "\n");
    StdJoinConcat(m, bottom, "\n");
    StdJoinConcat(mid, m + bottom, "\n");
    StdJoinConcat(a, mid + (m + bottom), "\n");
    StdJoinConcat(top, a + (mid + (m + bottom)), "\n");
  }

  /** The block text of any header and zone texts is its lines joined by new lines. */
  lemma BlockText(h: string, ja: string, jm: string, at: seq<string>, mt: seq<string>)
    requires at != [] && mt != []
    requires Indent + ja == StdJoin(Prefixed(Indent, at), "\n")
    requires Indent + jm == StdJoin(Prefixed(Indent, mt), "\n")
    ensures h + "\n" + Indent + AttributesZoneDivider + "\n" + Indent + ja + "\n\n" + Indent + MethodsZoneDivider + "\n"
            + Indent + jm + "\n" + "}\n"
         == StdJoin(BlockLines(h, at, mt), "\n")
  {
    BlockLinesJoin(h, at, mt);
    BlockRegroup(h, AttributesZoneDivider, ja, MethodsZoneDivider, jm, "\n", "}");
    assert "\n\n" == "\n" + "\n" && "}\n" == "}" + "\n";
  }

  /**
    A block is its lines joined by new lines: every attribute and every
    method that renders to something sits on its own line, indented by four
    spaces, and an empty zone leaves one indented empty line.
  */
  lemma ClassLayout(py: Py, c: Class, style: CodeStyle)
    requires c.kind != Interface
    ensures ClassCode(py, c, style).text
         == StdJoin(BlockLines(Header(c, ColorSlot(py, c.shapeAttrs)),
                               JoinedTexts(RenderedArgs(py, c.attrs, style), style),
                               JoinedTexts(MethodItems(py, c.methods, style), style)), "\n")
  {
    ZoneLines(RenderedArgs(py, c.attrs, style), style);
    ZoneLines(MethodItems(py, c.methods, style), style);
    BlockText(Header(c, ColorSlot(py, c.shapeAttrs)),
              Join(Zone(RenderedArgs(py, c.attrs, style)), style).text,
              Join(Zone(MethodItems(py, c.methods, style)), style).text,
              JoinedTexts(RenderedArgs(py, c.attrs, style), style),
              JoinedTexts(MethodItems(py, c.methods, style), style));
  }

  /**
    With no new line in the header or in any member's text, splitting a
    block on new lines gives its lines back.
  */
  lemma ClassLines(py: Py, c: Class, style: CodeStyle)
    requires c.kind != Interface
    requires var lines := BlockLines(Header(c, ColorSlot(py, c.shapeAttrs)),
                                     JoinedTexts(RenderedArgs(py, c.attrs, style), style),
                                     JoinedTexts(MethodItems(py, c.methods, style), style));
      forall i :: 0 <= i < |lines| ==> '\n' !in lines[i]
    ensures Split(ClassCode(py, c, style).text, '\n')
         == BlockLines(Header(c, ColorSlot(py, c.shapeAttrs)),
                       JoinedTexts(RenderedArgs(py, c.attrs, style), style),
                       JoinedTexts(MethodItems(py, c.methods, style), style))
  {
    ClassLayout(py, c, style);
    SplitStdJoin(BlockLines(Header(c, ColorSlot(py, c.shapeAttrs)),
                            JoinedTexts(RenderedArgs(py, c.attrs, style), style),
                            JoinedTexts(MethodItems(py, c.methods, style), style)), '\n');
  }

  /** The class as it is after one rendering: the Go renderer renames every method. */
  function ClassAfterRender(c: Class, style: CodeStyle): (r: Class)
    ensures r.name == c.name && r.kind == c.kind && r.attrs == c.attrs && r.shapeAttrs == c.shapeAttrs
    ensures |r.methods| == |c.methods|
    ensures forall i :: 0 <= i < |c.methods| ==> r.methods[i] == AfterRender(c.methods[i], style)
  {
    c.(methods := seq(|c.methods|, i requires 0 <= i < |c.methods| => AfterRender(c.methods[i], style)))
  }

  /** Rendering a class a second time gives the same text, and a third rendering renames nothing more. */
  lemma ClassRenderTwice(py: Py, c: Class, style: CodeStyle)
    ensures ClassCode(py, ClassAfterRender(c, style), style) == ClassCode(py, c, style)
    ensures ClassAfterRender(ClassAfterRender(c, style), style) == ClassAfterRender(c, style)
  {
    var c' := ClassAfterRender(c, style);
    forall i | 0 <= i < |c.methods|
      ensures MethodCode(py, c'.methods[i], style) == MethodCode(py, c.methods[i], style)
      ensures AfterRender(c'.methods[i], style) == c'.methods[i]
    {
      RenderTwice(py, c.methods[i], style);
    }
    assert MethodItems(py, c'.methods, style) == MethodItems(py, c.methods, style);
    assert ClassAfterRender(c', style).methods == c'.methods;
  }
}
