/**
  `Diagram`: the root of a PlantUML document. The start marker, the
  optional title and autonumber lines, the objects and the relations (each
  group after its separator comment), and the end marker.
*/
module Diagrams {
  import opened PyText
  import opened UmlCode
  import opened CodeGen
  import opened UmlObject
  import opened Joiner
  import opened Containers

  const ObjectsSeparator: string := "/' OBJECTS '/"
  const RelationSeparator: string := "/' RELATIONS '/"

  /** Separators are added unless the options say otherwise. */
  const DefaultAddSeparators: bool := true

  /** The diagram options; header and footer pages are declared but not supported. */
  datatype DiagramOptName = AutoNumber | AutoNumberStart | Title | HeaderPage | FooterPage | AddSeparators

  /** An option value: a string, a boolean or an integer. */
  datatype OptValue = Str(s: string) | Bool(b: bool) | Int(i: int)

  /** Python's truth value of an option value. */
  predicate Truthy(v: OptValue)
  {
    match v
    case Str(s) => s != []
    case Bool(b) => b
    case Int(i) => i != 0
  }

  function DigitChar(d: nat): (c: char)
    requires d < 10
    ensures IsDigit(c)
  {
    ('0' as int + d) as char
  }

  /** The decimal digits of a natural number, without leading zeros. */
  function Decimal(n: nat): (r: string)
    ensures r != [] && forall i :: 0 <= i < |r| ==> IsDigit(r[i])
    ensures r[0] == '0' <==> n == 0
    decreases n
  {
    if n < 10 then [DigitChar(n)] else Decimal(n / 10) + [DigitChar(n % 10)]
  }

  /** The number a string of decimal digits denotes, most significant digit first. */
  function DecimalValue(s: string): int
  {
    if s == [] then 0 else 10 * DecimalValue(s[..|s| - 1]) + (s[|s| - 1] as int - '0' as int)
  }

  /** `Decimal(n)` denotes `n`. */
  lemma {:induction false} DecimalDenotes(n: nat)
    ensures DecimalValue(Decimal(n)) == n
    decreases n
  {
    if n >= 10 {
      var h := Decimal(n / 10);
      var s := h + [DigitChar(n % 10)];
      assert Decimal(n) == s;
      assert s[..|s| - 1] == h;
      DecimalDenotes(n / 10);
    }
  }

  /** Python's `str` of an option value. */
  function Show(v: OptValue): (r: string)
    ensures v.Str? ==> r == v.s
    ensures v.Bool? ==> r == (if v.b then "True" else "False")
    ensures v.Int? && v.i >= 0 ==> r == Decimal(v.i)
    ensures v.Int? && v.i < 0 ==> r == "-" + Decimal(-v.i)
  {
    match v
    case Str(s) => s
    case Bool(b) => if b then "True" else "False"
    case Int(i) => if i < 0 then "-" + Decimal(-i) else Decimal(i)
  }

  /**
    The options dictionary the caller passes in. The diagram keeps a
    reference to it and writes into it, so the caller sees the change.
  */
  class Options {
    var values: map<DiagramOptName, OptValue>

    constructor (values: map<DiagramOptName, OptValue>)
      ensures this.values == values
    {
      this.values := values;
    }
  }

  // ------------------------------------------------------------------ start and end markers

  const StandardWrapper: (string, string) := ("@startuml", "@enduml")
  const WireframeWrapper: (string, string) := ("@startsalt", "@endsalt")
  const WorkBreakdownWrapper: (string, string) := ("@startwbs", "@endwbs")
  const MindmapWrapper: (string, string) := ("@startmindmap", "@endmindmap")
  const GanttWrapper: (string, string) := ("@startgantt", "@endgantt")
  const DitaaWrapper: (string, string) := ("@startditaa", "@endditaa")

  /** The kinds that take the standard markers, as listed (timing and deploy appear twice). */
  const StandardKinds: seq<DiagramType> :=
    [Sequence, UseCase, ClassDiagram, Activity, Component, State, ObjectDiagram, Deploy, Timing,
     EntityRelationship, Math, Archimate, Timing, Deploy]

  /**
    `_get_wrapper` as written: a standard kind gets the standard markers;
    any other kind reaches `type_ in DiagramType.WIREFRAME`, a membership
    test on an enum member, which raises `TypeError` (here `None`).
  */
  function WrapperAsWritten(kind: DiagramType): (r: Option<(string, string)>)
  {
    if kind in StandardKinds then Some(StandardWrapper) else None
  }

  /**
    `_get_wrapper` as evidently intended: each non-UML kind has its own
    markers and everything else gets the standard ones.
  */
  function Wrapper(kind: DiagramType): (r: (string, string))
    ensures kind in StandardKinds ==> r == StandardWrapper
    ensures kind == Wireframe ==> r == WireframeWrapper
    ensures kind == WorkBreakdownStructure ==> r == WorkBreakdownWrapper
    ensures kind == Mindmap ==> r == MindmapWrapper
    ensures kind == Gantt ==> r == GanttWrapper
    ensures kind == Ditaa ==> r == DitaaWrapper
    ensures kind == Unknown || kind == Sdl ==> r == StandardWrapper
  {
    if kind in StandardKinds then StandardWrapper
    else if kind == Wireframe then WireframeWrapper
    else if kind == WorkBreakdownStructure then WorkBreakdownWrapper
    else if kind == Mindmap then MindmapWrapper
    else if kind == Gantt then GanttWrapper
    else if kind == Ditaa then DitaaWrapper
    else StandardWrapper
  }

  /**
    The lookup as written fails on exactly the kinds outside the standard
    list, and where it succeeds it agrees with the intended one.
  */
  lemma WrapperAsWrittenFails(kind: DiagramType)
    ensures WrapperAsWritten(kind).None? <==> kind !in StandardKinds
    ensures WrapperAsWritten(kind).Some? ==> WrapperAsWritten(kind).value == Wrapper(kind)
  {
  }

  /** A wireframe diagram: the code as written raises, the intended markers are `@startsalt`/`@endsalt`. */
  lemma WireframeWrapperFinding()
    ensures WrapperAsWritten(Wireframe) == None
    ensures Wrapper(Wireframe) == ("@startsalt", "@endsalt")
  {
  }

  // ------------------------------------------------------------------ optional lines

  /**
    The inputs for which the optionals do not raise: a sequence diagram
    must have `AUTO_NUMBER`, and when that is falsy a start value, if
    present, must be a string, since its `len` is taken.
  */
  predicate OptionalsDefined(kind: DiagramType, opts: map<DiagramOptName, OptValue>)
  {
    kind == Sequence ==>
      AutoNumber in opts && (!Truthy(opts[AutoNumber]) ==> AutoNumberStart !in opts || opts[AutoNumberStart].Str?)
  }

  /** The autonumber start: the option when present, the empty string otherwise. */
  function StartValue(opts: map<DiagramOptName, OptValue>): (r: OptValue)
    ensures AutoNumberStart in opts ==> r == opts[AutoNumberStart]
    ensures AutoNumberStart !in opts ==> r == Str("")
  {
    if AutoNumberStart in opts then opts[AutoNumberStart] else Str("")
  }

  /** Whether the autonumber line is written: sequence diagrams only, when numbering is on or a start is given. */
  predicate Autonumbered(kind: DiagramType, opts: map<DiagramOptName, OptValue>)
    requires OptionalsDefined(kind, opts)
  {
    kind == Sequence && (Truthy(opts[AutoNumber]) || |StartValue(opts).s| > 0)
  }

  /** The title line, when a title is set. */
  function TitleLine(opts: map<DiagramOptName, OptValue>): (r: string)
    ensures Title !in opts ==> r == []
    ensures Title in opts ==> r == "title \"" + Show(opts[Title]) + "\"\n"
  {
    if Title in opts then "title \"" + Show(opts[Title]) + "\"\n" else ""
  }

  /** What `_generate_optionals` returns. */
  function Optionals(kind: DiagramType, opts: map<DiagramOptName, OptValue>): string
    requires OptionalsDefined(kind, opts)
  {
    TitleLine(opts) + (if Autonumbered(kind, opts) then "autonumber " + Show(StartValue(opts)) + "\n" else "")
  }

  /** `_generate_optionals`: the title line, then for sequence diagrams the autonumber line. */
  method GenerateOptionals(kind: DiagramType, opts: map<DiagramOptName, OptValue>) returns (out: string)
    requires OptionalsDefined(kind, opts)
    ensures out == Optionals(kind, opts)
  {
    out := "";
    if Title in opts {
      out := out + "title \"" + Show(opts[Title]) + "\"\n";
    }
    assert out == TitleLine(opts);
    var start := Str("");
    if kind == Sequence {
      if AutoNumberStart in opts {
        start := opts[AutoNumberStart];
      }
      assert start == StartValue(opts);
      if Truthy(opts[AutoNumber]) || |start.s| > 0 {
        assert Autonumbered(kind, opts);
        out := out + ("autonumber " + Show(start) + "\n");
      } else {
        assert !Autonumbered(kind, opts);
      }
    }
  }

  /** The optionals open with a title line exactly when a title is set. */
  lemma OptionalsTitle(kind: DiagramType, opts: map<DiagramOptName, OptValue>)
    requires OptionalsDefined(kind, opts)
    ensures var out := Optionals(kind, opts);
      Title in opts <==> |out| >= 7 && out[..7] == "title \""
  {
    var out := Optionals(kind, opts);
    if Title !in opts && Autonumbered(kind, opts) {
      assert out[0] == 'a';
    }
  }

  /** Outside sequence diagrams the numbering options are ignored: only the title can appear. */
  lemma OptionalsIgnoreNumbering(kind: DiagramType, opts: map<DiagramOptName, OptValue>)
    requires kind != Sequence
    ensures OptionalsDefined(kind, opts)
    ensures Optionals(kind, opts) == TitleLine(opts)
    ensures Optionals(kind, opts) == Optionals(kind, opts - {AutoNumber, AutoNumberStart})
  {
    var rest := opts - {AutoNumber, AutoNumberStart};
    assert Title in rest <==> Title in opts;
    assert Title in opts ==> rest[Title] == opts[Title];
  }

  /**
    In a sequence diagram the optionals end with `autonumber <start>` when
    numbering is on or a start is given, and hold only the title otherwise.
  */
  lemma SequenceNumbering(opts: map<DiagramOptName, OptValue>)
    requires OptionalsDefined(Sequence, opts)
    ensures var out := Optionals(Sequence, opts);
      var line := "autonumber " + Show(StartValue(opts)) + "\n";
      if Truthy(opts[AutoNumber]) || (StartValue(opts).Str? && StartValue(opts).s != [])
      then out == TitleLine(opts) + line
      else out == TitleLine(opts)
  {
  }

  /** `_generate_header`: the start marker, the optionals and an empty line. */
  function Header(kind: DiagramType, opts: map<DiagramOptName, OptValue>): string
    requires OptionalsDefined(kind, opts)
  {
    Wrapper(kind).0 + "\n" + Optionals(kind, opts) + "\n"
  }

  // ------------------------------------------------------------------ the whole diagram

  /** The options after construction: `ADD_SEPARATORS` set to true unless the caller set it. */
  function WithSeparators(opts: map<DiagramOptName, OptValue>): (r: map<DiagramOptName, OptValue>)
    ensures AddSeparators in r
    ensures AddSeparators in opts ==> r == opts
    ensures AddSeparators !in opts ==> r == opts[AddSeparators := Bool(DefaultAddSeparators)]
  {
    if AddSeparators !in opts && DefaultAddSeparators then opts[AddSeparators := Bool(true)] else opts
  }

  /** The two separator lines: the markers when `ADD_SEPARATORS` is truthy, empty lines otherwise. */
  function Separators(opts: map<DiagramOptName, OptValue>): (r: (string, string))
    ensures AddSeparators in opts && Truthy(opts[AddSeparators]) ==> r == (ObjectsSeparator, RelationSeparator)
    ensures !(AddSeparators in opts && Truthy(opts[AddSeparators])) ==> r == ("", "")
  {
    if AddSeparators in opts && Truthy(opts[AddSeparators]) then (ObjectsSeparator, RelationSeparator) else ("", "")
  }

  /** Once the defaults are in, the markers are written unless the caller turned them off with a falsy value. */
  lemma SeparatorsByDefault(opts: map<DiagramOptName, OptValue>)
    ensures Separators(WithSeparators(opts)) == (ObjectsSeparator, RelationSeparator)
        <==> AddSeparators !in opts || Truthy(opts[AddSeparators])
    ensures Separators(WithSeparators(opts)) != (ObjectsSeparator, RelationSeparator)
        ==> Separators(WithSeparators(opts)) == ("", "")
  {
  }

  /** One group of the diagram: its rendered elements one per line, nothing for a missing or empty list. */
  function Group(items: Option<seq<Item>>): (r: JoinItem)
    ensures r == JoinItem(items, "\n", EmptyBound, Some(""))
  {
    NewJoinItem(items, "\n", None, Some(""))
  }

  /** The lines of the diagram: header, objects separator, objects, relations separator, relations, end marker. */
  function Layout(header: string, seps: (string, string), objs: string, rels: string, end: string): string
  {
    header + "\n" + seps.0 + "\n" + objs + "\n" + seps.1 + "\n" + rels + "\n" + end + "\n"
  }

  /**
    The diagram once its elements are rendered into join items: the header,
    the two groups after their separator lines, the end marker; the errors
    are the objects' followed by the relations'.
  */
  function DiagramOut(style: CodeStyle, kind: DiagramType, opts: map<DiagramOptName, OptValue>,
                      objs: Option<seq<Item>>, relations: seq<Item>): Out
    requires OptionalsDefined(kind, opts)
  {
    var o := Join(Group(objs), style);
    var rl := Join(Group(Some(relations)), style);
    Out(Layout(Header(kind, opts), Separators(opts), o.text, rl.text, Wrapper(kind).1), o.errors + rl.errors)
  }

  /** The rendered objects of a diagram; `None` when the list itself is missing. */
  function ObjectItems(py: Py, objs: Option<seq<Obj>>, style: CodeStyle): (r: Option<seq<Item>>)
    ensures objs.None? <==> r.None?
    ensures objs.Some? ==> r == Some(ChildItems(py, objs.value, style))
  {
    if objs.None? then None else Some(ChildItems(py, objs.value, style))
  }

  /** `Diagram.gen_code` as a value: every element rendered in the style, then laid out. */
  function DiagramCode(py: Py, style: CodeStyle, kind: DiagramType, opts: map<DiagramOptName, OptValue>,
                       objs: Option<seq<Obj>>, relations: seq<Obj>): Out
    requires OptionalsDefined(kind, opts)
  {
    DiagramOut(style, kind, opts, ObjectItems(py, objs, style), ChildItems(py, relations, style))
  }

  /** The optional element list as it is after one rendering. */
  function AfterRenderObjs(objs: Option<seq<Obj>>, style: CodeStyle): (r: Option<seq<Obj>>)
    ensures objs.None? <==> r.None?
    ensures objs.Some? ==> r == Some(AfterRenderAll(objs.value, style))
  {
    if objs.None? then None else Some(AfterRenderAll(objs.value, style))
  }

  /**
    Rendering a diagram renames the methods of its tree in the Go style;
    the renamed tree renders to the same diagram, and renaming it again
    changes nothing.
  */
  lemma DiagramRenderTwice(py: Py, style: CodeStyle, kind: DiagramType, opts: map<DiagramOptName, OptValue>,
                           objs: Option<seq<Obj>>, relations: seq<Obj>)
    requires OptionalsDefined(kind, opts)
    ensures DiagramCode(py, style, kind, opts, AfterRenderObjs(objs, style), AfterRenderAll(relations, style))
         == DiagramCode(py, style, kind, opts, objs, relations)
    ensures AfterRenderObjs(AfterRenderObjs(objs, style), style) == AfterRenderObjs(objs, style)
  {
    ChildItemsAfterRender(py, relations, style);
    if objs.Some? {
      ChildItemsAfterRender(py, objs.value, style);
    }
  }

  /** A diagram never reports an error, since none of its elements does. */
  lemma DiagramNeverFails(py: Py, style: CodeStyle, kind: DiagramType, opts: map<DiagramOptName, OptValue>,
                          objs: Option<seq<Obj>>, relations: seq<Obj>)
    requires OptionalsDefined(kind, opts)
    ensures DiagramCode(py, style, kind, opts, objs, relations).errors == []
  {
    var oi, ri := ObjectItems(py, objs, style), ChildItems(py, relations, style);
    forall o | o in relations || (objs.Some? && o in objs.value) ensures Render(py, o, style).errors == [] {
      RenderNeverFails(py, o, style);
    }
    JoinFailsOnlyThroughItems(Group(oi), style);
    JoinFailsOnlyThroughItems(Group(Some(ri)), style);
  }

  /** The text of a diagram in terms of its parts. */
  lemma DiagramLayout(style: CodeStyle, kind: DiagramType, opts: map<DiagramOptName, OptValue>,
                      objs: Option<seq<Item>>, relations: seq<Item>)
    requires OptionalsDefined(kind, opts)
    ensures DiagramOut(style, kind, opts, objs, relations).text
         == Layout(Header(kind, opts), Separators(opts), Join(Group(objs), style).text,
                   Join(Group(Some(relations)), style).text, Wrapper(kind).1)
  {
  }

  /**
    A layout whose header is a first part and a new line starts with that
    part and ends with the end marker on a line of its own.
  */
  lemma LayoutFrame(t: string, start: string, seps: (string, string), objs: string, rels: string, end: string)
    requires t == Layout(start + "\n", seps, objs, rels, end)
    ensures var last := "\n" + end + "\n";
      && |start| + |last| <= |t| && start <= t && t[|t| - |last|..] == last
  {
    var last := "\n" + end + "\n";
    var middle := "\n" + "\n" + seps.0 + "\n" + objs + "\n" + seps.1 + "\n" + rels;
    assert t == start + middle + last;
    assert (start + middle + last)[|t| - |last|..] == last;
  }

  /** The layout starts with its header, and the objects separator line comes right after it. */
  lemma LayoutSeparator(header: string, seps: (string, string), objs: string, rels: string, end: string)
    ensures header + ("\n" + seps.0 + "\n") <= Layout(header, seps, objs, rels, end)
  {
    var line := "\n" + seps.0 + "\n";
    var rest := objs + "\n" + seps.1 + "\n" + rels + "\n" + end + "\n";
    assert Layout(header, seps, objs, rels, end) == header + line + rest;
  }

  /**
    Whatever the elements render to, the text opens with the start marker
    on the first line and the optionals, and closes with the end marker on
    the last line.
  */
  lemma DiagramFrame(style: CodeStyle, kind: DiagramType, opts: map<DiagramOptName, OptValue>,
                     objs: Option<seq<Item>>, relations: seq<Item>)
    requires OptionalsDefined(kind, opts)
    ensures var t := DiagramOut(style, kind, opts, objs, relations).text;
      var start := Wrapper(kind).0 + "\n" + Optionals(kind, opts);
      var end := "\n" + Wrapper(kind).1 + "\n";
      && |start| + |end| <= |t| && start <= t && t[|t| - |end|..] == end
  {
    var t := DiagramOut(style, kind, opts, objs, relations).text;
    var start := Wrapper(kind).0 + "\n" + Optionals(kind, opts);
    var o, rl := Join(Group(objs), style).text, Join(Group(Some(relations)), style).text;
    DiagramLayout(style, kind, opts, objs, relations);
    LayoutFrame(t, start, Separators(opts), o, rl, Wrapper(kind).1);
  }

  /** A text that opens with `first`, a newline and more opens with `first` and the newline. */
  lemma FirstLine(t: string, first: string, more: string)
    requires first + "\n" + more <= t
    ensures first + "\n" <= t
  {
    assert (first + "\n" + more)[..|first| + 1] == first + "\n";
  }

  /** The standard markers as lines. */
  lemma StandardLines()
    ensures StandardWrapper.0 + "\n" == "@startuml\n" && "\n" + StandardWrapper.1 + "\n" == "\n@enduml\n"
  {
  }

  /** For the standard kinds the first line is `@startuml` and the last one `@enduml`. */
  lemma StandardFrame(style: CodeStyle, kind: DiagramType, opts: map<DiagramOptName, OptValue>,
                      objs: Option<seq<Item>>, relations: seq<Item>)
    requires OptionalsDefined(kind, opts) && kind in StandardKinds
    ensures var t := DiagramOut(style, kind, opts, objs, relations).text;
      |t| >= 19 && "@startuml\n" <= t && t[|t| - 9..] == "\n@enduml\n"
  {
    var t := DiagramOut(style, kind, opts, objs, relations).text;
    var w := Wrapper(kind);
    DiagramFrame(style, kind, opts, objs, relations);
    StandardLines();
    FirstLine(t, w.0, Optionals(kind, opts));
  }

  /**
    After the header comes the objects separator line: the marker when
    `ADD_SEPARATORS` is truthy, an empty line otherwise.
  */
  lemma ObjectsSeparatorLine(style: CodeStyle, kind: DiagramType, opts: map<DiagramOptName, OptValue>,
                             objs: Option<seq<Item>>, relations: seq<Item>)
    requires OptionalsDefined(kind, opts)
    ensures var on := AddSeparators in opts && Truthy(opts[AddSeparators]);
      Header(kind, opts) + (if on then "\n" + ObjectsSeparator + "\n" else "\n\n")
        <= DiagramOut(style, kind, opts, objs, relations).text
  {
    var o, rl := Join(Group(objs), style).text, Join(Group(Some(relations)), style).text;
    DiagramLayout(style, kind, opts, objs, relations);
    LayoutSeparator(Header(kind, opts), Separators(opts), o, rl, Wrapper(kind).1);
    SeparatorLine(opts);
  }

  /** The objects separator as a line: the marker, or nothing between the two new lines. */
  lemma SeparatorLine(opts: map<DiagramOptName, OptValue>)
    ensures "\n" + Separators(opts).0 + "\n"
         == if AddSeparators in opts && Truthy(opts[AddSeparators]) then "\n" + ObjectsSeparator + "\n" else "\n\n"
  {
  }

  /**
    `Diagram`: its name, a reference to the caller's options, the element
    and relation lists, its kind and the markers chosen for that kind.
  */
  class Diagram {
    const name: Name
    const opts: Options
    var objs: Option<seq<Obj>>
    var relations: seq<Obj>
    const kind: DiagramType
    const wrapper: (string, string)
    const shapeAttrs: ShapeAttributes

    /** The markers are the ones the kind selects. */
    predicate Valid()
      reads this
    {
      wrapper == Wrapper(kind)
    }

    /**
      `Diagram.__init__`: missing options become a new empty dictionary and
      missing relations an empty list; the element list is kept as given,
      since the renderer reads it and not its defaulted copy; `ADD_SEPARATORS`
      is written into the options, which are the caller's own when given.
    */
    constructor (name: Option<string>, opts: Options?, kind: DiagramType, objs: Option<seq<Obj>>,
                 relations: Option<seq<Obj>>, shapeAttrs: Option<ShapeAttributes>)
      modifies opts
      ensures Valid()
      ensures this.name == NormalizeName(name) && this.kind == kind && this.objs == objs
      ensures this.relations == (if relations.None? then [] else relations.value)
      ensures this.shapeAttrs == NormalizeAttrs(shapeAttrs)
      ensures opts != null ==> this.opts == opts && opts.values == WithSeparators(old(opts.values))
      ensures opts == null ==> fresh(this.opts) && this.opts.values == WithSeparators(map[])
    {
      var o := opts;
      if o == null {
        o := new Options(map[]);
      }
      this.name := NormalizeName(name);
      this.opts := o;
      this.objs := objs;
      this.relations := if relations.None? then [] else relations.value;
      this.kind := kind;
      this.wrapper := Wrapper(kind);
      this.shapeAttrs := NormalizeAttrs(shapeAttrs);
      new;
      if AddSeparators !in o.values && DefaultAddSeparators {
        o.values := o.values[AddSeparators := Bool(true)];
      }
    }

    /** `_generate_header`. */
    method GenerateHeader() returns (header: string)
      requires Valid() && OptionalsDefined(kind, opts.values)
      ensures header == Header(kind, opts.values)
    {
      var optionals := GenerateOptionals(kind, opts.values);
      header := wrapper.0 + "\n" + optionals + "\n";
    }

    /**
      `Diagram.gen_code`: raises the context's indent level by one and
      renders the diagram in the context's style. Rendering leaves every
      element as its own rendering does: in the Go style each method of the
      tree is renamed, and the renamed tree renders to the same text.
    */
    method GenCode(py: Py, ctx: Context) returns (r: Out)
      requires Valid() && OptionalsDefined(kind, opts.values)
      modifies ctx`indentLevel, this`objs, this`relations
      ensures ctx.indentLevel == old(ctx.indentLevel) + 1
      ensures r == DiagramCode(py, ctx.codeStyle, kind, opts.values, old(objs), old(relations))
      ensures objs == AfterRenderObjs(old(objs), ctx.codeStyle) && relations == AfterRenderAll(old(relations), ctx.codeStyle)
      ensures r == DiagramCode(py, ctx.codeStyle, kind, opts.values, objs, relations)
    {
      var level := ctx.IncreaseIndentLevel();
      var style := ctx.codeStyle;
      r := GenText(py, style);
      DiagramRenderTwice(py, style, kind, opts.values, objs, relations);
      objs, relations := AfterRenderObjs(objs, style), AfterRenderAll(relations, style);
    }

    /** The body of `Diagram.gen_code`: both joins, the header, the separators and the layout. */
    method GenText(py: Py, style: CodeStyle) returns (r: Out)
      requires Valid() && OptionalsDefined(kind, opts.values)
      ensures r == DiagramCode(py, style, kind, opts.values, objs, relations)
    {
      var groups := [("objs", Group(ObjectItems(py, objs, style))), ("relations", Group(Some(ChildItems(py, relations, style))))];
      var d, err := JoinGroups(groups, style);
      assert d["objs"] == Join(groups[0].1, style).text && d["relations"] == Join(groups[1].1, style).text;
      GroupErrorsPair(groups[0], groups[1], style);
      var header := GenerateHeader();
      var objSep, relSep := "", "";
      if AddSeparators in opts.values && Truthy(opts.values[AddSeparators]) {
        objSep := ObjectsSeparator;
        relSep := RelationSeparator;
      }
      r := Out(header + "\n" + objSep + "\n" + d["objs"] + "\n" + relSep + "\n" + d["relations"] + "\n"
               + wrapper.1 + "\n", err);
      assert r.text == Layout(header, Separators(opts.values), d["objs"], d["relations"], wrapper.1);
    }
  }
}
