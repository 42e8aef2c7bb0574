/**
  `Method`: a method or function signature with modifiers, return types and
  arguments. The Go renderer renames the method in place: the first letter
  is upper-cased, and lower-cased again for a hidden (private or protected)
  method.
*/
module Methods {
  import opened PyText
  import opened UmlCode
  import opened CodeGen
  import opened Joiner
  import opened Variables
  import UmlObject

  datatype Method = Method(name: Name, returnTypes: seq<string>, args: seq<Variable>, modifiers: seq<string>)

  /** `Method.__init__`: the name is normalised and missing modifiers become the empty list. */
  function NewMethod(name: Option<string>, returnTypes: seq<string>, args: seq<Variable>,
                     modifiers: Option<seq<string>>): (r: Method)
    ensures r.name == UmlObject.NormalizeName(name)
    ensures r.returnTypes == returnTypes && r.args == args
    ensures r.modifiers == if modifiers.None? then [] else modifiers.value
  {
    Method(UmlObject.NormalizeName(name), returnTypes, args, if modifiers.None? then [] else modifiers.value)
  }

  const DefaultArgsBounds: (string, string) := ("(", ")")

  /** Strings handed to the joiner: `DataType` is `str`, so each is spelt as a type token. */
  function Tokens(ts: seq<string>): (r: seq<Item>)
    ensures |r| == |ts| && forall i :: 0 <= i < |ts| ==> r[i] == Token(ts[i])
  {
    seq(|ts|, i requires 0 <= i < |ts| => Token(ts[i]))
  }

  /** Variables as join items, each rendered in the join's style: a method's arguments, a class's attributes. */
  function RenderedArgs(py: Py, args: seq<Variable>, style: CodeStyle): (r: seq<Item>)
    ensures |r| == |args| && forall i :: 0 <= i < |args| ==> r[i] == Generated(VariableCode(py, args[i], style))
  {
    seq(|args|, i requires 0 <= i < |args| => Generated(VariableCode(py, args[i], style)))
  }

  /** The modifiers, joined by single spaces. */
  function ModifiersItem(m: Method): JoinItem
  {
    JoinItem(Some(Tokens(m.modifiers)), " ", ("", ""), Some(""))
  }

  /** The return types, joined by commas inside the return bounds. */
  function ReturnsItem(m: Method, retBounds: Option<(string, string)>): JoinItem
  {
    JoinItem(Some(Tokens(m.returnTypes)), ",", if retBounds.None? then ("", "") else retBounds.value, Some(""))
  }

  /** The arguments, joined by `, ` inside parentheses; `()` when there are none. */
  function ArgsItem(py: Py, m: Method, style: CodeStyle): JoinItem
  {
    JoinItem(Some(RenderedArgs(py, m.args, style)), ", ", DefaultArgsBounds, Some("()"))
  }

  /** The three joins of `gen_code_all_style`, in dictionary order. */
  function PartItems(py: Py, m: Method, style: CodeStyle, retBounds: Option<(string, string)>): seq<(string, JoinItem)>
  {
    [("modifiers", ModifiersItem(m)), ("returns", ReturnsItem(m, retBounds)), ("args", ArgsItem(py, m, style))]
  }

  /** The three joins of a signature report no error. */
  lemma PartItemsNoErrors(py: Py, m: Method, style: CodeStyle, retBounds: Option<(string, string)>)
    ensures GroupErrors(PartItems(py, m, style, retBounds), style) == []
  {
    var items := PartItems(py, m, style, retBounds);
    JoinFailsOnlyThroughItems(ModifiersItem(m), style);
    JoinFailsOnlyThroughItems(ReturnsItem(m, retBounds), style);
    JoinFailsOnlyThroughItems(ArgsItem(py, m, style), style);
    assert items[..1][..0] == [] && items[..2][..1] == items[..1] && items[..|items| - 1] == items[..2];
    assert GroupErrors(items[..1], style) == Join(items[0].1, style).errors;
    assert GroupErrors(items[..2], style) == GroupErrors(items[..1], style) + Join(items[1].1, style).errors;
    assert GroupErrors(items, style) == GroupErrors(items[..2], style) + Join(items[2].1, style).errors;
  }

  datatype Parts = Parts(modifiers: string, rets: string, args: string, errors: seq<Error>)

  /**
    `Method.gen_code_all_style`: the three joins, with the errors of all
    three in dictionary order; no part can fail.
  */
  function MethodParts(py: Py, m: Method, style: CodeStyle, retBounds: Option<(string, string)>): (r: Parts)
    ensures r.errors == []
    ensures m.modifiers == [] ==> r.modifiers == ""
    ensures m.returnTypes == [] ==> r.rets == ""
    ensures m.args == [] ==> r.args == "()"
  {
    var mods, rets, args := Join(ModifiersItem(m), style), Join(ReturnsItem(m, retBounds), style), Join(ArgsItem(py, m, style), style);
    JoinFailsOnlyThroughItems(ModifiersItem(m), style);
    JoinFailsOnlyThroughItems(ReturnsItem(m, retBounds), style);
    JoinFailsOnlyThroughItems(ArgsItem(py, m, style), style);
    Parts(mods.text, rets.text, args.text, mods.errors + rets.errors + args.errors)
  }

  /** `s.replace("(", "").replace(")", "")`. */
  function NoParens(s: string): (r: string)
    ensures '(' !in r && ')' !in r
  {
    ReplaceCharAddsNothing(ReplaceChar(s, '(', ""), ')', "", '(');
    ReplaceChar(ReplaceChar(s, '(', ""), ')', "")
  }

  /** Dropping the parentheses of a parenthesised word gives the word back. */
  lemma NoParensUnwraps(w: string)
    requires '(' !in w && ')' !in w
    ensures NoParens("(" + w + ")") == w
  {
    assert ReplaceChar("(" + w + ")", '(', "") == w + ")" by {
      assert "(" + w + ")" == "(" + (w + ")");
      ReplaceCharConcat("(", w + ")", '(', "");
    }
    assert ReplaceChar(w + ")", ')', "") == w by {
      ReplaceCharConcat(w, ")", ')', "");
    }
  }

  /** The Python return annotation as written: the arrow is added even when there is nothing after it. */
  function PythonReturnBodyAsWritten(rets: string, count: nat): string
  {
    var body := " -> " + (if rets == "void" then "None" else rets);
    if count == 1 then NoParens(body) else body
  }

  /** The Python return annotation: none for an empty return list, `None` for `void`. */
  function PythonReturnBody(rets: string, count: nat): (r: string)
    ensures rets == "" <==> r == ""
    ensures rets == "void" ==> r == " -> None"
  {
    var body := if rets == "" then "" else " -> " + (if rets == "void" then "None" else rets);
    if count == 1 then NoParens(body) else body
  }

  /** `name[0].upper() + name[1:]`. */
  function UpperFirst(name: Name): (r: Name)
    ensures |r| == |name| && r[0] == UpperChar(name[0]) && r[1..] == name[1..]
  {
    [UpperChar(name[0])] + name[1..]
  }

  /** `name[0].lower() + name[1:]`. */
  function LowerFirst(name: Name): (r: Name)
    ensures |r| == |name| && r[0] == LowerChar(name[0]) && r[1..] == name[1..]
  {
    [LowerChar(name[0])] + name[1..]
  }

  /** The access modifiers that keep a Go method unexported. */
  predicate Hides(mod: string)
  {
    mod == "private" || mod == "protected"
  }

  predicate Hidden(mods: seq<string>)
  {
    exists i :: 0 <= i < |mods| && Hides(mods[i])
  }

  /** One more modifier hides the method exactly when it hides or an earlier one did. */
  lemma HiddenSnoc(mods: seq<string>, i: nat)
    requires i < |mods|
    ensures Hidden(mods[..i + 1]) <==> Hidden(mods[..i]) || Hides(mods[i])
  {
    var p, q := mods[..i + 1], mods[..i];
    assert p[i] == mods[i];
    if Hidden(p) {
      var j :| 0 <= j < |p| && Hides(p[j]);
      if j < i {
        assert q[j] == p[j];
      }
    }
    if Hidden(q) {
      var j :| 0 <= j < |q| && Hides(q[j]);
      assert p[j] == q[j];
    }
  }

  /** The Go method name: exported unless a modifier hides it. */
  function GoName(name: Name, mods: seq<string>): Name
  {
    if Hidden(mods) then LowerFirst(UpperFirst(name)) else UpperFirst(name)
  }

  /** The Go method name as written: only `private` hides, `protected` is compared against the enum member itself. */
  function GoNameAsWritten(name: Name, mods: seq<string>): Name
  {
    if "private" in mods then LowerFirst(UpperFirst(name)) else UpperFirst(name)
  }

  /**
    The Go name keeps everything after the first character, and an initial
    ASCII letter ends up upper-case exactly when no modifier hides the method.
  */
  lemma GoNameVisibility(name: Name, mods: seq<string>)
    ensures |GoName(name, mods)| == |name| && GoName(name, mods)[1..] == name[1..]
    ensures UmlObject.IsAToZ(name[0]) ==> ('A' <= GoName(name, mods)[0] <= 'Z' <==> !Hidden(mods))
  {
  }

  /** Renaming an already renamed method changes nothing. */
  lemma GoNameIdempotent(name: Name, mods: seq<string>)
    ensures GoName(GoName(name, mods), mods) == GoName(name, mods)
  {
  }

  /** `Method.gen_code`: the signature in each style. */
  function MethodCode(py: Py, m: Method, style: CodeStyle): (r: Out)
    ensures r.errors == []
  {
    match style
    case C =>
      var p := MethodParts(py, m, C, None);
      Out(p.modifiers + " " + p.rets + " " + m.name + p.args, p.errors)
    case Python =>
      var p := MethodParts(py, m, Python, None);
      Out("def " + m.name + p.args + PythonReturnBody(p.rets, |m.returnTypes|) + ":", p.errors)
    case Golang =>
      var p := MethodParts(py, m, Golang, Some(("(", ")")));
      var rets := if |m.returnTypes| == 1 then NoParens(p.rets) else p.rets;
      Out("func " + GoName(m.name, m.modifiers) + p.args + " " + rets, p.errors)
  }

  /** `gen_code_python_style` as written, with the arrow that is never left out. */
  function PythonCodeAsWritten(py: Py, m: Method): string
  {
    var p := MethodParts(py, m, Python, None);
    "def " + m.name + p.args + PythonReturnBodyAsWritten(p.rets, |m.returnTypes|) + ":"
  }

  /** The method as it is after one rendering: only the Go renderer renames it. */
  function AfterRender(m: Method, style: CodeStyle): (r: Method)
    ensures r.returnTypes == m.returnTypes && r.args == m.args && r.modifiers == m.modifiers
    ensures style != Golang ==> r == m
  {
    if style == Golang then m.(name := GoName(m.name, m.modifiers)) else m
  }

  /** Rendering a second time gives the same signature and leaves the name where the first rendering put it. */
  lemma RenderTwice(py: Py, m: Method, style: CodeStyle)
    ensures MethodCode(py, AfterRender(m, style), style) == MethodCode(py, m, style)
    ensures AfterRender(AfterRender(m, style), style) == AfterRender(m, style)
  {
    if style == Golang {
      GoNameIdempotent(m.name, m.modifiers);
      assert MethodParts(py, AfterRender(m, style), style, Some(("(", ")"))) == MethodParts(py, m, style, Some(("(", ")")));
    }
  }

  /** Removing the parentheses keeps a leading arrow. */
  lemma NoParensKeepsArrow(x: string)
    ensures " -> " <= NoParens(" -> " + x)
  {
    var arrow, x1 := " -> ", ReplaceChar(x, '(', "");
    assert arrow == [' ', '-', '>', ' '];
    assert '(' !in arrow && ')' !in arrow;
    ReplaceCharConcat(arrow, x, '(', "");
    ReplaceCharConcat(arrow, x1, ')', "");
    assert NoParens(arrow + x) == arrow + ReplaceChar(x1, ')', "");
  }

  /**
    A Python signature is `def`, the name and the arguments, then `:` right
    away when no return text was joined (in particular with no return
    types), and ` -> ` and the annotation otherwise.
  */
  lemma PythonArrow(py: Py, m: Method)
    ensures var p := MethodParts(py, m, Python, None);
      var head := "def " + m.name + p.args;
      var t := MethodCode(py, m, Python).text;
      && (p.rets == "" ==> t == head + ":")
      && (m.returnTypes == [] ==> t == head + ":")
      && (p.rets != "" ==> head + " -> " <= t && t[|t| - 1] == ':')
  {
    var p := MethodParts(py, m, Python, None);
    var head := "def " + m.name + p.args;
    var body := PythonReturnBody(p.rets, |m.returnTypes|);
    assert MethodCode(py, m, Python).text == head + body + ":";
    if p.rets != "" {
      var full := " -> " + (if p.rets == "void" then "None" else p.rets);
      assert " -> " <= body by {
        if |m.returnTypes| == 1 {
          NoParensKeepsArrow(if p.rets == "void" then "None" else p.rets);
        } else {
          assert body == full;
        }
      }
      ArrowAfterHead(head, body);
    }
  }

  /** A text that starts with ` -> ` placed after a head and before `:`. */
  lemma ArrowAfterHead(head: string, body: string)
    requires " -> " <= body
    ensures head + " -> " <= head + body + ":" && (head + body + ":")[|head + body + ":"| - 1] == ':'
  {
    assert (head + body + ":")[..|head| + 4] == head + body[..4];
  }

  const ConstString: Variable := Variable("a", "String", ["const"])
  const PlainInt: Variable := Variable("b", "int", [])
  const Func1: Method := Method("func1", ["String"], [ConstString, PlainInt], ["public", "static"])

  /** The modifiers of `func1`, in the C style, the only one that shows them. */
  lemma Func1Modifiers()
    ensures Join(ModifiersItem(Func1), C).text == "public static"
  {
    assert Tokens(Func1.modifiers) == [Token("public"), Token("static")];
    JoinPair(Token("public"), Token("static"), " ", ("", ""), Some(""), C);
  }

  /** The spellings `func1`'s two types take in the Python and Go styles. */
  lemma Func1Types()
    ensures TypeNormalization("String", Python) == "str" && TypeNormalization("int", Python) == "int"
    ensures TypeNormalization("String", Golang) == "string" && TypeNormalization("int", Golang) == "int"
  {
    assert Lower("String") == "string";
    assert Lower("int") == "int";
  }

  /** `func1` carries no hiding modifier, so its Go name is capitalised. */
  lemma Func1GoName()
    ensures GoName(Func1.name, Func1.modifiers) == "Func1"
  {
    assert !Hides(Func1.modifiers[0]) && !Hides(Func1.modifiers[1]);
    assert !Hidden(Func1.modifiers);
    assert UpperChar('f') == 'F';
  }

  /** The single return type of `func1`, type-normalised inside the given bounds. */
  lemma Func1Returns(style: CodeStyle, bounds: (string, string))
    ensures Join(ReturnsItem(Func1, Some(bounds)), style).text == bounds.0 + TypeNormalization("String", style) + bounds.1
    ensures Join(ReturnsItem(Func1, None), style).text == TypeNormalization("String", style)
  {
    assert Tokens(Func1.returnTypes) == [Token("String")];
    JoinSingle(Token("String"), ",", bounds, Some(""), style);
    JoinSingle(Token("String"), ",", ("", ""), Some(""), style);
  }

  /** The two arguments of `func1`, rendered in the style. */
  lemma Func1Args(py: Py, style: CodeStyle)
    ensures Join(ArgsItem(py, Func1, style), style).text
         == "(" + VariableCode(py, ConstString, style).text + ", " + VariableCode(py, PlainInt, style).text + ")"
  {
    var a, b := Generated(VariableCode(py, ConstString, style)), Generated(VariableCode(py, PlainInt, style));
    assert RenderedArgs(py, Func1.args, style) == [a, b];
    JoinPair(a, b, ", ", DefaultArgsBounds, Some("()"), style);
  }

  /** The C signature of `func1` the repository's own tests expect. */
  lemma Func1CExample(py: Py)
    ensures MethodCode(py, Func1, C).text == "public static String func1(const String a, int b)"
  {
    Func1Modifiers();
    Func1Returns(C, ("", ""));
    Func1Args(py, C);
    assert ModifierPrefix(["const"]) == "const " by {
      ModifierPrefixSnoc([], "const");
      assert [] + ["const"] == ["const"];
    }
    assert VariableCode(py, ConstString, C).text == "const String a";
    assert VariableCode(py, PlainInt, C).text == "int b";
    Func1CText();
  }

  lemma Func1CText()
    ensures "public static" + " " + "String" + " " + "func1" + ("(" + "const String a" + ", " + "int b" + ")")
         == "public static String func1(const String a, int b)"
  {
    Func1CHead();
    Func1CArgs();
  }

  lemma Func1CHead()
    ensures "public static" + " " + "String" + " " + "func1" == "public static String func1"
  {
  }

  lemma Func1CArgs()
    ensures "(" + "const String a" + ", " + "int b" + ")" == "(const String a, int b)"
  {
  }

  /** The Go signature of `func1` the repository's own tests expect. */
  lemma Func1GoExample(py: Py)
    ensures MethodCode(py, Func1, Golang).text == "func Func1(a string, b int) string"
  {
    Func1GoReturns();
    Func1Args(py, Golang);
    Func1GoVariables(py);
    Func1GoName();
    var p := MethodParts(py, Func1, Golang, Some(("(", ")")));
    assert p.args == "(" + "a string" + ", " + "b int" + ")";
    Func1GoText();
  }

  /** The single Go return type of `func1`, with its parentheses dropped. */
  lemma Func1GoReturns()
    ensures NoParens(Join(ReturnsItem(Func1, Some(("(", ")"))), Golang).text) == "string"
  {
    Func1GoBoundedReturns();
    NoParensString();
  }

  lemma Func1GoBoundedReturns()
    ensures Join(ReturnsItem(Func1, Some(("(", ")"))), Golang).text == "(" + "string" + ")"
  {
    Func1Returns(Golang, ("(", ")"));
    Func1Types();
  }

  lemma NoParensString()
    ensures NoParens("(" + "string" + ")") == "string"
  {
    assert "string" == ['s', 't', 'r', 'i', 'n', 'g'];
    assert '(' !in "string" && ')' !in "string";
    NoParensUnwraps("string");
  }

  lemma Func1GoVariables(py: Py)
    ensures VariableCode(py, ConstString, Golang).text == "a string"
    ensures VariableCode(py, PlainInt, Golang).text == "b int"
  {
    Func1Types();
  }

  lemma Func1PythonVariables(py: Py)
    requires py.snakecase("a") == "a" && py.snakecase("b") == "b"
    ensures VariableCode(py, ConstString, Python).text == "a: str"
    ensures VariableCode(py, PlainInt, Python).text == "b: int"
  {
    Func1Types();
  }

  lemma Func1GoText()
    ensures "func " + "Func1" + ("(" + "a string" + ", " + "b int" + ")") + " " + "string"
         == "func Func1(a string, b int) string"
  {
  }

  /** The Python signature of `func1` the repository's own tests expect. */
  lemma Func1PythonExample(py: Py)
    requires py.snakecase("a") == "a" && py.snakecase("b") == "b"
    ensures MethodCode(py, Func1, Python).text == "def func1(a: str, b: int) -> str:"
  {
    Func1Returns(Python, ("", ""));
    Func1Args(py, Python);
    Func1Types();
    Func1PythonVariables(py);
    var p := MethodParts(py, Func1, Python, None);
    assert p.rets == "str";
    assert p.args == "(" + "a: str" + ", " + "b: int" + ")";
    Func1PythonArrow();
    Func1PythonText();
  }

  lemma Func1PythonArrow()
    ensures PythonReturnBody("str", 1) == " -> str"
  {
    assert |"str"| == 3 && |"void"| == 4;
    assert " -> " + "str" == " -> str";
    NoParensStr();
  }

  lemma NoParensStr()
    ensures NoParens(" -> str") == " -> str"
  {
    var w := " -> str";
    assert w == [' ', '-', '>', ' ', 's', 't', 'r'];
    assert '(' !in w && ')' !in w;
  }

  lemma Func1PythonText()
    ensures "def " + "func1" + ("(" + "a: str" + ", " + "b: int" + ")") + " -> str" + ":"
         == "def func1(a: str, b: int) -> str:"
  {
  }

  /** A method whose state the Go renderer updates in place. */
  class MethodRef {
    var name: Name
    const returnTypes: seq<string>
    const args: seq<Variable>
    const modifiers: seq<string>

    constructor (m: Method)
      ensures Value() == m
    {
      name := m.name;
      returnTypes := m.returnTypes;
      args := m.args;
      modifiers := m.modifiers;
    }

    /** The method this object currently describes. */
    function Value(): Method
      reads this
    {
      Method(name, returnTypes, args, modifiers)
    }

    /** The Go renaming loop: upper-case the first letter, then lower-case it for every hiding modifier. */
    method RenameForGo()
      modifies this`name
      ensures name == GoName(old(name), modifiers)
    {
      var n0 := name;
      name := UpperFirst(name);
      for i := 0 to |modifiers|
        invariant name == if Hidden(modifiers[..i]) then LowerFirst(UpperFirst(n0)) else UpperFirst(n0)
      {
        HiddenSnoc(modifiers, i);
        if Hides(modifiers[i]) {
          name := LowerFirst(name);
        }
      }
      assert modifiers[..|modifiers|] == modifiers;
    }

    /**
      `Method.gen_code`: renders the signature through the three named
      joins; in the Go style the stored name is renamed first.
    */
    method GenCode(py: Py, ctx: Context) returns (r: Out)
      modifies this`name
      ensures r == MethodCode(py, old(Value()), ctx.codeStyle)
      ensures Value() == AfterRender(old(Value()), ctx.codeStyle)
    {
      var style := ctx.codeStyle;
      var m := Value();
      var items := PartItems(py, m, style, if style == Golang then Some(("(", ")")) else None);
      var d, errs := JoinGroups(items, style);
      assert items[0].0 == "modifiers" && items[1].0 == "returns" && items[2].0 == "args";
      PartItemsNoErrors(py, m, style, if style == Golang then Some(("(", ")")) else None);
      var p := MethodParts(py, m, style, if style == Golang then Some(("(", ")")) else None);
      assert d["modifiers"] == p.modifiers && d["returns"] == p.rets && d["args"] == p.args;
      match style {
        case C =>
          r := Out(d["modifiers"] + " " + d["returns"] + " " + name + d["args"], errs);
        case Python =>
          r := Out("def " + name + d["args"] + PythonReturnBody(d["returns"], |returnTypes|) + ":", errs);
        case Golang =>
          var rets := if |returnTypes| == 1 then NoParens(d["returns"]) else d["returns"];
          RenameForGo();
          r := Out("func " + name + d["args"] + " " + rets, errs);
      }
    }
  }

  const Func2: Method := Method("func2", [], [], [])
  const Func3: Method := Method("func3", [], [], ["private"])

  /** The Go signature the repository's own tests expect of a public method without arguments or results. */
  lemma GoExampleExported(py: Py)
    ensures MethodCode(py, Func2, Golang).text == "func Func2() "
  {
    assert MethodParts(py, Func2, Golang, Some(("(", ")"))) == Parts("", "", "()", []);
    assert GoName(Func2.name, []) == "Func2";
  }

  /** The Go signature the repository's own tests expect of a private method without arguments or results. */
  lemma GoExampleHidden(py: Py)
    ensures MethodCode(py, Func3, Golang).text == "func func3() "
  {
    assert GoName(Func3.name, Func3.modifiers) == "func3" by {
      assert Hides(Func3.modifiers[0]);
    }
    assert MethodParts(py, Func3, Golang, Some(("(", ")"))).rets == "";
    assert MethodParts(py, Func3, Golang, Some(("(", ")"))).args == "()";
  }

  /** A Go method with one return type shows that type bare, after the argument list and a space. */
  lemma GoSingleReturn(py: Py, m: Method)
    requires |m.returnTypes| == 1
    requires '(' !in TypeNormalization(m.returnTypes[0], Golang) && ')' !in TypeNormalization(m.returnTypes[0], Golang)
    ensures MethodCode(py, m, Golang).text
         == "func " + GoName(m.name, m.modifiers) + MethodParts(py, m, Golang, Some(("(", ")"))).args
            + " " + TypeNormalization(m.returnTypes[0], Golang)
  {
    var t := TypeNormalization(m.returnTypes[0], Golang);
    assert Join(ReturnsItem(m, Some(("(", ")"))), Golang).text == "(" + t + ")" by {
      assert Tokens(m.returnTypes) == [Token(m.returnTypes[0])];
      JoinSingle(Token(m.returnTypes[0]), ",", ("(", ")"), Some(""), Golang);
    }
    NoParensUnwraps(t);
  }

  /** As written, a protected method is still exported in the Go style. */
  lemma ProtectedStaysExported()
    ensures GoNameAsWritten("run", ["protected"]) == "Run"
    ensures GoName("run", ["protected"]) == "run"
  {
    assert Hides(["protected"][0]);
  }

  /** As written, a Python method without return types gets an arrow with nothing after it. */
  lemma EmptyReturnArrow(py: Py)
    ensures PythonCodeAsWritten(py, Func2) == "def func2() -> :"
    ensures MethodCode(py, Func2, Python).text == "def func2():"
  {
  }
}
