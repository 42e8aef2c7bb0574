/**
  `Variable`: a parameter or variable declaration, rendered as
  `<modifiers> <type> <name>` (C), `<snake_name>: <type>` (Python) or
  `<name> <type>` (Go).
*/
module Variables {
  import opened PyText
  import opened UmlCode
  import opened CodeGen
  import UmlObject

  datatype Variable = Variable(name: Name, typ: string, modifiers: seq<string>)

  /** `Variable.__init__`: the name is normalised and missing modifiers become the empty list. */
  function NewVariable(name: Option<string>, typ: string, modifiers: Option<seq<string>>): (r: Variable)
    ensures r.name == UmlObject.NormalizeName(name) && r.typ == typ
    ensures r.modifiers == if modifiers.None? then [] else modifiers.value
  {
    Variable(UmlObject.NormalizeName(name), typ, if modifiers.None? then [] else modifiers.value)
  }

  /** Every modifier followed by one space. */
  function ModifierPrefix(mods: seq<string>): string
  {
    if mods == [] then "" else ModifierPrefix(mods[..|mods| - 1]) + mods[|mods| - 1] + " "
  }

  /** The C-style modifier loop of `gen_code_c_style`. */
  method CModifiers(mods: seq<string>) returns (s: string)
    ensures s == ModifierPrefix(mods)
  {
    s := "";
    for i := 0 to |mods|
      invariant s == ModifierPrefix(mods[..i])
    {
      assert mods[..i + 1][..i] == mods[..i];
      s := s + mods[i] + " ";
    }
    assert mods[..|mods|] == mods;
  }

  /** The modifier prefix followed by a word is the space-join of the modifiers and that word. */
  lemma {:induction false} ModifierPrefixJoin(mods: seq<string>, x: string)
    ensures ModifierPrefix(mods) + x == StdJoin(mods + [x], " ")
  {
    if mods == [] {
      assert mods + [x] == [x];
    } else {
      var init, last := mods[..|mods| - 1], mods[|mods| - 1];
      ModifierPrefixJoin(init, last);
      assert init + [last] == mods;
      StdJoinAppend(mods, x, " ");
    }
  }

  /** `Variable.gen_code`: the per-style renderers; none of them ever reports an error. */
  function VariableCode(py: Py, v: Variable, style: CodeStyle): (r: Out)
    ensures r.errors == []
  {
    match style
    case C => Out(ModifierPrefix(v.modifiers) + TypeNormalization(v.typ, C) + " " + v.name, [])
    case Python => Out(py.snakecase(v.name) + ": " + TypeNormalization(v.typ, Python), [])
    case Golang => Out(v.name + " " + TypeNormalization(v.typ, Golang), [])
  }

  /** `gen_code_c_style`, with its loop. */
  method GenCodeC(py: Py, v: Variable) returns (r: Out)
    ensures r == VariableCode(py, v, C)
  {
    var modifiers := CModifiers(v.modifiers);
    r := Out(modifiers + TypeNormalization(v.typ, C) + " " + v.name, []);
  }

  /** Only the C style shows the modifiers. */
  lemma ModifiersOnlyInC(py: Py, v: Variable, mods: seq<string>)
    ensures VariableCode(py, v.(modifiers := mods), Python) == VariableCode(py, v, Python)
    ensures VariableCode(py, v.(modifiers := mods), Golang) == VariableCode(py, v, Golang)
  {
  }

  /**
    A C-style declaration whose words hold no space splits back into the
    modifiers, the type and the name.
  */
  lemma CDeclarationSplits(py: Py, v: Variable)
    requires forall i :: 0 <= i < |v.modifiers| ==> ' ' !in v.modifiers[i]
    requires ' ' !in v.typ && ' ' !in v.name
    ensures Split(VariableCode(py, v, C).text, ' ') == v.modifiers + [v.typ, v.name]
  {
    var words := v.modifiers + [v.typ];
    ModifierPrefixJoin(v.modifiers, v.typ);
    StdJoinAppend(words, v.name, " ");
    assert words + [v.name] == v.modifiers + [v.typ, v.name];
    SplitStdJoin(v.modifiers + [v.typ, v.name], ' ');
  }

  /** A Go-style declaration whose name holds no space splits back into the name and the Go type. */
  lemma GoDeclarationSplits(py: Py, v: Variable)
    requires ' ' !in v.name && ' ' !in TypeNormalization(v.typ, Golang)
    ensures Split(VariableCode(py, v, Golang).text, ' ') == [v.name, TypeNormalization(v.typ, Golang)]
  {
    var parts: seq<string> := [v.name, TypeNormalization(v.typ, Golang)];
    assert StdJoin(parts, " ") == v.name + " " + TypeNormalization(v.typ, Golang);
    SplitStdJoin(parts, ' ');
  }

  /**
    A Python-style declaration splits at its colon into the snake-case name
    and the Python type after one space.
  */
  lemma PythonDeclarationSplits(py: Py, v: Variable)
    requires ':' !in py.snakecase(v.name) && ':' !in TypeNormalization(v.typ, Python)
    ensures Split(VariableCode(py, v, Python).text, ':') == [py.snakecase(v.name), " " + TypeNormalization(v.typ, Python)]
  {
    var parts := [py.snakecase(v.name), " " + TypeNormalization(v.typ, Python)];
    assert ':' !in parts[1];
    assert StdJoin(parts, ":") == py.snakecase(v.name) + ": " + TypeNormalization(v.typ, Python);
    SplitStdJoin(parts, ':');
  }

  const PublicConstString: Variable := Variable("a", "String", ["public", "static", "const"])
  const PrivateObject: Variable := Variable("customObject", "CustomClass", ["private"])

  /** One more modifier adds itself and a space to the prefix. */
  lemma ModifierPrefixSnoc(init: seq<string>, last: string)
    ensures ModifierPrefix(init + [last]) == ModifierPrefix(init) + last + " "
  {
    assert (init + [last])[..|init|] == init;
  }

  /** The modifier prefix of the public static constant. */
  lemma PublicStaticConstPrefix()
    ensures ModifierPrefix(PublicConstString.modifiers) == "public static const "
  {
    ModifierPrefixSnoc([], "public");
    assert [] + ["public"] == ["public"];
    ModifierPrefixSnoc(["public"], "static");
    assert ["public"] + ["static"] == ["public", "static"];
    ModifierPrefixSnoc(["public", "static"], "const");
    assert ["public", "static"] + ["const"] == PublicConstString.modifiers;
  }

  /** The modifier prefix of the private field. */
  lemma PrivatePrefix()
    ensures ModifierPrefix(PrivateObject.modifiers) == "private "
  {
    ModifierPrefixSnoc([], "private");
    assert [] + ["private"] == PrivateObject.modifiers;
  }

  /** The expected private declaration, piece by piece. */
  lemma PrivateDeclaration()
    ensures "private " + "CustomClass" + " " + "customObject" == "private CustomClass customObject"
  {
  }

  /** The C declaration the repository's own tests expect of a public static constant. */
  lemma CExamplePublic(py: Py)
    ensures VariableCode(py, PublicConstString, C).text == "public static const String a"
  {
    PublicStaticConstPrefix();
    assert VariableCode(py, PublicConstString, C).text == "public static const " + "String" + " " + "a";
  }

  /** The C declaration the repository's own tests expect of a private field. */
  lemma CExamplePrivate(py: Py)
    ensures VariableCode(py, PrivateObject, C).text == "private CustomClass customObject"
  {
    PrivatePrefix();
    assert VariableCode(py, PrivateObject, C).text == "private " + "CustomClass" + " " + "customObject";
    PrivateDeclaration();
  }

  /** The Python declarations the repository's own tests expect. */
  lemma PythonExamples(py: Py)
    requires py.snakecase("a") == "a" && py.snakecase("customObject") == "custom_object"
    ensures VariableCode(py, PublicConstString, Python).text == "a: str"
    ensures VariableCode(py, PrivateObject, Python).text == "custom_object: CustomClass"
  {
    assert Lower("String") == "string";
    assert |Lower("CustomClass")| == 11;
  }

  /** The Go declarations the repository's own tests expect. */
  lemma GoExamples(py: Py)
    ensures VariableCode(py, PublicConstString, Golang).text == "a string"
    ensures VariableCode(py, PrivateObject, Golang).text == "customObject CustomClass"
  {
    assert "CustomClass" !in GolangPrimitives;
  }
}
