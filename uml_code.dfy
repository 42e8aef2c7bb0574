/**
  The code styles and the per-style spelling of the common primitive data
  types (`CodeStyleChanger.type_normalization`).
*/
module UmlCode {
  import opened PyText

  datatype CodeStyle = C | Python | Golang

  /** Keys are compared after lower-casing the token: the Python style ignores case. */
  const PythonPrimitives: map<string, string> :=
    map["string" := "str", "integer" := "int", "double" := "float", "boolean" := "bool"]

  /** Keys are compared as written: the Go style is case-sensitive. */
  const GolangPrimitives: map<string, string> :=
    map["String" := "string", "Integer" := "int", "Double" := "float", "Boolean" := "bool", "boolean" := "bool"]

  function PythonType(t: string): string
  {
    if Lower(t) in PythonPrimitives then PythonPrimitives[Lower(t)] else t
  }

  function GolangType(t: string): string
  {
    if t in GolangPrimitives then GolangPrimitives[t] else t
  }

  /** The spellings a style can give a mapped token. */
  function Spellings(style: CodeStyle): set<string>
  {
    match style
    case C => {}
    case Python => PythonPrimitives.Values
    case Golang => GolangPrimitives.Values
  }

  /** Whether the style's table maps `t`. */
  predicate Mapped(t: string, style: CodeStyle)
  {
    match style
    case C => false
    case Python => Lower(t) in PythonPrimitives
    case Golang => t in GolangPrimitives
  }

  /** `CodeStyleChanger.type_normalization`: the C style has no table, so it is the identity. */
  function TypeNormalization(t: string, style: CodeStyle): (r: string)
    ensures style == C ==> r == t
    ensures !Mapped(t, style) ==> r == t
    ensures Mapped(t, style) ==> r in Spellings(style)
  {
    match style
    case C => t
    case Python => PythonType(t)
    case Golang => GolangType(t)
  }

  /** In the Python style `String`, `STRING` and `string` all become `str`, and so on for the other three. */
  lemma PythonIgnoresCase(t: string)
    ensures Lower(t) == "string" ==> TypeNormalization(t, Python) == "str"
    ensures Lower(t) == "integer" ==> TypeNormalization(t, Python) == "int"
    ensures Lower(t) == "double" ==> TypeNormalization(t, Python) == "float"
    ensures Lower(t) == "boolean" ==> TypeNormalization(t, Python) == "bool"
  {
  }

  /** In the Go style only the exact spellings are mapped: `STRING` passes through. */
  lemma GolangIsCaseSensitive()
    ensures TypeNormalization("String", Golang) == "string"
    ensures TypeNormalization("boolean", Golang) == "bool"
    ensures TypeNormalization("STRING", Golang) == "STRING"
    ensures TypeNormalization("string", Golang) == "string"
    ensures TypeNormalization("STRING", Python) == "str"
  {
    assert Lower("STRING") == "string";
  }

  /** The exact images of the Go table: the four primitive names, and the lower-case `boolean` as well. */
  lemma GolangImages(t: string)
    ensures t == "String" ==> TypeNormalization(t, Golang) == "string"
    ensures t == "Integer" ==> TypeNormalization(t, Golang) == "int"
    ensures t == "Double" ==> TypeNormalization(t, Golang) == "float"
    ensures t == "Boolean" || t == "boolean" ==> TypeNormalization(t, Golang) == "bool"
    ensures t !in {"String", "Integer", "Double", "Boolean", "boolean"} ==> TypeNormalization(t, Golang) == t
  {
  }

  /** No mapped spelling is itself a key, so mapping twice is mapping once. */
  lemma TypeNormalizationIdempotent(t: string, style: CodeStyle)
    ensures TypeNormalization(TypeNormalization(t, style), style) == TypeNormalization(t, style)
  {
    if Mapped(t, style) {
      var r := TypeNormalization(t, style);
      assert r in Spellings(style);
      if style == Python {
        assert Lower("str") == "str" && Lower("int") == "int" && Lower("float") == "float" && Lower("bool") == "bool";
        assert r in {"str", "int", "float", "bool"};
      } else {
        assert r in {"string", "int", "float", "bool"};
      }
    }
  }
}
