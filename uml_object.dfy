/**
  What every diagram element shares: the normalised name and shape
  attributes, the identifier sanitiser, and colour extraction from the
  shape attributes.
*/
module UmlObject {
  import opened PyText
  import opened CodeGen
  import Colors

  /** Shape attribute names. */
  datatype ShapeAttributeName = ColorAttr | ContainerShapeTypeAttr

  type ShapeAttributes = map<ShapeAttributeName, string>

  /** Container shape keywords and their values. */
  datatype ContainerShapeType = Namespace | Node | Package | Cloud | Database | Frame | Folder
  {
    function Value(): string
    {
      match this
      case Namespace => "namespace"
      case Node => "node"
      case Package => "package"
      case Cloud => "cloud"
      case Database => "database"
      case Frame => "frame"
      case Folder => "folder"
    }
  }

  /** The character that replaces anything not allowed in an identifier. */
  const NameReplacementChar: char := '_'

  /** `UMLObj.__init__`: a missing or empty name becomes a single space. */
  function NormalizeName(name: Option<string>): (r: Name)
    ensures name.Some? && name.value != [] ==> r == name.value
    ensures name.None? || name.value == [] ==> r == " "
  {
    if name.None? || name.value == [] then " " else name.value
  }

  /** `UMLObj.__init__`: missing shape attributes become the empty mapping. */
  function NormalizeAttrs(attrs: Option<ShapeAttributes>): (r: ShapeAttributes)
    ensures attrs.None? ==> r == map[]
    ensures attrs.Some? ==> r == attrs.value
  {
    if attrs.None? then map[] else attrs.value
  }

  /** `UMLObj.is_a_to_z`: an ASCII letter. */
  predicate IsAToZ(c: char)
  {
    'a' <= c <= 'z' || 'A' <= c <= 'Z'
  }

  /** What the sanitiser makes of one character. */
  function VariableChar(py: Py, c: char): char
  {
    if py.isNumeric(c) || IsAToZ(c) then c else NameReplacementChar
  }

  /** The sanitised identifier, character by character. */
  function VariableName(py: Py, name: string): (r: string)
    ensures |r| == |name|
  {
    seq(|name|, i requires 0 <= i < |name| => VariableChar(py, name[i]))
  }

  /**
    `UMLObj.convert_to_variable_name`: builds the identifier one character at
    a time; ASCII letters and numeric characters are kept, anything else
    becomes `_`.
  */
  method ConvertToVariableName(py: Py, name: string) returns (out: string)
    ensures |out| == |name|
    ensures forall i :: 0 <= i < |name| ==>
              out[i] == (if py.isNumeric(name[i]) || IsAToZ(name[i]) then name[i] else '_')
    ensures out == VariableName(py, name)
  {
    out := "";
    for i := 0 to |name|
      invariant |out| == i
      invariant forall j :: 0 <= j < i ==> out[j] == VariableChar(py, name[j])
    {
      if py.isNumeric(name[i]) || IsAToZ(name[i]) {
        out := out + [name[i]];
      } else {
        out := out + [NameReplacementChar];
      }
    }
  }

  /** Every character of a sanitised name is an ASCII letter, a numeric character or `_`. */
  lemma VariableNameAlphabet(py: Py, name: string)
    ensures forall i :: 0 <= i < |name| ==>
              var c := VariableName(py, name)[i]; IsAToZ(c) || py.isNumeric(c) || c == '_'
  {
  }

  /** A name made of ASCII letters and digits is already an identifier. */
  lemma VariableNameKeepsAlphanumeric(py: Py, name: string)
    requires Sound(py)
    requires forall i :: 0 <= i < |name| ==> IsAToZ(name[i]) || IsDigit(name[i])
    ensures VariableName(py, name) == name
  {
    forall i | 0 <= i < |name| ensures VariableName(py, name)[i] == name[i] {
      assert IsAscii(name[i]);
    }
  }

  /** Sanitising twice is sanitising once: `_` is kept as it is. */
  lemma VariableNameIdempotent(py: Py, name: string)
    ensures VariableName(py, VariableName(py, name)) == VariableName(py, name)
  {
  }

  /** Characters that are ASCII but neither letters nor digits all become `_`. */
  lemma VariableNameReplacesPunctuation(py: Py, name: string, i: nat)
    requires Sound(py)
    requires i < |name| && IsAscii(name[i]) && !IsAToZ(name[i]) && !IsDigit(name[i])
    ensures VariableName(py, name)[i] == '_'
  {
  }

  /** A sanitised name holds no double quote, so it can follow a quoted label. */
  lemma VariableNameQuoteFree(py: Py, name: string)
    requires Sound(py)
    ensures '"' !in VariableName(py, name)
  {
    var alias := VariableName(py, name);
    forall i | 0 <= i < |alias| ensures alias[i] != '"' {
      assert IsAscii('"') && !IsDigit('"');
    }
  }

  /**
    `UMLObj.extract_color_by_shape_attrs`: no colour attribute gives ("", no
    error); a colour `normalize` rejects gives ("", its error); otherwise the
    normalised colour.
  */
  function ExtractColor(py: Py, attrs: ShapeAttributes): (r: (string, Option<Error>))
    ensures ColorAttr !in attrs ==> r == ("", None)
    ensures ColorAttr in attrs && Colors.Normalize(py, attrs[ColorAttr]).1.Some? ==>
              r == ("", Some(Colors.InvalidColor(attrs[ColorAttr])))
    ensures ColorAttr in attrs && Colors.Normalize(py, attrs[ColorAttr]).1.None? ==>
              r == (Colors.Normalize(py, attrs[ColorAttr]).0, None)
  {
    if ColorAttr !in attrs then ("", None)
    else
      var (color, err) := Colors.Normalize(py, attrs[ColorAttr]);
      if err.Some? then ("", err) else (color, None)
  }

  /**
    The colour slot: nothing when there is no colour or it is invalid (the
    error is dropped), which is exactly the text `normalize` gives. Components,
    classes and containers all show the colour this way.
  */
  function ColorSlot(py: Py, attrs: ShapeAttributes): (r: string)
    ensures ColorAttr !in attrs ==> r == ""
    ensures ColorAttr in attrs ==> r == Colors.Normalize(py, attrs[ColorAttr]).0
  {
    var (color, err) := ExtractColor(py, attrs);
    if err.Some? then "" else color
  }
}
