# plantuml_creator in Dafny

A model of the rendering core of `plantuml_creator`. That library builds an in-memory tree of UML elements and turns it into PlantUML markup:

- the elements are variables, methods, relations, components, classes, containers and diagrams;
- every element can be rendered in one of three code styles (C, Python, Go);
- every renderer returns a pair `(text, errors)`.

The model is written as follows.

- The elements are datatypes rendered by functions. These are variables, methods, relations, components, classes and containers (module `Containers` puts them together in the `Obj` tree). The one in-place change rendering makes to them, the Go renderer's renaming of methods, is the before-to-after function `Methods.AfterRender`. It is lifted to classes by `Classes.ClassAfterRender`, to trees by `Containers.AfterRenderObj` and to element lists by `Containers.AfterRenderAll`. `Diagrams.Diagram.GenCode` stores the renamed tree in the diagram.
- The shared list joiner (`ListJoiner`) is the function `Joiner.Join`. Its loops are the methods `Joiner.JoinList` and `Joiner.JoinGroups`, which are proved equal to it.
- State the source updates in place is modelled with classes:
  - the rendering context's indent counter (`CodeGen.Context`);
  - a method's name, which the Go renderer rewrites (`Methods.MethodRef`);
  - the caller's options dictionary, which a diagram writes into (`Diagrams.Options`);
  - the diagram itself (`Diagrams.Diagram`).
- Python built-ins whose full definition lies outside the model are passed in as the record `PyText.Py`: `str.isnumeric`, "`int(s, 16)` does not raise" and the third-party `stringcase.snakecase`. The predicate `PyText.Sound` pins down only their ASCII behaviour, and the lemmas that need it say so.
- Other Python text operations are written out on `seq<char>`:
  - `" ".join(s.split())` is `PyText.Collapse`;
  - `re.sub(' +', ' ', s)` is `PyText.Squeeze`;
  - `str.strip` is `PyText.Strip`;
  - `str.replace` is `PyText.ReplaceChar`;
  - `sep.join` is `PyText.StdJoin`;
  - `str.split(c)` is `PyText.Split`.
- A diagram's text (`Diagrams.DiagramCode`) renders its elements and hands them to `Diagrams.DiagramOut`, which lays them out. The lemmas about the frame and the separator lines are stated for `DiagramOut`, so they hold whatever the elements render to.

## Model

| member | source | states |
|---|---|---|
| PyText.CollapseShape | plantuml_creator/relation.py:97-98 | `" ".join(s.split())` leaves single spaces between words, none at the ends, and every other character in order |
| PyText.SqueezeShape | plantuml_creator/container.py:53 | `re.sub(' +', ' ', s)` leaves no two spaces in a row, keeps every other character, and keeps the first and last characters |
| UmlCode.TypeNormalization | plantuml_creator/uml_code.py:35-79 | C leaves every type name alone; an unmapped name is kept; a mapped one becomes a primitive spelling of the style |
| UmlCode.PythonIgnoresCase | plantuml_creator/uml_code.py:35-46 | in the Python style `string`, `integer`, `double`, `boolean` map to `str`, `int`, `float`, `bool` in any letter case |
| UmlCode.GolangImages | plantuml_creator/uml_code.py:50-62 | in the Go style `String`, `Integer` and `Double` become `string`, `int` and `float`, `Boolean` and `boolean` become `bool`, and every other name is kept |
| UmlCode.GolangIsCaseSensitive | plantuml_creator/uml_code.py:50-62 | the Go table is looked up as spelt: `String` becomes `string` but `STRING` stays, while Python maps `STRING` to `str` |
| UmlCode.TypeNormalizationIdempotent | plantuml_creator/uml_code.py:43-79 | normalising a type name twice gives the same as once, in every style |
| CodeGen.Context.constructor | plantuml_creator/code_generator.py:25-31 | the context stores the given style, parent, indent level and diagram kind |
| CodeGen.Context.IncreaseIndentLevel | plantuml_creator/code_generator.py:33-35 | the indent level grows by exactly one, the new level is returned, and style, kind and parent are unchanged |
| CodeGen.DefaultContext | plantuml_creator/code_generator.py:25-31 | a fresh context with only a style has level 0, no parent and the unknown diagram kind |
| Colors.HexString | plantuml_creator/color.py:7-162 | every catalogue colour is written `#` followed by six upper-case hexadecimal digits |
| Colors.HexDigitsValue | plantuml_creator/color.py:7-162 | below `16^k`, the `k` upper-case hexadecimal digits written for a number denote that number |
| Colors.HexStringValue | plantuml_creator/color.py:7-162 | the six digits after the `#` of a catalogue colour denote its value |
| Colors.Lookup | plantuml_creator/color.py:188-190 | a key is found exactly when some catalogue entry carries it, and the value found belongs to such an entry |
| Colors.LookupConcat | plantuml_creator/color.py:188-190 | looking up in two tables one after the other finds the first table's entry first |
| Colors.LookupFinds | plantuml_creator/color.py:188-190 | the first entry with a key is the one found |
| Colors.Normalize | plantuml_creator/color.py:182-202 | an empty colour gives `("", None)`; an error comes with an empty colour and the `invalid color` message; without an error the colour is empty exactly when the input is (corrected; see Findings) |
| Colors.NormalizeCatalogue | plantuml_creator/color.py:188-190 | a colour whose snake-case key names a catalogue member gives that member's canonical `#RRGGBB` value and no error (corrected; see Findings) |
| Colors.NormalizeHashPrefixed | plantuml_creator/color.py:193-194 | a colour starting with `#` that the catalogue does not know is returned unchanged |
| Colors.NormalizeBareHex | plantuml_creator/color.py:197-199 | a colour without `#` whose characters after the first parse as hexadecimal gets a `#` in front |
| Colors.NormalizeInvalid | plantuml_creator/color.py:197-202 | a colour with a character after the first that no base-16 literal can hold gives the `invalid color` error and an empty colour |
| Colors.NormalizeSingleChar | plantuml_creator/color.py:197-202 | a one-character colour other than `#` is invalid, since the parse of the empty remainder fails |
| Colors.NoHashNameConcat | plantuml_creator/color.py:7-162 | two tables without a `#`-prefixed name join into one without |
| Colors.CatalogueHasNoHashName | plantuml_creator/color.py:7-162 | no catalogue name starts with `#`, so a `#` literal never hits the catalogue |
| Colors.NormalizeHashLiteral | plantuml_creator/color.py:188-194 | a colour starting with `#` whose catalogue key also starts with `#` is returned as it is |
| Colors.AsWrittenAgreesOffCatalogue | plantuml_creator/color.py:182-202 | off the catalogue the code as written and the corrected colour normaliser return the same pair |
| Colors.CatalogueHitIsNotAPair | plantuml_creator/color.py:188-190 | for `blue` the code as written returns the bare enum member, where the corrected normaliser returns `("#0000FF", None)` |
| Colors.BlueIsCatalogued | plantuml_creator/color.py:17 | `BLUE` is in the catalogue with value `#0000FF` |
| UmlObject.NormalizeName | plantuml_creator/uml_object.py:32-38 | a missing or empty name becomes a single space; any other name is kept |
| UmlObject.NormalizeAttrs | plantuml_creator/uml_object.py:34-36 | missing shape attributes become the empty dictionary |
| UmlObject.VariableName | plantuml_creator/uml_object.py:45-52 | the variable name has the length of the name it comes from |
| UmlObject.ConvertToVariableName | plantuml_creator/uml_object.py:45-52 | the loop keeps each numeric or a-z/A-Z character and writes `_` for every other one |
| UmlObject.VariableNameAlphabet | plantuml_creator/uml_object.py:45-52 | every character of a variable name is an ASCII letter, a numeric character or `_` |
| UmlObject.VariableNameKeepsAlphanumeric | plantuml_creator/uml_object.py:45-52 | a name made of ASCII letters and digits is its own variable name |
| UmlObject.VariableNameIdempotent | plantuml_creator/uml_object.py:45-52 | converting a variable name again changes nothing |
| UmlObject.VariableNameReplacesPunctuation | plantuml_creator/uml_object.py:48-51 | an ASCII character that is neither a letter nor a digit becomes `_` in place |
| UmlObject.VariableNameQuoteFree | plantuml_creator/uml_object.py:45-52 | a variable name holds no double quote |
| UmlObject.ExtractColor | plantuml_creator/uml_object.py:55-61 | no colour attribute gives `("", None)`; an invalid colour gives an empty colour and the error; a valid one gives the normalised colour and no error |
| UmlObject.ColorSlot | plantuml_creator/uml_object.py:55-61 | the colour text a renderer shows: empty without a colour attribute, otherwise the normalised colour, which is empty when it is invalid |
| Joiner.NewJoinItem | plantuml_creator/utils.py:11-20 | missing bounds become the empty pair; list, separator and default are kept |
| Joiner.ToStr | plantuml_creator/utils.py:26-31 | a rendered element keeps its text and errors; a data-type string is normalised in the style and never fails; anything else is shown as it is |
| Joiner.JoinedIsStdJoin | plantuml_creator/utils.py:37-44 | the loop's text is `sep.join` of the first text and the non-empty texts after it |
| Joiner.ErrorsConcat | plantuml_creator/utils.py:37-42 | the errors of two lists in a row are the first list's followed by the second's |
| Joiner.ErrorsWhenNoneFail | plantuml_creator/utils.py:37-42 | a list whose items report no error reports none |
| Joiner.JoinFailsOnlyThroughItems | plantuml_creator/utils.py:34-45 | a join reports an error only through one of its items |
| Joiner.JoinShape | plantuml_creator/utils.py:34-45 | a missing or empty list gives the default (the two bounds when there is none) and no error; otherwise the bounds enclose the join of the first text and the non-empty later texts |
| Joiner.JoinSingle | plantuml_creator/utils.py:37-45 | a one-element list is the bounded single text with its errors, whatever the separator |
| Joiner.JoinPair | plantuml_creator/utils.py:37-45 | two items, the second non-empty, are joined by exactly one separator inside the bounds |
| Joiner.JoinKeepsEmptyFirst | plantuml_creator/utils.py:37-44 | an empty first item is still placed, so the joined text then starts with the separator |
| Joiner.JoinUnbounded | plantuml_creator/utils.py:34-45 | an unbounded join with an empty default is `sep.join` of its laid-out texts |
| Joiner.JoinList | plantuml_creator/utils.py:34-45 | the loop computes the join's text and its errors in list order |
| Joiner.GroupErrorsPair | plantuml_creator/utils.py:48-55 | two named joins report the first join's errors, then the second's |
| Joiner.JoinGroups | plantuml_creator/utils.py:48-55 | each name maps to its own join's text, and the errors of all joins come in dictionary order |
| Variables.NewVariable | plantuml_creator/variable.py:31-36 | the name is normalised, the type kept, and missing modifiers become the empty list |
| Variables.CModifiers | plantuml_creator/variable.py:59-62 | the loop writes every modifier followed by one space |
| Variables.ModifierPrefixJoin | plantuml_creator/variable.py:59-64 | the modifier prefix followed by a word is the space-join of the modifiers and the word |
| Variables.VariableCode | plantuml_creator/variable.py:50-96 | rendering a variable never reports an error, in any style |
| Variables.GenCodeC | plantuml_creator/variable.py:50-64 | the step-by-step C renderer (modifier loop, then type and name) returns the same text and errors as `Variables.VariableCode` in the C style |
| Variables.ModifiersOnlyInC | plantuml_creator/variable.py:76-91 | the Python and Go renderings do not depend on the modifiers |
| Variables.CDeclarationSplits | plantuml_creator/variable.py:50-64 | with space-free parts the C text splits on spaces into the modifiers, the C type and the name |
| Variables.GoDeclarationSplits | plantuml_creator/variable.py:82-93 | the Go text splits on a space into the name and the Go type |
| Variables.PythonDeclarationSplits | plantuml_creator/variable.py:67-79 | the Python text splits on `:` into the snake-case name and a space with the Python type |
| Variables.CExamplePublic | plantuml_creator/test/test_variable.py:11-23 | `public static const String a` |
| Variables.CExamplePrivate | plantuml_creator/test/test_variable.py:15-27 | `private CustomClass customObject` |
| Variables.PythonExamples | plantuml_creator/test/test_variable.py:22-26 | `a: str` and `custom_object: CustomClass`, given the snake-case spellings |
| Variables.GoExamples | plantuml_creator/test/test_variable.py:24-28 | `a string` and `customObject CustomClass` |
| Methods.NewMethod | plantuml_creator/method.py:27-34 | the name is normalised and missing modifiers become the empty list |
| Methods.MethodParts | plantuml_creator/method.py:47-55 | the three joins never fail; no modifiers give an empty text, no return types an empty text, no arguments `()` |
| Methods.NoParensUnwraps | plantuml_creator/method.py:83-98 | removing the parentheses from `(w)` gives back `w` when `w` has none |
| Methods.PythonReturnBody | plantuml_creator/method.py:77-82 | the Python return annotation is empty exactly when the joined returns are, and `void` becomes ` -> None` (corrected; see Findings) |
| Methods.GoNameVisibility | plantuml_creator/method.py:99-104 | the Go name keeps all but its first character, and an initial ASCII letter is upper-case exactly when no `private` or `protected` modifier is present (corrected; see Findings) |
| Methods.GoNameIdempotent | plantuml_creator/method.py:99-104 | renaming an already renamed method changes nothing (corrected; see Findings) |
| Methods.MethodCode | plantuml_creator/method.py:58-108 | rendering a method never reports an error, in any style |
| Methods.AfterRender | plantuml_creator/method.py:99-104 | only the Go renderer changes a method, and only its name |
| Methods.RenderTwice | plantuml_creator/method.py:99-108 | rendering again after a rendering gives the same text, and the name stays where the first rendering put it |
| Methods.Func1CExample | plantuml_creator/test/test_method.py:43 | the C signature of the test's `func1` is `public static String func1(const String a, int b)` |
| Methods.Func1GoExample | plantuml_creator/test/test_method.py:44 | the Go signature of `func1` is `func Func1(a string, b int) string` |
| Methods.Func1PythonExample | plantuml_creator/test/test_method.py:42 | given only that `snakecase` keeps `a` and `b`, the Python signature of `func1` is `def func1(a: str, b: int) -> str:` |
| Methods.PythonArrow | plantuml_creator/method.py:69-85 | the Python signature is `def`, the name and the arguments followed directly by `:` when no return text was joined, in particular when there are no return types; otherwise ` -> ` follows the arguments and `:` ends the line (corrected; see Findings) |
| Methods.MethodRef.constructor | plantuml_creator/method.py:27-34 | the object describes the given method |
| Methods.MethodRef.RenameForGo | plantuml_creator/method.py:99-104 | the in-place rename loop leaves the name that the Go naming rule prescribes |
| Methods.MethodRef.GenCode | plantuml_creator/method.py:47-108 | the result is the signature of the method as it was before the call, and the object afterwards is the method after rendering |
| Methods.GoExampleExported | plantuml_creator/test/test_method.py:23-45 | `func Func2() ` |
| Methods.GoExampleHidden | plantuml_creator/test/test_method.py:30-46 | `func func3() ` |
| Methods.GoSingleReturn | plantuml_creator/method.py:97-105 | a Go signature with one return type shows it without parentheses after a space |
| Methods.EmptyReturnArrow | plantuml_creator/method.py:77-82 | with no return types the code as written gives `def func2() -> :`, the corrected one `def func2():` |
| Methods.ProtectedStaysExported | plantuml_creator/method.py:102-104 | as written a `protected` method stays exported (`Run`); the corrected rule gives `run` |
| Relations.Orientation.Value | plantuml_creator/relation.py:29-34 | an orientation's text has no whitespace |
| Relations.ShapeHalves | plantuml_creator/relation.py:41-56 | the two halves of every arrow template are space-free and hold no placeholder |
| Relations.ShapeFill | plantuml_creator/relation.py:86-95 | the arrow is its template with the orientation put in the placeholder, and it is space-free |
| Relations.NewRelation | plantuml_creator/relation.py:58-71 | both ends are converted to variable names; missing stereotypes become the empty list and missing quantifiers two empty strings |
| Relations.QuoteQuantifier | plantuml_creator/relation.py:102-105 | a present, non-empty quantifier is quoted; a missing or empty one vanishes |
| Relations.Wrapped | plantuml_creator/relation.py:108-115 | each stereotype is enclosed in `<<` and `>>`, in order |
| Relations.FormatStereotypes | plantuml_creator/relation.py:108-115 | the loop puts a newline between the wrapped stereotypes and none after the last |
| Relations.RelationCode | plantuml_creator/relation.py:73-99 | a relation never reports an error; its text has single spaces between words, none at either end, and the same other characters in the same order as the raw line |
| Relations.RawLineSplit | plantuml_creator/relation.py:96-98 | the words of the raw line are the words of each of its parts in turn |
| Relations.RawLineWords | plantuml_creator/relation.py:93-98 | with space-free parts the words are the first end, the present quantifiers, the arrow, the second end with `:` when there are stereotypes, and the wrapped stereotypes |
| Relations.RelationLine | plantuml_creator/relation.py:93-99 | with space-free parts the text is those words joined by single spaces |
| Relations.ExtensionExample | plantuml_creator/test/test_relation.py:12-31 | `animal --\|> dog` |
| Relations.AssociationExample | plantuml_creator/test/test_relation.py:18-32 | `person "1" -- "*" account: <<use>>` |
| Components.NewComponent | plantuml_creator/component.py:16-18 | the name is normalised and missing shape attributes become the empty dictionary |
| Components.ComponentDiagram | plantuml_creator/component.py:20-24 | the shape type is returned as given, `database` included |
| Components.Keyword | plantuml_creator/component.py:29-32 | the keyword is the container shape type attribute when there is one, `component` otherwise |
| Components.Label | plantuml_creator/component.py:27 | the label has the name's length and no `"` |
| Components.LabelReplacesQuotes | plantuml_creator/component.py:27 | every `"` of the name becomes `_`, and every other character stays in place |
| Components.LabelOfQuoted | plantuml_creator/component.py:27 | a name with one `"` is shown with `_` in its place |
| Components.ComponentCode | plantuml_creator/component.py:26-36 | a component never reports an error, not even for an invalid colour |
| Components.ComponentSplitsOnQuotes | plantuml_creator/component.py:26-36 | the text splits on `"` into the keyword, the label, and `as` with the variable name and the colour |
| Components.ComponentInvalidColor | plantuml_creator/component.py:33-36 | an invalid colour leaves the text ending in `as`, the variable name and one space, with no error |
| Components.EjbExample | plantuml_creator/test/test_component.py:16-24 | `component "ejb://VeryRare._Name" as ejb___VeryRare__Name #0000FF`, given only that `snakecase` keeps the colour's leading `#` |
| Classes.NewClass | plantuml_creator/uml_class.py:45-56 | the kind defaults to a regular class; missing attribute and method lists become empty |
| Methods.RenderedArgs | plantuml_creator/method.py:53 | every argument (and, for a class, every attribute) is rendered in the style, in order |
| Classes.MethodItems | plantuml_creator/uml_class.py:80-83 | every method is rendered in the style, in order |
| Classes.ClassCode | plantuml_creator/uml_class.py:68-90 | a class never reports an error; a colour error is dropped |
| Classes.ZonesNeverFail | plantuml_creator/uml_class.py:80-83 | the attribute and method joins never fail |
| Classes.InterfaceIsLollipop | plantuml_creator/uml_class.py:58-78 | an interface (the lollipop kind is the same member) is drawn as a lollipop, and its attributes and methods do not matter |
| Classes.LollipopSplits | plantuml_creator/uml_class.py:58-66 | the lollipop splits on `"` into `interface `, the name, and `as` with the alias and the colour after one space when there is one |
| Classes.HeaderWithoutColor | plantuml_creator/uml_class.py:85 | without a colour the header has two spaces before `{` |
| Classes.ZoneLines | plantuml_creator/uml_class.py:80-89 | an indented zone is its texts each on its own indented line |
| Classes.BlockText | plantuml_creator/uml_class.py:85-90 | the class block is the line-join of header, indented dividers and members, a blank line, `}` and a final empty line |
| Classes.ClassLayout | plantuml_creator/uml_class.py:80-90 | a non-interface class is its header, the attribute divider, one indented line per attribute, a blank line, the method divider, one indented line per method, `}` and a newline |
| Classes.ClassLines | plantuml_creator/uml_class.py:80-90 | when no part holds a newline, the text splits on newlines into exactly those lines |
| Classes.ClassAfterRender | plantuml_creator/uml_class.py:80-83 | after rendering only the methods can have changed, each by one method rendering |
| Classes.ClassRenderTwice | plantuml_creator/uml_class.py:68-90 | rendering a class again gives the same text, and the class then stays as it is |
| Containers.NewContainer | plantuml_creator/container.py:30-36 | the kind defaults to a package; the name and attributes are normalised |
| Containers.KindWords | plantuml_creator/container.py:42-50 | namespaces, clouds and databases use their own keyword; nodes, frames and folders are packages with a `<<kind>>` stereotype; a package has none |
| Containers.ContainerHeaderShape | plantuml_creator/container.py:52-53 | the header starts with the keyword and ends with `{`, has no two spaces in a row, and keeps every non-space character of the raw header |
| Containers.ChildItems | plantuml_creator/container.py:39-41 | every child is rendered in the style, in order |
| Containers.RenderNeverFails | plantuml_creator/container.py:38-57 | no element of a tree reports an error |
| Containers.ContainerLayout | plantuml_creator/container.py:39-56 | a container is its header line, one indented line per child that renders to something (the first one always), and `}` |
| Containers.RenderTwiceObj | plantuml_creator/container.py:38-57 | rendering a tree again gives the same text, and the tree then stays as it is |
| Containers.ChildItemsAfterRender | plantuml_creator/utils.py:27-28 | a list of elements renamed by one rendering renders to the same items, and renaming it again changes nothing |
| Containers.PackageHeader | plantuml_creator/container.py:42-53 | a plain package without colour, whose name has no run of spaces, gets the header `package "<name>" {` |
| Containers.PackageText | plantuml_creator/container.py:39-57 | a plain package without colour, whose name has no run of spaces, is `package "<name>" {`, its children's zone and `}` |
| Containers.PackageOfTwo | plantuml_creator/container.py:39-57 | a package of two elements, the second non-empty, shows each on its own indented line |
| Containers.Comp1Example | plantuml_creator/test/test_container.py:12-32 | the package `comp1` with interface `i1` and component `A` renders as the test expects, with no error, given only that `snakecase` keeps the colour's leading `#` |
| Diagrams.Decimal | plantuml_creator/diagram.py:105-111 | an integer option is shown as a non-empty string of decimal digits, with a leading `0` only for zero itself |
| Diagrams.DecimalDenotes | plantuml_creator/diagram.py:105-111 | the digits shown for an integer option denote that integer |
| Diagrams.Show | plantuml_creator/diagram.py:105-111 | an option value is shown as Python's `str` shows it: the string itself, `True`/`False`, or the decimal integer with its sign |
| Diagrams.Options.constructor | plantuml_creator/diagram.py:67-72 | the options object holds the given dictionary |
| Diagrams.Wrapper | plantuml_creator/diagram.py:85-99 | the standard kinds get `@startuml`/`@enduml`; wireframe, work breakdown, mind map, Gantt and Ditaa get their own markers; the rest get the standard ones (corrected; see Findings) |
| Diagrams.WrapperAsWrittenFails | plantuml_creator/diagram.py:85-99 | the code as written fails exactly on the kinds outside the standard list, and elsewhere agrees with the corrected lookup |
| Diagrams.WireframeWrapperFinding | plantuml_creator/diagram.py:89-90 | for a wireframe the code as written raises, while the intended markers are `@startsalt`/`@endsalt` |
| Diagrams.GenerateOptionals | plantuml_creator/diagram.py:101-112 | the step-by-step builder returns the title line followed, for sequence diagrams only, by the autonumber line |
| Diagrams.OptionalsTitle | plantuml_creator/diagram.py:104-105 | the optionals open with `title "` exactly when a title is set |
| Diagrams.OptionalsIgnoreNumbering | plantuml_creator/diagram.py:107-111 | outside sequence diagrams nothing can raise, only the title can appear, and the numbering options make no difference |
| Diagrams.SequenceNumbering | plantuml_creator/diagram.py:107-111 | in a sequence diagram the autonumber line follows the title exactly when numbering is on or a non-empty start is given |
| Diagrams.WithSeparators | plantuml_creator/diagram.py:82-83 | after construction `ADD_SEPARATORS` is present; a value the caller gave is kept, otherwise it is true |
| Diagrams.SeparatorsByDefault | plantuml_creator/diagram.py:82-83 | after construction the markers are written unless the caller set a falsy value |
| Diagrams.DiagramNeverFails | plantuml_creator/diagram.py:124-139 | a diagram reports no error, since its objects and relations report none |
| Diagrams.LayoutFrame | plantuml_creator/diagram.py:134-139 | when the header is a first part and a newline, the text starts with that part and ends with the end marker on a line of its own |
| Diagrams.LayoutSeparator | plantuml_creator/diagram.py:134-135 | the text starts with the header, and the objects separator line comes right after it |
| Diagrams.DiagramFrame | plantuml_creator/diagram.py:114-139 | whatever the elements render to, the text opens with the start marker and the optionals, and ends with the end marker line |
| Diagrams.StandardFrame | plantuml_creator/diagram.py:114-139 | whatever its elements render to, a standard diagram starts with the line `@startuml` and ends with the line `@enduml` |
| Diagrams.ObjectsSeparatorLine | plantuml_creator/diagram.py:114-135 | whatever the elements render to, the text begins with the header followed by the line `/' OBJECTS '/` when separators are on, by an empty line otherwise |
| Diagrams.Diagram.constructor | plantuml_creator/diagram.py:67-83 | missing options become a fresh dictionary; given options are the caller's own object, into which `ADD_SEPARATORS` is written; missing relations become empty; the markers match the kind |
| Diagrams.Diagram.GenerateHeader | plantuml_creator/diagram.py:114-117 | the header is the start marker, the optionals and an empty line |
| Diagrams.Diagram.GenCode | plantuml_creator/diagram.py:119-139 | the indent level grows by exactly one; the result is the diagram's text and errors in the context's style; the element tree and the relations become their renamed forms, which render to the same text |
| Diagrams.Diagram.GenText | plantuml_creator/diagram.py:124-139 | the two joins, the header, the separators and the layout give exactly the diagram's text and errors in the style |
| Diagrams.DiagramRenderTwice | plantuml_creator/diagram.py:124-127 | a diagram whose elements were renamed by a rendering renders to the same text and errors, and renaming it again changes nothing |

## Left out

- `Compressor` (plantuml_creator/uml_code.py:87-95) is not part of this model: it wraps zlib and base64, which have no counterpart here.
- The `_generators` caches in plantuml_creator/variable.py:40-47 and plantuml_creator/method.py:36-44 are left out. They only memoise a fixed table from style to renderer, which the model writes as a `match` on the style.
- `UMLObj.gen_for_generators_list` (plantuml_creator/uml_object.py:63-73) is left out. No renderer of the core calls it.
- `stringcase.snakecase`, `str.isnumeric` and `int(s, 16)` are foreign code. They are parameters (`PyText.Py`), and only their ASCII behaviour is pinned down (`PyText.Sound`). Lemmas about concrete names state the `snakecase` result they need as a precondition.
- Upper and lower case are ASCII only: the Go renaming and the colour keys do not model Unicode case mapping.
- A colour given as a `Color` enum member, or as `None` (plantuml_creator/color.py:182-185), is not modelled: colours are strings, and an empty string takes the `None` path.
- Variable modifiers are strings. The `None` entries that the C renderer skips (plantuml_creator/variable.py:60-61) are not modelled.
- Float option values (plantuml_creator/diagram.py:30) are not modelled: option values are strings, booleans or integers.
- The inputs on which `_generate_optionals` raises are excluded by the precondition `Diagrams.OptionalsDefined` rather than modelled as an error value:
  - a sequence diagram without `AUTO_NUMBER` (a `KeyError`);
  - a falsy `AUTO_NUMBER` with a non-string start (a `TypeError` from `len`).
- `HEADER_PAGE` and `FOOTER_PAGE` are declared but have no effect, in the model as in the source.
- A `Diagram` nested inside a container is not modelled. The element tree `Containers.Obj` holds the six other kinds, and a diagram is always the root.
- The context's `parent` and `diagram_type` are stored but never read by a renderer. The default style comes from a `settings` module, which is not part of this model, so `CodeGen.DefaultContext` takes the style as an argument.
- The default relation shape (plantuml_creator/relation.py:38,86-88) is never used, because every relation type has an entry in the shape map. `Relations.ShapeHalves` is total over the types.
- `Relations.RelationCode`: its own contract states the spacing and the order of the non-space characters, not the exact words. The exact words are stated by `Relations.RelationLine`, which requires names, quantifiers and stereotypes without whitespace.
- `Components.ComponentSplitsOnQuotes`: requires the keyword and the colour to hold no `"`. A user-supplied shape type could hold one.
- `Classes.ClassLines`: requires that no rendered member and no header holds a newline. Otherwise the line structure is only stated by `Classes.ClassLayout`.
- The class test (plantuml_creator/test/test_class.py:55-86) is covered only by the general lemmas (`Classes.ClassLayout` and the method lemmas), not by a literal example. The diagram test (plantuml_creator/test/test_diagram.py:190-196) checks only that there are no errors, which `Diagrams.DiagramNeverFails` states for every diagram.
- `UmlObject.ExtractColor`: uses the corrected `Colors.Normalize`. On a catalogue hit such as `blue` it gives `("#0000FF", None)`, where the unpack at plantuml_creator/uml_object.py:58 raises `TypeError` (first finding below).
- `UmlObject.ColorSlot`: shares that divergence. So do the renderers that show a colour (`Components.ComponentCode`, `Classes.ClassCode`, `Containers.Render`, the diagram's elements): where the source raises on a catalogue name, the model renders its hex value.
- `Colors.NormalizeCatalogue`: assumes the snake-case key hits. Which spellings hit depends on `snakecase`: `blue` and `dark_salmon` do, but `BLUE` becomes `B_L_U_E` and misses.
- `Methods.MethodCode`: uses the corrected rules. In the Python style a method with no return types gives `def func2():`, where plantuml_creator/method.py:77-82 writes `def func2() -> :`. In the Go style a `protected` method is lower-cased, where plantuml_creator/method.py:102-103 keeps it exported (third and fourth findings below). The as-written behaviour is `Methods.PythonCodeAsWritten` and `Methods.GoNameAsWritten`.
- `Methods.AfterRender`: sets the stored name by the corrected Go rule, so a `protected` method is lower-cased where the source leaves it exported.
- `Methods.MethodRef.RenameForGo`: its loop lower-cases for `protected` as well as `private`, where plantuml_creator/method.py:102-103 matches only `private`.
- `Methods.MethodRef.GenCode`: its result and its new name are those of the corrected `Methods.MethodCode` and `Methods.AfterRender`, with the two divergences above.
- `Diagrams.Diagram.constructor`: stores the corrected `Diagrams.Wrapper(kind)` for every kind. For WIREFRAME, SDL, UNKNOWN, DITAA, GANTT, MINDMAP and WORK_BREAKDOWN_STRUCTURE, plantuml_creator/diagram.py:80,89 raises `TypeError` instead (second finding below; `Diagrams.WrapperAsWritten`).
- `Diagrams.Diagram.GenCode`: renames the diagram's own element tree as a value held in the diagram's fields. An element object shared with another parent or another diagram (aliasing) is not modelled, so that other holder does not see the rename. The stored names follow the corrected Go rule, as in `Methods.AfterRender`.
- The model does not restate that no renderer propagates an error in the end. It proves it instead (`Containers.RenderNeverFails`, `Diagrams.DiagramNeverFails`).

## Findings

| source | as written | input that shows it | evidently intended | confidence | as-written member | corrected member |
|---|---|---|---|---|---|---|
| plantuml_creator/color.py:188-190 | a catalogue hit returns `Color.__dict__[key]`, the bare enum member, where every caller unpacks a `(colour, error)` pair | the colour `blue` (when `snakecase` leaves it as it is) | the pair `("#0000FF", None)` | high; not executed | Colors.NormalizeAsWritten, Colors.CatalogueHitIsNotAPair | Colors.Normalize, Colors.NormalizeCatalogue |
| plantuml_creator/diagram.py:89-98 | `type_ in DiagramType.WIREFRAME` tests membership in an enum member, which raises `TypeError` for every kind outside the standard list | a diagram of kind `WIREFRAME` | the markers `@startsalt` / `@endsalt` | high; not executed | Diagrams.WrapperAsWritten, Diagrams.WireframeWrapperFinding | Diagrams.Wrapper, Diagrams.WrapperAsWrittenFails |
| plantuml_creator/method.py:77 | `len(d['returns']) == ""` compares a number with a string and is never true, so the return arrow is always written | the method `func2` with no return types, Python style | `def func2():` | high; not executed | Methods.PythonCodeAsWritten, Methods.EmptyReturnArrow | Methods.PythonReturnBody, Methods.PythonArrow |
| plantuml_creator/method.py:102-103 | the list holds `PRIVATE.value`, a string, but `PROTECTED`, the enum member, so a `protected` modifier string never matches | the method `run` with modifiers `["protected"]`, Go style | the unexported name `run` | medium; not executed | Methods.GoNameAsWritten, Methods.ProtectedStaysExported | Methods.GoName, Methods.GoNameVisibility |
