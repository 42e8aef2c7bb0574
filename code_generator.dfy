/**
  The rendering protocol shared by every element: the (text, errors) pair
  every renderer returns, the one error kind, the diagram kinds, and the
  rendering context whose indent counter is updated in place.
*/
module CodeGen {
  import opened UmlCode

  /** Diagram kinds; `State` is an alias of `Component` (both have value 5). */
  datatype DiagramType =
    | Unknown | Sequence | ClassDiagram | UseCase | Activity | Component | ObjectDiagram
    | Deploy | Timing | Wireframe | Archimate | Sdl | Ditaa | Gantt | Mindmap
    | WorkBreakdownStructure | Math | EntityRelationship

  const State: DiagramType := Component

  /** The only error the renderers produce: Python's `ValueError` with its message. */
  datatype Error = ValueError(message: string)

  /** What every `gen_code` returns: the markup and the errors met on the way. */
  datatype Out = Out(text: string, errors: seq<Error>)

  /** `CodeGenerator.Context`: the style, the diagram kind, the parent and the indent counter. */
  class Context {
    var codeStyle: CodeStyle
    var diagramType: DiagramType
    var parent: object?
    var indentLevel: int

    constructor (codeStyle: CodeStyle, parent: object? := null, indentLevel: int := 0,
                 diagramType: DiagramType := Unknown)
      ensures this.codeStyle == codeStyle && this.parent == parent
      ensures this.indentLevel == indentLevel && this.diagramType == diagramType
    {
      this.codeStyle := codeStyle;
      this.diagramType := diagramType;
      this.parent := parent;
      this.indentLevel := indentLevel;
    }

    /** Adds one to the indent counter, touches nothing else, and returns the new level. */
    method IncreaseIndentLevel() returns (level: int)
      modifies this`indentLevel
      ensures indentLevel == old(indentLevel) + 1
      ensures level == indentLevel
      ensures codeStyle == old(codeStyle) && diagramType == old(diagramType) && parent == old(parent)
    {
      indentLevel := indentLevel + 1;
      level := indentLevel;
    }
  }

  /** A context built with only a style gets the defaults: level 0, no parent, unknown diagram kind. */
  method DefaultContext(style: CodeStyle) returns (ctx: Context)
    ensures fresh(ctx)
    ensures ctx.codeStyle == style && ctx.indentLevel == 0 && ctx.parent == null && ctx.diagramType == Unknown
  {
    ctx := new Context(style);
  }
}
