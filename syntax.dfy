/** The immutable Razor syntax tree the rewriter consumes and produces:
    spans of HTML symbols, blocks of children, and the tag-helper blocks the
    rewriter builds, with their source locations and lengths. */
module Syntax {
  import opened Strings

  datatype Option<+T> = None | Some(value: T)

  /** A position in a text: absolute offset, line and column (all from 0). */
  datatype SourceLocation = SourceLocation(absoluteIndex: nat, lineIndex: nat, characterIndex: nat)

  const Zero := SourceLocation(0, 0, 0)

  /** One character of consumed text moves the location: a line feed starts
      the next line, anything else moves one column right. */
  function AdvanceChar(loc: SourceLocation, c: char): SourceLocation {
    if c == '\n' then SourceLocation(loc.absoluteIndex + 1, loc.lineIndex + 1, 0)
    else SourceLocation(loc.absoluteIndex + 1, loc.lineIndex, loc.characterIndex + 1)
  }

  /** SourceLocation.Advance: the location just past text that starts at loc. */
  function Advance(loc: SourceLocation, text: string): (r: SourceLocation)
    ensures r.absoluteIndex == loc.absoluteIndex + |text|
    ensures r.lineIndex >= loc.lineIndex
    decreases |text|
  {
    if text == [] then loc else Advance(AdvanceChar(loc, text[0]), text[1..])
  }

  /** The HTML symbol types the rewriter tests for; every other symbol
      (HTML or code) is Other. */
  datatype HtmlSymbolType = Text | WhiteSpace | NewLine | OpenAngle | ForwardSlash | CloseAngle | Other

  datatype Symbol = Symbol(kind: HtmlSymbolType, content: string)

  datatype SpanKind = Transition | MetaCode | Comment | Code | Markup

  datatype BlockType = Statement | Directive | Functions | Expression | Helper | Markup | Section | Template | Comment | Tag

  datatype TagStructure = Unspecified | NormalOrSelfClosing | WithoutEndTag

  datatype TagMode = StartTagAndEndTag | SelfClosing | StartTagOnly

  /** What the descriptor provider knows about one tag helper: its type, the
      end-tag structure it requires, and the child tags it allows (None: any
      content is allowed). */
  datatype Descriptor = Descriptor(typeName: string, tagStructure: TagStructure, allowedChildren: Option<seq<string>>)

  /** A syntax tree node. `generator` stands for the opaque chunk generator a
      block carries. A tag-helper block records the raw start tag and, when one
      was matched, the raw end tag it was built from. */
  datatype Node =
    | Span(spanKind: SpanKind, start: SourceLocation, symbols: seq<Symbol>)
    | Block(blockType: BlockType, generator: nat, children: seq<Node>)
    | TagHelperBlock(tagName: string, tagMode: TagMode, descriptors: seq<Descriptor>,
                     tagStart: SourceLocation, sourceStartTag: Node, sourceEndTag: Option<Node>,
                     children: seq<Node>)
  {
    predicate IsBlock() { !Span? }

    /** A tag-helper block is a block of type Tag. */
    function Type(): BlockType
      requires IsBlock()
    {
      if Block? then blockType else BlockType.Tag
    }
  }

  /** The text of a span: its symbols' contents in order. */
  function SymbolsContent(symbols: seq<Symbol>): string {
    if symbols == [] then [] else SymbolsContent(symbols[..|symbols| - 1]) + symbols[|symbols| - 1].content
  }

  function Content(span: Node): string
    requires span.Span?
  {
    SymbolsContent(span.symbols)
  }

  /** A span's length is that of its text; a block's is the sum of its
      children's. */
  function Length(n: Node): nat {
    match n
    case Span(_, _, symbols) => |SymbolsContent(symbols)|
    case Block(_, _, children) => ChildrenLength(children)
    case TagHelperBlock(_, _, _, _, _, _, children) => ChildrenLength(children)
  }

  function ChildrenLength(children: seq<Node>): nat
    decreases children
  {
    if children == [] then 0 else Length(children[0]) + ChildrenLength(children[1..])
  }

  /** A span starts where its text starts; a block starts where its first
      child starts (at Zero when it has none); a tag-helper block starts at its
      start tag. */
  function Start(n: Node): SourceLocation {
    match n
    case Span(_, start, _) => start
    case Block(_, _, children) => if children == [] then Zero else Start(children[0])
    case TagHelperBlock(_, _, _, tagStart, _, _, _) => tagStart
  }

  /** Block.FindFirstDescendentSpan: follow first children down to a span. */
  function FirstDescendentSpan(n: Node): (r: Option<Node>)
    ensures r.Some? ==> r.value.Span?
  {
    if n.Span? then Some(n)
    else if n.children == [] then None
    else FirstDescendentSpan(n.children[0])
  }
}
