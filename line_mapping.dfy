/** CSharpLineMappingWriter: a scope around generated C# code that maps it
    back to its Razor source. It brackets the code with a `#line N "file"`
    directive and `#line default` / `#line hidden`, and registers one
    (document, generated) mapping with the code writer when the scope ends. */
module LineMapping {
  import opened Strings
  import opened Syntax

  /** A location with the length of the content there; -1 in a document
      mapping means "the same length as the generated code". */
  datatype MappingLocation = MappingLocation(location: SourceLocation, contentLength: int)

  datatype LineMapping = LineMapping(documentLocation: MappingLocation, generatedLocation: MappingLocation)

  predicate EndsInNewline(s: string) {
    s != [] && s[|s| - 1] == '\n'
  }

  /** The output after "write a line break unless the last character written
      was one". */
  function EnsureNewline(s: string): (r: string)
    ensures EndsInNewline(r)
    ensures s <= r && |r| <= |s| + 1
    ensures r == s <==> EndsInNewline(s)
  {
    if EndsInNewline(s) then s else s + "\n"
  }

  /** Ensuring a line break twice is ensuring it once. */
  lemma EnsureNewlineIdempotent(s: string)
    ensures EnsureNewline(EnsureNewline(s)) == EnsureNewline(s)
  {
  }

  /** The `#line` directive for a (1-based) line number and file, on a line
      of its own. */
  function LineNumberDirective(lineNumber: nat, file: string): (r: string)
    ensures EndsInNewline(r)
    ensures "#line " <= r
  {
    "#line " + Decimal(lineNumber) + " \"" + file + "\"\n"
  }

  const LineDefaultDirective: string := "#line default\n"
  const LineHiddenDirective: string := "#line hidden\n"

  /** Reads a `#line N "file"` line back: the line number and the file. */
  function ParseLineNumberDirective(line: string): Option<(nat, string)> {
    if |line| < 6 || line[..6] != "#line " then None else ParseNumberAndFile(line[6..])
  }

  function ParseNumberAndFile(rest: string): Option<(nat, string)> {
    var digits := BeforeFirst(rest, ' ');
    if digits == [] || |digits| == |rest| || !AllDigits(digits) then None
    else
      match ParseQuotedFile(rest[|digits| + 1..])
      case None => None
      case Some(file) => Some((ParseDecimal(digits), file))
  }

  function ParseQuotedFile(tail: string): Option<string> {
    if |tail| < 3 || tail[0] != '"' || tail[|tail| - 2..] != "\"\n" then None
    else Some(tail[1..|tail| - 2])
  }

  /** The directive names the line number and the file it was written for. */
  lemma LineNumberDirectiveRoundTrip(lineNumber: nat, file: string)
    ensures ParseLineNumberDirective(LineNumberDirective(lineNumber, file)) == Some((lineNumber, file))
  {
    var digits := Decimal(lineNumber);
    var rest := digits + [' '] + ("\"" + file + "\"\n");
    var line := LineNumberDirective(lineNumber, file);
    assert line == "#line " + rest;
    assert line[..6] == "#line " && line[6..] == rest;
    NumberAndFileParses(digits, file);
    DecimalRoundTrip(lineNumber);
  }

  lemma NumberAndFileParses(digits: string, file: string)
    requires digits != [] && AllDigits(digits)
    ensures ParseNumberAndFile(digits + [' '] + ("\"" + file + "\"\n")) == Some((ParseDecimal(digits), file))
  {
    var tail := "\"" + file + "\"\n";
    var rest := digits + [' '] + tail;
    assert ' ' !in digits by {
      forall i | 0 <= i < |digits| ensures digits[i] != ' ' {
        assert '0' <= digits[i] <= '9';
      }
    }
    BeforeFirstOf(digits, ' ', tail);
    assert rest[|digits| + 1..] == tail;
    QuotedFileParses(file);
  }

  lemma QuotedFileParses(file: string)
    ensures ParseQuotedFile("\"" + file + "\"\n") == Some(file)
  {
    var tail := "\"" + file + "\"\n";
    assert tail[|tail| - 2..] == "\"\n" && tail[1..|tail| - 2] == file;
  }

  /** The location just past the text written so far (the writer's
      GetCurrentSourceLocation). */
  function LocationAfter(output: string): (loc: SourceLocation)
    ensures loc.absoluteIndex == |output|
  {
    Advance(Zero, output)
  }

  /** The minimal CSharpCodeWriter the mapping writer drives: the text
      written so far, the current indent and the line-mapping manager's
      list of mappings. */
  class CodeWriter {
    var output: string
    var currentIndent: int
    var mappings: seq<LineMapping>

    constructor ()
      ensures output == [] && currentIndent == 0 && mappings == []
    {
      output := [];
      currentIndent := 0;
      mappings := [];
    }

    function CurrentLocation(): (loc: SourceLocation)
      reads this
      ensures loc.absoluteIndex == |output|
    {
      LocationAfter(output)
    }

    method Write(text: string)
      modifies this`output
      ensures output == old(output) + text
    {
      output := output + text;
    }

    method WriteLine()
      modifies this`output
      ensures output == old(output) + "\n"
    {
      output := output + "\n";
    }

    method ResetIndent()
      modifies this`currentIndent
      ensures currentIndent == 0
    {
      currentIndent := 0;
    }

    method SetIndent(size: int)
      modifies this`currentIndent
      ensures currentIndent == size
    {
      currentIndent := size;
    }

    method AddMapping(documentLocation: MappingLocation, generatedLocation: MappingLocation)
      modifies this`mappings
      ensures mappings == old(mappings) + [LineMapping(documentLocation, generatedLocation)]
    {
      mappings := mappings + [LineMapping(documentLocation, generatedLocation)];
    }

    method WriteLineNumberDirective(lineNumber: nat, file: string)
      modifies this`output
      ensures output == old(output) + LineNumberDirective(lineNumber, file)
    {
      Write(LineNumberDirective(lineNumber, file));
    }

    method WriteLineDefaultDirective()
      modifies this`output
      ensures output == old(output) + LineDefaultDirective
    {
      Write(LineDefaultDirective);
    }

    method WriteLineHiddenDirective()
      modifies this`output
      ensures output == old(output) + LineHiddenDirective
    {
      Write(LineHiddenDirective);
    }

    /** The line break the mapping writer writes unless the last character
        written was one. */
    method EnsureLineBreak()
      modifies this`output
      ensures output == EnsureNewline(old(output))
    {
      if !(output != [] && output[|output| - 1] == '\n') {
        WriteLine();
      }
    }
  }

  class LineMappingWriter {
    const writer: CodeWriter
    var documentMapping: MappingLocation
    var generatedLocation: SourceLocation
    const startIndent: int
    var generatedContentLength: int

    /** Opens the scope: remembers the document side and the indent, writes
        the line directive at indent 0 on a fresh line, and marks the
        generated code as starting just after it. */
    constructor (writer: CodeWriter, documentLocation: SourceLocation, contentLength: int, sourceFilename: string)
      modifies writer
      ensures this.writer == writer
      ensures documentMapping == MappingLocation(documentLocation, contentLength)
      ensures startIndent == old(writer.currentIndent) && generatedContentLength == 0
      ensures writer.currentIndent == 0
      ensures writer.output ==
        EnsureNewline(old(writer.output)) + LineNumberDirective(documentLocation.lineIndex + 1, sourceFilename)
      ensures writer.mappings == old(writer.mappings)
      ensures generatedLocation == writer.CurrentLocation()
    {
      this.writer := writer;
      documentMapping := MappingLocation(documentLocation, contentLength);
      startIndent := writer.currentIndent;
      generatedContentLength := 0;
      new;
      writer.ResetIndent();
      writer.EnsureLineBreak();
      writer.WriteLineNumberDirective(documentLocation.lineIndex + 1, sourceFilename);
      generatedLocation := writer.CurrentLocation();
    }

    /** The generated code starts here. */
    method MarkLineMappingStart()
      modifies this`generatedLocation
      ensures generatedLocation == writer.CurrentLocation()
    {
      generatedLocation := writer.CurrentLocation();
    }

    /** The generated code ends here. */
    method MarkLineMappingEnd()
      modifies this`generatedContentLength
      ensures generatedContentLength == |writer.output| - generatedLocation.absoluteIndex
    {
      generatedContentLength := |writer.output| - generatedLocation.absoluteIndex;
    }

    /** Closes the scope: measures the generated code unless it was measured
        already (to a nonzero length), lets an unknown (-1) document length
        take the generated length, registers exactly one mapping, ends the
        line, writes `#line default` and `#line hidden`, and restores the
        indent. */
    method Dispose()
      modifies this`generatedContentLength, this`documentMapping, writer
      ensures var length := if old(generatedContentLength) == 0
                            then |old(writer.output)| - generatedLocation.absoluteIndex
                            else old(generatedContentLength);
        generatedContentLength == length &&
        documentMapping == (if old(documentMapping).contentLength == -1
                            then old(documentMapping).(contentLength := length)
                            else old(documentMapping)) &&
        writer.mappings == old(writer.mappings) +
          [LineMapping(documentMapping, MappingLocation(generatedLocation, length))]
      ensures writer.output == EnsureNewline(old(writer.output)) + LineDefaultDirective + LineHiddenDirective
      ensures writer.currentIndent == startIndent
    {
      if generatedContentLength == 0 {
        generatedContentLength := |writer.output| - generatedLocation.absoluteIndex;
      }
      var generated := MappingLocation(generatedLocation, generatedContentLength);
      if documentMapping.contentLength == -1 {
        documentMapping := documentMapping.(contentLength := generated.contentLength);
      }
      writer.AddMapping(documentMapping, MappingLocation(generatedLocation, generatedContentLength));
      writer.EnsureLineBreak();
      writer.WriteLineDefaultDirective();
      writer.WriteLineHiddenDirective();
      writer.SetIndent(startIndent);
    }
  }

  /** The way code generation uses the scope: open it, write the code, close
      it. The output gains the directive, the code, a line break when the
      code did not end with one, and the closing directives; exactly one
      mapping is registered, from the document location (with the length
      given or, when that is -1, the code's length) to the code's location
      and length in the output; the indent is back where it was. */
  method WriteMappedCode(writer: CodeWriter, documentLocation: SourceLocation, contentLength: int,
                         sourceFilename: string, code: string)
    modifies writer
    ensures var preamble := EnsureNewline(old(writer.output)) +
                          LineNumberDirective(documentLocation.lineIndex + 1, sourceFilename);
      var length := if contentLength == -1 then |code| else contentLength;
      writer.output == EnsureNewline(preamble + code) + LineDefaultDirective + LineHiddenDirective &&
      writer.mappings == old(writer.mappings) +
        [LineMapping(MappingLocation(documentLocation, length), MappingLocation(LocationAfter(preamble), |code|))]
    ensures writer.currentIndent == old(writer.currentIndent)
  {
    var scope := new LineMappingWriter(writer, documentLocation, contentLength, sourceFilename);
    writer.Write(code);
    scope.Dispose();
  }

  /** The generated side of that mapping covers exactly the code in the
      output: it starts where the code starts and spans the code. */
  lemma MappedRangeIsCode(preamble: string, code: string)
    ensures var output := EnsureNewline(preamble + code) + LineDefaultDirective + LineHiddenDirective;
      LocationAfter(preamble).absoluteIndex + |code| <= |output| &&
      output[LocationAfter(preamble).absoluteIndex..LocationAfter(preamble).absoluteIndex + |code|] == code
  {
    var output := EnsureNewline(preamble + code) + LineDefaultDirective + LineHiddenDirective;
    var closing := output[|preamble + code|..];
    assert output == preamble + code + closing;
    assert (preamble + code + closing)[|preamble|..|preamble| + |code|] == code;
  }
}
