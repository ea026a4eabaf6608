# Razor tag-helper rewriting and C# line mappings

This project models two parts of the Razor compiler back end and proves
properties of each.

**The tag-helper parse-tree rewriter.** It makes one depth-first pass over the
syntax tree of a Razor page: blocks and spans, where a span is a list of HTML
symbols. It rebuilds the tree through a stack of block builders. A tag block
becomes a tag-helper block when the descriptor provider resolves its name and
attribute names. A second stack holds one tracker per tag helper that is
currently open. A tracker has:

- the helper's name;
- a counter of same-named plain tags that are open inside it;
- the child tags it allows, if any.

The rewriter reports these diagnostics to an error sink:

- text or tags a helper does not allow as children;
- descriptors that disagree on the tag structure;
- a missing `>`;
- end tags of a helper that must not have one;
- stray end tags;
- helpers left without an end tag.

It recovers from malformed markup instead of stopping:

- an end tag force-closes the helpers opened inside the one it closes;
- a block force-closes the helpers still open when it ends.

**The C# line-mapping writer.** It is a scope around generated C# code.

- Opening the scope saves the indent and resets it to 0.
- It makes sure the output ends with a line break.
- It writes a `#line N "file"` directive (section 6.5.8, "Line directives", of the ECMA-334 C# language standard).
- Closing the scope registers one (document, generated) mapping with the code writer.
- It then writes `#line default` and `#line hidden` and restores the indent.

Files:

- `strings.dfy` (module `Strings`): text helpers.
  - whitespace trimming as .NET's `TrimStart`/`TrimEnd` do it;
  - ordinal case-insensitive comparison and `Distinct`;
  - splitting at the first `=`;
  - the decimal rendering of a line number.
- `syntax.dfy` (module `Syntax`): the syntax tree the rewriter reads and writes.
  - source locations and `SourceLocation.Advance`;
  - symbols, spans, blocks and tag-helper blocks;
  - the start, length and content of a node.
- `tag_helper_rules.dfy` (module `TagHelperRules`): the stateless part of the rewriter.
  - reading a tag's name, whether it is an end tag and whether it is partial;
  - the attribute names handed to the provider;
  - the validators' diagnostics;
  - the allowed-children union a tracker computes.
- `tag_helper_rewriter.dfy` (module `TagHelperRewriter`): the rewriter itself.
  - a class whose fields are the tracker stack, the builder stack, the end tags set on builders, the error sink and the finished root;
  - its methods update those fields as the source's methods do.
- `line_mapping.dfy` (module `LineMapping`):
  - a minimal code writer (output buffer, indent, mapping list) as a class;
  - the line-mapping writer as a class over it.

The two collaborators the rewriter calls are parameters of its constructor. Both are deterministic and opaque.

- `provider` stands for `TagHelperDescriptorProvider.GetDescriptors`.
- `bindAttributes` stands for `TagHelperBlockRewriter.Rewrite`, reduced to the tag mode it decides and the errors it reports to the error sink.

## Model

| member | source | states |
|---|---|---|
| Strings.LeadingWhiteSpaceFacts | src/Microsoft.AspNet.Razor/Parser/TagHelpers/TagHelperParseTreeRewriter.cs:292-293 | the prefix `TrimStart` removes is all whitespace and is followed by the end of the text or by a non-whitespace character |
| Strings.TrailingWhiteSpaceFacts | src/Microsoft.AspNet.Razor/Parser/TagHelpers/TagHelperParseTreeRewriter.cs:295 | the suffix `TrimEnd` removes is all whitespace and is preceded by the start of the text or by a non-whitespace character |
| Strings.TrimIsSlice | src/Microsoft.AspNet.Razor/Parser/TagHelpers/TagHelperParseTreeRewriter.cs:292-295 | the text trimmed at both ends is the contiguous part of the content that starts right after the leading whitespace |
| Strings.TrimDropsOnlyWhiteSpace | src/Microsoft.AspNet.Razor/Parser/TagHelpers/TagHelperParseTreeRewriter.cs:292-295 | every character outside the trimmed text is whitespace |
| Strings.TrimKeepsNonWhiteSpace | src/Microsoft.AspNet.Razor/Parser/TagHelpers/TagHelperParseTreeRewriter.cs:290-295 | the trimmed text is empty exactly when the content is all whitespace (`IsNullOrWhiteSpace`); otherwise its first and last characters are not whitespace |
| Strings.DistinctNames | src/Microsoft.AspNet.Razor/Parser/TagHelpers/TagHelperParseTreeRewriter.cs:560-562 | `Distinct(OrdinalIgnoreCase)`: the result contains a name (ignoring case) exactly when the input does; no two of its names are equal ignoring case; every result name is one of the input's spellings |
| Strings.ContainsNameAppend | src/Microsoft.AspNet.Razor/Parser/TagHelpers/TagHelperParseTreeRewriter.cs:320 | after appending x, a list contains a name (ignoring case) exactly when it already did or the name is x |
| Strings.BeforeFirst | src/Microsoft.AspNet.Razor/Parser/TagHelpers/TagHelperParseTreeRewriter.cs:275 | element 0 of `Split('=', 2)` is a prefix of the text, contains no `=`, and is followed by `=` when it is not the whole text |
| Strings.BeforeFirstOf | src/Microsoft.AspNet.Razor/Parser/TagHelpers/TagHelperParseTreeRewriter.cs:275 | splitting `prefix = rest` (with no `=` in prefix) yields exactly prefix, and so does splitting prefix alone |
| Strings.Decimal | src/Microsoft.AspNet.Razor/Generator/Compiler/CodeBuilder/CSharp/CSharpLineMappingWriter.cs:33 | the rendered line number is a non-empty string of decimal digits |
| Strings.DecimalRoundTrip | src/Microsoft.AspNet.Razor/Generator/Compiler/CodeBuilder/CSharp/CSharpLineMappingWriter.cs:33 | the rendered line number reads back as the same number and has no leading zero |
| Syntax.Advance | src/Microsoft.AspNet.Razor/Parser/TagHelpers/TagHelperParseTreeRewriter.cs:294 | advancing a location over some text moves its absolute index by the text's length and never moves it to an earlier line |
| Syntax.FirstDescendentSpan | src/Microsoft.AspNet.Razor/Parser/TagHelpers/TagHelperParseTreeRewriter.cs:261-266 | `FindFirstDescendentSpan` yields a span or nothing |
| TagHelperRules.FirstTextOrWhiteSpace | src/Microsoft.AspNet.Razor/Parser/TagHelpers/TagHelperParseTreeRewriter.cs:525 | `FirstHtmlSymbolAs(WhiteSpace \| Text)`: the index found holds a text or whitespace symbol and no earlier one does; with no index, no symbol does |
| TagHelperRules.GetTagName | src/Microsoft.AspNet.Razor/Parser/TagHelpers/TagHelperParseTreeRewriter.cs:515-533 | a name is found exactly when the block is a Tag block whose first child is a span holding a Text symbol with no text or whitespace symbol before it; the name is that symbol's content |
| TagHelperRules.GetTagNameAsWritten | src/Microsoft.AspNet.Razor/Parser/TagHelpers/TagHelperParseTreeRewriter.cs:517-519 | as the source evaluates it; on a block with children it returns what GetTagName does |
| TagHelperRules.IsEndTag | src/Microsoft.AspNet.Razor/Parser/TagHelpers/TagHelperParseTreeRewriter.cs:535-544 | a tag is an end tag when the symbol after its `<` is `/`; TagHelperRules.TagShapes and TagHelperRules.PartialTagShape show `</name>` read as an end tag and `<name …` as a start tag |
| TagHelperRules.IsPartialTag | src/Microsoft.AspNet.Razor/Parser/TagHelpers/TagHelperParseTreeRewriter.cs:388-405 | a tag is complete only when its last child is a markup span ending in `>`; TagHelperRules.TagShapes shows `<name … >` complete and TagHelperRules.PartialTagShape shows a tag cut off before its `>` partial |
| TagHelperRules.IsPotentialTagHelper | src/Microsoft.AspNet.Razor/Parser/TagHelpers/TagHelperParseTreeRewriter.cs:441-451 | only the text tag after a transition is excluded, its name compared ignoring case; TagHelperRules.TextTagOnlyAfterTransition shows `TeXt` excluded after a transition and kept after markup, and `textarea` kept |
| TagHelperRules.TextTagOnlyAfterTransition | src/Microsoft.AspNet.Razor/Parser/TagHelpers/TagHelperParseTreeRewriter.cs:441-451 | `<TeXt` and `<text` after a transition are not tag helpers; `<textarea` after a transition and `<TeXt` after markup may be |
| TagHelperRules.EmptyTagBlockThrows | src/Microsoft.AspNet.Razor/Parser/TagHelpers/TagHelperParseTreeRewriter.cs:517-522 | on an empty Tag block the code as written throws, whereas the guard it contains means "no name" |
| TagHelperRules.AttributeChildren | src/Microsoft.AspNet.Razor/Parser/TagHelpers/TagHelperParseTreeRewriter.cs:251-252 | the attribute children are all children but the first, and also all but the last unless the tag is partial |
| TagHelperRules.AttributeNameShape | src/Microsoft.AspNet.Razor/Parser/TagHelpers/TagHelperParseTreeRewriter.cs:273-276 | the text before the first `=`, with its leading whitespace trimmed, holds no `=` and does not start with whitespace |
| TagHelperRules.AttributeNamesFromChildren | src/Microsoft.AspNet.Razor/Parser/TagHelpers/TagHelperParseTreeRewriter.cs:255-281 | there are no more names than attribute children, and each name is the attribute name read from the first descendent span of one of them |
| TagHelperRules.AttributeNamesShape | src/Microsoft.AspNet.Razor/Parser/TagHelpers/TagHelperParseTreeRewriter.cs:255-281 | no name handed to the provider contains `=` or starts with whitespace |
| TagHelperRules.AttributeNamesOneEach | src/Microsoft.AspNet.Razor/Parser/TagHelpers/TagHelperParseTreeRewriter.cs:255-281 | when every attribute child has a first descendent span, the names are one per child, in order, each the attribute name of that child's span |
| TagHelperRules.AttributeNameRoundTrip | src/Microsoft.AspNet.Razor/Parser/TagHelpers/TagHelperParseTreeRewriter.cs:273-276 | the attribute text `ws name=value`, or `ws name`, yields exactly name |
| TagHelperRules.AttributeNames | src/Microsoft.AspNet.Razor/Parser/TagHelpers/TagHelperParseTreeRewriter.cs:248-282 | the attribute names of a tag, read from its attribute children; their meaning is TagHelperRules.AttributeNamesOfTag |
| TagHelperRules.AttributeNamesOfTag | src/Microsoft.AspNet.Razor/Parser/TagHelpers/TagHelperParseTreeRewriter.cs:248-282 | a tag yields at most one name per attribute child, none holding `=` or starting with whitespace; when every attribute child has a span, exactly one name per child, in order, each the name read from that child |
| TagHelperRules.LeadingWhiteSpaceOf | src/Microsoft.AspNet.Razor/Parser/TagHelpers/TagHelperParseTreeRewriter.cs:276 | `TrimStart` on whitespace followed by a name removes exactly that whitespace |
| TagHelperRules.LastSpecified | src/Microsoft.AspNet.Razor/Parser/TagHelpers/TagHelperParseTreeRewriter.cs:349-368 | `baseDescriptor`: the structure of the last descriptor that specifies one, with every later descriptor Unspecified; none when all are Unspecified |
| TagHelperRules.StructureConflicts | src/Microsoft.AspNet.Razor/Parser/TagHelpers/TagHelperParseTreeRewriter.cs:349-369 | the positions the loop reports at lie within the descriptors scanned and are strictly increasing, so no descriptor is reported twice |
| TagHelperRules.LastSpecifiedStep | src/Microsoft.AspNet.Razor/Parser/TagHelpers/TagHelperParseTreeRewriter.cs:352-367 | one more descriptor updates `baseDescriptor` exactly when it specifies a structure |
| TagHelperRules.StructureConflictsFrom | src/Microsoft.AspNet.Razor/Parser/TagHelpers/TagHelperParseTreeRewriter.cs:350-369 | from any point of the loop on, it reports exactly the later descriptors whose structure differs from the closest earlier specified one |
| TagHelperRules.StructureConflictsExactly | src/Microsoft.AspNet.Razor/Parser/TagHelpers/TagHelperParseTreeRewriter.cs:341-370 | ValidateDescriptors reports at exactly the descriptors whose specified structure differs from the previous specified one |
| TagHelperRules.ConflictBefore | src/Microsoft.AspNet.Razor/Parser/TagHelpers/TagHelperParseTreeRewriter.cs:352-367 | two specified descriptors that disagree have a reported conflict between them |
| TagHelperRules.ConsistentHasNoConflict | src/Microsoft.AspNet.Razor/Parser/TagHelpers/TagHelperParseTreeRewriter.cs:352-367 | when all specified structures agree, no descriptor is a conflict |
| TagHelperRules.InconsistentHasConflict | src/Microsoft.AspNet.Razor/Parser/TagHelpers/TagHelperParseTreeRewriter.cs:352-367 | when two specified structures disagree, some descriptor is a conflict |
| TagHelperRules.NoConflictIffConsistent | src/Microsoft.AspNet.Razor/Parser/TagHelpers/TagHelperParseTreeRewriter.cs:347-369 | no InconsistentTagStructure error is reported exactly when all specified structures agree |
| TagHelperRules.StructureErrorsPerConflict | src/Microsoft.AspNet.Razor/Parser/TagHelpers/TagHelperParseTreeRewriter.cs:341-370 | ValidateDescriptors reports exactly as many errors as there are conflicting descriptors, each an InconsistentTagStructure error over the tag |
| TagHelperRules.DeclaredChildrenContains | src/Microsoft.AspNet.Razor/Parser/TagHelpers/TagHelperParseTreeRewriter.cs:560-561 | the concatenated allowed-children lists contain a name (ignoring case) exactly when some descriptor's list does |
| TagHelperRules.AllowedChildren | src/Microsoft.AspNet.Razor/Parser/TagHelpers/TagHelperParseTreeRewriter.cs:558-563 | the tracker restricts children exactly when some descriptor does; it then allows exactly the names some descriptor declares (ignoring case), each once |
| TagHelperRules.AllowedChildrenAsWritten | src/Microsoft.AspNet.Razor/Parser/TagHelpers/TagHelperParseTreeRewriter.cs:558-562 | as the source evaluates it, Throws standing for an enumeration that reaches a null list; when every descriptor declares a list, the union is what AllowedChildren yields |
| TagHelperRules.MixedAllowedChildrenThrows | src/Microsoft.AspNet.Razor/Parser/TagHelpers/TagHelperParseTreeRewriter.cs:558-562 | for one descriptor allowing `span` and one with no list, the union as written throws, whereas the intended union allows `SPAN` |
| TagHelperRules.ContentErrorShape | src/Microsoft.AspNet.Razor/Parser/TagHelpers/TagHelperParseTreeRewriter.cs:284-305 | one CannotHaveNonTagContent error exactly when children are restricted and the text is not all whitespace; it starts past the leading whitespace and covers the text from its first to its last non-whitespace character |
| TagHelperRules.TagShapes | src/Microsoft.AspNet.Razor/Parser/TagHelpers/TagHelperParseTreeRewriter.cs:388-405 | `<name … >` reads as a complete start tag named name whose attribute children lie between its first and last child; `</name>` reads as a complete end tag named name |
| TagHelperRules.PartialTagShape | src/Microsoft.AspNet.Razor/Parser/TagHelpers/TagHelperParseTreeRewriter.cs:248-252 | `<name` followed by attribute blocks and no `>` reads as a partial start tag named name; all its children after the first hold attributes, and it reports one MissingCloseAngle error at its start over its whole length |
| TagHelperRewriter.AppendToTop | src/Microsoft.AspNet.Razor/Parser/TagHelpers/TagHelperParseTreeRewriter.cs:86 | adding a child to the current builder keeps the builder stack's height |
| TagHelperRewriter.PopInto | src/Microsoft.AspNet.Razor/Parser/TagHelpers/TagHelperParseTreeRewriter.cs:410-422 | building the current builder into its parent lowers the stack by one |
| TagHelperRewriter.PopIntoFacts | src/Microsoft.AspNet.Razor/Parser/TagHelpers/TagHelperParseTreeRewriter.cs:410-422 | that build leaves every builder below the parent untouched and keeps the bottom builder the same block |
| TagHelperRewriter.ForceClose | src/Microsoft.AspNet.Razor/Parser/TagHelpers/TagHelperParseTreeRewriter.cs:501-512 | force-closing n helpers lowers the builder stack by n |
| TagHelperRewriter.ForceCloseFacts | src/Microsoft.AspNet.Razor/Parser/TagHelpers/TagHelperParseTreeRewriter.cs:501-512 | force-closing n helpers leaves every builder below the n + 1 topmost ones untouched and keeps the bottom builder the same block |
| TagHelperRewriter.ClosedTagsMeaning | src/Microsoft.AspNet.Razor/Parser/TagHelpers/TagHelperParseTreeRewriter.cs:511 | force-closing leaves the builders of exactly the force-closed trackers with a null end tag and every other builder's end tag as it was |
| TagHelperRewriter.MalformedErrorsInnermostFirst | src/Microsoft.AspNet.Razor/Parser/TagHelpers/TagHelperParseTreeRewriter.cs:501-512 | force-closing n helpers reports exactly n MalformedTagHelper errors; the i-th is for the i-th innermost helper, at its start and over its start tag's length |
| TagHelperRewriter.MatchDepth | src/Microsoft.AspNet.Razor/Parser/TagHelpers/TagHelperParseTreeRewriter.cs:470-480 | the count of trackers above the innermost one with the name (ignoring case): none above it matches, and the one at that depth does; the count is the stack height when none matches |
| TagHelperRewriter.MatchesTop | src/Microsoft.AspNet.Razor/Parser/TagHelpers/TagHelperParseTreeRewriter.cs:141-143 | the tag name equals the current tracker's name, ignoring case; TagHelperRewriter.MatchesTopIsDepthZero ties it to MatchDepth |
| TagHelperRewriter.MatchesTopIsDepthZero | src/Microsoft.AspNet.Razor/Parser/TagHelpers/TagHelperParseTreeRewriter.cs:179-185 | the name matches the current tracker exactly when the stack is not empty and the innermost tracker with that name is the current one |
| TagHelperRewriter.NewTracker | src/Microsoft.AspNet.Razor/Parser/TagHelpers/TagHelperParseTreeRewriter.cs:554-564 | the tracker for a new tag-helper builder; its meaning is TagHelperRewriter.NewTrackerMeaning |
| TagHelperRewriter.NewTrackerMeaning | src/Microsoft.AspNet.Razor/Parser/TagHelpers/TagHelperParseTreeRewriter.cs:554-564 | a new tracker refers to its builder and start tag, with no same-named tag open; it restricts children exactly when some descriptor has an allowed-children list; it then allows a name exactly when some descriptor declares it (ignoring case), each name once |
| TagHelperRewriter.TagHelperParseTreeRewriter.constructor | src/Microsoft.AspNet.Razor/Parser/TagHelpers/TagHelperParseTreeRewriter.cs:24-29 | empty stacks, no errors, no result |
| TagHelperRewriter.TagHelperParseTreeRewriter.Rewrite | src/Microsoft.AspNet.Razor/Parser/TagHelpers/TagHelperParseTreeRewriter.cs:31-36 | both stacks end empty; the rebuilt root is a block of the input root's type and chunk generator; errors are only added; a tree with no tags comes back equal to itself with no errors |
| TagHelperRewriter.TagHelperParseTreeRewriter.TrackBlock | src/Microsoft.AspNet.Razor/Parser/TagHelpers/TagHelperParseTreeRewriter.cs:453-458 | the builder is pushed and becomes current |
| TagHelperRewriter.TagHelperParseTreeRewriter.TrackTagHelperBlock | src/Microsoft.AspNet.Razor/Parser/TagHelpers/TagHelperParseTreeRewriter.cs:460-466 | a tracker for the builder, with the builder's name, a zero counter and the union of its descriptors' allowed children, is pushed; the builder is pushed |
| TagHelperRewriter.TagHelperParseTreeRewriter.BuildCurrentlyTrackedBlock | src/Microsoft.AspNet.Razor/Parser/TagHelpers/TagHelperParseTreeRewriter.cs:407-428 | the current builder is built into its parent, or becomes the result when it is the outermost one; the bottom builder stays the same block |
| TagHelperRewriter.TagHelperParseTreeRewriter.BuildCurrentlyTrackedTagHelperBlock | src/Microsoft.AspNet.Razor/Parser/TagHelpers/TagHelperParseTreeRewriter.cs:430-439 | the current tracker is popped; its builder gets the end tag; the current builder is built into its parent |
| TagHelperRewriter.TagHelperParseTreeRewriter.BuildMalformedTagHelpers | src/Microsoft.AspNet.Razor/Parser/TagHelpers/TagHelperParseTreeRewriter.cs:499-513 | the count innermost trackers are popped, innermost first; each gets one MalformedTagHelper error and a null end tag; their builders are built into their parents in turn; a count of zero or less changes nothing |
| TagHelperRewriter.TagHelperParseTreeRewriter.TryRecoverTagHelper | src/Microsoft.AspNet.Razor/Parser/TagHelpers/TagHelperParseTreeRewriter.cs:468-497 | recovers exactly when some tracker has the name; the k trackers above the innermost such one are force-closed with one error each, and that one is closed with the end tag; with no match nothing changes |
| TagHelperRewriter.TagHelperParseTreeRewriter.ValidateParentTagHelperAllowsContent | src/Microsoft.AspNet.Razor/Parser/TagHelpers/TagHelperParseTreeRewriter.cs:284-305 | appends the content errors of the span under the current tracker's allowed children (see ContentErrorShape) |
| TagHelperRewriter.TagHelperParseTreeRewriter.ValidateParentTagHelperAllowsPlainTag | src/Microsoft.AspNet.Razor/Parser/TagHelpers/TagHelperParseTreeRewriter.cs:307-313 | one InvalidNestedTag error, over the tag, exactly when the current tracker restricts children |
| TagHelperRewriter.TagHelperParseTreeRewriter.ValidateParentTagHelperAllowsTagHelper | src/Microsoft.AspNet.Razor/Parser/TagHelpers/TagHelperParseTreeRewriter.cs:315-339 | one InvalidNestedTag error, over the tag, exactly when the current tracker restricts children and does not allow the name (ignoring case) |
| TagHelperRewriter.TagHelperParseTreeRewriter.ValidateDescriptors | src/Microsoft.AspNet.Razor/Parser/TagHelpers/TagHelperParseTreeRewriter.cs:341-370 | appends the loop's errors: one InconsistentTagStructure error over the tag per conflicting descriptor (see StructureErrorsPerConflict) |
| TagHelperRewriter.TagHelperParseTreeRewriter.ValidateTagSyntax | src/Microsoft.AspNet.Razor/Parser/TagHelpers/TagHelperParseTreeRewriter.cs:372-386 | the tag is valid exactly when it is not partial; a partial tag gets one MissingCloseAngle error |
| TagHelperRewriter.TagHelperParseTreeRewriter.TryRewriteTagHelper | src/Microsoft.AspNet.Razor/Parser/TagHelpers/TagHelperParseTreeRewriter.cs:104-124 | a tag without a name, or Razor's own `<text>` tag, changes nothing and is not a helper; only a start tag can add trackers and only an end tag can remove them; a declined tag leaves the builders, the end tags, the tracker depth and the current allowed children as they were, and a declined start tag reports nothing |
| TagHelperRewriter.TagHelperParseTreeRewriter.RewriteStartTag | src/Microsoft.AspNet.Razor/Parser/TagHelpers/TagHelperParseTreeRewriter.cs:125-175 | no descriptors: not a helper, and the counter of a same-named current tracker goes up by one; otherwise the three validators' errors in order, then the binding rewrite's errors, then the helper is tracked, or built at once without an end tag when its mode is SelfClosing or StartTagOnly, leaving both stack depths unchanged |
| TagHelperRewriter.TagHelperParseTreeRewriter.OpenTagHelper | src/Microsoft.AspNet.Razor/Parser/TagHelpers/TagHelperParseTreeRewriter.cs:162-174 | a new helper builder is tracked and pushed; when its mode expects no content, it is popped again at once and appended to its parent as a tag-helper block with no end tag |
| TagHelperRewriter.TagHelperParseTreeRewriter.RewriteEndTag | src/Microsoft.AspNet.Razor/Parser/TagHelpers/TagHelperParseTreeRewriter.cs:176-243 | the current helper's name with a positive counter: the counter goes down by one and nothing closes; with a zero counter: the helper is closed with this end tag; any other name: as RewriteUnscopedEndTag |
| TagHelperRewriter.TagHelperParseTreeRewriter.RewriteUnscopedEndTag | src/Microsoft.AspNet.Razor/Parser/TagHelpers/TagHelperParseTreeRewriter.cs:194-241 | no descriptors: ignored; a WithoutEndTag descriptor: one error and the stacks unchanged; a tracker k levels down with the name: k force-closed with one error each, then that one closed with this end tag; none: one MalformedTagHelper error over the tag and the stacks unchanged |
| TagHelperRewriter.TagHelperParseTreeRewriter.RewriteTags | src/Microsoft.AspNet.Razor/Parser/TagHelpers/TagHelperParseTreeRewriter.cs:38-102 | trackers left open by the block's children are force-closed, innermost first, with one MalformedTagHelper error each; the tracker depth never ends above its depth on entry; the outermost call leaves both stacks empty and a result of the input's type; outside a helper that restricts its children, a block with no tags is appended to the current builder (or becomes the result) equal to itself, with no errors |
| TagHelperRewriter.TagHelperParseTreeRewriter.RewriteChildren | src/Microsoft.AspNet.Razor/Parser/TagHelpers/TagHelperParseTreeRewriter.cs:49-87 | the children loop keeps the builder stack above the tracker stack by the same amount and only adds errors; outside a helper that restricts its children, a block with no tags has all its children appended, in order, to the current builder, with no errors |
| TagHelperRewriter.TagHelperParseTreeRewriter.RewriteChild | src/Microsoft.AspNet.Razor/Parser/TagHelpers/TagHelperParseTreeRewriter.cs:49-87 | text is validated against the allowed children and appended unchanged; so is a tag that cannot be a tag helper; only a possible tag helper is absorbed; a tag TryRewriteTagHelper declines is appended unchanged after its errors (none for a start tag) and the plain-tag check, with the builders below, the end tags and the current allowed children as they were; any other block is rebuilt in place, equal to itself when it has no tags and no helper restricts its children |
| LineMapping.EnsureNewline | src/Microsoft.AspNet.Razor/Generator/Compiler/CodeBuilder/CSharp/CSharpLineMappingWriter.cs:28-31 | the output ends with a line break, one is added only when it did not, and nothing else changes |
| LineMapping.EnsureNewlineIdempotent | src/Microsoft.AspNet.Razor/Generator/Compiler/CodeBuilder/CSharp/CSharpLineMappingWriter.cs:66-69 | ensuring a line break a second time adds nothing |
| LineMapping.LineNumberDirective | src/Microsoft.AspNet.Razor/Generator/Compiler/CodeBuilder/CSharp/CSharpLineMappingWriter.cs:33 | the directive starts with `#line ` and ends its line |
| LineMapping.LineNumberDirectiveRoundTrip | src/Microsoft.AspNet.Razor/Generator/Compiler/CodeBuilder/CSharp/CSharpLineMappingWriter.cs:33 | the directive reads back as the line number and file it was written for |
| LineMapping.NumberAndFileParses | src/Microsoft.AspNet.Razor/Generator/Compiler/CodeBuilder/CSharp/CSharpLineMappingWriter.cs:33 | digits, a space and a quoted file read back as the number and the file |
| LineMapping.QuotedFileParses | src/Microsoft.AspNet.Razor/Generator/Compiler/CodeBuilder/CSharp/CSharpLineMappingWriter.cs:33 | a quoted file name ending the line reads back as the file name |
| LineMapping.LocationAfter | src/Microsoft.AspNet.Razor/Generator/Compiler/CodeBuilder/CSharp/CSharpLineMappingWriter.cs:35 | the writer's current location has the output's length as its absolute index |
| LineMapping.CodeWriter.constructor | src/Microsoft.AspNet.Razor/Generator/Compiler/CodeBuilder/CSharp/CSharpLineMappingWriter.cs:12 | an empty output, indent 0 and no mappings |
| LineMapping.CodeWriter.CurrentLocation | src/Microsoft.AspNet.Razor/Generator/Compiler/CodeBuilder/CSharp/CSharpLineMappingWriter.cs:35 | `GetCurrentSourceLocation` is at the end of the output |
| LineMapping.CodeWriter.Write | src/Microsoft.AspNet.Razor/Generator/Compiler/CodeBuilder/CSharp/CSharpLineMappingWriter.cs:33 | the text is appended to the output |
| LineMapping.CodeWriter.WriteLine | src/Microsoft.AspNet.Razor/Generator/Compiler/CodeBuilder/CSharp/CSharpLineMappingWriter.cs:30 | a line break is appended |
| LineMapping.CodeWriter.ResetIndent | src/Microsoft.AspNet.Razor/Generator/Compiler/CodeBuilder/CSharp/CSharpLineMappingWriter.cs:25 | the indent becomes 0 |
| LineMapping.CodeWriter.SetIndent | src/Microsoft.AspNet.Razor/Generator/Compiler/CodeBuilder/CSharp/CSharpLineMappingWriter.cs:75 | the indent becomes the given size |
| LineMapping.CodeWriter.AddMapping | src/Microsoft.AspNet.Razor/Generator/Compiler/CodeBuilder/CSharp/CSharpLineMappingWriter.cs:62-64 | exactly one mapping pair is appended |
| LineMapping.CodeWriter.WriteLineNumberDirective | src/Microsoft.AspNet.Razor/Generator/Compiler/CodeBuilder/CSharp/CSharpLineMappingWriter.cs:33 | the `#line N "file"` directive is appended |
| LineMapping.CodeWriter.WriteLineDefaultDirective | src/Microsoft.AspNet.Razor/Generator/Compiler/CodeBuilder/CSharp/CSharpLineMappingWriter.cs:71 | `#line default` is appended on a line of its own |
| LineMapping.CodeWriter.WriteLineHiddenDirective | src/Microsoft.AspNet.Razor/Generator/Compiler/CodeBuilder/CSharp/CSharpLineMappingWriter.cs:72 | `#line hidden` is appended on a line of its own |
| LineMapping.CodeWriter.EnsureLineBreak | src/Microsoft.AspNet.Razor/Generator/Compiler/CodeBuilder/CSharp/CSharpLineMappingWriter.cs:28-31 | a line break is written unless the last character written was one |
| LineMapping.LineMappingWriter.constructor | src/Microsoft.AspNet.Razor/Generator/Compiler/CodeBuilder/CSharp/CSharpLineMappingWriter.cs:18-36 | records the document side and the current indent; the indent becomes 0; the output gets a line break if needed and then the directive for line index + 1; the generated start is the location right after the directive; no mapping is added |
| LineMapping.LineMappingWriter.MarkLineMappingStart | src/Microsoft.AspNet.Razor/Generator/Compiler/CodeBuilder/CSharp/CSharpLineMappingWriter.cs:38-41 | the generated start moves to the end of the current output |
| LineMapping.LineMappingWriter.MarkLineMappingEnd | src/Microsoft.AspNet.Razor/Generator/Compiler/CodeBuilder/CSharp/CSharpLineMappingWriter.cs:43-46 | the generated length becomes the output length minus the generated start's index |
| LineMapping.LineMappingWriter.Dispose | src/Microsoft.AspNet.Razor/Generator/Compiler/CodeBuilder/CSharp/CSharpLineMappingWriter.cs:48-76 | the length is computed only when it is still 0; a -1 document length takes the generated length; exactly one mapping pair is added; the output gets a line break if needed, then `#line default` and `#line hidden`; the indent saved at construction is restored |
| LineMapping.WriteMappedCode | test/Microsoft.AspNet.Razor.Test/TestFiles/CodeGenerator/Output/TagHelpersWithWeirdlySpacedAttributes.cs:41-45 | a whole scope around some code writes the directive, the code, a line break if needed, `#line default` and `#line hidden`, in that order; it registers one mapping from the document location to the code's location and length; the indent ends where it started |
| LineMapping.MappedRangeIsCode | src/Microsoft.AspNet.Razor/Generator/Compiler/CodeBuilder/CSharp/CSharpLineMappingWriter.cs:35-64 | the generated side of that mapping covers exactly the code in the final output |

## Left out

- Text is compared and trimmed over ASCII only. `IsWhiteSpace` covers space, tab, line feed, vertical tab, form feed and carriage return. Case folding covers `a`-`z`. The other Unicode whitespace and case mappings of .NET are left out.
- Diagnostics carry a kind, a location and a length. The formatted `RazorResources` messages (tag names, type names, allowed-children lists) are left out.
- `TagHelperDescriptorProvider.GetDescriptors` and `TagHelperBlockRewriter.Rewrite` are not part of this model.
  - They are the constructor parameters `provider` and `bindAttributes`.
  - The rebuilt tag helper is reduced to its name, mode, descriptors, start tag, start location (`Start(tag)`) and end tag.
  - The attribute values and attribute children the binding rewrite produces are left out. The errors it reports are kept, as a list appended after the syntax errors.
- TagHelperRewriter.TagHelperParseTreeRewriter.RewriteTags: does not promise that the tracker depth on exit equals the depth on entry, although the `Debug.Assert` at :98 expects it. An end tag inside a nested non-tag block can close a helper opened outside that block, as in `<a>@if (true) { </a> }` when `a` is a tag helper. After such a close, the depth ends below the entry depth.
- TagHelperRewriter.TagHelperParseTreeRewriter.TryRewriteTagHelper: its own contract gives the outcomes shared by several cases (no name, declined, start or end tag). The outcome of each case is the contract of RewriteStartTag, RewriteEndTag and RewriteUnscopedEndTag, which split its body.
- TagHelperRewriter.TagHelperParseTreeRewriter.RewriteChild: for a block that is not a tag, the rebuilt block is stated only when it holds no tags and no helper restricts its children. Otherwise only RewriteTags' promises about the stacks and the errors apply.
- Syntax.Advance: a line feed is the only line break it knows. A carriage return, and any other line separator, moves the location one column right.
- TagHelperRewriter.MatchesTop: an empty tag name with no open tag helper counts as no match. The source compares it with `string.Empty` and then dereferences the missing tracker (:141-143, :179-185).
- Builder objects are not modelled as references.
  - A tracker holds its builder's id.
  - The end tag set on a builder (`SourceEndTag`) lives in a map from id to end tag.
  - `Build` reads that map.
  - `_currentTagHelperTracker` and `_currentBlock` are the tops of the two stacks.
- `OpenMatchingTags` is a `uint` in the source and a `nat` here. It is decremented only when positive, so the 32-bit range is never left by going down. Overflow after 2^32 nested same-named tags is not modelled.
- `RewritingContext`, `Debug.Assert` and `EnsureTagBlock` are left out. The error sink is the `errors` field.
- `SyntaxTreeNode`, `Block`, `Span`, `BlockBuilder` and the HTML tokenizer are not part of this model. They are replaced by the `Node` and `Frame` datatypes and by symbols with a kind and content.
- `CSharpCodeWriter` is not part of this model.
  - Its stand-in, `CodeWriter`, keeps the output text, the indent and the mapping list.
  - `LastWrite.Last()` is read as the last character of the output; on an empty output, where the source's `Last()` would throw, a line break is written.
  - A line break is `"\n"`.
  - `GetCurrentSourceLocation` is the location reached by advancing from the start over the whole output.
  - Indentation is recorded but not applied to the text written.

## Findings

| source | as written | input that shows it | evidently intended | confidence | as-written member | corrected member |
|---|---|---|---|---|---|---|
| src/Microsoft.AspNet.Razor/Parser/TagHelpers/TagHelperParseTreeRewriter.cs:517-519 | `Children.First()` is evaluated before the test `!tagBlock.Children.Any()`, so the test can never make GetTagName return null | a Tag block with no children | no tag name (null), as the test says | not executed; medium (the parser may never build an empty tag block) | TagHelperRules.GetTagNameAsWritten, TagHelperRules.EmptyTagBlockThrows | TagHelperRules.GetTagName |
| src/Microsoft.AspNet.Razor/Parser/TagHelpers/TagHelperParseTreeRewriter.cs:558-562 | the union is a `SelectMany` over every descriptor's `AllowedChildren`, including those that are null; it is enumerated lazily, so reading it throws once the enumeration reaches a null list: always for the full enumeration `string.Join` does in the error messages (:296, :332), and for `Contains` (:320) when no list before the null declares the name | two descriptors for one tag, one allowing only `span` and one with no allowed-children list, and non-whitespace text or a plain tag inside that helper (its error message joins the whole union) | the union of the lists that exist | not executed; high | TagHelperRules.AllowedChildrenAsWritten, TagHelperRules.MixedAllowedChildrenThrows | TagHelperRules.AllowedChildren |
