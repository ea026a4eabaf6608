/** The stateless rules of the tag-helper rewriter: how a tag block's name,
    kind (start or end tag) and completeness are read off its symbols, which
    attribute names are handed to the descriptor provider, and which
    diagnostics the validators report. */
module TagHelperRules {
  import opened Strings
  import opened Syntax

  datatype ErrorKind =
    | MissingCloseAngle
    | InconsistentTagStructure
    | InvalidNestedTag
    | CannotHaveNonTagContent
    | EndTagTagHelperMustNotHaveAnEndTag
    | MalformedTagHelper

  /** One report to the error sink: what, where, and over how many characters. */
  datatype Diagnostic = Diagnostic(kind: ErrorKind, location: SourceLocation, length: nat)

  /** The outcome of a .NET expression that may throw. */
  datatype Evaluation<+T> = Returns(value: T) | Throws

  /** The name of the special <text> tag (SyntaxConstants.TextTagName). */
  const TextTagName := "text"

  predicate IsTextOrWhiteSpace(kind: HtmlSymbolType) {
    kind == Text || kind == WhiteSpace
  }

  /** Index of the first text or whitespace symbol (FirstHtmlSymbolAs). */
  function FirstTextOrWhiteSpace(symbols: seq<Symbol>): (r: Option<nat>)
    ensures r.Some? ==> r.value < |symbols| && IsTextOrWhiteSpace(symbols[r.value].kind)
    ensures forall i | 0 <= i < |symbols| && (r.None? || i < r.value) :: !IsTextOrWhiteSpace(symbols[i].kind)
  {
    if symbols == [] then None
    else if IsTextOrWhiteSpace(symbols[0].kind) then Some(0)
    else
      match FirstTextOrWhiteSpace(symbols[1..])
      case None => None
      case Some(i) => Some(i + 1)
  }

  /** Symbol i is a Text symbol and no text or whitespace symbol precedes it. */
  predicate NameSymbolAt(symbols: seq<Symbol>, i: nat) {
    i < |symbols| && symbols[i].kind == Text &&
    forall j | 0 <= j < i :: !IsTextOrWhiteSpace(symbols[j].kind)
  }

  /** A Tag block whose first child is a span. */
  predicate HasNameSpan(tag: Node)
    requires tag.IsBlock()
  {
    tag.Type() == BlockType.Tag && tag.children != [] && tag.children[0].Span?
  }

  /** GetTagName: the first text-or-whitespace symbol of the first child of a
      Tag block, provided that child is a span and the symbol is text. */
  function GetTagName(tag: Node): (name: Option<string>)
    requires tag.IsBlock()
    ensures name.Some? <==> HasNameSpan(tag) && exists i: nat :: NameSymbolAt(tag.children[0].symbols, i)
    ensures name.Some? ==>
      exists i: nat :: NameSymbolAt(tag.children[0].symbols, i) && tag.children[0].symbols[i].content == name.value
  {
    if !HasNameSpan(tag) then None
    else
      var symbols := tag.children[0].symbols;
      match FirstTextOrWhiteSpace(symbols)
      case None =>
        assert forall k: nat :: !NameSymbolAt(symbols, k);
        None
      case Some(i) =>
        if symbols[i].kind == WhiteSpace then
          assert IsTextOrWhiteSpace(symbols[i].kind);
          assert forall k: nat :: !NameSymbolAt(symbols, k);
          None
        else
          assert NameSymbolAt(symbols, i);
          Some(symbols[i].content)
  }

  /** GetTagName as the source writes it: Children.First() is evaluated
      before the test that the block has children, so a block without
      children throws instead of yielding no name. */
  function GetTagNameAsWritten(tag: Node): (r: Evaluation<Option<string>>)
    requires tag.IsBlock()
    ensures tag.children != [] ==> r == Returns(GetTagName(tag))
  {
    if tag.children == [] then Throws else Returns(GetTagName(tag))
  }

  /** The discrepancy: an empty Tag block makes GetTagName throw, whereas
      the emptiness test it contains means "no name". */
  lemma EmptyTagBlockThrows(generator: nat)
    ensures GetTagNameAsWritten(Block(BlockType.Tag, generator, [])) == Throws
    ensures GetTagName(Block(BlockType.Tag, generator, [])) == None
  {
  }

  /** IsEndTag: the second symbol of the first child (its only symbol when it
      has one) is a forward slash. */
  function IsEndTag(tag: Node): bool
    requires tag.IsBlock() && GetTagName(tag).Some?
  {
    var symbols := tag.children[0].symbols;
    (if |symbols| >= 2 then symbols[1] else symbols[0]).kind == ForwardSlash
  }

  /** IsPartialTag: the tag does not end with a markup span whose last symbol
      is '>'. */
  function IsPartialTag(tag: Node): bool
    requires tag.IsBlock() && tag.children != []
  {
    var last := tag.children[|tag.children| - 1];
    !(last.Span? && last.spanKind == SpanKind.Markup && last.symbols != [] &&
      last.symbols[|last.symbols| - 1].kind == CloseAngle)
  }

  /** IsPotentialTagHelper: a <text> tag whose first span is a transition is
      Razor's own text tag, never a tag helper. */
  function IsPotentialTagHelper(tagName: string, tag: Node): bool
    requires tag.IsBlock() && tag.children != [] && tag.children[0].Span?
  {
    !SameName(tagName, TextTagName) || tag.children[0].spanKind != Transition
  }

  /** Razor's own text tag, in any letter case, is excluded only after a
      transition; after markup, and under any other name, the tag may be a
      tag helper. */
  lemma TextTagOnlyAfterTransition(loc: SourceLocation, rest: seq<Symbol>, generator: nat)
    ensures var symbols := [Symbol(OpenAngle, "<"), Symbol(Text, "TeXt")] + rest;
      var transition := Block(BlockType.Tag, generator, [Span(Transition, loc, symbols)]);
      var markup := Block(BlockType.Tag, generator, [Span(SpanKind.Markup, loc, symbols)]);
      !IsPotentialTagHelper("TeXt", transition) && !IsPotentialTagHelper("text", transition) &&
      IsPotentialTagHelper("textarea", transition) && IsPotentialTagHelper("TeXt", markup)
  {
    assert Fold("TeXt") == Fold(TextTagName) == "TEXT";
    assert Fold("textarea")[4] == 'A';
  }

  /** The children that hold attributes: all but the first (the tag name),
      and all but the last (the closing '>') unless the tag is partial. */
  function AttributeChildren(tag: Node): (r: seq<Node>)
    requires tag.IsBlock() && tag.children != []
    ensures var c := tag.children;
      r == if IsPartialTag(tag) then c[1..] else if |c| >= 2 then c[1..|c| - 1] else []
  {
    var c := tag.children;
    var offset := if IsPartialTag(tag) then 1 else 2;
    var count := if |c| - offset > 0 then |c| - offset else 0;
    c[1..1 + count]
  }

  /** The name in one attribute's text: what precedes the first '=', with
      leading whitespace removed. */
  function AttributeName(content: string): string {
    TrimStart(BeforeFirst(content, '='))
  }

  /** The name read from one attribute child, if it has a first descendent
      span. */
  function AttributeNameOf(child: Node): Option<string> {
    match FirstDescendentSpan(child)
    case None => None
    case Some(span) => Some(AttributeName(Content(span)))
  }

  /** The text before the first '=' with its leading whitespace removed
      holds no '=' and does not start with whitespace. */
  lemma AttributeNameShape(content: string)
    ensures '=' !in AttributeName(content)
    ensures AttributeName(content) == [] || !IsWhiteSpace(AttributeName(content)[0])
  {
    var b := BeforeFirst(content, '=');
    var n := LeadingWhiteSpace(b);
    LeadingWhiteSpaceFacts(b);
    assert AttributeName(content) == b[n..];
    assert forall k | n <= k < |b| :: b[k] in b;
  }

  /** The names read from attribute children, in order; a block child whose
      first descendent is not a span contributes no name. */
  function AttributeNamesOf(children: seq<Node>): seq<string> {
    if children == [] then []
    else
      (match AttributeNameOf(children[0]) case None => [] case Some(name) => [name]) +
      AttributeNamesOf(children[1..])
  }

  /** Every name read comes from an attribute child, so it has the shape of
      an attribute name, and there are no more names than children. */
  lemma {:induction false} AttributeNamesFromChildren(children: seq<Node>)
    ensures |AttributeNamesOf(children)| <= |children|
    ensures forall k | 0 <= k < |AttributeNamesOf(children)| ::
      exists i | 0 <= i < |children| :: AttributeNameOf(children[i]) == Some(AttributeNamesOf(children)[k])
    decreases |children|
  {
    if children != [] {
      var first := match AttributeNameOf(children[0]) case None => [] case Some(name) => [name];
      var rest := AttributeNamesOf(children[1..]);
      AttributeNamesFromChildren(children[1..]);
      forall k | 0 <= k < |rest|
        ensures exists i | 0 <= i < |children| :: AttributeNameOf(children[i]) == Some(rest[k])
      {
        var i :| 0 <= i < |children[1..]| && AttributeNameOf(children[1..][i]) == Some(rest[k]);
        assert children[1..][i] == children[i + 1];
      }
      assert AttributeNamesOf(children) == first + rest;
    }
  }

  /** The names handed to the provider: none contains '=' or starts with
      whitespace. */
  lemma AttributeNamesShape(children: seq<Node>)
    ensures forall k | 0 <= k < |AttributeNamesOf(children)| :: var name := AttributeNamesOf(children)[k];
      '=' !in name && (name == [] || !IsWhiteSpace(name[0]))
  {
    var names := AttributeNamesOf(children);
    AttributeNamesFromChildren(children);
    forall k | 0 <= k < |names|
      ensures '=' !in names[k] && (names[k] == [] || !IsWhiteSpace(names[k][0]))
    {
      var i :| 0 <= i < |children| && AttributeNameOf(children[i]) == Some(names[k]);
      AttributeNameShape(Content(FirstDescendentSpan(children[i]).value));
    }
  }

  /** When every attribute child has a first descendent span, the names are
      exactly those of the children, one per child, in order. */
  lemma {:induction false} AttributeNamesOneEach(children: seq<Node>)
    requires forall i | 0 <= i < |children| :: AttributeNameOf(children[i]).Some?
    ensures |AttributeNamesOf(children)| == |children|
    ensures forall i | 0 <= i < |children| :: AttributeNameOf(children[i]) == Some(AttributeNamesOf(children)[i])
    decreases |children|
  {
    if children != [] {
      var tail := children[1..];
      assert forall i | 0 <= i < |tail| :: tail[i] == children[i + 1];
      AttributeNamesOneEach(tail);
      assert AttributeNamesOf(children) == [AttributeNameOf(children[0]).value] + AttributeNamesOf(tail);
    }
  }

  /** GetAttributeNames. */
  function AttributeNames(tag: Node): seq<string>
    requires tag.IsBlock() && tag.children != []
  {
    AttributeNamesOf(AttributeChildren(tag))
  }

  /** GetAttributeNames over a whole tag: at most one name per attribute
      child, none holding '=' or starting with whitespace, and exactly one per
      attribute child, in order, when each of them has a span to read. */
  lemma AttributeNamesOfTag(tag: Node)
    requires tag.IsBlock() && tag.children != []
    ensures |AttributeNames(tag)| <= |AttributeChildren(tag)|
    ensures forall k | 0 <= k < |AttributeNames(tag)| :: var name := AttributeNames(tag)[k];
      '=' !in name && (name == [] || !IsWhiteSpace(name[0]))
    ensures (forall i | 0 <= i < |AttributeChildren(tag)| :: AttributeNameOf(AttributeChildren(tag)[i]).Some?) ==>
      |AttributeNames(tag)| == |AttributeChildren(tag)| &&
      forall i | 0 <= i < |AttributeChildren(tag)| :: AttributeNameOf(AttributeChildren(tag)[i]) == Some(AttributeNames(tag)[i])
  {
    var children := AttributeChildren(tag);
    AttributeNamesFromChildren(children);
    AttributeNamesShape(children);
    if forall i | 0 <= i < |children| :: AttributeNameOf(children[i]).Some? {
      AttributeNamesOneEach(children);
    }
  }

  /** Whitespace followed by a name that does not start with whitespace:
      the leading whitespace is exactly the whitespace given. */
  lemma LeadingWhiteSpaceOf(ws: string, name: string)
    requires AllWhiteSpace(ws)
    requires name == [] || !IsWhiteSpace(name[0])
    ensures LeadingWhiteSpace(ws + name) == |ws|
  {
    var s := ws + name;
    LeadingWhiteSpaceFacts(s);
    assert forall i | 0 <= i < |ws| :: s[i] == ws[i];
    assert |ws| < |s| ==> s[|ws|] == name[0];
  }

  /** Reading the attribute text `ws name=value` (or `ws name` without a
      value) yields exactly name. */
  lemma AttributeNameRoundTrip(ws: string, name: string, value: string)
    requires AllWhiteSpace(ws) && '=' !in ws && '=' !in name
    requires name == [] || !IsWhiteSpace(name[0])
    ensures AttributeName(ws + name + "=" + value) == name
    ensures AttributeName(ws + name) == name
  {
    assert '=' !in ws + name;
    BeforeFirstOf(ws + name, '=', value);
    LeadingWhiteSpaceOf(ws, name);
  }

  /** The structure of the last descriptor in ds that specifies one. */
  function LastSpecified(ds: seq<Descriptor>): (r: Option<TagStructure>)
    ensures r.Some? ==> (r.value != Unspecified &&
      exists k | 0 <= k < |ds| :: ds[k].tagStructure == r.value &&
        forall m | k < m < |ds| :: ds[m].tagStructure == Unspecified)
    ensures r.None? ==> forall k | 0 <= k < |ds| :: ds[k].tagStructure == Unspecified
  {
    if ds == [] then None
    else if ds[|ds| - 1].tagStructure != Unspecified then Some(ds[|ds| - 1].tagStructure)
    else
      var r := LastSpecified(ds[..|ds| - 1]);
      assert forall k | 0 <= k < |ds| - 1 :: ds[..|ds| - 1][k] == ds[k];
      r
  }

  /** Descriptor i specifies a structure that differs from the one specified
      by the closest earlier descriptor that specifies one. */
  predicate ConflictAt(ds: seq<Descriptor>, i: nat) {
    i < |ds| && ds[i].tagStructure != Unspecified &&
    var previous := LastSpecified(ds[..i]);
    previous.Some? && previous.value != ds[i].tagStructure
  }

  /** ValidateDescriptors' loop: the positions (counted from offset) at which
      it reports InconsistentTagStructure, base being the structure of the
      last descriptor seen that specifies one. */
  function StructureConflicts(ds: seq<Descriptor>, base: Option<TagStructure>, offset: nat): (r: seq<nat>)
    ensures forall k | 0 <= k < |r| :: offset <= r[k] < offset + |ds|
    ensures forall k, m | 0 <= k < m < |r| :: r[k] < r[m]
    decreases |ds|
  {
    if ds == [] then []
    else if ds[0].tagStructure == Unspecified then StructureConflicts(ds[1..], base, offset + 1)
    else
      (if base.Some? && base.value != ds[0].tagStructure then [offset] else []) +
      StructureConflicts(ds[1..], Some(ds[0].tagStructure), offset + 1)
  }

  lemma LastSpecifiedStep(ds: seq<Descriptor>, j: nat)
    requires j < |ds|
    ensures LastSpecified(ds[..j + 1]) ==
      if ds[j].tagStructure != Unspecified then Some(ds[j].tagStructure) else LastSpecified(ds[..j])
  {
    assert ds[..j + 1][..j] == ds[..j];
  }

  lemma {:induction false} StructureConflictsFrom(ds: seq<Descriptor>, j: nat)
    requires j <= |ds|
    ensures forall k :: k in StructureConflicts(ds[j..], LastSpecified(ds[..j]), j) <==> j <= k && ConflictAt(ds, k)
    decreases |ds| - j
  {
    if j < |ds| {
      LastSpecifiedStep(ds, j);
      assert ds[j..][1..] == ds[j + 1..];
      StructureConflictsFrom(ds, j + 1);
    }
  }

  /** ValidateDescriptors reports exactly at the descriptors whose structure
      differs from the closest earlier specified one, in order. */
  lemma StructureConflictsExactly(ds: seq<Descriptor>)
    ensures forall k :: k in StructureConflicts(ds, None, 0) <==> ConflictAt(ds, k)
    ensures StructureConflicts(ds, None, 0) != [] ==> ConflictAt(ds, StructureConflicts(ds, None, 0)[0])
  {
    StructureConflictsFrom(ds, 0);
    assert ds[0..] == ds;
  }

  /** All descriptors that specify a structure specify the same one. */
  predicate ConsistentStructures(ds: seq<Descriptor>) {
    forall i, j | 0 <= i < |ds| && 0 <= j < |ds| ::
      ds[i].tagStructure != Unspecified && ds[j].tagStructure != Unspecified ==>
      ds[i].tagStructure == ds[j].tagStructure
  }

  lemma {:induction false} ConflictBefore(ds: seq<Descriptor>, i: nat, j: nat)
    requires i < j < |ds|
    requires ds[i].tagStructure != Unspecified && ds[j].tagStructure != Unspecified
    requires ds[i].tagStructure != ds[j].tagStructure
    ensures exists k | i < k <= j :: ConflictAt(ds, k)
    decreases j
  {
    var previous := LastSpecified(ds[..j]);
    assert ds[..j][i] == ds[i];
    var m :| 0 <= m < j && ds[..j][m].tagStructure == previous.value &&
      forall q | m < q < j :: ds[..j][q].tagStructure == Unspecified;
    if previous.value != ds[j].tagStructure {
      assert ConflictAt(ds, j);
    } else {
      assert m != i;
      ConflictBefore(ds, i, m);
    }
  }

  lemma ConsistentHasNoConflict(ds: seq<Descriptor>, k: nat)
    requires ConsistentStructures(ds)
    ensures !ConflictAt(ds, k)
  {
    if k < |ds| {
      var previous := LastSpecified(ds[..k]);
      if previous.Some? && ds[k].tagStructure != Unspecified {
        var m :| 0 <= m < k && ds[..k][m].tagStructure == previous.value &&
          forall q | m < q < k :: ds[..k][q].tagStructure == Unspecified;
        assert ds[..k][m] == ds[m];
      }
    }
  }

  lemma InconsistentHasConflict(ds: seq<Descriptor>) returns (k: nat)
    requires !ConsistentStructures(ds)
    ensures ConflictAt(ds, k)
  {
    var i, j :| 0 <= i < |ds| && 0 <= j < |ds| &&
      ds[i].tagStructure != Unspecified && ds[j].tagStructure != Unspecified &&
      ds[i].tagStructure != ds[j].tagStructure;
    if i < j {
      ConflictBefore(ds, i, j);
    } else {
      ConflictBefore(ds, j, i);
    }
    k :| 0 <= k < |ds| && ConflictAt(ds, k);
  }

  /** No InconsistentTagStructure error is reported exactly when all
      specified structures agree. */
  lemma NoConflictIffConsistent(ds: seq<Descriptor>)
    ensures StructureConflicts(ds, None, 0) == [] <==> ConsistentStructures(ds)
  {
    StructureConflictsExactly(ds);
    if ConsistentStructures(ds) {
      if StructureConflicts(ds, None, 0) != [] {
        ConsistentHasNoConflict(ds, StructureConflicts(ds, None, 0)[0]);
      }
    } else {
      var k := InconsistentHasConflict(ds);
      assert k in StructureConflicts(ds, None, 0);
    }
  }

  /** The errors ValidateDescriptors reports for one start tag. */
  function StructureErrors(ds: seq<Descriptor>, tag: Node): seq<Diagnostic> {
    seq(|StructureConflicts(ds, None, 0)|, _ => Diagnostic(InconsistentTagStructure, Start(tag), Length(tag)))
  }

  function Positions(r: seq<nat>): set<nat> {
    set x | x in r
  }

  /** A strictly increasing sequence lists as many positions as it holds. */
  lemma {:induction false} IncreasingCount(r: seq<nat>)
    requires forall k, m | 0 <= k < m < |r| :: r[k] < r[m]
    ensures |Positions(r)| == |r|
  {
    if r != [] {
      var tail := r[1..];
      IncreasingCount(tail);
      assert r[0] !in tail;
      assert Positions(r) == Positions(tail) + {r[0]};
    }
  }

  /** The descriptors at which a structure conflict occurs. */
  function ConflictPositions(ds: seq<Descriptor>): set<nat> {
    set k: nat | k < |ds| && ConflictAt(ds, k)
  }

  /** ValidateDescriptors reports one InconsistentTagStructure error over the
      tag per conflicting descriptor, and no other error. */
  lemma StructureErrorsPerConflict(ds: seq<Descriptor>, tag: Node)
    ensures |StructureErrors(ds, tag)| == |ConflictPositions(ds)|
    ensures forall e | e in StructureErrors(ds, tag) :: e == Diagnostic(InconsistentTagStructure, Start(tag), Length(tag))
  {
    var r := StructureConflicts(ds, None, 0);
    StructureConflictsExactly(ds);
    IncreasingCount(r);
    assert Positions(r) == ConflictPositions(ds);
  }

  /** All child names declared by descriptors that restrict their children. */
  function DeclaredChildren(ds: seq<Descriptor>): seq<string> {
    if ds == [] then []
    else (match ds[0].allowedChildren case None => [] case Some(names) => names) + DeclaredChildren(ds[1..])
  }

  predicate Declares(d: Descriptor, name: string) {
    d.allowedChildren.Some? && ContainsName(d.allowedChildren.value, name)
  }

  lemma {:induction false} DeclaredChildrenContains(ds: seq<Descriptor>, name: string)
    ensures ContainsName(DeclaredChildren(ds), name) <==> exists i | 0 <= i < |ds| :: Declares(ds[i], name)
    decreases |ds|
  {
    if ds != [] {
      DeclaredChildrenContains(ds[1..], name);
      var first := match ds[0].allowedChildren case None => [] case Some(names) => names;
      var rest := DeclaredChildren(ds[1..]);
      assert DeclaredChildren(ds) == first + rest;
      if ContainsName(first + rest, name) {
        var k :| 0 <= k < |first + rest| && SameName((first + rest)[k], name);
        if k < |first| {
          assert SameName(first[k], name);
          assert Declares(ds[0], name);
        } else {
          assert SameName(rest[k - |first|], name);
          var i :| 0 <= i < |ds[1..]| && Declares(ds[1..][i], name);
          assert Declares(ds[i + 1], name);
        }
      }
      if exists i | 0 <= i < |ds| :: Declares(ds[i], name) {
        var i :| 0 <= i < |ds| && Declares(ds[i], name);
        if i == 0 {
          var k :| 0 <= k < |first| && SameName(first[k], name);
          assert (first + rest)[k] == first[k];
        } else {
          assert ds[1..][i - 1] == ds[i];
          var k :| 0 <= k < |rest| && SameName(rest[k], name);
          assert (first + rest)[|first| + k] == rest[k];
        }
      }
    }
  }

  /** The allowed children a new tracker inherits from its descriptors:
      unrestricted when no descriptor restricts its children, otherwise the
      case-insensitively distinct names declared by those that do. */
  function AllowedChildren(ds: seq<Descriptor>): (r: Option<seq<string>>)
    ensures r.Some? <==> exists i | 0 <= i < |ds| :: ds[i].allowedChildren.Some?
    ensures r.Some? ==> forall n :: ContainsName(r.value, n) <==> exists i | 0 <= i < |ds| :: Declares(ds[i], n)
    ensures r.Some? ==> forall i, j | 0 <= i < j < |r.value| :: !SameName(r.value[i], r.value[j])
  {
    if exists i | 0 <= i < |ds| :: ds[i].allowedChildren.Some? then
      var r := DistinctNames(DeclaredChildren(ds));
      assert forall n :: ContainsName(r, n) <==> exists i | 0 <= i < |ds| :: Declares(ds[i], n) by {
        forall n ensures ContainsName(r, n) <==> exists i | 0 <= i < |ds| :: Declares(ds[i], n) {
          DeclaredChildrenContains(ds, n);
        }
      }
      Some(r)
    else None
  }

  /** The same union as the source computes it: SelectMany over every
      descriptor's AllowedChildren, including those that are null. The
      sequence is lazy. Throws stands for an enumeration that reaches the
      null: a full one (string.Join in the nested-tag and content error
      messages), or a case-insensitive Contains for a name that no list before
      the null declares. A Contains that finds the name first returns
      without reaching it. */
  function AllowedChildrenAsWritten(ds: seq<Descriptor>): (r: Option<Evaluation<seq<string>>>)
    ensures (forall i | 0 <= i < |ds| :: ds[i].allowedChildren.Some?) ==>
      r == if ds == [] then None else Some(Returns(AllowedChildren(ds).value))
  {
    if exists i | 0 <= i < |ds| :: ds[i].allowedChildren.Some? then
      if exists i | 0 <= i < |ds| :: ds[i].allowedChildren.None? then Some(Throws)
      else Some(Returns(AllowedChildren(ds).value))
    else None
  }

  /** The discrepancy: two descriptors for one tag, one restricting its
      children to <span> and one not restricting them. */
  lemma MixedAllowedChildrenThrows()
    ensures var ds := [Descriptor("A", Unspecified, Some(["span"])), Descriptor("B", Unspecified, None)];
      AllowedChildrenAsWritten(ds) == Some(Throws) &&
      AllowedChildren(ds).Some? && ContainsName(AllowedChildren(ds).value, "SPAN")
  {
    var ds := [Descriptor("A", Unspecified, Some(["span"])), Descriptor("B", Unspecified, None)];
    assert ds[0].allowedChildren.Some? && ds[1].allowedChildren.None?;
    assert Declares(ds[0], "SPAN") by {
      assert Fold("span") == Fold("SPAN");
      assert ["span"][0] == "span";
    }
  }

  /** ValidateParentTagHelperAllowsContent: non-whitespace text inside a
      helper that restricts its children is reported from its first to its
      last non-whitespace character. */
  function ContentErrors(allowed: Option<seq<string>>, span: Node): seq<Diagnostic>
    requires span.Span?
  {
    var content := Content(span);
    if allowed.Some? && !AllWhiteSpace(content) then
      [Diagnostic(CannotHaveNonTagContent,
                  Advance(span.start, content[..LeadingWhiteSpace(content)]),
                  |Trim(content)|)]
    else []
  }

  /** The content error is reported exactly when children are restricted
      and the text is not all whitespace; it starts at the first
      non-whitespace character and covers the text up to the last one. */
  lemma ContentErrorShape(allowed: Option<seq<string>>, span: Node)
    requires span.Span?
    ensures var errs := ContentErrors(allowed, span); var content := Content(span);
      (errs != [] <==> allowed.Some? && exists i | 0 <= i < |content| :: !IsWhiteSpace(content[i])) &&
      (errs != [] ==>
        |errs| == 1 && errs[0].kind == CannotHaveNonTagContent &&
        var lead := LeadingWhiteSpace(content);
        errs[0].location.absoluteIndex == span.start.absoluteIndex + lead &&
        content[lead..lead + errs[0].length] == Trim(content) &&
        errs[0].length > 0 && !IsWhiteSpace(content[lead]) &&
        !IsWhiteSpace(content[lead + errs[0].length - 1]) &&
        forall i | 0 <= i < |content| && !(lead <= i < lead + errs[0].length) :: IsWhiteSpace(content[i]))
  {
    var content := Content(span);
    TrimIsSlice(content);
    TrimDropsOnlyWhiteSpace(content);
    TrimKeepsNonWhiteSpace(content);
    var errs := ContentErrors(allowed, span);
    if allowed.Some? && !AllWhiteSpace(content) {
      var lead := LeadingWhiteSpace(content);
      assert errs == [Diagnostic(CannotHaveNonTagContent, Advance(span.start, content[..lead]), |Trim(content)|)];
      assert |content[..lead]| == lead;
    } else {
      assert errs == [];
    }
  }

  /** ValidateParentTagHelperAllowsTagHelper: a tag helper that the enclosing
      helper's allowed children do not name. */
  function NestedTagHelperErrors(allowed: Option<seq<string>>, tagName: string, tag: Node): seq<Diagnostic> {
    if allowed.Some? && !ContainsName(allowed.value, tagName) then
      [Diagnostic(InvalidNestedTag, Start(tag), Length(tag))]
    else []
  }

  /** ValidateParentTagHelperAllowsPlainTag: any plain tag inside a helper
      that restricts its children. */
  function PlainTagErrors(allowed: Option<seq<string>>, tag: Node): seq<Diagnostic> {
    if allowed.Some? then [Diagnostic(InvalidNestedTag, Start(tag), Length(tag))] else []
  }

  /** ValidateTagSyntax: a tag without its closing '>'. */
  function SyntaxErrors(tag: Node): seq<Diagnostic>
    requires tag.IsBlock() && tag.children != []
  {
    if IsPartialTag(tag) then [Diagnostic(MissingCloseAngle, Start(tag), Length(tag))] else []
  }

  /** Some descriptor found for an end tag declares that the element has no
      end tag. */
  predicate HasWithoutEndTag(ds: seq<Descriptor>) {
    exists i | 0 <= i < |ds| :: ds[i].tagStructure == WithoutEndTag
  }

  /** A start tag cut off before its '>' (the rest of its first span not
      ending in '>', and every later child a block) is partial: every child
      after the name holds attributes, and the tag reports a missing '>' at its
      start over its whole length. */
  lemma PartialTagShape(name: string, loc: SourceLocation, rest: seq<Symbol>, attributes: seq<Node>, generator: nat)
    requires rest == [] || rest[|rest| - 1].kind != CloseAngle
    requires forall i | 0 <= i < |attributes| :: attributes[i].IsBlock()
    ensures var first := Span(SpanKind.Markup, loc, [Symbol(OpenAngle, "<"), Symbol(Text, name)] + rest);
      var start := Block(BlockType.Tag, generator, [first] + attributes);
      GetTagName(start) == Some(name) && !IsEndTag(start) && IsPartialTag(start) &&
      AttributeChildren(start) == attributes &&
      SyntaxErrors(start) == [Diagnostic(MissingCloseAngle, loc, Length(start))]
  {
    var symbols := [Symbol(OpenAngle, "<"), Symbol(Text, name)] + rest;
    var first := Span(SpanKind.Markup, loc, symbols);
    var c := [first] + attributes;
    assert c[0] == first && c[1..] == attributes;
    assert Start(Block(BlockType.Tag, generator, c)) == loc;
    assert attributes != [] ==> c[|c| - 1] == attributes[|attributes| - 1];
    assert symbols[0].kind == OpenAngle && symbols[1] == Symbol(Text, name);
    assert symbols[|symbols| - 1].kind != CloseAngle by {
      if rest != [] {
        assert symbols[|symbols| - 1] == rest[|rest| - 1];
      }
    }
    assert FirstTextOrWhiteSpace(symbols) == Some(1) by {
      assert FirstTextOrWhiteSpace(symbols[1..]) == Some(0);
    }
  }

  /** The symbols of `<name` followed by the rest of the first span, and of
      `</name>`, are read as the source's tokenizer lays them out: a start tag
      and an end tag named name, the start tag's attribute children being
      those between its first and last child. */
  lemma TagShapes(name: string, loc: SourceLocation, rest: seq<Symbol>, attributes: seq<Node>, closeAt: SourceLocation, generator: nat)
    ensures var first := Span(SpanKind.Markup, loc, [Symbol(OpenAngle, "<"), Symbol(Text, name)] + rest);
      var close := Span(SpanKind.Markup, closeAt, [Symbol(CloseAngle, ">")]);
      var start := Block(BlockType.Tag, generator, [first] + attributes + [close]);
      GetTagName(start) == Some(name) && !IsEndTag(start) && !IsPartialTag(start) &&
      AttributeChildren(start) == attributes
    ensures var end := Block(BlockType.Tag, generator,
        [Span(SpanKind.Markup, loc, [Symbol(OpenAngle, "<"), Symbol(ForwardSlash, "/"), Symbol(Text, name), Symbol(CloseAngle, ">")])]);
      GetTagName(end) == Some(name) && IsEndTag(end) && !IsPartialTag(end)
  {
    var first := Span(SpanKind.Markup, loc, [Symbol(OpenAngle, "<"), Symbol(Text, name)] + rest);
    var close := Span(SpanKind.Markup, closeAt, [Symbol(CloseAngle, ">")]);
    var c := [first] + attributes + [close];
    assert c[0] == first && c[|c| - 1] == close;
    assert c[1..|c| - 1] == attributes;
    var symbols := [Symbol(OpenAngle, "<"), Symbol(Text, name)] + rest;
    assert symbols[0].kind == OpenAngle && symbols[1] == Symbol(Text, name);
    assert FirstTextOrWhiteSpace(symbols) == Some(1) by {
      assert FirstTextOrWhiteSpace(symbols[1..]) == Some(0);
    }
    var endSymbols := [Symbol(OpenAngle, "<"), Symbol(ForwardSlash, "/"), Symbol(Text, name), Symbol(CloseAngle, ">")];
    assert FirstTextOrWhiteSpace(endSymbols) == Some(2) by {
      assert FirstTextOrWhiteSpace(endSymbols[2..]) == Some(0);
      assert endSymbols[1..][1..] == endSymbols[2..];
    }
  }
}
