/** TagHelperParseTreeRewriter: one depth-first pass over a syntax tree that
    rebuilds it through a stack of block builders, turning the tag blocks the
    descriptor provider resolves into tag-helper blocks, with a stack of
    trackers for the tag helpers currently open. */
module TagHelperRewriter {
  import opened Strings
  import opened Syntax
  import opened TagHelperRules

  /** TagHelperBlockTracker: an open tag helper. `id` names the builder it
      tracks (the source holds a reference to that builder); the counter
      counts the same-named plain tags opened inside it and not yet closed. */
  datatype Tracker = Tracker(id: nat, tagName: string, start: SourceLocation, startTag: Node, openMatchingTags: nat,
                             allowedChildren: Option<seq<string>>)

  /** A block builder being filled: a copy of an input block's type and chunk
      generator, or a tag-helper builder as the attribute-binding rewrite
      produced it, with its raw start tag. */
  datatype Frame =
    | PlainFrame(blockType: BlockType, generator: nat, children: seq<Node>)
    | HelperFrame(id: nat, tagName: string, tagMode: TagMode, descriptors: seq<Descriptor>,
                  start: SourceLocation, startTag: Node, children: seq<Node>)

  /** TagHelperBlockBuilder.SourceEndTag, by builder id: the source sets it on
      the builder object a tracker refers to, wherever that builder is on the
      stack, and a builder that never had it set has none. */
  type EndTags = map<nat, Option<Node>>

  function EndTagOf(tags: EndTags, id: nat): Option<Node> {
    if id in tags then tags[id] else None
  }

  /** BlockBuilder.Build / TagHelperBlockBuilder.Build. */
  function Build(f: Frame, tags: EndTags): Node {
    match f
    case PlainFrame(blockType, generator, children) => Block(blockType, generator, children)
    case HelperFrame(id, tagName, tagMode, descriptors, start, startTag, children) =>
      TagHelperBlock(tagName, tagMode, descriptors, start, startTag, EndTagOf(tags, id), children)
  }

  function AddChild(f: Frame, n: Node): Frame {
    f.(children := f.children + [n])
  }

  /** Adds n to the children of the current (topmost) builder. */
  function AppendToTop(fs: seq<Frame>, n: Node): (r: seq<Frame>)
    requires |fs| >= 1
    ensures |r| == |fs|
  {
    fs[|fs| - 1 := AddChild(fs[|fs| - 1], n)]
  }

  /** Adds ns, in order, to the children of the current (topmost) builder. */
  function AppendAllToTop(fs: seq<Frame>, ns: seq<Node>): (r: seq<Frame>)
    requires |fs| >= 1
    ensures |r| == |fs|
  {
    fs[|fs| - 1 := fs[|fs| - 1].(children := fs[|fs| - 1].children + ns)]
  }

  lemma AppendAllToTopNil(fs: seq<Frame>)
    requires |fs| >= 1
    ensures AppendAllToTop(fs, []) == fs
  {
    var f := fs[|fs| - 1];
    assert f.children + [] == f.children;
    assert f.(children := f.children) == f;
  }

  lemma AppendAllToTopStep(fs: seq<Frame>, ns: seq<Node>, n: Node)
    requires |fs| >= 1
    ensures AppendToTop(AppendAllToTop(fs, ns), n) == AppendAllToTop(fs, ns + [n])
  {
    var f := fs[|fs| - 1];
    assert f.children + ns + [n] == f.children + (ns + [n]);
  }

  /** BuildCurrentlyTrackedBlock when a parent remains: the topmost builder is
      built and appended to the one below it. */
  function PopInto(fs: seq<Frame>, tags: EndTags): (r: seq<Frame>)
    requires |fs| >= 2
    ensures |r| == |fs| - 1
  {
    AppendToTop(fs[..|fs| - 1], Build(fs[|fs| - 1], tags))
  }

  /** The end tags after force-closing the n innermost trackers of ts: each
      of their builders gets none. */
  function ClosedTags(tags: EndTags, ts: seq<Tracker>, n: nat): EndTags
    requires n <= |ts|
  {
    if n == 0 then tags else ClosedTags(tags, ts, n - 1)[ts[|ts| - n].id := None]
  }

  /** The builders after force-closing the n innermost trackers of ts,
      innermost first: each time the topmost builder is built into its
      parent. */
  function ForceClose(fs: seq<Frame>, tags: EndTags, ts: seq<Tracker>, n: nat): (r: seq<Frame>)
    requires n <= |ts| && n < |fs|
    ensures |r| == |fs| - n
  {
    if n == 0 then fs else PopInto(ForceClose(fs, tags, ts, n - 1), ClosedTags(tags, ts, n))
  }

  /** Some tracker among the n innermost ones of ts refers to builder id. */
  predicate ClosesBuilder(ts: seq<Tracker>, n: nat, id: nat)
    requires n <= |ts|
  {
    exists i | |ts| - n <= i < |ts| :: ts[i].id == id
  }

  /** Force-closing leaves the builders of the n innermost trackers without
      an end tag and every other builder's end tag as it was. */
  lemma {:induction false} ClosedTagsMeaning(tags: EndTags, ts: seq<Tracker>, n: nat, id: nat)
    requires n <= |ts|
    ensures EndTagOf(ClosedTags(tags, ts, n), id) == if ClosesBuilder(ts, n, id) then None else EndTagOf(tags, id)
  {
    if n > 0 {
      ClosedTagsMeaning(tags, ts, n - 1, id);
      if ts[|ts| - n].id != id && ClosesBuilder(ts, n, id) {
        var i :| |ts| - n <= i < |ts| && ts[i].id == id;
        assert |ts| - (n - 1) <= i;
      }
    }
  }

  /** Building the topmost builder into its parent leaves the builders below
      the parent untouched and keeps the bottom one the same block. */
  lemma PopIntoFacts(fs: seq<Frame>, tags: EndTags)
    requires |fs| >= 2
    ensures PopInto(fs, tags)[..|fs| - 2] == fs[..|fs| - 2]
    ensures SameHead(PopInto(fs, tags)[0], fs[0])
  {
  }

  /** Force-closing n trackers leaves every builder below the n + 1
      topmost ones untouched and keeps the bottom one the same block. */
  lemma {:induction false} ForceCloseFacts(fs: seq<Frame>, tags: EndTags, ts: seq<Tracker>, n: nat)
    requires n <= |ts| && n < |fs|
    ensures ForceClose(fs, tags, ts, n)[..|fs| - n - 1] == fs[..|fs| - n - 1]
    ensures SameHead(ForceClose(fs, tags, ts, n)[0], fs[0])
  {
    if n > 0 {
      var before := ForceClose(fs, tags, ts, n - 1);
      ForceCloseFacts(fs, tags, ts, n - 1);
      PopIntoFacts(before, ClosedTags(tags, ts, n));
      assert before[..|fs| - n - 1] == fs[..|fs| - n - 1] by {
        assert before[..|fs| - n - 1] == before[..|fs| - n][..|fs| - n - 1];
      }
      SameHeadTransitive(ForceClose(fs, tags, ts, n)[0], before[0], fs[0]);
    }
  }

  /** The error reported for a tag helper left without an end tag: at the
      tag helper's start, over its start tag's length. */
  function MalformedError(t: Tracker): Diagnostic {
    Diagnostic(MalformedTagHelper, t.start, Length(t.startTag))
  }

  /** BuildMalformedTagHelpers' reports for the n innermost trackers of ts. */
  function MalformedErrors(ts: seq<Tracker>, n: nat): seq<Diagnostic>
    requires n <= |ts|
  {
    if n == 0 then [] else MalformedErrors(ts, n - 1) + [MalformedError(ts[|ts| - n])]
  }

  /** Force-closing n trackers reports n errors, the i-th for the i-th
      innermost tracker. */
  lemma {:induction false} MalformedErrorsInnermostFirst(ts: seq<Tracker>, n: nat)
    requires n <= |ts|
    ensures |MalformedErrors(ts, n)| == n
    ensures forall i | 0 <= i < n :: MalformedErrors(ts, n)[i] == MalformedError(ts[|ts| - 1 - i])
    ensures forall i | 0 <= i < n :: MalformedErrors(ts, n)[i].kind == MalformedTagHelper
  {
    if n > 0 {
      MalformedErrorsInnermostFirst(ts, n - 1);
    }
  }

  /** The number of trackers above the innermost one named name (ignoring
      case), or the stack's height when none is. */
  function MatchDepth(ts: seq<Tracker>, name: string): (k: nat)
    ensures k <= |ts|
    ensures k < |ts| ==> SameName(ts[|ts| - 1 - k].tagName, name)
    ensures forall i | |ts| - k <= i < |ts| :: !SameName(ts[i].tagName, name)
  {
    if ts == [] then 0
    else if SameName(ts[|ts| - 1].tagName, name) then 0
    else
      var k := MatchDepth(ts[..|ts| - 1], name);
      k + 1
  }

  /** MatchDepth is the only depth with no match above it and a match at it
      (when it is inside the stack). */
  lemma MatchDepthUnique(ts: seq<Tracker>, name: string, c: nat)
    requires c <= |ts|
    requires forall i | |ts| - c <= i < |ts| :: !SameName(ts[i].tagName, name)
    requires c < |ts| ==> SameName(ts[|ts| - 1 - c].tagName, name)
    ensures MatchDepth(ts, name) == c
  {
  }

  function TopAllowed(ts: seq<Tracker>): Option<seq<string>> {
    if ts == [] then None else ts[|ts| - 1].allowedChildren
  }

  /** The tag name equals the current tracker's (case-insensitively). */
  predicate MatchesTop(ts: seq<Tracker>, name: string) {
    ts != [] && SameName(ts[|ts| - 1].tagName, name)
  }

  /** The name matches the current tracker exactly when the innermost
      tracker of that name is the current one. */
  lemma MatchesTopIsDepthZero(ts: seq<Tracker>, name: string)
    ensures MatchesTop(ts, name) <==> ts != [] && MatchDepth(ts, name) == 0
  {
  }

  function IncrementTop(ts: seq<Tracker>): (r: seq<Tracker>)
    requires ts != []
  {
    var t := ts[|ts| - 1];
    ts[..|ts| - 1] + [t.(openMatchingTags := t.openMatchingTags + 1)]
  }

  function DecrementTop(ts: seq<Tracker>): (r: seq<Tracker>)
    requires ts != [] && ts[|ts| - 1].openMatchingTags > 0
  {
    var t := ts[|ts| - 1];
    ts[..|ts| - 1] + [t.(openMatchingTags := t.openMatchingTags - 1)]
  }

  /** The tracker constructor: it takes the builder's name and start tag and
      computes the allowed children from its descriptors. */
  function NewTracker(f: Frame): Tracker
    requires f.HelperFrame?
  {
    Tracker(f.id, f.tagName, f.start, f.startTag, 0, AllowedChildren(f.descriptors))
  }

  /** A new tracker follows its builder from the builder's start tag, with no
      same-named tag open inside it; it restricts its children exactly when
      some descriptor does, to the names the descriptors declare, each once. */
  lemma NewTrackerMeaning(f: Frame, name: string)
    requires f.HelperFrame?
    ensures var t := NewTracker(f);
      t.id == f.id && t.tagName == f.tagName && t.start == f.start && t.startTag == f.startTag &&
      t.openMatchingTags == 0 &&
      (t.allowedChildren.Some? <==> exists i | 0 <= i < |f.descriptors| :: f.descriptors[i].allowedChildren.Some?) &&
      (t.allowedChildren.Some? ==>
        (ContainsName(t.allowedChildren.value, name) <==> exists i | 0 <= i < |f.descriptors| :: Declares(f.descriptors[i], name)) &&
        forall i, j | 0 <= i < j < |t.allowedChildren.value| :: !SameName(t.allowedChildren.value[i], t.allowedChildren.value[j]))
  {
  }

  predicate ClosesImmediately(mode: TagMode) {
    mode == SelfClosing || mode == StartTagOnly
  }

  /** The tag block has a name and may be a tag helper. */
  predicate IsCandidate(tag: Node)
    requires tag.IsBlock()
  {
    GetTagName(tag).Some? && IsPotentialTagHelper(GetTagName(tag).value, tag)
  }

  /** A tree with no Tag block (and no tag-helper block) in it. */
  predicate TagFree(n: Node) {
    match n
    case Span(_, _, _) => true
    case Block(blockType, _, children) => blockType != BlockType.Tag && forall c | c in children :: TagFree(c)
    case TagHelperBlock(_, _, _, _, _, _, _) => false
  }

  /** Two builders are the same block under construction. */
  predicate SameHead(a: Frame, b: Frame) {
    a.PlainFrame? == b.PlainFrame? &&
    (a.PlainFrame? ==> a.blockType == b.blockType && a.generator == b.generator) &&
    (a.HelperFrame? ==> a.id == b.id && a.tagName == b.tagName)
  }

  lemma SameHeadTransitive(a: Frame, b: Frame, c: Frame)
    requires SameHead(a, b) && SameHead(b, c)
    ensures SameHead(a, c)
  {
  }

  class TagHelperParseTreeRewriter {
    /** The descriptor provider: descriptors for a tag name and the
        attribute names present. */
    const provider: (string, seq<string>) -> seq<Descriptor>
    /** TagHelperBlockRewriter.Rewrite, reduced to the tag mode it decides
        from the tag name, syntax validity, raw tag and descriptors, and the
        errors it reports to the error sink while binding the attributes. */
    const bindAttributes: (string, bool, Node, seq<Descriptor>) -> (TagMode, seq<Diagnostic>)

    var trackerStack: seq<Tracker>
    var blockStack: seq<Frame>
    /** The end tags set on tag-helper builders so far. */
    var endTags: EndTags
    /** The error sink's reports, in order. */
    var errors: seq<Diagnostic>
    /** The builder left in _currentBlock when the outermost block is done. */
    var rewritten: Option<Frame>
    /** Source of fresh builder ids. */
    var nextId: nat

    constructor (provider: (string, seq<string>) -> seq<Descriptor>,
                 bindAttributes: (string, bool, Node, seq<Descriptor>) -> (TagMode, seq<Diagnostic>))
      ensures this.provider == provider && this.bindAttributes == bindAttributes
      ensures trackerStack == [] && blockStack == [] && endTags == map[] && errors == [] && rewritten == None
    {
      this.provider := provider;
      this.bindAttributes := bindAttributes;
      trackerStack := [];
      blockStack := [];
      endTags := map[];
      errors := [];
      rewritten := None;
      nextId := 0;
    }

    /** Rewrite: rewrites the whole tree and returns the rebuilt root, a
        block of the same type and chunk generator. */
    method Rewrite(tree: Node) returns (result: Node)
      requires tree.Block? && blockStack == [] && trackerStack == []
      modifies this`trackerStack, this`blockStack, this`endTags, this`errors, this`rewritten, this`nextId
      ensures blockStack == [] && trackerStack == []
      ensures result.Block? && result.blockType == tree.blockType && result.generator == tree.generator
      ensures old(errors) <= errors
      // A tree without tags comes back as it was, without errors.
      ensures TagFree(tree) ==> result == tree && errors == old(errors)
    {
      ghost var reached, errorsAfterChildren := RewriteTags(tree);
      result := Build(rewritten.value, endTags);
    }

    /** TrackBlock: the builder becomes the current one. */
    method TrackBlock(builder: Frame)
      modifies this`blockStack
      ensures blockStack == old(blockStack) + [builder]
    {
      blockStack := blockStack + [builder];
    }

    /** TrackTagHelperBlock: a new tracker for the builder, and the builder
        becomes the current one. */
    method TrackTagHelperBlock(builder: Frame)
      requires builder.HelperFrame?
      modifies this`trackerStack, this`blockStack
      ensures trackerStack == old(trackerStack) + [NewTracker(builder)]
      ensures blockStack == old(blockStack) + [builder]
    {
      trackerStack := trackerStack + [NewTracker(builder)];
      TrackBlock(builder);
    }

    /** BuildCurrentlyTrackedBlock: the current builder is built into its
        parent, which becomes current; the outermost one is kept as the
        result. */
    method BuildCurrentlyTrackedBlock()
      requires |blockStack| >= 1
      modifies this`blockStack, this`rewritten
      ensures |old(blockStack)| >= 2 ==> blockStack == PopInto(old(blockStack), endTags) && rewritten == old(rewritten)
      ensures |old(blockStack)| == 1 ==> blockStack == [] && rewritten == Some(old(blockStack)[0])
      ensures |blockStack| >= 1 ==> SameHead(blockStack[0], old(blockStack)[0])
    {
      var current := blockStack[|blockStack| - 1];
      blockStack := blockStack[..|blockStack| - 1];
      if |blockStack| > 0 {
        blockStack := AppendToTop(blockStack, Build(current, endTags));
      } else {
        rewritten := Some(current);
      }
    }

    /** BuildCurrentlyTrackedTagHelperBlock: the current tracker is popped,
        its builder gets the end tag (none for a helper closed without one),
        and the current builder is built into its parent. */
    method BuildCurrentlyTrackedTagHelperBlock(endTag: Option<Node>)
      requires |trackerStack| >= 1 && |blockStack| > |trackerStack|
      modifies this`trackerStack, this`blockStack, this`endTags, this`rewritten
      ensures trackerStack == old(trackerStack)[..|old(trackerStack)| - 1]
      ensures endTags == old(endTags)[old(trackerStack)[|old(trackerStack)| - 1].id := endTag]
      ensures blockStack == PopInto(old(blockStack), endTags)
      ensures rewritten == old(rewritten)
      ensures SameHead(blockStack[0], old(blockStack)[0])
    {
      var closed := trackerStack[|trackerStack| - 1];
      trackerStack := trackerStack[..|trackerStack| - 1];
      endTags := endTags[closed.id := endTag];
      BuildCurrentlyTrackedBlock();
    }

    /** BuildMalformedTagHelpers: force-closes the count innermost tag
        helpers, innermost first, each with one MalformedTagHelper error and
        no end tag. A count of zero or less does nothing. */
    method BuildMalformedTagHelpers(count: int)
      requires count <= |trackerStack| && |blockStack| > |trackerStack|
      modifies this`trackerStack, this`blockStack, this`endTags, this`errors, this`rewritten
      ensures var n := if count > 0 then count else 0;
        trackerStack == old(trackerStack)[..|old(trackerStack)| - n] &&
        endTags == ClosedTags(old(endTags), old(trackerStack), n) &&
        blockStack == ForceClose(old(blockStack), old(endTags), old(trackerStack), n) &&
        errors == old(errors) + MalformedErrors(old(trackerStack), n)
      ensures rewritten == old(rewritten)
      ensures SameHead(blockStack[0], old(blockStack)[0])
    {
      ghost var ts0, bs0, tags0, errors0 := trackerStack, blockStack, endTags, errors;
      var n := if count > 0 then count else 0;
      var i := 0;
      while i < n
        invariant 0 <= i <= n
        invariant trackerStack == ts0[..|ts0| - i]
        invariant endTags == ClosedTags(tags0, ts0, i)
        invariant blockStack == ForceClose(bs0, tags0, ts0, i)
        invariant errors == errors0 + MalformedErrors(ts0, i)
        invariant rewritten == old(rewritten)
      {
        var malformed := trackerStack[|trackerStack| - 1];
        assert malformed == ts0[|ts0| - (i + 1)];
        errors := errors + [MalformedError(malformed)];
        BuildCurrentlyTrackedTagHelperBlock(None);
        i := i + 1;
      }
      ForceCloseFacts(bs0, tags0, ts0, i);
    }

    /** TryRecoverTagHelper: an end tag that does not match the current
        tracker closes the innermost tracker it does match, after
        force-closing the k trackers above it; with no match nothing
        changes. */
    method TryRecoverTagHelper(tagName: string, endTag: Node) returns (recovered: bool)
      requires |blockStack| > |trackerStack|
      modifies this`trackerStack, this`blockStack, this`endTags, this`errors, this`rewritten
      ensures var ts := old(trackerStack); var k := MatchDepth(ts, tagName);
        recovered == (k < |ts|) &&
        (recovered ==>
          trackerStack == ts[..|ts| - 1 - k] &&
          errors == old(errors) + MalformedErrors(ts, k) &&
          endTags == ClosedTags(old(endTags), ts, k)[ts[|ts| - 1 - k].id := Some(endTag)] &&
          blockStack == PopInto(ForceClose(old(blockStack), old(endTags), ts, k), endTags)) &&
        (!recovered ==>
          trackerStack == ts && errors == old(errors) && endTags == old(endTags) && blockStack == old(blockStack))
      ensures rewritten == old(rewritten)
      ensures SameHead(blockStack[0], old(blockStack)[0])
    {
      var malformedTagHelperCount := 0;
      while malformedTagHelperCount < |trackerStack| &&
            !SameName(trackerStack[|trackerStack| - 1 - malformedTagHelperCount].tagName, tagName)
        invariant 0 <= malformedTagHelperCount <= |trackerStack|
        invariant forall i | |trackerStack| - malformedTagHelperCount <= i < |trackerStack| ::
          !SameName(trackerStack[i].tagName, tagName)
      {
        malformedTagHelperCount := malformedTagHelperCount + 1;
      }
      MatchDepthUnique(trackerStack, tagName, malformedTagHelperCount);
      if malformedTagHelperCount != |trackerStack| {
        BuildMalformedTagHelpers(malformedTagHelperCount);
        ghost var bottom := blockStack[0];
        BuildCurrentlyTrackedTagHelperBlock(Some(endTag));
        SameHeadTransitive(blockStack[0], bottom, old(blockStack)[0]);
        return true;
      }
      return false;
    }

    /** ValidateParentTagHelperAllowsContent. */
    method ValidateParentTagHelperAllowsContent(child: Node)
      requires child.Span?
      modifies this`errors
      ensures errors == old(errors) + ContentErrors(TopAllowed(trackerStack), child)
    {
      errors := errors + ContentErrors(TopAllowed(trackerStack), child);
    }

    /** ValidateParentTagHelperAllowsPlainTag. */
    method ValidateParentTagHelperAllowsPlainTag(tag: Node)
      modifies this`errors
      ensures errors == old(errors) + PlainTagErrors(TopAllowed(trackerStack), tag)
    {
      errors := errors + PlainTagErrors(TopAllowed(trackerStack), tag);
    }

    /** ValidateParentTagHelperAllowsTagHelper. */
    method ValidateParentTagHelperAllowsTagHelper(tagName: string, tag: Node)
      modifies this`errors
      ensures errors == old(errors) + NestedTagHelperErrors(TopAllowed(trackerStack), tagName, tag)
    {
      errors := errors + NestedTagHelperErrors(TopAllowed(trackerStack), tagName, tag);
    }

    /** ValidateDescriptors. */
    method ValidateDescriptors(descriptors: seq<Descriptor>, tag: Node)
      modifies this`errors
      ensures errors == old(errors) + StructureErrors(descriptors, tag)
    {
      errors := errors + StructureErrors(descriptors, tag);
    }

    /** ValidateTagSyntax: reports a missing '>' and says whether the tag is
        complete. */
    method ValidateTagSyntax(tag: Node) returns (valid: bool)
      requires tag.IsBlock() && tag.children != []
      modifies this`errors
      ensures valid == !IsPartialTag(tag)
      ensures errors == old(errors) + SyntaxErrors(tag)
    {
      errors := errors + SyntaxErrors(tag);
      valid := !IsPartialTag(tag);
    }

    /** TryRewriteTagHelper: decides whether a tag block is (the start or end
        of) a tag helper, updating the stacks accordingly. A false result
        means the caller appends the tag as plain markup. The two kinds of
        tag are handled by RewriteStartTag and RewriteEndTag, whose contracts
        give the outcome of each case. */
    method TryRewriteTagHelper(tag: Node) returns (isHelper: bool)
      requires tag.IsBlock() && tag.Type() == BlockType.Tag
      requires |blockStack| > |trackerStack|
      modifies this`trackerStack, this`blockStack, this`endTags, this`errors, this`rewritten, this`nextId
      ensures |blockStack| - |trackerStack| == old(|blockStack| - |trackerStack|)
      ensures SameHead(blockStack[0], old(blockStack)[0])
      ensures rewritten == old(rewritten)
      ensures old(errors) <= errors
      // A tag without a name, or Razor's own <text> tag.
      ensures !IsCandidate(tag) ==>
        !isHelper && trackerStack == old(trackerStack) && blockStack == old(blockStack) &&
        endTags == old(endTags) && errors == old(errors)
      // Only a start tag can open a tag helper, and only an end tag can
      // close or force-close one.
      ensures IsCandidate(tag) && !IsEndTag(tag) ==> |trackerStack| >= old(|trackerStack|)
      ensures IsCandidate(tag) && IsEndTag(tag) ==> |trackerStack| <= old(|trackerStack|)
      // A declined tag leaves the builders and the current tag helper's
      // allowed children as they were; a declined start tag reports nothing.
      ensures !isHelper ==>
        blockStack == old(blockStack) && endTags == old(endTags) && |trackerStack| == old(|trackerStack|) &&
        TopAllowed(trackerStack) == TopAllowed(old(trackerStack))
      ensures !isHelper && IsCandidate(tag) && !IsEndTag(tag) ==> errors == old(errors)
    {
      var tagName := GetTagName(tag);
      if tagName.None? {
        return false;
      }
      var name := tagName.value;
      if !IsPotentialTagHelper(name, tag) {
        return false;
      }
      if !IsEndTag(tag) {
        isHelper := RewriteStartTag(tag, name);
      } else {
        isHelper := RewriteEndTag(tag, name);
      }
    }

    /** The start-tag half of TryRewriteTagHelper. */
    method RewriteStartTag(tag: Node, name: string) returns (isHelper: bool)
      requires tag.IsBlock() && tag.children != []
      requires |blockStack| > |trackerStack|
      modifies this`trackerStack, this`blockStack, this`endTags, this`errors, this`rewritten, this`nextId
      ensures |blockStack| - |trackerStack| == old(|blockStack| - |trackerStack|)
      ensures SameHead(blockStack[0], old(blockStack)[0])
      ensures rewritten == old(rewritten)
      ensures |trackerStack| >= old(|trackerStack|) && old(errors) <= errors
      // No descriptor matches: a plain tag, counted when it has the current
      // tag helper's name.
      ensures provider(name, AttributeNames(tag)) == [] ==>
        !isHelper && blockStack == old(blockStack) && endTags == old(endTags) && errors == old(errors) &&
        trackerStack == if MatchesTop(old(trackerStack), name)
                        then IncrementTop(old(trackerStack)) else old(trackerStack)
      // Some descriptor matches: validated, bound, then tracked, and built at
      // once (without an end tag) when its mode expects no content.
      ensures provider(name, AttributeNames(tag)) != [] ==>
        var descriptors := provider(name, AttributeNames(tag));
        var (mode, bindErrors) := bindAttributes(name, !IsPartialTag(tag), tag, descriptors);
        var builder := HelperFrame(old(nextId), name, mode, descriptors, Start(tag), tag, []);
        isHelper &&
        errors == old(errors) + NestedTagHelperErrors(TopAllowed(old(trackerStack)), name, tag) +
                  StructureErrors(descriptors, tag) + SyntaxErrors(tag) + bindErrors &&
        if ClosesImmediately(mode) then
          trackerStack == old(trackerStack) && endTags == old(endTags)[old(nextId) := None] &&
          blockStack == AppendToTop(old(blockStack), TagHelperBlock(name, mode, descriptors, Start(tag), tag, None, []))
        else
          trackerStack == old(trackerStack) + [NewTracker(builder)] && blockStack == old(blockStack) + [builder] &&
          endTags == old(endTags)
    {
      var descriptors := provider(name, AttributeNames(tag));
      if descriptors == [] {
        if MatchesTop(trackerStack, name) {
          trackerStack := IncrementTop(trackerStack);
        }
        return false;
      }
      ValidateParentTagHelperAllowsTagHelper(name, tag);
      ValidateDescriptors(descriptors, tag);
      var validTagStructure := ValidateTagSyntax(tag);
      var (mode, bindErrors) := bindAttributes(name, validTagStructure, tag, descriptors);
      errors := errors + bindErrors;
      OpenTagHelper(HelperFrame(nextId, name, mode, descriptors, Start(tag), tag, []));
      return true;
    }

    /** A new tag helper builder is tracked and, when its mode expects no
        content, built at once without an end tag. */
    method OpenTagHelper(builder: Frame)
      requires builder.HelperFrame? && builder.id == nextId && builder.children == []
      requires |blockStack| > |trackerStack|
      modifies this`trackerStack, this`blockStack, this`endTags, this`rewritten, this`nextId
      ensures nextId == old(nextId) + 1 && rewritten == old(rewritten)
      ensures |blockStack| - |trackerStack| == old(|blockStack| - |trackerStack|)
      ensures SameHead(blockStack[0], old(blockStack)[0])
      ensures if ClosesImmediately(builder.tagMode) then
          trackerStack == old(trackerStack) && endTags == old(endTags)[builder.id := None] &&
          blockStack == AppendToTop(old(blockStack), TagHelperBlock(builder.tagName, builder.tagMode,
                                    builder.descriptors, builder.start, builder.startTag, None, []))
        else
          trackerStack == old(trackerStack) + [NewTracker(builder)] && blockStack == old(blockStack) + [builder] &&
          endTags == old(endTags)
    {
      nextId := nextId + 1;
      TrackTagHelperBlock(builder);
      if builder.tagMode == SelfClosing || builder.tagMode == StartTagOnly {
        BuildCurrentlyTrackedTagHelperBlock(None);
        assert blockStack[..|blockStack| - 1] == old(blockStack)[..|blockStack| - 1];
      }
    }

    /** The end-tag half of TryRewriteTagHelper. */
    method RewriteEndTag(tag: Node, name: string) returns (isHelper: bool)
      requires tag.IsBlock() && tag.children != []
      requires |blockStack| > |trackerStack|
      modifies this`trackerStack, this`blockStack, this`endTags, this`errors, this`rewritten
      ensures |blockStack| - |trackerStack| == old(|blockStack| - |trackerStack|)
      ensures SameHead(blockStack[0], old(blockStack)[0])
      ensures rewritten == old(rewritten)
      ensures |trackerStack| <= old(|trackerStack|) && old(errors) <= errors
      // The current tag helper's name while same-named plain tags are open:
      // it closes one of those.
      ensures MatchesTop(old(trackerStack), name) && old(trackerStack)[|old(trackerStack)| - 1].openMatchingTags > 0 ==>
        !isHelper && trackerStack == DecrementTop(old(trackerStack)) &&
        blockStack == old(blockStack) && endTags == old(endTags) && errors == old(errors)
      // The end tag of the current tag helper: it is closed with this end tag.
      ensures MatchesTop(old(trackerStack), name) && old(trackerStack)[|old(trackerStack)| - 1].openMatchingTags == 0 ==>
        var ts := old(trackerStack);
        isHelper && errors == old(errors) + SyntaxErrors(tag) &&
        trackerStack == ts[..|ts| - 1] &&
        endTags == old(endTags)[ts[|ts| - 1].id := Some(tag)] &&
        blockStack == PopInto(old(blockStack), endTags)
      // Any other end tag: ignored when no descriptor without required
      // attributes has this name, an error when one must not have an end
      // tag, otherwise it closes the innermost open tag helper of that
      // name, force-closing the ones inside it, or is an error when none is
      // open.
      ensures !MatchesTop(old(trackerStack), name) ==>
        var descriptors := provider(name, []);
        var ts := old(trackerStack);
        var k := MatchDepth(ts, name);
        if descriptors == [] then
          !isHelper && trackerStack == ts && blockStack == old(blockStack) && endTags == old(endTags) &&
          errors == old(errors)
        else if HasWithoutEndTag(descriptors) then
          !isHelper && trackerStack == ts && blockStack == old(blockStack) && endTags == old(endTags) &&
          errors == old(errors) + [Diagnostic(EndTagTagHelperMustNotHaveAnEndTag, Start(tag), Length(tag))]
        else if k < |ts| then
          isHelper && trackerStack == ts[..|ts| - 1 - k] &&
          endTags == ClosedTags(old(endTags), ts, k)[ts[|ts| - 1 - k].id := Some(tag)] &&
          blockStack == PopInto(ForceClose(old(blockStack), old(endTags), ts, k), endTags) &&
          errors == old(errors) + MalformedErrors(ts, k) +
                    NestedTagHelperErrors(TopAllowed(trackerStack), name, tag) + SyntaxErrors(tag)
        else
          !isHelper && trackerStack == ts && blockStack == old(blockStack) && endTags == old(endTags) &&
          errors == old(errors) + [Diagnostic(MalformedTagHelper, Start(tag), Length(tag))]
    {
      if MatchesTop(trackerStack, name) {
        if trackerStack[|trackerStack| - 1].openMatchingTags > 0 {
          trackerStack := DecrementTop(trackerStack);
          return false;
        }
        var _ := ValidateTagSyntax(tag);
        BuildCurrentlyTrackedTagHelperBlock(Some(tag));
        return true;
      }
      isHelper := RewriteUnscopedEndTag(tag, name);
    }

    /** An end tag whose name is not the current tag helper's. */
    method RewriteUnscopedEndTag(tag: Node, name: string) returns (isHelper: bool)
      requires tag.IsBlock() && tag.children != []
      requires |blockStack| > |trackerStack| && !MatchesTop(trackerStack, name)
      modifies this`trackerStack, this`blockStack, this`endTags, this`errors, this`rewritten
      ensures |blockStack| - |trackerStack| == old(|blockStack| - |trackerStack|)
      ensures SameHead(blockStack[0], old(blockStack)[0])
      ensures rewritten == old(rewritten)
      ensures |trackerStack| <= old(|trackerStack|) && old(errors) <= errors
      ensures
        var descriptors := provider(name, []);
        var ts := old(trackerStack);
        var k := MatchDepth(ts, name);
        if descriptors == [] then
          !isHelper && trackerStack == ts && blockStack == old(blockStack) && endTags == old(endTags) &&
          errors == old(errors)
        else if HasWithoutEndTag(descriptors) then
          !isHelper && trackerStack == ts && blockStack == old(blockStack) && endTags == old(endTags) &&
          errors == old(errors) + [Diagnostic(EndTagTagHelperMustNotHaveAnEndTag, Start(tag), Length(tag))]
        else if k < |ts| then
          isHelper && trackerStack == ts[..|ts| - 1 - k] &&
          endTags == ClosedTags(old(endTags), ts, k)[ts[|ts| - 1 - k].id := Some(tag)] &&
          blockStack == PopInto(ForceClose(old(blockStack), old(endTags), ts, k), endTags) &&
          errors == old(errors) + MalformedErrors(ts, k) +
                    NestedTagHelperErrors(TopAllowed(trackerStack), name, tag) + SyntaxErrors(tag)
        else
          !isHelper && trackerStack == ts && blockStack == old(blockStack) && endTags == old(endTags) &&
          errors == old(errors) + [Diagnostic(MalformedTagHelper, Start(tag), Length(tag))]
    {
      var descriptors := provider(name, []);
      if descriptors == [] {
        return false;
      }
      if HasWithoutEndTag(descriptors) {
        errors := errors + [Diagnostic(EndTagTagHelperMustNotHaveAnEndTag, Start(tag), Length(tag))];
        return false;
      }
      var recovered := TryRecoverTagHelper(name, tag);
      if recovered {
        ValidateParentTagHelperAllowsTagHelper(name, tag);
        var _ := ValidateTagSyntax(tag);
        return true;
      }
      errors := errors + [Diagnostic(MalformedTagHelper, Start(tag), Length(tag))];
      return false;
    }

    /** RewriteTags: rebuilds one block. Tag children go through
        TryRewriteTagHelper, other blocks are rewritten recursively, and
        every child that is not absorbed into a tag helper is appended
        unchanged. Tag helpers opened in the block and still open at its end
        are force-closed, innermost first. The tracker depth never ends above
        its depth on entry, and ends at it unless the children closed
        trackers opened outside the block. */
    method RewriteTags(input: Node) returns (ghost trackersAfterChildren: seq<Tracker>,
                                             ghost errorsAfterChildren: seq<Diagnostic>)
      requires input.Block?
      requires |blockStack| >= |trackerStack|
      modifies this`trackerStack, this`blockStack, this`endTags, this`errors, this`rewritten, this`nextId
      ensures |blockStack| - |trackerStack| == old(|blockStack| - |trackerStack|)
      ensures old(errors) <= errorsAfterChildren
      ensures var depth := old(|trackerStack|);
        if |trackersAfterChildren| > depth then
          trackerStack == trackersAfterChildren[..depth] &&
          errors == errorsAfterChildren + MalformedErrors(trackersAfterChildren, |trackersAfterChildren| - depth)
        else
          trackerStack == trackersAfterChildren && errors == errorsAfterChildren
      ensures |trackerStack| <= old(|trackerStack|)
      ensures old(|blockStack|) >= 1 && |blockStack| >= 1 ==> SameHead(blockStack[0], old(blockStack)[0])
      ensures old(|blockStack| - |trackerStack|) >= 1 ==> rewritten == old(rewritten)
      ensures old(|blockStack|) == 0 && old(|trackerStack|) == 0 ==>
        blockStack == [] && trackerStack == [] && rewritten.Some? &&
        SameHead(rewritten.value, PlainFrame(input.blockType, input.generator, []))
      // Outside any tag helper that restricts its children, a block without
      // tags is rebuilt as it was and appended to the current builder (or
      // becomes the result), without errors.
      ensures TagFree(input) && TopAllowed(old(trackerStack)).None? ==>
        trackerStack == old(trackerStack) && endTags == old(endTags) && errors == old(errors) &&
        (old(|blockStack|) >= 1 ==> blockStack == AppendToTop(old(blockStack), input)) &&
        (old(|blockStack|) == 0 ==> rewritten.Some? && Build(rewritten.value, endTags) == input)
      decreases input, 2
    {
      ghost var bottom := if |blockStack| == 0 then PlainFrame(input.blockType, input.generator, [])
                          else blockStack[0];
      TrackBlock(PlainFrame(input.blockType, input.generator, []));
      var activeTagHelpers := |trackerStack|;
      RewriteChildren(input);
      assert [] + input.children == input.children;
      trackersAfterChildren := trackerStack;
      errorsAfterChildren := errors;
      ghost var lastBottom := blockStack[0];
      if activeTagHelpers != |trackerStack| {
        BuildMalformedTagHelpers(|trackerStack| - activeTagHelpers);
        SameHeadTransitive(blockStack[0], lastBottom, bottom);
      }
      lastBottom := blockStack[0];
      BuildCurrentlyTrackedBlock();
      if |blockStack| >= 1 {
        SameHeadTransitive(blockStack[0], lastBottom, bottom);
      }
    }

    /** RewriteTags' loop over the children of input, each rewritten into
        the current builder. */
    method RewriteChildren(input: Node)
      requires input.Block? && |blockStack| > |trackerStack|
      modifies this`trackerStack, this`blockStack, this`endTags, this`errors, this`rewritten, this`nextId
      ensures |blockStack| - |trackerStack| == old(|blockStack| - |trackerStack|)
      ensures SameHead(blockStack[0], old(blockStack)[0])
      ensures old(errors) <= errors
      ensures rewritten == old(rewritten)
      ensures TagFree(input) && TopAllowed(old(trackerStack)).None? ==>
        trackerStack == old(trackerStack) && endTags == old(endTags) && errors == old(errors) &&
        blockStack == AppendAllToTop(old(blockStack), input.children)
      decreases input, 1
    {
      ghost var plain := TagFree(input) && TopAllowed(trackerStack).None?;
      AppendAllToTopNil(blockStack);
      for i := 0 to |input.children|
        invariant |blockStack| - |trackerStack| == old(|blockStack| - |trackerStack|)
        invariant SameHead(blockStack[0], old(blockStack)[0])
        invariant old(errors) <= errors
        invariant rewritten == old(rewritten)
        invariant plain ==>
          trackerStack == old(trackerStack) && endTags == old(endTags) && errors == old(errors) &&
          blockStack == AppendAllToTop(old(blockStack), input.children[..i])
      {
        ghost var before := blockStack[0];
        ghost var _, _ := RewriteChild(input.children[i]);
        SameHeadTransitive(blockStack[0], before, old(blockStack)[0]);
        assert input.children[..i + 1] == input.children[..i] + [input.children[i]];
        AppendAllToTopStep(old(blockStack), input.children[..i], input.children[i]);
      }
      assert input.children[..|input.children|] == input.children;
    }

    /** One step of RewriteTags' loop: a tag child goes through
        TryRewriteTagHelper, any other block is rewritten recursively, and a
        child not absorbed into a tag helper is validated against the current
        tag helper's allowed children and appended to the current builder. */
    method RewriteChild(child: Node) returns (ghost absorbed: bool, ghost tagErrors: seq<Diagnostic>)
      requires |blockStack| > |trackerStack|
      modifies this`trackerStack, this`blockStack, this`endTags, this`errors, this`rewritten, this`nextId
      ensures |blockStack| - |trackerStack| == old(|blockStack| - |trackerStack|)
      ensures SameHead(blockStack[0], old(blockStack)[0])
      ensures old(errors) <= errors
      ensures rewritten == old(rewritten)
      // Text is checked against the current tag helper's allowed children
      // and appended unchanged, as is a tag that cannot be a tag helper.
      ensures child.Span? ==>
        blockStack == AppendToTop(old(blockStack), child) && trackerStack == old(trackerStack) &&
        endTags == old(endTags) && errors == old(errors) + ContentErrors(TopAllowed(old(trackerStack)), child)
      ensures child.IsBlock() && child.Type() == BlockType.Tag && !IsCandidate(child) ==>
        blockStack == AppendToTop(old(blockStack), child) && trackerStack == old(trackerStack) &&
        endTags == old(endTags) && errors == old(errors) + PlainTagErrors(TopAllowed(old(trackerStack)), child)
      // Only a tag that may be a tag helper can be absorbed into one.
      ensures absorbed ==> child.IsBlock() && child.Type() == BlockType.Tag && IsCandidate(child)
      // A tag that TryRewriteTagHelper declines is appended unchanged after
      // the errors it reported (none for a start tag) and the plain-tag
      // check against the current tag helper's allowed children.
      ensures child.IsBlock() && child.Type() == BlockType.Tag && !absorbed ==>
        blockStack == AppendToTop(old(blockStack), child) && endTags == old(endTags) &&
        |trackerStack| == old(|trackerStack|) && TopAllowed(trackerStack) == TopAllowed(old(trackerStack)) &&
        errors == old(errors) + tagErrors + PlainTagErrors(TopAllowed(old(trackerStack)), child) &&
        (IsCandidate(child) && !IsEndTag(child) ==> tagErrors == [])
      // Any other block is rebuilt in place; outside a tag helper that
      // restricts its children, a block without tags is rebuilt as it was.
      ensures child.Block? && child.blockType != BlockType.Tag ==> |trackerStack| <= old(|trackerStack|)
      ensures TagFree(child) && TopAllowed(old(trackerStack)).None? ==>
        blockStack == AppendToTop(old(blockStack), child) && trackerStack == old(trackerStack) &&
        endTags == old(endTags) && errors == old(errors)
      decreases child, 3
    {
      absorbed, tagErrors := false, [];
      if child.IsBlock() {
        if child.Type() == BlockType.Tag {
          ghost var errorsBefore := errors;
          var rewrote := TryRewriteTagHelper(child);
          if rewrote {
            absorbed := true;
            return;
          }
          tagErrors := errors[|errorsBefore|..];
          assert errors == errorsBefore + tagErrors;
          ValidateParentTagHelperAllowsPlainTag(child);
        } else {
          ghost var _, _ := RewriteTags(child);
          return;
        }
      } else {
        ValidateParentTagHelperAllowsContent(child);
      }
      blockStack := AppendToTop(blockStack, child);
    }
  }
}
