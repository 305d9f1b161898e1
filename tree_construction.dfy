/** Construction of the initial element-builder tree from a constituency
    parse. The builder tree mirrors the parse: a part-of-speech constituent
    becomes a leaf builder holding the token of its word, and a phrase or
    clause constituent becomes a parent builder whose children are built,
    in order, from the constituent's children (reading `AddChild` as an
    append). */
module TreeConstruction {
  import opened Results
  import opened Exceptions
  import opened Parsing
  import opened ConstituentTags

  /** A node of the element-builder tree. Child roles, relations and the
      other state of the builder classes are not part of this model. */
  datatype ElementBuilder =
    | PartOfSpeechBuilder(token: ParseToken)
    | ParentElementBuilder(kind: ParentKind, children: seq<ElementBuilder>)
  {
    /** Adding a child during construction appends it: the builder keeps
      its kind and its earlier children, and the new child comes last. */
    function AddChild(child: ElementBuilder): (r: ElementBuilder)
      requires ParentElementBuilder?
      ensures r.ParentElementBuilder? && r.kind == kind
      ensures |r.children| == |children| + 1
      ensures r.children[..|children|] == children && r.children[|children|] == child
    {
      ParentElementBuilder(kind, children + [child])
    }
  }

  /** The fixed anchor above the real root of a builder tree. */
  datatype RootNode = RootNode(tree: ElementBuilder)

  // ---------------------------------------------------------------------
  // One constituent
  // ---------------------------------------------------------------------

  /** The token of a part-of-speech constituent: the parse token whose index
      is the index annotation of the constituent's first child. */
  function GetLeafToken(c: Constituent, parse: ParseResult): (r: Result<ParseToken, Exception>)
    ensures r.Ok? <==> |c.children| > 0 && c.children[0].index.Some? && c.children[0].index.value in parse.tokens
    ensures r.Ok? ==> r.value == parse.tokens[c.children[0].index.value]
    ensures r.Ok? && parse.TokensIndexed() ==> r.value.index == c.children[0].index.value
    ensures r.Err? ==> (r.error == NullReference <==> |c.children| == 0 || c.children[0].index.None?)
    ensures r.Err? ==> r.error.NullReference? || r.error.TokenNotFound?
  {
    if |c.children| == 0 then Err(NullReference)
    else match c.children[0].index
      case None => Err(NullReference)
      case Some(leafIndex) => parse.TokenWithIndex(leafIndex)
  }

  /** The builder created for a single constituent, before any child is
      added: an empty parent builder of the tag's kind, or a leaf builder. */
  function ElementBuilderParsedFrom(c: Constituent, parse: ParseResult): (r: Result<ElementBuilder, Exception>)
    ensures BuilderKindFor(c.tag).Err? ==> r == Err(NotImplemented)
    ensures r.Ok? && r.value.ParentElementBuilder? <==> BuilderKindFor(c.tag).Ok? && BuilderKindFor(c.tag).value.Parent?
    ensures r.Ok? && r.value.ParentElementBuilder? ==>
      BuilderKindFor(c.tag) == Ok(Parent(r.value.kind)) && r.value.children == []
    ensures r.Ok? && r.value.PartOfSpeechBuilder? ==>
      BuilderKindFor(c.tag) == Ok(PartOfSpeech) && GetLeafToken(c, parse) == Ok(r.value.token)
    ensures BuilderKindFor(c.tag) == Ok(PartOfSpeech) && GetLeafToken(c, parse).Err? ==> r == GetLeafToken(c, parse).PropagateFailure()
    ensures r.Err? ==> r.error.IsConstructionError()
  {
    var builderKind :- BuilderKindFor(c.tag);
    match builderKind
    case Parent(kind) => Ok(ParentElementBuilder(kind, []))
    case PartOfSpeech =>
      var token :- GetLeafToken(c, parse);
      Ok(PartOfSpeechBuilder(token))
  }

  // ---------------------------------------------------------------------
  // The whole tree
  // ---------------------------------------------------------------------

  /** The builder tree for `c`, or the first exception raised while building it. */
  function TreeFrom(parse: ParseResult, c: Constituent): (r: Result<ElementBuilder, Exception>)
    ensures r.Err? ==> r.error.IsConstructionError()
    decreases c
  {
    var builder :- ElementBuilderParsedFrom(c, parse);
    match builder
    case PartOfSpeechBuilder(_) => Ok(builder)
    case ParentElementBuilder(kind, _) =>
      var children :- ChildrenFrom(parse, c.children);
      Ok(ParentElementBuilder(kind, children))
  }

  /** The builders for the constituents `cs`, built left to right. */
  function ChildrenFrom(parse: ParseResult, cs: seq<Constituent>): (r: Result<seq<ElementBuilder>, Exception>)
    ensures r.Err? ==> r.error.IsConstructionError()
    ensures r.Ok? ==> |r.value| == |cs|
    decreases cs
  {
    if cs == [] then Ok([])
    else
      var built :- ChildrenFrom(parse, cs[..|cs| - 1]);
      var last :- TreeFrom(parse, cs[|cs| - 1]);
      Ok(built + [last])
  }

  /** Once a prefix of the children fails, building all of them fails with
      the same exception: nothing after the failing child is built. */
  lemma {:induction false} ChildrenFromStopsAtFailure(parse: ParseResult, cs: seq<Constituent>, k: nat)
    requires k <= |cs|
    requires ChildrenFrom(parse, cs[..k]).Err?
    ensures ChildrenFrom(parse, cs) == ChildrenFrom(parse, cs[..k])
    decreases |cs|
  {
    if k < |cs| {
      assert cs[..|cs| - 1][..k] == cs[..k];
      ChildrenFromStopsAtFailure(parse, cs[..|cs| - 1], k);
    } else {
      assert cs[..k] == cs;
    }
  }

  /** Builds the builder tree for `constituent` the way the factory does:
      create the builder for the constituent, and for a parent builder add
      one child per child constituent, in order. An exception from any
      child ends the construction. */
  method ElementBuilderTreeFrom(parse: ParseResult, constituent: Constituent) returns (r: Result<ElementBuilder, Exception>)
    ensures r == TreeFrom(parse, constituent)
    decreases constituent
  {
    var theBuilder := ElementBuilderParsedFrom(constituent, parse);
    if theBuilder.Err? {
      return theBuilder;
    }
    match theBuilder.value
    case PartOfSpeechBuilder(_) =>
      return theBuilder;
    case ParentElementBuilder(kind, _) =>
      var parentElementBuilder := theBuilder.value;
      var childConstituents := constituent.children;
      for childConstituentIndex := 0 to |childConstituents|
        invariant parentElementBuilder.ParentElementBuilder? && parentElementBuilder.kind == kind
        invariant ChildrenFrom(parse, childConstituents[..childConstituentIndex]) == Ok(parentElementBuilder.children)
      {
        var child := ElementBuilderTreeFrom(parse, childConstituents[childConstituentIndex]);
        ghost var examined := childConstituents[..childConstituentIndex + 1];
        assert examined[..|examined| - 1] == childConstituents[..childConstituentIndex];
        assert examined[|examined| - 1] == childConstituents[childConstituentIndex];
        if child.Err? {
          ChildrenFromStopsAtFailure(parse, childConstituents, childConstituentIndex + 1);
          return Err(child.error);
        }
        parentElementBuilder := parentElementBuilder.AddChild(child.value);
      }
      assert childConstituents[..|childConstituents|] == childConstituents;
      return Ok(parentElementBuilder);
  }

  /** The factory's tree root: the built tree under a root anchor. */
  method RootOfElementBuilderTreeFrom(parse: ParseResult, constituent: Constituent) returns (r: Result<RootNode, Exception>)
    ensures r.Ok? <==> TreeFrom(parse, constituent).Ok?
    ensures r.Ok? ==> r.value.tree == TreeFrom(parse, constituent).value
    ensures r.Err? ==> r.error == TreeFrom(parse, constituent).error && r.error.IsConstructionError()
  {
    var tree :- ElementBuilderTreeFrom(parse, constituent);
    return Ok(RootNode(tree));
  }
}
