/** What the initial builder tree is (reading `AddChild` as an append),
    stated independently of how it is built: it mirrors the constituency tree node for node, its leaves are the
    tokens of the part-of-speech constituents in order, and construction
    fails exactly when some examined constituent is unusable, with the
    exception of the first such constituent in depth-first order. */
module TreeShape {
  import opened Results
  import opened Exceptions
  import opened Parsing
  import opened ConstituentTags
  import opened TreeConstruction

  // ---------------------------------------------------------------------
  // Reference definitions
  // ---------------------------------------------------------------------

  /** `t` is the builder tree of `c`: a leaf builder for a part-of-speech
      constituent, holding the token of its first child; a parent builder of
      the tag's kind for a phrase or clause constituent, with one child per
      child constituent, position by position. */
  ghost predicate Mirrors(parse: ParseResult, c: Constituent, t: ElementBuilder)
    decreases c
  {
    match t
    case PartOfSpeechBuilder(token) =>
      BuilderKindFor(c.tag) == Ok(PartOfSpeech) && GetLeafToken(c, parse) == Ok(token)
    case ParentElementBuilder(kind, children) =>
      BuilderKindFor(c.tag) == Ok(Parent(kind))
      && |children| == |c.children|
      && forall i | 0 <= i < |children| :: Mirrors(parse, c.children[i], children[i])
  }

  /** The constituents construction examines, in the order it examines them:
      the constituent itself, then (for a phrase or clause tag) everything
      examined in each child, left to right. The children of a part-of-speech
      or unsupported constituent are never examined. */
  function Visited(c: Constituent): seq<Constituent>
    decreases c
  {
    [c] + (if BuilderKindFor(c.tag).Ok? && BuilderKindFor(c.tag).value.Parent? then VisitedAll(c.children) else [])
  }

  function VisitedAll(cs: seq<Constituent>): seq<Constituent>
    decreases cs
  {
    if cs == [] then [] else VisitedAll(cs[..|cs| - 1]) + Visited(cs[|cs| - 1])
  }

  /** The exception that building the single constituent `n` raises, if any. */
  function NodeError(parse: ParseResult, n: Constituent): Option<Exception> {
    ElementBuilderParsedFrom(n, parse).ErrorIfAny()
  }

  /** The exception of the first constituent of `ns` that cannot be built. */
  function FirstError(parse: ParseResult, ns: seq<Constituent>): Option<Exception>
    decreases |ns|
  {
    if ns == [] then None
    else if NodeError(parse, ns[0]).Some? then NodeError(parse, ns[0])
    else FirstError(parse, ns[1..])
  }

  /** The tokens of the part-of-speech constituents of `ns`, in order. */
  function LeafTokens(parse: ParseResult, ns: seq<Constituent>): seq<ParseToken>
    decreases |ns|
  {
    if ns == [] then []
    else
      var here := if BuilderKindFor(ns[0].tag) == Ok(PartOfSpeech) && GetLeafToken(ns[0], parse).Ok?
        then [GetLeafToken(ns[0], parse).value] else [];
      here + LeafTokens(parse, ns[1..])
  }

  /** The number of part-of-speech constituents in `ns`. */
  function CountPartOfSpeech(ns: seq<Constituent>): nat
    decreases |ns|
  {
    if ns == [] then 0
    else (if BuilderKindFor(ns[0].tag) == Ok(PartOfSpeech) then 1 else 0) + CountPartOfSpeech(ns[1..])
  }

  /** The tokens of the leaf builders of a tree, left to right. */
  function Leaves(t: ElementBuilder): seq<ParseToken>
    decreases t
  {
    match t
    case PartOfSpeechBuilder(token) => [token]
    case ParentElementBuilder(_, children) => LeavesOf(children)
  }

  function LeavesOf(ts: seq<ElementBuilder>): seq<ParseToken>
    decreases ts
  {
    if ts == [] then [] else LeavesOf(ts[..|ts| - 1]) + Leaves(ts[|ts| - 1])
  }

  /** The number of builders in a tree. */
  function Size(t: ElementBuilder): nat
    decreases t
  {
    match t
    case PartOfSpeechBuilder(_) => 1
    case ParentElementBuilder(_, children) => 1 + SizeOf(children)
  }

  function SizeOf(ts: seq<ElementBuilder>): nat
    decreases ts
  {
    if ts == [] then 0 else SizeOf(ts[..|ts| - 1]) + Size(ts[|ts| - 1])
  }

  // ---------------------------------------------------------------------
  // Sequence facts
  // ---------------------------------------------------------------------

  lemma {:induction false} FirstErrorAppend(parse: ParseResult, a: seq<Constituent>, b: seq<Constituent>)
    ensures FirstError(parse, a + b) == if FirstError(parse, a).Some? then FirstError(parse, a) else FirstError(parse, b)
    decreases |a|
  {
    if a != [] {
      assert (a + b)[0] == a[0];
      assert (a + b)[1..] == a[1..] + b;
      FirstErrorAppend(parse, a[1..], b);
    } else {
      assert a + b == b;
    }
  }

  lemma {:induction false} LeafTokensAppend(parse: ParseResult, a: seq<Constituent>, b: seq<Constituent>)
    ensures LeafTokens(parse, a + b) == LeafTokens(parse, a) + LeafTokens(parse, b)
    decreases |a|
  {
    if a != [] {
      assert (a + b)[0] == a[0];
      assert (a + b)[1..] == a[1..] + b;
      LeafTokensAppend(parse, a[1..], b);
    } else {
      assert a + b == b;
    }
  }

  // ---------------------------------------------------------------------
  // Construction mirrors the constituency tree
  // ---------------------------------------------------------------------

  /** Construction succeeds with `t` exactly when `t` mirrors `c`. */
  lemma {:induction false} TreeFromMirrors(parse: ParseResult, c: Constituent, t: ElementBuilder)
    ensures TreeFrom(parse, c) == Ok(t) <==> Mirrors(parse, c, t)
    decreases c
  {
    match t
    case PartOfSpeechBuilder(_) =>
    case ParentElementBuilder(kind, children) =>
      if BuilderKindFor(c.tag) == Ok(Parent(kind)) {
        ChildrenFromMirrors(parse, c.children, children);
      }
  }

  lemma {:induction false} ChildrenFromMirrors(parse: ParseResult, cs: seq<Constituent>, ts: seq<ElementBuilder>)
    ensures ChildrenFrom(parse, cs) == Ok(ts) <==>
      |ts| == |cs| && forall i | 0 <= i < |ts| :: Mirrors(parse, cs[i], ts[i])
    decreases cs
  {
    if cs != [] && |ts| == |cs| {
      var n := |cs| - 1;
      ChildrenFromMirrors(parse, cs[..n], ts[..n]);
      TreeFromMirrors(parse, cs[n], ts[n]);
      assert ts == ts[..n] + [ts[n]];
      if ChildrenFrom(parse, cs) == Ok(ts) {
        forall i | 0 <= i < |ts| ensures Mirrors(parse, cs[i], ts[i]) {
          if i < n { assert cs[..n][i] == cs[i] && ts[..n][i] == ts[i]; }
        }
      }
      if forall i | 0 <= i < |ts| :: Mirrors(parse, cs[i], ts[i]) {
        forall i | 0 <= i < n ensures Mirrors(parse, cs[..n][i], ts[..n][i]) {
          assert cs[..n][i] == cs[i] && ts[..n][i] == ts[i];
        }
      }
    }
  }

  /** Each examined constituent yields exactly one builder. */
  lemma {:induction false} TreeFromSize(parse: ParseResult, c: Constituent, t: ElementBuilder)
    requires TreeFrom(parse, c) == Ok(t)
    ensures Size(t) == |Visited(c)|
    decreases c
  {
    if t.ParentElementBuilder? {
      ChildrenFromSize(parse, c.children, t.children);
    }
  }

  lemma {:induction false} ChildrenFromSize(parse: ParseResult, cs: seq<Constituent>, ts: seq<ElementBuilder>)
    requires ChildrenFrom(parse, cs) == Ok(ts)
    ensures SizeOf(ts) == |VisitedAll(cs)|
    decreases cs
  {
    if cs != [] {
      var n := |cs| - 1;
      var built := ChildrenFrom(parse, cs[..n]).value;
      var last := TreeFrom(parse, cs[n]).value;
      assert ts == built + [last];
      assert ts[..|ts| - 1] == built;
      ChildrenFromSize(parse, cs[..n], built);
      TreeFromSize(parse, cs[n], last);
      assert |VisitedAll(cs)| == |VisitedAll(cs[..n])| + |Visited(cs[n])|;
    }
  }

  // ---------------------------------------------------------------------
  // Leaves
  // ---------------------------------------------------------------------

  /** The leaves of the built tree are the tokens of the part-of-speech
      constituents, in depth-first order. */
  lemma {:induction false} TreeFromLeaves(parse: ParseResult, c: Constituent, t: ElementBuilder)
    requires TreeFrom(parse, c) == Ok(t)
    ensures Leaves(t) == LeafTokens(parse, Visited(c))
    decreases c
  {
    var rest := if BuilderKindFor(c.tag).Ok? && BuilderKindFor(c.tag).value.Parent? then VisitedAll(c.children) else [];
    LeafTokensAppend(parse, [c], rest);
    assert [c][1..] == [];
    if t.ParentElementBuilder? {
      ChildrenFromLeaves(parse, c.children, t.children);
    }
  }

  lemma {:induction false} ChildrenFromLeaves(parse: ParseResult, cs: seq<Constituent>, ts: seq<ElementBuilder>)
    requires ChildrenFrom(parse, cs) == Ok(ts)
    ensures LeavesOf(ts) == LeafTokens(parse, VisitedAll(cs))
    decreases cs
  {
    if cs != [] {
      var n := |cs| - 1;
      ChildrenFromLeaves(parse, cs[..n], ts[..n]);
      TreeFromLeaves(parse, cs[n], ts[n]);
      LeafTokensAppend(parse, VisitedAll(cs[..n]), Visited(cs[n]));
      assert ts[..|ts| - 1] == ts[..n];
    }
  }

  /** In a list of constituents that all build, every part-of-speech
      constituent contributes its token. */
  lemma {:induction false} LeafTokensCount(parse: ParseResult, ns: seq<Constituent>)
    requires FirstError(parse, ns) == None
    ensures |LeafTokens(parse, ns)| == CountPartOfSpeech(ns)
    decreases |ns|
  {
    if ns != [] {
      LeafTokensCount(parse, ns[1..]);
    }
  }

  /** The built tree has one leaf per examined part-of-speech constituent. */
  lemma TreeFromLeafCount(parse: ParseResult, c: Constituent, t: ElementBuilder)
    requires TreeFrom(parse, c) == Ok(t)
    ensures |Leaves(t)| == CountPartOfSpeech(Visited(c))
  {
    TreeFromLeaves(parse, c, t);
    TreeFromFailsAtFirstError(parse, c);
    LeafTokensCount(parse, Visited(c));
  }

  // ---------------------------------------------------------------------
  // Failure
  // ---------------------------------------------------------------------

  /** Construction raises an exception exactly when some examined constituent
      cannot be built, and it raises the exception of the first one. */
  lemma {:induction false} TreeFromFailsAtFirstError(parse: ParseResult, c: Constituent)
    ensures TreeFrom(parse, c).ErrorIfAny() == FirstError(parse, Visited(c))
    decreases c
  {
    var rest := if BuilderKindFor(c.tag).Ok? && BuilderKindFor(c.tag).value.Parent? then VisitedAll(c.children) else [];
    FirstErrorAppend(parse, [c], rest);
    assert [c][1..] == [];
    if NodeError(parse, c).None? && rest != [] {
      ChildrenFromFailsAtFirstError(parse, c.children);
    }
  }

  lemma {:induction false} ChildrenFromFailsAtFirstError(parse: ParseResult, cs: seq<Constituent>)
    ensures ChildrenFrom(parse, cs).ErrorIfAny() == FirstError(parse, VisitedAll(cs))
    decreases cs
  {
    if cs != [] {
      var n := |cs| - 1;
      ChildrenFromFailsAtFirstError(parse, cs[..n]);
      TreeFromFailsAtFirstError(parse, cs[n]);
      FirstErrorAppend(parse, VisitedAll(cs[..n]), Visited(cs[n]));
    }
  }

  lemma {:induction false} FirstErrorFindsAny(parse: ParseResult, ns: seq<Constituent>, d: Constituent)
    requires d in ns && NodeError(parse, d).Some?
    ensures FirstError(parse, ns).Some?
    decreases |ns|
  {
    if ns[0] != d {
      FirstErrorFindsAny(parse, ns[1..], d);
    }
  }

  /** One examined constituent with an unsupported tag (or without a usable
      token) makes the whole construction fail: no partial tree is returned. */
  lemma UnusableDescendantFailsTree(parse: ParseResult, c: Constituent, d: Constituent)
    requires d in Visited(c)
    requires BuilderKindFor(d.tag).Err? || (BuilderKindFor(d.tag) == Ok(PartOfSpeech) && GetLeafToken(d, parse).Err?)
    ensures TreeFrom(parse, c).Err?
  {
    FirstErrorFindsAny(parse, Visited(c), d);
    TreeFromFailsAtFirstError(parse, c);
  }

  /** A part-of-speech constituent's children after the first are ignored. */
  lemma PartOfSpeechIgnoresLaterChildren(parse: ParseResult, c: Constituent, others: seq<Constituent>)
    requires BuilderKindFor(c.tag) == Ok(PartOfSpeech) && |c.children| > 0
    ensures TreeFrom(parse, c) == TreeFrom(parse, c.(children := [c.children[0]] + others))
  {
  }
}
