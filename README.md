# FlexibleRealizerFactory, modelled in Dafny

This project models the front and back end of Echo's parse-to-realization
pipeline, the static `FlexibleRealizerFactory`:

- **The constituent-tag classifier** (`ConstituentTags`). It maps each tag of the
  Penn Treebank part-of-speech and bracketing tag sets to the kind of element
  builder the factory creates. Phrase and clause tags give one of twelve
  parent-builder kinds. Part-of-speech and punctuation tags give a
  part-of-speech (leaf) builder. Every other tag raises `NotImplemented`.
- **Construction of the initial builder tree** (`TreeConstruction`, `TreeShape`).
  The factory walks the constituency tree depth-first. It creates one builder
  per examined constituent (the word leaves under a part-of-speech constituent
  get none) and hands each child builder to its parent with `AddChild`, in
  order. The model takes `AddChild` to append the child; the program's
  role assignment does not always do so (see "Left out"). A leaf
  builder takes the token whose index is the index annotation on the
  constituent's first child. `ElementBuilderTreeFrom` is the factory's loop,
  written as a method. It is proved equal to the recursive function `TreeFrom`.
  Under the append reading, lemmas then show that the result mirrors the
  constituency tree node for node and that its leaves are the tokens of the
  part-of-speech constituents, in order. Under the same reading, construction
  fails exactly when an examined constituent is unusable, and the first such
  constituent in depth-first order decides the exception. In the program, role
  assignment inside `AddChild` can also throw while the tree is built; the
  model does not capture those exceptions (see "Left out").
- **The pipeline and its error classification** (`RealizerFactory`). The parse
  first becomes an editable tree: construction, then attach, apply,
  consolidate and configure, in that order. Next comes a realizable tree: a
  lightweight copy, then coordination. Last comes the specification: a
  `DOCUMENT` with exactly one built element. A fault during copy or
  coordination becomes "tree cannot be transformed". A fault while building the
  element becomes "spec cannot be built". Construction and editing exceptions
  reach the caller unwrapped.

The element-builder passes belong to classes outside this model. They are
parameters: the function-valued fields of `Passes`, each returning a result or
the `Fault` it raised. The parser's output is a `ParseResult` value: a
constituency tree, a token map and the dependency tuples.

The editing passes in `EditableTreeFrom`
(EnglishParsing/FlexibleRealizerFactory.cs:58-62) run outside any `try`, so
their exceptions reach the caller unwrapped. Only the later stages are
wrapped: copy and coordination (:73-82) as "cannot be transformed", and the
build (:90-111) as "spec cannot be built". `SpecFromFailureClassified` states
this.

## Model

| member | source | states |
|---|---|---|
| `ConstituentTags.BuilderKindFor` | EnglishParsing/FlexibleRealizerFactory.cs:145-231 | the tag switch is total; any failure it reports is the not-implemented exception of the default arm |
| `ConstituentTags.TagFor` | EnglishParsing/FlexibleRealizerFactory.cs:153-170 | every parent-builder kind is produced by some phrase or clause tag, the one the reference table lists for it |
| `ConstituentTags.ParentTagsGiveParentBuilders` | EnglishParsing/FlexibleRealizerFactory.cs:153-170 | each tag of the phrase/clause table (FRAG, ADJP, ADVP, NP, NML, PP, PRT, S, SBAR, VP, WHADVP, WHNP, WHPP) gives a parent builder of the kind the table names |
| `ConstituentTags.ParentBuildersComeFromParentTags` | EnglishParsing/FlexibleRealizerFactory.cs:153-174 | only tags of that table give parent builders |
| `ConstituentTags.ParentTagIsUnique` | EnglishParsing/FlexibleRealizerFactory.cs:154-170 | a parent kind comes from exactly one tag, except the prepositional-phrase kind, which comes from both "PP" and "WHPP" |
| `ConstituentTags.WordTagsGiveLeafBuilders` | EnglishParsing/FlexibleRealizerFactory.cs:176-199 | CC, DT, IN, JJ/JJR/JJS, MD, NN/NNS/NNP/NNPS, PDT, POS, PRP, PRP$, RB/RBR/RBS and RP give a leaf builder, never a parent |
| `ConstituentTags.VerbAndWhTagsGiveLeafBuilders` | EnglishParsing/FlexibleRealizerFactory.cs:203-212 | VB, VBD, VBG, VBN, VBP, VBZ, WDT, WP, WP$ and WRB give a leaf builder |
| `ConstituentTags.PunctuationTagsGiveLeafBuilders` | EnglishParsing/FlexibleRealizerFactory.cs:214-226 | "#", "$", ".", ",", ":", brackets and the straight and curly quotes give a leaf builder |
| `ConstituentTags.LeafBuildersComeFromPartOfSpeechTags` | EnglishParsing/FlexibleRealizerFactory.cs:176-226 | only the listed part-of-speech and punctuation tags give leaf builders |
| `ConstituentTags.OtherTagsFail` | EnglishParsing/FlexibleRealizerFactory.cs:228 | a tag in neither list raises the not-implemented exception |
| `ConstituentTags.UnsupportedTagsFail` | EnglishParsing/FlexibleRealizerFactory.cs:163-201 | the commented-out tags (SBARQ, SINV, SQ, WHADJP, X, *, 0, T, CD, EX, FW, LS, SYM, TO, UH) all fail |
| `Parsing.ParseResult.TokenWithIndex` | EnglishParsing/FlexibleRealizerFactory.cs:240 | the lookup succeeds exactly for an index the parse has a token for, returns that token (whose own index is the one asked for, when every token is filed under its own index), and otherwise reports the missing index |
| `TreeConstruction.GetLeafToken` | EnglishParsing/FlexibleRealizerFactory.cs:235-241 | a leaf's token is the parse token indexed by the first child's index annotation; a missing first child or annotation is a null reference, a missing token a lookup failure |
| `TreeConstruction.ElementBuilderParsedFrom` | EnglishParsing/FlexibleRealizerFactory.cs:143-233 | a phrase/clause tag gives an empty parent builder of its kind, a part-of-speech tag a leaf builder with the leaf token, an unsupported tag the not-implemented exception (before any token lookup); failures are construction errors |
| `TreeConstruction.TreeFrom` | EnglishParsing/FlexibleRealizerFactory.cs:119-135 | every exception raised while building a tree is a construction error (append reading of `AddChild`) |
| `TreeConstruction.ChildrenFrom` | EnglishParsing/FlexibleRealizerFactory.cs:127-131 | building the children yields one builder per child constituent, or a construction error (append reading of `AddChild`) |
| `TreeConstruction.ChildrenFromStopsAtFailure` | EnglishParsing/FlexibleRealizerFactory.cs:128-131 | once a child fails, the whole child loop fails with that exception |
| `TreeConstruction.ElementBuilderTreeFrom` | EnglishParsing/FlexibleRealizerFactory.cs:119-135 | the loop that appends one child builder per child constituent computes exactly `TreeFrom`, including which exception ends it (append reading of `AddChild`) |
| `TreeConstruction.RootOfElementBuilderTreeFrom` | EnglishParsing/FlexibleRealizerFactory.cs:115 | the root anchor holds the built tree, and construction exceptions pass through unchanged |
| `TreeShape.TreeFromMirrors` | EnglishParsing/FlexibleRealizerFactory.cs:119-135 | construction yields `t` if and only if `t` mirrors the constituent: leaf for a part-of-speech tag with its token, parent of the tag's kind with as many children as the constituent, each mirroring the child at the same position (append reading of `AddChild`) |
| `TreeShape.ChildrenFromMirrors` | EnglishParsing/FlexibleRealizerFactory.cs:126-132 | the child loop yields `ts` if and only if `ts` has one builder per child constituent, in the same order, each mirroring its constituent (append reading of `AddChild`) |
| `TreeShape.TreeFromSize` | EnglishParsing/FlexibleRealizerFactory.cs:119-135 | the built tree has exactly one builder per examined constituent (append reading of `AddChild`) |
| `TreeShape.ChildrenFromSize` | EnglishParsing/FlexibleRealizerFactory.cs:127-131 | the children's builders number exactly the constituents examined below them (append reading of `AddChild`) |
| `TreeShape.TreeFromLeaves` | EnglishParsing/FlexibleRealizerFactory.cs:119-135 | the leaves of the built tree, left to right, are the tokens of the examined part-of-speech constituents in depth-first order (append reading of `AddChild`) |
| `TreeShape.ChildrenFromLeaves` | EnglishParsing/FlexibleRealizerFactory.cs:127-131 | the children's leaves are the tokens of the part-of-speech constituents below them, in order (append reading of `AddChild`) |
| `TreeShape.LeafTokensCount` | EnglishParsing/FlexibleRealizerFactory.cs:233-241 | when every examined constituent builds, each part-of-speech constituent contributes exactly one token |
| `TreeShape.TreeFromLeafCount` | EnglishParsing/FlexibleRealizerFactory.cs:119-135 | the built tree has as many leaves as there are examined part-of-speech constituents (append reading of `AddChild`) |
| `TreeShape.TreeFromFailsAtFirstError` | EnglishParsing/FlexibleRealizerFactory.cs:119-135 | construction fails if and only if some examined constituent cannot be built, and it raises the exception of the first one in depth-first order (append reading of `AddChild`) |
| `TreeShape.ChildrenFromFailsAtFirstError` | EnglishParsing/FlexibleRealizerFactory.cs:128-131 | the child loop fails exactly with the first failure among the constituents below it (append reading of `AddChild`) |
| `TreeShape.FirstErrorFindsAny` | EnglishParsing/FlexibleRealizerFactory.cs:121-130 | if any constituent of a list cannot be built, a first failing one exists |
| `TreeShape.UnusableDescendantFailsTree` | EnglishParsing/FlexibleRealizerFactory.cs:121-130 | one examined descendant with an unsupported tag or an unusable token makes the whole construction fail; no partial tree is returned |
| `TreeShape.PartOfSpeechIgnoresLaterChildren` | EnglishParsing/FlexibleRealizerFactory.cs:124-125 | a part-of-speech constituent's children after the first do not affect the result |
| `RealizerFactory.EditableTreeFrom` | EnglishParsing/FlexibleRealizerFactory.cs:55-64 | a construction failure is returned as raised, before any pass runs; success needs successful construction; failures are construction errors or pass faults, never one of the two wrappers |
| `RealizerFactory.EditableTreeFromPassOrder` | EnglishParsing/FlexibleRealizerFactory.cs:58-63 | the editable tree is the result of running attach, apply, consolidate and configure, in that order, on the constructed root, the first fault ending the run |
| `RealizerFactory.RealizableTreeFrom` | EnglishParsing/FlexibleRealizerFactory.cs:71-83 | it fails exactly when the copy or coordination of the copy fails, and then only with "cannot be transformed" wrapping that fault; on success the result is the coordinated copy |
| `RealizerFactory.CoordinateSeesOnlyTheCopy` | EnglishParsing/FlexibleRealizerFactory.cs:75-77 | the outcome depends only on the copy of the editable tree and on coordinating that copy; coordination is never applied to the editable tree |
| `RealizerFactory.RealizableSpecFrom` | EnglishParsing/FlexibleRealizerFactory.cs:88-112 | it fails exactly when building the element fails, and then only with "spec cannot be built" wrapping that fault; on success the spec is a DOCUMENT with `catSpecified` set and exactly the one built element |
| `RealizerFactory.SpecFromOverloadsAgree` | EnglishParsing/FlexibleRealizerFactory.cs:32-39 | the text, editable-tree and realizable-tree entry points agree, each continuing the pipeline from its argument; when an earlier stage fails, the later entry point returns exactly that failure |
| `RealizerFactory.SpecFromFailureClassified` | EnglishParsing/FlexibleRealizerFactory.cs:32-112 | a pipeline failure is unwrapped exactly when the editable stage failed, "cannot be transformed" exactly when only the realizable stage failed, "cannot be built" exactly when only the element build failed; a wrapper always carries the pass fault as its cause |
| `RealizerFactory.SpecFromSucceeds` | EnglishParsing/FlexibleRealizerFactory.cs:92-106 | a successful pipeline produces a DOCUMENT whose one child is the element built from the coordinated copy of the editable tree |
| `RealizerFactory.SpecFromReportsFirstUnusableConstituent` | EnglishParsing/FlexibleRealizerFactory.cs:55-58 | a parse with an unusable constituent makes the pipeline fail, whatever the passes do, with the exception of the first such constituent in depth-first order (append reading of `AddChild`) |
| `RealizerFactory.SpecFromText` | EnglishParsing/FlexibleRealizerFactory.cs:32-34 | a construction error reaches the caller as raised; any failure is a construction error, a pass fault, or a classifying wrapper around a pass fault; success is a DOCUMENT with exactly one element |
| `RealizerFactory.SpecFromEditableTree` | EnglishParsing/FlexibleRealizerFactory.cs:36-37 | every failure is one of the two classifying wrappers around a pass fault, "cannot be transformed" exactly when the realizable stage fails; success is a DOCUMENT with exactly one element |
| `RealizerFactory.SpecFromRealizableTree` | EnglishParsing/FlexibleRealizerFactory.cs:39 | fails exactly when the build fails, then only as "spec cannot be built" around that fault; success holds exactly the built element |
| `TreeConstruction.ElementBuilder.AddChild` | EnglishParsing/FlexibleRealizerFactory.cs:130 | adding a child (the `ParentElementBuilder.AddChild` this line calls) keeps the parent's kind and its earlier children, and puts the new child last: the append reading of role assignment |
| `Exceptions.Exception.Message` | EnglishParsing/FlexibleRealizerFactory.cs:14-25 | the two wrappers carry a non-empty message; a pass fault keeps its own message |
| `Exceptions.WrapperMessagesIdentifyTheClass` | EnglishParsing/FlexibleRealizerFactory.cs:18-24 | a wrapper's message does not depend on its cause, and the two wrapper classes have different messages |

## Left out

- The call to the CoreNLP server that parses the text is not modelled. Its result is the `ParseResult` parameter.
- The Java interop that reads a constituent's tag and index annotation is not modelled. The tag is a string, and the annotation is an optional integer on each constituent.
- The implementation of `ParseResult.TokenWithIndex` is not available. The model assumes it is a lookup by index that fails when the parse has no token with that index.
- `PartOfSpeechBuilder.FromToken` is not part of this model. It picks the word-category subclass from the token. The leaf builder here holds only its token.
- `ParentElementBuilder.AddChild` is modelled as appending the child. Role assignment (`AssignRoleFor`) is not part of this model, and it departs from an append in at least these two ways visible in the builder sources, given on the next two lines.
- Role assignment can throw: the adverb-phrase, adjective-phrase, independent-clause and nominal-modifier builders raise `InvalidOperationException` for a child they have no role for. For `(ADVP (NN x))` the program throws, where `TreeFrom` succeeds.
- Role assignment can keep a child in a field without registering it: `WhNounPhraseBuilder` keeps a wh-determiner or wh-pronoun as `HeadWord`, and `WhAdverbPhraseBuilder` does the same with a wh-adverb. For `(WHNP (WDT which))` the program builds a WHNP with no children, where `TreeFrom` gives it one. Each of the members on the following lines therefore holds for the append reading only.
- TreeFrom: in the program, construction can also fail with a role-assignment exception from `AddChild`, which is not a construction error here.
- ChildrenFrom: in the program, the child loop can also fail inside `AddChild`, and a wh-word child is not counted among the registered children.
- ElementBuilderTreeFrom: it equals `TreeFrom`, so it leaves out the role-assignment exceptions that end the program's loop at `AddChild`.
- TreeFromMirrors: under role assignment, a mirroring tree does not mean that the program succeeds (role assignment may throw), and a wh-phrase keeps its wh-word out of its children.
- ChildrenFromMirrors: the same two gaps as `TreeFromMirrors`, for a list of children.
- TreeFromSize: under role assignment, a wh-phrase's wh-word is not a registered builder of the tree.
- ChildrenFromSize: the same wh-phrase gap as `TreeFromSize`, for a list of children.
- TreeFromLeaves: under role assignment, a wh-phrase's wh-word is not among the registered leaves.
- ChildrenFromLeaves: the same wh-phrase gap as `TreeFromLeaves`, for a list of children.
- TreeFromLeafCount: under role assignment, wh-words are not counted as leaves.
- TreeFromFailsAtFirstError: the "only if" direction and the exception's identity hold only for the append reading. In the program a role-assignment exception can come first: for `(S (DT the) (CD 3))`, the independent-clause builder may reject the determiner before CD is examined.
- ChildrenFromFailsAtFirstError: the same gap as `TreeFromFailsAtFirstError`, for a list of children.
- SpecFromReportsFirstUnusableConstituent: the exception it names is the program's only when no role-assignment exception occurs earlier in the walk.
- The messages of the exceptions the runtime raises (not-implemented, null reference, missing token) are not modelled; `Message` gives them as empty.
- The passes (attach, apply, consolidate, configure, copy, coordinate, build) are not modelled. Each is an arbitrary function in `Passes`, and their own rules belong to builder classes outside this model. The same holds for the properties those rules promise, such as the idempotence of configuration and the removal of fragments.
- Builders are values, not objects, so object identity, parent back-references and in-place mutation are not captured. Copy isolation is stated by `CoordinateSeesOnlyTheCopy` (coordination sees only the copy), not as an unchanged heap.
- The root anchor's change notification is not modelled. Neither is the case where consolidation leaves the anchor with no tree: here `RootNode` always holds one.
- `ElementBuilderTreeFrom`'s `default` arm (`ArgumentException`) is not modelled, because it cannot be reached: a builder here is either a leaf or a parent.
- `NLGElement` is left abstract. The specification schema is modelled only as far as the document wrapper.
- Realizing the specification (a call to the SimpleNLG server) is not modelled.
- The user-interface files are not modelled. They hold editor wiring, graph layout and a stale call to a tree-construction overload that takes text.
- BuilderKindFor: its own contract states only the failure kind. Which tag gives which builder is stated by the lemmas `ParentTagsGiveParentBuilders`, `ParentBuildersComeFromParentTags`, `WordTagsGiveLeafBuilders`, `VerbAndWhTagsGiveLeafBuilders`, `PunctuationTagsGiveLeafBuilders`, `LeafBuildersComeFromPartOfSpeechTags` and `OtherTagsFail`. Each is kept separate so that each proof stays small.
