/** The factory's pipeline: parse result -> editable builder tree ->
    realizable builder tree -> realizer specification.

    The passes are carried out by the element-builder classes, which are not
    part of this model; they are the fields of `Passes`, each returning the
    pass's result or the fault it raised. What the factory adds, and what is
    modelled here, is the order in which it runs them, the copy it makes
    before transforming, the classification of failures into its two
    exception types, and the one-element document it wraps the result in. */
module RealizerFactory {
  import opened Results
  import opened Exceptions
  import opened Parsing
  import opened TreeConstruction
  import opened TreeShape

  /** An element of the realizer's specification schema, as built by a tree. */
  type NLGElement

  datatype DocumentCategory = DOCUMENT | SECTION | PARAGRAPH | SENTENCE | LIST | ENUMERATED_LIST | LIST_ITEM

  datatype DocumentElement = DocumentElement(cat: DocumentCategory, catSpecified: bool, child: seq<NLGElement>)

  datatype RequestType = RequestType(document: DocumentElement)

  /** The specification sent to the realizer. */
  datatype NLGSpec = NLGSpec(item: RequestType)

  /** The element-builder operations the factory invokes. */
  datatype Passes = Passes(
    attachDependencies: (RootNode, seq<Dependency>) -> Result<RootNode, Fault>,
    applyDependencies: RootNode -> Result<RootNode, Fault>,
    propagateConsolidate: RootNode -> Result<RootNode, Fault>,
    propagateConfigure: RootNode -> Result<RootNode, Fault>,
    copyLightweight: ElementBuilder -> Result<ElementBuilder, Fault>,
    propagateCoordinate: RootNode -> Result<RootNode, Fault>,
    buildElement: ElementBuilder -> Result<NLGElement, Fault>)

  /** A fault raised by a pass, as the exception the caller sees. */
  function Raise<T>(r: Result<T, Fault>): Result<T, Exception> {
    match r
    case Ok(v) => Ok(v)
    case Err(f) => Err(Thrown(f))
  }

  // ---------------------------------------------------------------------
  // The editable tree
  // ---------------------------------------------------------------------

  /** The passes that turn the freshly built tree into the editable tree. */
  datatype EditingPass = AttachDependencies | ApplyDependencies | Consolidate | Configure

  const EditingPassOrder: seq<EditingPass> := [AttachDependencies, ApplyDependencies, Consolidate, Configure]

  function RunPass(passes: Passes, pass: EditingPass, root: RootNode, dependencies: seq<Dependency>): Result<RootNode, Exception> {
    match pass
    case AttachDependencies => Raise(passes.attachDependencies(root, dependencies))
    case ApplyDependencies => Raise(passes.applyDependencies(root))
    case Consolidate => Raise(passes.propagateConsolidate(root))
    case Configure => Raise(passes.propagateConfigure(root))
  }

  /** Runs `order` left to right; the first fault ends the run. */
  function RunPasses(passes: Passes, order: seq<EditingPass>, root: RootNode, dependencies: seq<Dependency>): Result<RootNode, Exception>
    decreases |order|
  {
    if order == [] then Ok(root)
    else
      var next :- RunPass(passes, order[0], root, dependencies);
      RunPasses(passes, order[1..], next, dependencies)
  }

  /** Builds the tree for the parse and runs the editing passes over it.
      Nothing here is caught: an exception from construction or from a pass
      reaches the caller as it was raised. */
  function EditableTreeFrom(parse: ParseResult, passes: Passes): (r: Result<ElementBuilder, Exception>)
    ensures TreeFrom(parse, parse.constituents).Err? ==> r == TreeFrom(parse, parse.constituents).PropagateFailure()
    ensures r.Ok? ==> TreeFrom(parse, parse.constituents).Ok?
    ensures r.Err? ==> r.error.IsConstructionError() || r.error.Thrown?
  {
    var tree :- TreeFrom(parse, parse.constituents);
    var attached :- Raise(passes.attachDependencies(RootNode(tree), parse.dependencies));
    var applied :- Raise(passes.applyDependencies(attached));
    var consolidated :- Raise(passes.propagateConsolidate(applied));
    var configured :- Raise(passes.propagateConfigure(consolidated));
    Ok(configured.tree)
  }

  /** The editing passes run exactly in the order attach, apply, consolidate,
      configure, on the root of the constructed tree. */
  lemma EditableTreeFromPassOrder(parse: ParseResult, passes: Passes)
    requires TreeFrom(parse, parse.constituents).Ok?
    ensures EditableTreeFrom(parse, passes).ErrorIfAny()
      == RunPasses(passes, EditingPassOrder, RootNode(TreeFrom(parse, parse.constituents).value), parse.dependencies).ErrorIfAny()
    ensures EditableTreeFrom(parse, passes).Ok? ==>
      RunPasses(passes, EditingPassOrder, RootNode(TreeFrom(parse, parse.constituents).value), parse.dependencies)
        == Ok(RootNode(EditableTreeFrom(parse, passes).value))
  {
  }

  // ---------------------------------------------------------------------
  // The realizable tree
  // ---------------------------------------------------------------------

  /** Transforms a lightweight copy of the editable tree by coordination.
      Any fault, from the copy or from coordination, is reported only as
      "tree cannot be transformed", carrying the fault as its cause. */
  function RealizableTreeFrom(editableTree: ElementBuilder, passes: Passes): (r: Result<ElementBuilder, Exception>)
    ensures r.Err? <==>
      passes.copyLightweight(editableTree).Err?
      || passes.propagateCoordinate(RootNode(passes.copyLightweight(editableTree).value)).Err?
    ensures passes.copyLightweight(editableTree).Err? ==>
      r == Err(TreeCannotBeTransformedToRealizableForm(Thrown(passes.copyLightweight(editableTree).error)))
    ensures passes.copyLightweight(editableTree).Ok? && r.Err? ==>
      r == Err(TreeCannotBeTransformedToRealizableForm(Thrown(
        passes.propagateCoordinate(RootNode(passes.copyLightweight(editableTree).value)).error)))
    ensures r.Ok? ==>
      passes.propagateCoordinate(RootNode(passes.copyLightweight(editableTree).value)) == Ok(RootNode(r.value))
  {
    var transformed :=
      var copy :- Raise(passes.copyLightweight(editableTree));
      var coordinated :- Raise(passes.propagateCoordinate(RootNode(copy)));
      Ok(coordinated.tree);
    if transformed.Err? then Err(TreeCannotBeTransformedToRealizableForm(transformed.error))
    else transformed
  }

  /** Coordination only ever sees the lightweight copy: how the passes treat
      the editable tree itself, or any tree other than the copy, does not
      affect the outcome. */
  lemma CoordinateSeesOnlyTheCopy(editableTree: ElementBuilder, passes: Passes, others: Passes)
    requires others.copyLightweight(editableTree) == passes.copyLightweight(editableTree)
    requires passes.copyLightweight(editableTree).Ok? ==>
      others.propagateCoordinate(RootNode(passes.copyLightweight(editableTree).value))
        == passes.propagateCoordinate(RootNode(passes.copyLightweight(editableTree).value))
    ensures RealizableTreeFrom(editableTree, others) == RealizableTreeFrom(editableTree, passes)
  {
  }

  // ---------------------------------------------------------------------
  // The specification
  // ---------------------------------------------------------------------

  /** Wraps the element the realizable tree builds in a document. A fault
      while building is reported only as "spec cannot be built", carrying
      the fault as its cause. */
  function RealizableSpecFrom(realizableTree: ElementBuilder, passes: Passes): (r: Result<NLGSpec, Exception>)
    ensures r.Err? <==> passes.buildElement(realizableTree).Err?
    ensures r.Err? ==> r.error == SpecCannotBeBuilt(Thrown(passes.buildElement(realizableTree).error))
    ensures r.Ok? ==>
      r.value.item.document.cat == DOCUMENT && r.value.item.document.catSpecified
      && r.value.item.document.child == [passes.buildElement(realizableTree).value]
  {
    match passes.buildElement(realizableTree)
    case Err(buildException) => Err(SpecCannotBeBuilt(Thrown(buildException)))
    case Ok(element) => Ok(NLGSpec(RequestType(DocumentElement(DOCUMENT, true, [element]))))
  }

  /** The specification for a parse. An exception raised while building or
      editing the tree reaches the caller as raised; later faults arrive
      wrapped in one of the two classifying exceptions. */
  function SpecFromText(parse: ParseResult, passes: Passes): (r: Result<NLGSpec, Exception>)
    ensures TreeFrom(parse, parse.constituents).Err? ==> r == TreeFrom(parse, parse.constituents).PropagateFailure()
    ensures r.Err? ==>
      r.error.IsConstructionError() || r.error.Thrown? || (r.error.IsClassified() && r.error.inner.Thrown?)
    ensures r.Ok? ==>
      r.value.item.document.cat == DOCUMENT && r.value.item.document.catSpecified
      && |r.value.item.document.child| == 1
  {
    var editableTree :- EditableTreeFrom(parse, passes);
    var realizableTree :- RealizableTreeFrom(editableTree, passes);
    RealizableSpecFrom(realizableTree, passes)
  }

  /** The specification for an editable tree. Every failure arrives wrapped
      in one of the two classifying exceptions, with the fault as its cause. */
  function SpecFromEditableTree(editableTree: ElementBuilder, passes: Passes): (r: Result<NLGSpec, Exception>)
    ensures r.Err? ==> r.error.IsClassified() && r.error.inner.Thrown?
    ensures r.Err? && r.error.TreeCannotBeTransformedToRealizableForm? <==> RealizableTreeFrom(editableTree, passes).Err?
    ensures r.Ok? ==>
      r.value.item.document.cat == DOCUMENT && r.value.item.document.catSpecified
      && |r.value.item.document.child| == 1
  {
    var realizableTree :- RealizableTreeFrom(editableTree, passes);
    RealizableSpecFrom(realizableTree, passes)
  }

  /** The specification for a tree that is already realizable. The only
      possible failure is the build, reported as "spec cannot be built". */
  function SpecFromRealizableTree(realizableTree: ElementBuilder, passes: Passes): (r: Result<NLGSpec, Exception>)
    ensures r.Err? <==> passes.buildElement(realizableTree).Err?
    ensures r.Err? ==> r.error.SpecCannotBeBuilt? && r.error.inner == Thrown(passes.buildElement(realizableTree).error)
    ensures r.Ok? ==> r.value.item.document.child == [passes.buildElement(realizableTree).value]
  {
    RealizableSpecFrom(realizableTree, passes)
  }

  /** The three entry points agree: each continues the pipeline from where
      its argument stands, and a failure of an earlier stage is exactly the
      failure the later entry point returns. */
  lemma SpecFromOverloadsAgree(parse: ParseResult, passes: Passes)
    ensures EditableTreeFrom(parse, passes).Ok? ==>
      SpecFromText(parse, passes) == SpecFromEditableTree(EditableTreeFrom(parse, passes).value, passes)
    ensures forall e | RealizableTreeFrom(e, passes).Ok? ::
      SpecFromEditableTree(e, passes) == SpecFromRealizableTree(RealizableTreeFrom(e, passes).value, passes)
    ensures EditableTreeFrom(parse, passes).Err? ==>
      SpecFromText(parse, passes) == Err(EditableTreeFrom(parse, passes).error)
    ensures forall e | RealizableTreeFrom(e, passes).Err? ::
      SpecFromEditableTree(e, passes) == Err(RealizableTreeFrom(e, passes).error)
  {
  }

  /** Every failure of the whole pipeline falls in exactly one class: raised
      while building or editing the tree (unwrapped), raised while
      transforming it (wrapped as "cannot be transformed"), or raised while
      building the specification (wrapped as "cannot be built"). */
  lemma SpecFromFailureClassified(parse: ParseResult, passes: Passes)
    ensures var r := SpecFromText(parse, passes);
      (r.Err? && !r.error.IsClassified()) <==> EditableTreeFrom(parse, passes).Err?
    ensures var r := SpecFromText(parse, passes);
      (r.Err? && r.error.TreeCannotBeTransformedToRealizableForm?) <==>
        (EditableTreeFrom(parse, passes).Ok? && RealizableTreeFrom(EditableTreeFrom(parse, passes).value, passes).Err?)
    ensures var r := SpecFromText(parse, passes);
      (r.Err? && r.error.SpecCannotBeBuilt?) <==>
        (EditableTreeFrom(parse, passes).Ok?
         && RealizableTreeFrom(EditableTreeFrom(parse, passes).value, passes).Ok?
         && passes.buildElement(RealizableTreeFrom(EditableTreeFrom(parse, passes).value, passes).value).Err?)
    ensures var r := SpecFromText(parse, passes);
      r.Err? && r.error.IsClassified() ==> r.error.inner.Thrown?
  {
  }

  /** A successful pipeline produces a document with exactly one element:
      the one built from the coordinated copy of the editable tree. */
  lemma SpecFromSucceeds(parse: ParseResult, passes: Passes)
    requires SpecFromText(parse, passes).Ok?
    ensures EditableTreeFrom(parse, passes).Ok?
    ensures var realizable := RealizableTreeFrom(EditableTreeFrom(parse, passes).value, passes);
      realizable.Ok?
      && SpecFromText(parse, passes).value.item.document
        == DocumentElement(DOCUMENT, true, [passes.buildElement(realizable.value).value])
  {
  }

  /** When the parse contains an unusable constituent, the pipeline fails
      with that constituent's exception, unwrapped, whatever the passes do:
      the first examined constituent in depth-first order that cannot be
      built decides the exception. */
  lemma SpecFromReportsFirstUnusableConstituent(parse: ParseResult, passes: Passes)
    requires FirstError(parse, Visited(parse.constituents)).Some?
    ensures SpecFromText(parse, passes) == Err(FirstError(parse, Visited(parse.constituents)).value)
  {
    TreeFromFailsAtFirstError(parse, parse.constituents);
  }
}
