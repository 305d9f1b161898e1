/** The exceptions that can leave the factory's methods.

    The factory itself raises three kinds while it builds the initial tree
    (an unsupported constituent tag, a part-of-speech constituent with no
    indexed leaf, a leaf index with no token) and defines two wrapper
    exceptions that classify failures of the later stages. Everything the
    element-builder passes may throw is abstracted as a `Fault`. */
module Exceptions {

  /** An exception thrown from inside the element-builder classes (a role
      that cannot be assigned, a coordination that fails, a node that cannot
      build). Those classes live in an assembly that does not see the
      factory's own exception types, so a fault is never one of them. */
  datatype Fault = Fault(message: string)

  datatype Exception =
    | NotImplemented                       // the tag switch's default arm
    | NullReference                        // no first child, or no index annotation on it
    | TokenNotFound(index: int)            // the parse has no token with the leaf's index
    | Thrown(fault: Fault)                 // raised by an element-builder pass
    | TreeCannotBeTransformedToRealizableForm(inner: Exception)
    | SpecCannotBeBuilt(inner: Exception)
  {
    /** Raised by the factory itself while the initial builder tree is
        assembled from the parse. Exceptions from role assignment inside the
        builders' `AddChild` are not part of this model. */
    predicate IsConstructionError() {
      NotImplemented? || NullReference? || TokenNotFound?
    }

    /** One of the factory's two classifying wrappers. */
    predicate IsClassified() {
      TreeCannotBeTransformedToRealizableForm? || SpecCannotBeBuilt?
    }

    /** The exception's message: a wrapper's message is fixed by its class,
      and a fault keeps its own. */
    function Message(): (r: string)
      ensures IsClassified() ==> |r| > 0
      ensures Thrown? ==> r == fault.message
    {
      match this
      case TreeCannotBeTransformedToRealizableForm(_) => "Element Tree could not be transformed to realizable form"
      case SpecCannotBeBuilt(_) => "SimpleNLG specification cannot be built from tree"
      case Thrown(f) => f.message
      case _ => ""
    }
  }

  /** A wrapper's message names its class and does not depend on the cause,
      so the two classes can be told apart by their messages alone. */
  lemma WrapperMessagesIdentifyTheClass(a: Exception, b: Exception)
    ensures TreeCannotBeTransformedToRealizableForm(a).Message() == TreeCannotBeTransformedToRealizableForm(b).Message()
    ensures SpecCannotBeBuilt(a).Message() == SpecCannotBeBuilt(b).Message()
    ensures TreeCannotBeTransformedToRealizableForm(a).Message() != SpecCannotBeBuilt(b).Message()
  {
  }
}
