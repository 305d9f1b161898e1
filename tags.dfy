/** The constituent-tag classifier: which kind of element builder the factory
    creates for each tag of the Penn Treebank part-of-speech and bracketing
    tag sets. Phrase and clause tags give a parent builder of a particular
    kind, part-of-speech and punctuation tags give a part-of-speech (leaf)
    builder, and every other tag is unsupported. */
module ConstituentTags {
  import opened Results
  import opened Exceptions

  /** The parent-builder classes the factory instantiates. */
  datatype ParentKind =
    | Fragment
    | AdjectivePhrase
    | AdverbPhrase
    | NounPhrase
    | NominalModifier
    | PrepositionalPhrase
    | ParticleParent
    | IndependentClause
    | SubordinateClause
    | VerbPhrase
    | WhAdverbPhrase
    | WhNounPhrase

  /** What the factory builds for one constituent. */
  datatype BuilderKind = Parent(kind: ParentKind) | PartOfSpeech

  /** Reference table of the supported phrase and clause tags. */
  const ParentTags: map<string, ParentKind> := map[
    "FRAG" := Fragment,
    "ADJP" := AdjectivePhrase,
    "ADVP" := AdverbPhrase,
    "NP" := NounPhrase,
    "NML" := NominalModifier,
    "PP" := PrepositionalPhrase,
    "PRT" := ParticleParent,
    "S" := IndependentClause,
    "SBAR" := SubordinateClause,
    "VP" := VerbPhrase,
    "WHADVP" := WhAdverbPhrase,
    "WHNP" := WhNounPhrase,
    "WHPP" := PrepositionalPhrase]

  /** Reference sets of the supported part-of-speech and punctuation tags. */
  const WordTags: set<string> := {
    "CC", "DT", "IN", "JJ", "JJR", "JJS", "MD", "NN", "NNS", "NNP", "NNPS",
    "PDT", "POS", "PRP", "PRP$", "RB", "RBR", "RBS", "RP"}

  const VerbAndWhTags: set<string> := {
    "VB", "VBD", "VBG", "VBN", "VBP", "VBZ", "WDT", "WP", "WP$", "WRB"}

  const PunctuationTags: set<string> := {
    "#", "$", ".", ",", ":", "(", ")", "\"",
    "\U{2018}", "\U{201C}", "\U{2019}", "\U{201D}"}

  /** Tags of the tag set that the factory deliberately does not support. */
  const UnsupportedTags: set<string> := {
    "SBARQ", "SINV", "SQ", "WHADJP", "X", "*", "0", "T",
    "CD", "EX", "FW", "LS", "SYM", "TO", "UH"}

  /** The tag switch. Total: an unsupported tag is the `NotImplemented` failure. */
  function BuilderKindFor(tag: string): (r: Result<BuilderKind, Exception>)
    ensures r.Err? ==> r.error == NotImplemented
  {
    match tag
    // parent types
    case "FRAG" => Ok(Parent(Fragment))
    case "ADJP" => Ok(Parent(AdjectivePhrase))
    case "ADVP" => Ok(Parent(AdverbPhrase))
    case "NP" => Ok(Parent(NounPhrase))
    case "NML" => Ok(Parent(NominalModifier))
    case "PP" => Ok(Parent(PrepositionalPhrase))
    case "PRT" => Ok(Parent(ParticleParent))
    case "S" => Ok(Parent(IndependentClause))
    case "SBAR" => Ok(Parent(SubordinateClause))
    case "VP" => Ok(Parent(VerbPhrase))
    case "WHADVP" => Ok(Parent(WhAdverbPhrase))
    case "WHNP" => Ok(Parent(WhNounPhrase))
    case "WHPP" => Ok(Parent(PrepositionalPhrase))
    // parts of speech
    case "CC" => Ok(PartOfSpeech)
    case "DT" => Ok(PartOfSpeech)
    case "IN" => Ok(PartOfSpeech)
    case "JJ" => Ok(PartOfSpeech)
    case "JJR" => Ok(PartOfSpeech)
    case "JJS" => Ok(PartOfSpeech)
    case "MD" => Ok(PartOfSpeech)
    case "NN" => Ok(PartOfSpeech)
    case "NNS" => Ok(PartOfSpeech)
    case "NNP" => Ok(PartOfSpeech)
    case "NNPS" => Ok(PartOfSpeech)
    case "PDT" => Ok(PartOfSpeech)
    case "POS" => Ok(PartOfSpeech)
    case "PRP" => Ok(PartOfSpeech)
    case "PRP$" => Ok(PartOfSpeech)
    case "RB" => Ok(PartOfSpeech)
    case "RBR" => Ok(PartOfSpeech)
    case "RBS" => Ok(PartOfSpeech)
    case "RP" => Ok(PartOfSpeech)
    case "VB" => Ok(PartOfSpeech)
    case "VBD" => Ok(PartOfSpeech)
    case "VBG" => Ok(PartOfSpeech)
    case "VBN" => Ok(PartOfSpeech)
    case "VBP" => Ok(PartOfSpeech)
    case "VBZ" => Ok(PartOfSpeech)
    case "WDT" => Ok(PartOfSpeech)
    case "WP" => Ok(PartOfSpeech)
    case "WP$" => Ok(PartOfSpeech)
    case "WRB" => Ok(PartOfSpeech)
    // punctuation
    case "#" => Ok(PartOfSpeech)
    case "$" => Ok(PartOfSpeech)
    case "." => Ok(PartOfSpeech)
    case "," => Ok(PartOfSpeech)
    case ":" => Ok(PartOfSpeech)
    case "(" => Ok(PartOfSpeech)
    case ")" => Ok(PartOfSpeech)
    case "\"" => Ok(PartOfSpeech)
    case "\U{2018}" => Ok(PartOfSpeech)   // left single quote
    case "\U{201C}" => Ok(PartOfSpeech)   // left double quote
    case "\U{2019}" => Ok(PartOfSpeech)   // right single quote
    case "\U{201D}" => Ok(PartOfSpeech)   // right double quote
    case _ => Err(NotImplemented)
  }

  /** The phrase or clause tag the factory reads as a parent builder of `kind`
      (for the prepositional kind, the plain "PP"). */
  function TagFor(kind: ParentKind): (tag: string)
    ensures BuilderKindFor(tag) == Ok(Parent(kind))
    ensures tag in ParentTags && ParentTags[tag] == kind
  {
    match kind
    case Fragment => "FRAG"
    case AdjectivePhrase => "ADJP"
    case AdverbPhrase => "ADVP"
    case NounPhrase => "NP"
    case NominalModifier => "NML"
    case PrepositionalPhrase => "PP"
    case ParticleParent => "PRT"
    case IndependentClause => "S"
    case SubordinateClause => "SBAR"
    case VerbPhrase => "VP"
    case WhAdverbPhrase => "WHADVP"
    case WhNounPhrase => "WHNP"
  }

  /** The phrase and clause tags of the table, and only they, give parent
      builders, each of the kind the table names. */
  lemma ParentTagsGiveParentBuilders(tag: string)
    ensures tag in ParentTags ==> BuilderKindFor(tag) == Ok(Parent(ParentTags[tag]))
  {
  }

  lemma ParentBuildersComeFromParentTags(tag: string)
    requires BuilderKindFor(tag).Ok? && BuilderKindFor(tag).value.Parent?
    ensures tag in ParentTags
  {
  }

  /** Every listed part-of-speech and punctuation tag gives a leaf builder,
      never a parent builder. */
  lemma WordTagsGiveLeafBuilders(tag: string)
    requires tag in WordTags
    ensures BuilderKindFor(tag) == Ok(PartOfSpeech)
  {
  }

  lemma VerbAndWhTagsGiveLeafBuilders(tag: string)
    requires tag in VerbAndWhTags
    ensures BuilderKindFor(tag) == Ok(PartOfSpeech)
  {
  }

  lemma PunctuationTagsGiveLeafBuilders(tag: string)
    requires tag in PunctuationTags
    ensures BuilderKindFor(tag) == Ok(PartOfSpeech)
  {
  }

  lemma LeafBuildersComeFromPartOfSpeechTags(tag: string)
    requires BuilderKindFor(tag) == Ok(PartOfSpeech)
    ensures tag in WordTags || tag in VerbAndWhTags || tag in PunctuationTags
  {
  }

  /** A tag in neither table is unsupported. */
  lemma OtherTagsFail(tag: string)
    requires tag !in ParentTags
    requires tag !in WordTags && tag !in VerbAndWhTags && tag !in PunctuationTags
    ensures BuilderKindFor(tag) == Err(NotImplemented)
  {
  }

  /** Each parent kind has exactly one tag, except the prepositional kind,
      which both "PP" and "WHPP" give. */
  lemma ParentTagIsUnique(tag: string, kind: ParentKind)
    requires BuilderKindFor(tag) == Ok(Parent(kind))
    ensures tag == TagFor(kind) || (kind == PrepositionalPhrase && tag == "WHPP")
  {
  }

  /** The Penn Treebank tags the factory leaves unsupported all fail. */
  lemma UnsupportedTagsFail(tag: string)
    requires tag in UnsupportedTags
    ensures BuilderKindFor(tag) == Err(NotImplemented)
  {
  }
}
