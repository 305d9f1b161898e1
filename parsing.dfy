/** What the parser hands to the factory: a constituency tree whose nodes
    carry a tag and whose word leaves carry a token index, the tokens by
    index, and the dependency tuples. The parser itself is a remote service
    and is not part of this model. */
module Parsing {
  import opened Results
  import opened Exceptions

  /** A parsed word. */
  datatype ParseToken = ParseToken(index: int, word: string, base: string, partOfSpeech: string)

  /** A node of the constituency parse. `tag` is the node's tag (or, on a
      word leaf, the word); `index` is the node's index annotation, which
      word leaves carry and inner nodes usually do not. */
  datatype Constituent = Constituent(tag: string, children: seq<Constituent>, index: Option<int>)

  /** One dependency tuple: relation, specifier, governor index, dependent index. */
  datatype Dependency = Dependency(relation: string, specifier: string, governorIndex: int, dependentIndex: int)

  datatype ParseResult = ParseResult(
    constituents: Constituent,
    tokens: map<int, ParseToken>,
    dependencies: seq<Dependency>)
  {
    /** Every token is filed under its own index. */
    predicate TokensIndexed() {
      forall i | i in tokens :: tokens[i].index == i
    }

    /** The token with index `i`, or a failure when the parse has none. */
    function TokenWithIndex(i: int): (r: Result<ParseToken, Exception>)
      ensures r.Ok? <==> i in tokens
      ensures r.Ok? ==> r.value == tokens[i]
      ensures r.Ok? && TokensIndexed() ==> r.value.index == i
      ensures r.Err? ==> r.error == TokenNotFound(i)
    {
      if i in tokens then Ok(tokens[i]) else Err(TokenNotFound(i))
    }
  }
}
