/** The token stream seen by the BL parsers and the classification of its
    tokens.

    The stream is an immutable sequence of strings read through a cursor: the
    token at the cursor is the front of the queue, and advancing the cursor is
    a dequeue. The three classifying predicates of the tokenizer are not part
    of this model; they are passed around as a `Classifier`, and the only
    facts the parser's correctness relies on are collected in `Valid`.
 */
module Tokens {

  /** The sentinel the tokenizer appends as the last token of every stream. */
  const EndOfInput: string := "### END OF INPUT ###"

  /** The tokenizer's `isIdentifier`, `isKeyword` and `isCondition`. */
  datatype Classifier = Classifier(
    isIdentifier: string -> bool,
    isKeyword: string -> bool,
    isCondition: string -> bool)

  /** A reserved word is classified as a keyword and never as an identifier. */
  predicate Reserved(cl: Classifier, w: string) {
    cl.isKeyword(w) && !cl.isIdentifier(w)
  }

  /** What the parser may assume of any tokenizer of BL: the reserved words of
      the grammar are keywords and not identifiers, and the end-of-input
      sentinel is not an identifier. */
  predicate Valid(cl: Classifier) {
    && Reserved(cl, "PROGRAM")
    && Reserved(cl, "IS")
    && Reserved(cl, "INSTRUCTION")
    && Reserved(cl, "BEGIN")
    && Reserved(cl, "END")
    && Reserved(cl, "IF")
    && Reserved(cl, "THEN")
    && Reserved(cl, "ELSE")
    && Reserved(cl, "WHILE")
    && Reserved(cl, "DO")
    && !cl.isIdentifier(EndOfInput)
  }

  /** The FIRST set of the statement grammar: a token that can begin a
      statement, and so keeps a block going. */
  predicate StartsStatement(cl: Classifier, t: string) {
    cl.isIdentifier(t) || t == "IF" || t == "WHILE"
  }

  /** Why a parse was fatal. The source reports a message and terminates;
      only the fact of failure is part of its contract, the kind is kept here
      to make the error cases readable. */
  datatype ParseError =
    | UnexpectedEnd                              // a token was needed but the stream was exhausted
    | Expected(keyword: string, found: string)   // a structural keyword is missing
    | NotStatement(found: string)                // a statement starts with neither identifier nor keyword
    | NotIdentifier(found: string)
    | NotCondition(found: string)
    | NotKeyword(found: string)
    | NameMismatch(start: string, end: string)   // opening and closing names differ
    | Duplicate(name: string)                    // an instruction is defined twice
    | TrailingInput(found: string)               // something other than the sentinel follows the program

  /** The outcome of every parser: the parsed value with the cursor after it,
      or the error that made the parse fatal. */
  datatype Result<+T> = Success(value: T) | Failure(error: ParseError)

  /** `w` occurs in `toks` starting at cursor `pos`. */
  predicate At(toks: seq<string>, pos: nat, w: seq<string>) {
    pos + |w| <= |toks| && toks[pos..pos + |w|] == w
  }

  /** An occurrence of `a + b` is an occurrence of `a` followed by one of `b`. */
  lemma AtConcat(toks: seq<string>, pos: nat, a: seq<string>, b: seq<string>)
    ensures At(toks, pos, a + b) <==> At(toks, pos, a) && At(toks, pos + |a|, b)
  {
    if At(toks, pos, a) && At(toks, pos + |a|, b) {
      assert toks[pos..pos + |a| + |b|] == toks[pos..pos + |a|] + toks[pos + |a|..pos + |a| + |b|];
    }
    if At(toks, pos, a + b) {
      assert toks[pos..pos + |a|] == (a + b)[..|a|];
      assert toks[pos + |a|..pos + |a| + |b|] == (a + b)[|a|..];
    }
  }

  /** The tokens of an occurrence, one by one. */
  lemma AtIndex(toks: seq<string>, pos: nat, w: seq<string>, i: nat)
    requires At(toks, pos, w) && i < |w|
    ensures pos + i < |toks| && toks[pos + i] == w[i]
  {
    assert toks[pos..pos + |w|][i] == w[i];
  }

  /** `head + body + tail` at `pos`, split into its three parts. */
  lemma AtThree(toks: seq<string>, pos: nat, head: seq<string>, body: seq<string>, tail: seq<string>)
    requires At(toks, pos, head + body + tail)
    ensures At(toks, pos, head) && At(toks, pos + |head|, body) && At(toks, pos + |head| + |body|, tail)
  {
    AtConcat(toks, pos, head + body, tail);
    AtConcat(toks, pos, head, body);
  }
}
