/** Concrete runs of the parsers with a small sample tokenizer: the reserved
    words and a few conditions are keywords, and identifiers are words of
    letters, digits and '-' that start with a letter and are not keywords.
 */
module Scenarios {
  import opened Tokens
  import opened Statements
  import opened StatementParser
  import opened StatementProperties
  import opened ProgramParser
  import opened ProgramProperties

  predicate IsReservedWord(w: string) {
    w in ["PROGRAM", "IS", "INSTRUCTION", "BEGIN", "END", "IF", "THEN", "ELSE", "WHILE", "DO"]
  }

  predicate IsConditionWord(w: string) {
    w in ["next-is-empty", "next-is-not-empty", "random", "true"]
  }

  predicate IsLetter(ch: char) {
    'a' <= ch <= 'z' || 'A' <= ch <= 'Z'
  }

  predicate IsWordChar(ch: char) {
    IsLetter(ch) || '0' <= ch <= '9' || ch == '-'
  }

  predicate IsSampleKeyword(w: string) {
    IsReservedWord(w) || IsConditionWord(w)
  }

  predicate IsSampleIdentifier(w: string) {
    && |w| > 0 && IsLetter(w[0])
    && (forall i :: 0 <= i < |w| ==> IsWordChar(w[i]))
    && !IsSampleKeyword(w)
  }

  function Sample(): Classifier {
    Classifier(w => IsSampleIdentifier(w), w => IsSampleKeyword(w), w => IsConditionWord(w))
  }

  /** The sample tokenizer reserves its reserved words. */
  lemma SampleReserved(w: string)
    requires IsReservedWord(w)
    ensures Reserved(Sample(), w)
  {
  }

  /** The sample tokenizer meets what the parser assumes of a tokenizer. */
  lemma SampleValid()
    ensures Valid(Sample())
  {
    SampleReserved("PROGRAM");
    SampleReserved("IS");
    SampleReserved("INSTRUCTION");
    SampleReserved("BEGIN");
    SampleReserved("END");
    SampleReserved("IF");
    SampleReserved("THEN");
    SampleReserved("ELSE");
    SampleReserved("WHILE");
    SampleReserved("DO");
    assert !IsLetter(EndOfInput[0]);
  }

  /** `PROGRAM p IS BEGIN END p`: the program `p` with no instructions and an
      empty body. */
  lemma EmptyProgram()
    ensures ParseProgram(Sample(), ["PROGRAM", "p", "IS", "BEGIN", "END", "p", EndOfInput])
            == Success((Program("p", [], Block([])), 6))
  {
    EmptyProgramLayout();
    SampleValid();
    ProgramRoundTrip(Sample(), Program("p", [], Block([])), ["PROGRAM", "p", "IS", "BEGIN", "END", "p", EndOfInput]);
  }

  lemma EmptyProgramLayout()
    ensures ["PROGRAM", "p", "IS", "BEGIN", "END", "p", EndOfInput]
            == ProgramTokens(Program("p", [], Block([]))) + [EndOfInput]
  {
    assert ProgramTokens(Program("p", [], Block([]))) == ["PROGRAM", "p", "IS", "BEGIN", "END", "p"];
  }

  const FooX := Instruction("foo", Block([Call("x")]))
  const FooY := Instruction("foo", Block([Call("y")]))

  const OneFoo := Program("p", [FooX], Block([Call("foo")]))
  const OneFooTokens: seq<string> :=
    ["PROGRAM", "p", "IS", "INSTRUCTION", "foo", "IS", "x", "END", "foo", "BEGIN", "foo", "END", "p", EndOfInput]

  /** One instruction `foo` calling `x`, and a body calling `foo`. */
  lemma OneInstruction()
    ensures ParseProgram(Sample(), OneFooTokens) == Success((OneFoo, 13))
  {
    OneFooLayout();
    OneFooPrintable();
    SampleValid();
    ProgramRoundTrip(Sample(), OneFoo, OneFooTokens);
  }

  lemma FooXTokens()
    ensures InstructionTokens(FooX) == ["INSTRUCTION", "foo", "IS", "x", "END", "foo"]
  {
    assert StatementTokens(Block([Call("x")])) == ["x"];
  }

  lemma FooYTokens()
    ensures InstructionTokens(FooY) == ["INSTRUCTION", "foo", "IS", "y", "END", "foo"]
  {
    assert StatementTokens(Block([Call("y")])) == ["y"];
  }

  lemma OneFooLayout()
    ensures OneFooTokens == ProgramTokens(OneFoo) + [EndOfInput] && |ProgramTokens(OneFoo)| == 13
  {
    FooXTokens();
    assert ContextTokens([FooX]) == InstructionTokens(FooX);
    assert StatementTokens(Block([Call("foo")])) == ["foo"];
  }

  lemma OneFooPrintable()
    ensures PrintableProgram(Sample(), OneFoo) && DistinctNames(OneFoo.context)
  {
    assert IsSampleIdentifier("x") && IsSampleIdentifier("foo");
    assert PrintableInstruction(Sample(), OneFoo.context[0]);
  }

  /** `IF next-is-empty THEN a END IF` as a statement: the condition is the
      enumerant NEXT_IS_EMPTY and the then-block calls `a`. */
  lemma SimpleIf()
    ensures ParseStatement(Sample(), ["IF", "next-is-empty", "THEN", "a", "END", "IF"], 0)
            == Success((If(Condition("NEXT_IS_EMPTY"), Block([Call("a")])), 6))
  {
    var s := If(Condition("NEXT_IS_EMPTY"), Block([Call("a")]));
    SimpleIfLayout();
    SimpleIfPrintable();
    SampleValid();
    StatementRoundTrip(Sample(), s, ["IF", "next-is-empty", "THEN", "a", "END", "IF"], 0);
  }

  lemma SimpleIfLayout()
    ensures var s := If(Condition("NEXT_IS_EMPTY"), Block([Call("a")]));
            At(["IF", "next-is-empty", "THEN", "a", "END", "IF"], 0, StatementTokens(s))
            && |StatementTokens(s)| == 6
  {
    var s := If(Condition("NEXT_IS_EMPTY"), Block([Call("a")]));
    assert Spell(s.cond) == "next-is-empty";
    assert StatementTokens(s) == ["IF", "next-is-empty", "THEN", "a", "END", "IF"];
  }

  lemma SimpleIfPrintable()
    ensures var s := If(Condition("NEXT_IS_EMPTY"), Block([Call("a")]));
            WellFormed(Sample(), s) && Printable(Sample(), s)
  {
    var s := If(Condition("NEXT_IS_EMPTY"), Block([Call("a")]));
    assert IsSampleIdentifier("a");
    assert Spell(s.cond) == "next-is-empty";
  }

  const TwiceFoo := Program("p", [FooX, FooY], Block([]))
  const TwiceFooTokens: seq<string> :=
    ["PROGRAM", "p", "IS",
     "INSTRUCTION", "foo", "IS", "x", "END", "foo",
     "INSTRUCTION", "foo", "IS", "y", "END", "foo",
     "BEGIN", "END", "p", EndOfInput]

  /** Two definitions of `foo`: the parse fails on the duplicate `foo`. */
  lemma DuplicateInstruction()
    ensures ParseProgram(Sample(), TwiceFooTokens) == Failure(Duplicate("foo"))
  {
    TwiceFooLayout();
    TwiceFooPrintable();
    SampleValid();
    ProgramRoundTrip(Sample(), TwiceFoo, TwiceFooTokens);
    OnlyFooTwice(ParseProgram(Sample(), TwiceFooTokens).error.name);
  }

  lemma OnlyFooTwice(name: string)
    requires DefinedTwice(TwiceFoo.context, name)
    ensures name == "foo"
  {
  }

  lemma TwiceFooLayout()
    ensures TwiceFooTokens == ProgramTokens(TwiceFoo) + [EndOfInput]
  {
    FooXTokens();
    FooYTokens();
    assert ContextTokens([FooY]) == InstructionTokens(FooY);
    assert ContextTokens([FooX, FooY]) == InstructionTokens(FooX) + InstructionTokens(FooY);
  }

  lemma TwiceFooPrintable()
    ensures PrintableProgram(Sample(), TwiceFoo) && !DistinctNames(TwiceFoo.context)
  {
    assert IsSampleIdentifier("x") && IsSampleIdentifier("y") && IsSampleIdentifier("foo");
    assert PrintableInstruction(Sample(), TwiceFoo.context[0]) && PrintableInstruction(Sample(), TwiceFoo.context[1]);
    assert TwiceFoo.context[0].name == TwiceFoo.context[1].name;
  }

  /** `PROGRAM p IS BEGIN END q`: the closing name does not match. */
  lemma MismatchedName()
    ensures ParseProgram(Sample(), ["PROGRAM", "p", "IS", "BEGIN", "END", "q", EndOfInput])
            == Failure(NameMismatch("p", "q"))
  {
    var toks: seq<string> := ["PROGRAM", "p", "IS", "BEGIN", "END", "q", EndOfInput];
    assert !StartsStatement(Sample(), toks[4]);
    assert ParseBlock(Sample(), toks, 4) == Success((Block([]), 4));
    assert ParseInstructions(Sample(), toks, 3, []) == Success(([], 3));
  }
}
