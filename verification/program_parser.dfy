/** The program parser:
      PROGRAM name IS (INSTRUCTION id IS blk END id)* BEGIN blk END name <end of input>
    read into a name, an instruction table (the context) and a main body.
 */
module ProgramParser {
  import opened Tokens
  import opened Statements
  import opened StatementParser

  /** One entry of the context: a user-defined instruction and its body. */
  datatype Instruction = Instruction(name: string, body: Statement)

  /** A BL program. The context keeps the instructions in definition order. */
  datatype Program = Program(name: string, context: seq<Instruction>, body: Statement)

  /** `name` is a key of the context. */
  predicate Defines(ctx: seq<Instruction>, name: string) {
    exists i :: 0 <= i < |ctx| && ctx[i].name == name
  }

  /** No two entries of the context share a name. */
  predicate DistinctNames(ctx: seq<Instruction>) {
    forall i, j :: 0 <= i < j < |ctx| ==> ctx[i].name != ctx[j].name
  }

  /** What a parsed instruction looks like: an identifier naming a
      well-formed block. */
  predicate InstructionOk(cl: Classifier, ins: Instruction) {
    cl.isIdentifier(ins.name) && ins.body.Block? && WellFormed(cl, ins.body)
  }

  /** `INSTRUCTION id IS blk END id`, returning the instruction and the cursor
      after its closing name. */
  function ParseInstruction(cl: Classifier, toks: seq<string>, pos: nat): (r: Result<(Instruction, nat)>)
    requires pos < |toks| && toks[pos] == "INSTRUCTION"
    ensures r.Success? <==>
              && pos + 3 <= |toks| && cl.isIdentifier(toks[pos + 1]) && toks[pos + 2] == "IS"
              && ParseBlock(cl, toks, pos + 3).Success?
              && var p1 := ParseBlock(cl, toks, pos + 3).value.1;
                 p1 + 2 <= |toks| && toks[p1] == "END" && cl.isIdentifier(toks[p1 + 1])
                 && toks[p1 + 1] == toks[pos + 1]
    ensures r.Success? ==>
              var (body, p1) := ParseBlock(cl, toks, pos + 3).value;
              r.value == (Instruction(toks[pos + 1], body), p1 + 2) && InstructionOk(cl, r.value.0)
  {
    if pos + 1 == |toks| then Failure(UnexpectedEnd)
    else
      var start := toks[pos + 1];
      if !cl.isIdentifier(start) then Failure(NotIdentifier(start))
      else if pos + 2 == |toks| then Failure(UnexpectedEnd)
      else if toks[pos + 2] != "IS" then Failure(Expected("IS", toks[pos + 2]))
      else
        match ParseBlock(cl, toks, pos + 3)
        case Failure(e) => Failure(e)
        case Success((body, p1)) =>
          if toks[p1] != "END" then Failure(Expected("END", toks[p1]))
          else if p1 + 1 == |toks| then Failure(UnexpectedEnd)
          else
            var end := toks[p1 + 1];
            if !cl.isIdentifier(end) then Failure(NotIdentifier(end))
            else if start != end then Failure(NameMismatch(start, end))
            else Success((Instruction(end, body), p1 + 2))
  }

  /** The instruction loop: instructions are parsed while the front token is
      `INSTRUCTION`, each added to `ctx` unless its name is already defined. */
  function ParseInstructions(cl: Classifier, toks: seq<string>, pos: nat, ctx: seq<Instruction>)
    : (r: Result<(seq<Instruction>, nat)>)
    requires pos <= |toks|
    ensures r.Success? ==> pos <= r.value.1 < |toks| && toks[r.value.1] != "INSTRUCTION"
    ensures r.Success? ==> ctx <= r.value.0
    ensures r.Success? ==> forall i :: |ctx| <= i < |r.value.0| ==> InstructionOk(cl, r.value.0[i])
    ensures r.Success? && DistinctNames(ctx) ==> DistinctNames(r.value.0)
    ensures pos < |toks| && toks[pos] == "INSTRUCTION" && ParseInstruction(cl, toks, pos).Success?
            && Defines(ctx, ParseInstruction(cl, toks, pos).value.0.name) ==>
              r == Failure(Duplicate(ParseInstruction(cl, toks, pos).value.0.name))
    decreases |toks| - pos
  {
    if pos == |toks| then Failure(UnexpectedEnd)
    else if toks[pos] != "INSTRUCTION" then Success((ctx, pos))
    else
      match ParseInstruction(cl, toks, pos)
      case Failure(e) => Failure(e)
      case Success((ins, next)) =>
        if Defines(ctx, ins.name) then Failure(Duplicate(ins.name))
        else
          var r := ParseInstructions(cl, toks, next, ctx + [ins]);
          assert r.Success? ==> ctx + [ins] <= r.value.0 && r.value.0[|ctx|] == ins;
          r
  }

  /** A whole program. On success, also the cursor of the end-of-input
      sentinel, which is looked at but not consumed. */
  function ParseProgram(cl: Classifier, toks: seq<string>): (r: Result<(Program, nat)>)
    ensures |toks| > 0 && toks[0] != "PROGRAM" ==> r == Failure(Expected("PROGRAM", toks[0]))
    ensures |toks| > 2 && toks[0] == "PROGRAM" && toks[2] != "IS" ==> r == Failure(Expected("IS", toks[2]))
    ensures r.Success? ==> 3 <= |toks| && toks[0] == "PROGRAM" && toks[2] == "IS" && r.value.0.name == toks[1]
    ensures r.Success? ==> 5 <= r.value.1 < |toks| && toks[r.value.1] == EndOfInput
    ensures r.Success? ==> toks[r.value.1 - 2] == "END" && toks[r.value.1 - 1] == r.value.0.name
    ensures r.Success? ==> ProgramOk(cl, r.value.0)
  {
    if |toks| == 0 then Failure(UnexpectedEnd)
    else if toks[0] != "PROGRAM" then Failure(Expected("PROGRAM", toks[0]))
    else if |toks| == 1 then Failure(UnexpectedEnd)
    else
      var name := toks[1];
      if |toks| == 2 then Failure(UnexpectedEnd)
      else if toks[2] != "IS" then Failure(Expected("IS", toks[2]))
      else
        match ParseInstructions(cl, toks, 3, [])
        case Failure(e) => Failure(e)
        case Success((ctx, p)) => ParseMain(cl, toks, name, ctx, p)
  }

  /** What follows the instructions: `BEGIN blk END name` and the sentinel,
      completing the program `name` with context `ctx`. */
  function ParseMain(cl: Classifier, toks: seq<string>, name: string, ctx: seq<Instruction>, p: nat)
    : (r: Result<(Program, nat)>)
    requires p < |toks|
    ensures r.Success? <==>
              && toks[p] == "BEGIN" && ParseBlock(cl, toks, p + 1).Success?
              && var q := ParseBlock(cl, toks, p + 1).value.1;
                 q + 2 < |toks| && toks[q] == "END" && toks[q + 1] == name && toks[q + 2] == EndOfInput
    ensures r.Success? ==>
              && r.value.0 == Program(name, ctx, ParseBlock(cl, toks, p + 1).value.0)
              && r.value.1 == ParseBlock(cl, toks, p + 1).value.1 + 2
              && p + 3 <= r.value.1 < |toks| && toks[r.value.1] == EndOfInput
              && r.value.0.body.Block? && WellFormed(cl, r.value.0.body)
  {
    if toks[p] != "BEGIN" then Failure(Expected("BEGIN", toks[p]))
    else
      match ParseBlock(cl, toks, p + 1)
      case Failure(e) => Failure(e)
      case Success((body, q)) =>
        if toks[q] != "END" then Failure(Expected("END", toks[q]))
        else if q + 1 == |toks| then Failure(UnexpectedEnd)
        else if toks[q + 1] != name then Failure(NameMismatch(name, toks[q + 1]))
        else if q + 2 == |toks| then Failure(UnexpectedEnd)
        else if toks[q + 2] != EndOfInput then Failure(TrailingInput(toks[q + 2]))
        else Success((Program(name, ctx, body), q + 2))
  }

  /** What every parsed program satisfies: the body is a well-formed block,
      and the context holds well-formed instructions with distinct names. */
  predicate ProgramOk(cl: Classifier, p: Program) {
    && p.body.Block? && WellFormed(cl, p.body)
    && DistinctNames(p.context)
    && forall i :: 0 <= i < |p.context| ==> InstructionOk(cl, p.context[i])
  }

  /** Parsing into an existing program value: name, context and body are
      installed together, from the header, the instruction loop and the main
      block, when the whole parse succeeds; nothing is replaced otherwise. So
      the program invariant is kept whatever the tokens. */
  function ParseInto(cl: Classifier, self: Program, toks: seq<string>): (after: Program)
    ensures ProgramOk(cl, self) ==> ProgramOk(cl, after)
    ensures ParseProgram(cl, toks).Failure? ==> after == self
    ensures ParseProgram(cl, toks).Success? ==>
              && 3 <= |toks| && after.name == toks[1]
              && ParseInstructions(cl, toks, 3, []).Success?
              && var (ctx, p) := ParseInstructions(cl, toks, 3, []).value;
                 && after.context == ctx
                 && ParseBlock(cl, toks, p + 1).Success?
                 && after.body == ParseBlock(cl, toks, p + 1).value.0
  {
    match ParseProgram(cl, toks)
    case Failure(_) => self
    case Success((p, _)) => p
  }
}
