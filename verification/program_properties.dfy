/** What the program parser guarantees: the shape of an accepted program, its
    fatal cases, the end-of-input sentinel as the only leftover, and the
    round trip from the canonical tokens of a program, which is rejected
    exactly when an instruction name is defined twice.
 */
module ProgramProperties {
  import opened Tokens
  import opened Statements
  import opened StatementParser
  import opened StatementProperties
  import opened ProgramParser

  /** The canonical tokens of one instruction definition. */
  function InstructionTokens(ins: Instruction): seq<string> {
    ["INSTRUCTION", ins.name, "IS"] + StatementTokens(ins.body) + ["END", ins.name]
  }

  /** The canonical tokens of a context, in definition order. */
  function ContextTokens(ctx: seq<Instruction>): seq<string> {
    if ctx == [] then [] else InstructionTokens(ctx[0]) + ContextTokens(ctx[1..])
  }

  /** The canonical tokens of a program, without the sentinel. */
  function ProgramTokens(p: Program): seq<string> {
    ["PROGRAM", p.name, "IS"] + ContextTokens(p.context) + ["BEGIN"] + StatementTokens(p.body) + ["END", p.name]
  }

  /** `name` is defined at two different places of the context. */
  predicate DefinedTwice(ctx: seq<Instruction>, name: string) {
    exists i, j :: 0 <= i < j < |ctx| && ctx[i].name == name && ctx[j].name == name
  }

  /** An instruction whose canonical tokens reparse to it. */
  predicate PrintableInstruction(cl: Classifier, ins: Instruction) {
    InstructionOk(cl, ins) && Printable(cl, ins.body)
  }

  /** Header checks, BEGIN, footer and sentinel: an accepted program is
      `PROGRAM name IS`, the instruction loop, `BEGIN`, the main block, `END`,
      the same name again, and the sentinel. */
  lemma ProgramShape(cl: Classifier, toks: seq<string>)
    requires ParseProgram(cl, toks).Success?
    ensures 3 <= |toks| && toks[0] == "PROGRAM" && toks[2] == "IS"
    ensures ParseInstructions(cl, toks, 3, []).Success?
    ensures var (ctx, p) := ParseInstructions(cl, toks, 3, []).value;
            && toks[p] == "BEGIN"
            && ParseBlock(cl, toks, p + 1).Success?
            && var (body, q) := ParseBlock(cl, toks, p + 1).value;
               && q + 2 < |toks|
               && toks[q] == "END" && toks[q + 1] == toks[1] && toks[q + 2] == EndOfInput
               && ParseProgram(cl, toks).value == (Program(toks[1], ctx, body), q + 2)
  {
  }

  /** The fatal cases after the header: no `BEGIN` after the instructions, no
      `END` after the main block, a closing name other than the program's,
      and anything but the sentinel after it. */
  lemma ProgramErrors(cl: Classifier, toks: seq<string>)
    requires 3 <= |toks| && toks[0] == "PROGRAM" && toks[2] == "IS"
    requires ParseInstructions(cl, toks, 3, []).Success?
    ensures var (ctx, p) := ParseInstructions(cl, toks, 3, []).value;
            && (toks[p] != "BEGIN" ==> ParseProgram(cl, toks) == Failure(Expected("BEGIN", toks[p])))
            && (toks[p] == "BEGIN" && ParseBlock(cl, toks, p + 1).Success? ==>
                  var q := ParseBlock(cl, toks, p + 1).value.1;
                  && (toks[q] != "END" ==> ParseProgram(cl, toks) == Failure(Expected("END", toks[q])))
                  && (toks[q] == "END" && q + 1 < |toks| && toks[q + 1] != toks[1] ==>
                        ParseProgram(cl, toks) == Failure(NameMismatch(toks[1], toks[q + 1])))
                  && (toks[q] == "END" && q + 2 < |toks| && toks[q + 1] == toks[1] && toks[q + 2] != EndOfInput ==>
                        ParseProgram(cl, toks) == Failure(TrailingInput(toks[q + 2]))))
  {
  }

  /** When the sentinel is the last token and appears nowhere else, an
      accepted program leaves exactly the sentinel unconsumed. */
  lemma SentinelSoleLeftover(cl: Classifier, toks: seq<string>)
    requires ParseProgram(cl, toks).Success?
    requires forall i :: 0 <= i < |toks| - 1 ==> toks[i] != EndOfInput
    ensures toks[ParseProgram(cl, toks).value.1..] == [EndOfInput]
  {
  }

  /** The sequence context seen as the source's map: with distinct names, the
      set of keys has one element per entry, so each accepted definition adds
      exactly one key. */
  lemma {:induction false} DistinctNamesCount(ctx: seq<Instruction>)
    requires DistinctNames(ctx)
    ensures |set i | 0 <= i < |ctx| :: ctx[i].name| == |ctx|
  {
    if ctx != [] {
      var last := |ctx| - 1;
      var init := ctx[..last];
      assert DistinctNames(init);
      DistinctNamesCount(init);
      var s := set i | 0 <= i < |init| :: init[i].name;
      assert (set i | 0 <= i < |ctx| :: ctx[i].name) == s + {ctx[last].name};
      assert ctx[last].name !in s;
    }
  }

  lemma AppendDistinct(ctx: seq<Instruction>, ins: Instruction)
    requires DistinctNames(ctx) && !Defines(ctx, ins.name)
    ensures DistinctNames(ctx + [ins])
  {
  }

  /** One turn of the instruction loop. */
  lemma InstructionsUnfold(cl: Classifier, toks: seq<string>, pos: nat, acc: seq<Instruction>, ins: Instruction, next: nat)
    requires pos < |toks| && toks[pos] == "INSTRUCTION"
    requires ParseInstruction(cl, toks, pos) == Success((ins, next))
    ensures ParseInstructions(cl, toks, pos, acc) ==
              if Defines(acc, ins.name) then Failure(Duplicate(ins.name))
              else ParseInstructions(cl, toks, next, acc + [ins])
  {
  }

  /** No instruction of `ctx` repeats a name defined before it, in `acc` or
      earlier in `ctx`. */
  predicate Fresh(acc: seq<Instruction>, ctx: seq<Instruction>)
    decreases |ctx|
  {
    ctx == [] || (!Defines(acc, ctx[0].name) && Fresh(acc + [ctx[0]], ctx[1..]))
  }

  /** The name of the first instruction of `ctx` that repeats a name defined
      before it. */
  function FirstRepeat(acc: seq<Instruction>, ctx: seq<Instruction>): string
    requires !Fresh(acc, ctx)
    decreases |ctx|
  {
    if Defines(acc, ctx[0].name) then ctx[0].name else FirstRepeat(acc + [ctx[0]], ctx[1..])
  }

  /** Starting from distinct names, the definitions of `ctx` are fresh exactly
      when the whole context has distinct names; otherwise the first repeated
      name is defined twice in it. */
  lemma {:induction false} FreshDistinct(acc: seq<Instruction>, ctx: seq<Instruction>)
    requires DistinctNames(acc)
    ensures Fresh(acc, ctx) <==> DistinctNames(acc + ctx)
    ensures !Fresh(acc, ctx) ==> DefinedTwice(acc + ctx, FirstRepeat(acc, ctx))
    decreases |ctx|
  {
    if ctx == [] {
      assert acc + ctx == acc;
    } else if Defines(acc, ctx[0].name) {
      DuplicateAhead(acc, ctx);
    } else {
      AppendDistinct(acc, ctx[0]);
      FreshDistinct(acc + [ctx[0]], ctx[1..]);
      assert acc + ctx == (acc + [ctx[0]]) + ctx[1..];
    }
  }

  /** `qs` are the cursors of a run of instruction definitions `ins`: the i-th
      starts with `INSTRUCTION` at `qs[i]` and ends at `qs[i + 1]`. */
  ghost predicate DefinitionRun(cl: Classifier, toks: seq<string>, qs: seq<nat>, ins: seq<Instruction>) {
    && |qs| == |ins| + 1
    && qs[|ins|] <= |toks|
    && forall i :: 0 <= i < |ins| ==>
         && qs[i] < |toks| && toks[qs[i]] == "INSTRUCTION"
         && ParseInstruction(cl, toks, qs[i]) == Success((ins[i], qs[i + 1]))
  }

  /** Table contents, for any tokens: an accepted instruction loop adds
      exactly the instructions read one after the other from its start, in
      order, none of which redefines a name defined before it. */
  lemma {:induction false} InstructionsIsRun(cl: Classifier, toks: seq<string>, pos: nat, acc: seq<Instruction>)
    returns (ins: seq<Instruction>, qs: seq<nat>)
    requires pos <= |toks| && ParseInstructions(cl, toks, pos, acc).Success?
    ensures ParseInstructions(cl, toks, pos, acc).value.0 == acc + ins
    ensures DefinitionRun(cl, toks, qs, ins) && qs[0] == pos
    ensures qs[|ins|] == ParseInstructions(cl, toks, pos, acc).value.1
    ensures Fresh(acc, ins)
    decreases |toks| - pos
  {
    if toks[pos] != "INSTRUCTION" {
      ins, qs := [], [pos];
      assert acc + ins == acc;
    } else {
      var (i0, next) := ParseInstruction(cl, toks, pos).value;
      InstructionsUnfold(cl, toks, pos, acc, i0, next);
      var ins', qs' := InstructionsIsRun(cl, toks, next, acc + [i0]);
      ins, qs := [i0] + ins', [pos] + qs';
      DefinitionRunCons(cl, toks, pos, next, ins, qs');
      assert ins[1..] == ins';
      SplitFirst(acc, ins);
    }
  }

  /** A definition read in front of a run of definitions extends the run. */
  lemma DefinitionRunCons(cl: Classifier, toks: seq<string>, pos: nat, next: nat,
                             ins: seq<Instruction>, qs: seq<nat>)
    requires ins != [] && pos < |toks| && toks[pos] == "INSTRUCTION"
    requires DefinitionRun(cl, toks, qs, ins[1..]) && qs[0] == next
    requires ParseInstruction(cl, toks, pos) == Success((ins[0], next))
    ensures DefinitionRun(cl, toks, [pos] + qs, ins)
    ensures ([pos] + qs)[0] == pos && ([pos] + qs)[|ins|] == qs[|ins| - 1]
  {
    var qs' := [pos] + qs;
    forall i | 0 <= i < |ins|
      ensures && qs'[i] < |toks| && toks[qs'[i]] == "INSTRUCTION"
              && ParseInstruction(cl, toks, qs'[i]) == Success((ins[i], qs'[i + 1]))
    {
      if i > 0 {
        assert ins[i] == ins[1..][i - 1] && qs'[i] == qs[i - 1] && qs'[i + 1] == qs[i];
      }
    }
  }

  /** The tail of a run of definitions is a run of definitions. */
  lemma DefinitionRunTail(cl: Classifier, toks: seq<string>, qs: seq<nat>, ins: seq<Instruction>)
    requires ins != [] && DefinitionRun(cl, toks, qs, ins)
    ensures DefinitionRun(cl, toks, qs[1..], ins[1..]) && qs[1..][0] == qs[1]
    ensures qs[1..][|ins[1..]|] == qs[|ins|]
  {
    forall i | 0 <= i < |ins[1..]|
      ensures && qs[1..][i] < |toks| && toks[qs[1..][i]] == "INSTRUCTION"
              && ParseInstruction(cl, toks, qs[1..][i]) == Success((ins[1..][i], qs[1..][i + 1]))
    {
      assert qs[1..][i] == qs[i + 1] && ins[1..][i] == ins[i + 1] && qs[1..][i + 1] == qs[i + 2];
    }
  }

  /** Conversely, for any tokens: over definitions read one after the other,
      the loop collects them when no name repeats and the run ends before a
      token other than `INSTRUCTION`, and fails on the first repeated name
      otherwise. */
  lemma {:induction false} FreshRunFillsInstructions(cl: Classifier, toks: seq<string>, qs: seq<nat>,
                                                  ins: seq<Instruction>, acc: seq<Instruction>)
    requires DefinitionRun(cl, toks, qs, ins)
    ensures Fresh(acc, ins) && qs[|ins|] < |toks| && toks[qs[|ins|]] != "INSTRUCTION" ==>
              ParseInstructions(cl, toks, qs[0], acc) == Success((acc + ins, qs[|ins|]))
    ensures !Fresh(acc, ins) ==>
              ParseInstructions(cl, toks, qs[0], acc) == Failure(Duplicate(FirstRepeat(acc, ins)))
    decreases |ins|
  {
    if ins == [] {
      assert acc + ins == acc;
    } else {
      InstructionsUnfold(cl, toks, qs[0], acc, ins[0], qs[1]);
      if !Defines(acc, ins[0].name) {
        DefinitionRunTail(cl, toks, qs, ins);
        FreshRunFillsInstructions(cl, toks, qs[1..], ins[1..], acc + [ins[0]]);
        SplitFirst(acc, ins);
      }
    }
  }

  /** A name defined twice is fatal wherever the two definitions are, for
      any tokens: starting from distinct names `acc`, over definitions read
      one after the other, the loop succeeds with them exactly when all
      names are distinct, and otherwise fails on a name defined twice. */
  lemma RunDecidesInstructions(cl: Classifier, toks: seq<string>, qs: seq<nat>, ins: seq<Instruction>,
                           acc: seq<Instruction>)
    requires DefinitionRun(cl, toks, qs, ins) && DistinctNames(acc)
    ensures DistinctNames(acc + ins) && qs[|ins|] < |toks| && toks[qs[|ins|]] != "INSTRUCTION" ==>
              ParseInstructions(cl, toks, qs[0], acc) == Success((acc + ins, qs[|ins|]))
    ensures !DistinctNames(acc + ins) ==>
              var r := ParseInstructions(cl, toks, qs[0], acc);
              r.Failure? && r.error.Duplicate? && DefinedTwice(acc + ins, r.error.name)
  {
    FreshDistinct(acc, ins);
    FreshRunFillsInstructions(cl, toks, qs, ins, acc);
  }

  /** The table of an accepted program is exactly the instruction definitions
      read one after the other from the token after `IS` up to `BEGIN`, and
      their names are distinct. */
  lemma ProgramInstructions(cl: Classifier, toks: seq<string>) returns (qs: seq<nat>)
    requires ParseProgram(cl, toks).Success?
    ensures var ctx := ParseProgram(cl, toks).value.0.context;
            && DefinitionRun(cl, toks, qs, ctx) && qs[0] == 3
            && qs[|ctx|] < |toks| && toks[qs[|ctx|]] == "BEGIN" && DistinctNames(ctx)
            && |set i | 0 <= i < |ctx| :: ctx[i].name| == |ctx|
  {
    ProgramShape(cl, toks);
    var ins;
    ins, qs := InstructionsIsRun(cl, toks, 3, []);
    assert [] + ins == ins;
    DistinctNamesCount(ins);
  }

  /** The instruction loop over canonical tokens: it collects the instructions
      in order when each name is fresh, and otherwise fails on the first
      repeated name. `end` is the cursor after the tokens of `ctx`. */
  lemma InstructionsParse(cl: Classifier, ctx: seq<Instruction>, acc: seq<Instruction>,
                             toks: seq<string>, pos: nat, end: nat)
    requires Valid(cl)
    requires forall i :: 0 <= i < |ctx| ==> PrintableInstruction(cl, ctx[i])
    requires At(toks, pos, ContextTokens(ctx)) && end == pos + |ContextTokens(ctx)|
    requires end < |toks| && toks[end] != "INSTRUCTION"
    ensures Fresh(acc, ctx) ==> ParseInstructions(cl, toks, pos, acc) == Success((acc + ctx, end))
    ensures !Fresh(acc, ctx) ==>
              ParseInstructions(cl, toks, pos, acc) == Failure(Duplicate(FirstRepeat(acc, ctx)))
  {
    var qs := ContextIsRun(cl, ctx, toks, pos);
    assert qs[|ctx|] == end;
    FreshRunFillsInstructions(cl, toks, qs, ctx, acc);
  }

  /** The canonical tokens of instructions are definitions read one after the
      other, ending right after those tokens. */
  lemma {:induction false} ContextIsRun(cl: Classifier, ctx: seq<Instruction>, toks: seq<string>, pos: nat)
    returns (qs: seq<nat>)
    requires Valid(cl)
    requires forall i :: 0 <= i < |ctx| ==> PrintableInstruction(cl, ctx[i])
    requires At(toks, pos, ContextTokens(ctx))
    ensures DefinitionRun(cl, toks, qs, ctx) && qs[0] == pos && qs[|ctx|] == pos + |ContextTokens(ctx)|
    decreases |ctx|
  {
    if ctx == [] {
      qs := [pos];
    } else {
      var next := pos + |InstructionTokens(ctx[0])|;
      ContextParts(cl, ctx, toks, pos);
      InstructionRoundTrip(cl, ctx[0], toks, pos);
      var qs' := ContextIsRun(cl, ctx[1..], toks, next);
      DefinitionRunCons(cl, toks, pos, next, ctx, qs');
      qs := [pos] + qs';
    }
  }

  /** Moving the first element of `ctx` to the end of `acc`. */
  lemma SplitFirst(acc: seq<Instruction>, ctx: seq<Instruction>)
    requires ctx != []
    ensures acc + ctx == (acc + [ctx[0]]) + ctx[1..]
  {
  }

  /** The instruction loop over canonical tokens, in terms of the names:
      starting from distinct names, it collects the instructions in order when
      all names are distinct, and otherwise fails on a name defined twice. */
  lemma {:induction false} InstructionsRoundTrip(cl: Classifier, ctx: seq<Instruction>, acc: seq<Instruction>,
                              toks: seq<string>, pos: nat)
    requires Valid(cl) && DistinctNames(acc)
    requires forall i :: 0 <= i < |ctx| ==> PrintableInstruction(cl, ctx[i])
    requires At(toks, pos, ContextTokens(ctx))
    requires pos + |ContextTokens(ctx)| < |toks| && toks[pos + |ContextTokens(ctx)|] != "INSTRUCTION"
    ensures DistinctNames(acc + ctx) ==>
              ParseInstructions(cl, toks, pos, acc) == Success((acc + ctx, pos + |ContextTokens(ctx)|))
    ensures !DistinctNames(acc + ctx) ==>
              var r := ParseInstructions(cl, toks, pos, acc);
              r.Failure? && r.error.Duplicate? && DefinedTwice(acc + ctx, r.error.name)
  {
    InstructionsParse(cl, ctx, acc, toks, pos, pos + |ContextTokens(ctx)|);
    FreshDistinct(acc, ctx);
  }

  /** The canonical tokens of a non-empty context: those of its first
      instruction, then those of the rest. */
  lemma ContextParts(cl: Classifier, ctx: seq<Instruction>, toks: seq<string>, pos: nat)
    requires ctx != [] && At(toks, pos, ContextTokens(ctx))
    requires forall i :: 0 <= i < |ctx| ==> PrintableInstruction(cl, ctx[i])
    ensures At(toks, pos, InstructionTokens(ctx[0])) && toks[pos] == "INSTRUCTION"
    ensures At(toks, pos + |InstructionTokens(ctx[0])|, ContextTokens(ctx[1..]))
    ensures |ContextTokens(ctx)| == |InstructionTokens(ctx[0])| + |ContextTokens(ctx[1..])|
    ensures PrintableInstruction(cl, ctx[0]) && forall i :: 0 <= i < |ctx[1..]| ==> PrintableInstruction(cl, ctx[1..][i])
  {
    ContextSplit(ctx, toks, pos, InstructionTokens(ctx[0]), ContextTokens(ctx[1..]));
    PrintableRest(cl, ctx);
  }

  lemma ContextSplit(ctx: seq<Instruction>, toks: seq<string>, pos: nat, first: seq<string>, rest: seq<string>)
    requires ctx != [] && first == InstructionTokens(ctx[0]) && rest == ContextTokens(ctx[1..])
    requires At(toks, pos, ContextTokens(ctx))
    ensures At(toks, pos, first) && toks[pos] == "INSTRUCTION" && At(toks, pos + |first|, rest)
    ensures |ContextTokens(ctx)| == |first| + |rest|
  {
    assert ContextTokens(ctx) == first + rest;
    AtConcat(toks, pos, first, rest);
    AtIndex(toks, pos, first, 0);
  }

  lemma PrintableRest(cl: Classifier, ctx: seq<Instruction>)
    requires ctx != [] && forall i :: 0 <= i < |ctx| ==> PrintableInstruction(cl, ctx[i])
    ensures PrintableInstruction(cl, ctx[0]) && forall i :: 0 <= i < |ctx[1..]| ==> PrintableInstruction(cl, ctx[1..][i])
  {
    assert forall i :: 0 <= i < |ctx[1..]| ==> ctx[1..][i] == ctx[i + 1];
  }

  /** A name already defined before the first instruction of `ctx` is
      defined twice in the whole context. */
  lemma DuplicateAhead(acc: seq<Instruction>, ctx: seq<Instruction>)
    requires ctx != [] && Defines(acc, ctx[0].name)
    ensures !DistinctNames(acc + ctx) && DefinedTwice(acc + ctx, ctx[0].name)
  {
    var i :| 0 <= i < |acc| && acc[i].name == ctx[0].name;
    assert (acc + ctx)[i].name == ctx[0].name && (acc + ctx)[|acc|] == ctx[0];
  }

  /** One instruction's canonical tokens parse back to it. */
  lemma InstructionRoundTrip(cl: Classifier, ins: Instruction, toks: seq<string>, pos: nat)
    requires Valid(cl) && PrintableInstruction(cl, ins)
    requires At(toks, pos, InstructionTokens(ins))
    ensures ParseInstruction(cl, toks, pos) == Success((ins, pos + |InstructionTokens(ins)|))
  {
    var head: seq<string> := ["INSTRUCTION", ins.name, "IS"];
    var tail: seq<string> := ["END", ins.name];
    var body := StatementTokens(ins.body);
    AtThree(toks, pos, head, body, tail);
    AtIndex(toks, pos, head, 0);
    AtIndex(toks, pos, head, 1);
    AtIndex(toks, pos, head, 2);
    var p1 := pos + 3 + |body|;
    AtIndex(toks, p1, tail, 0);
    AtIndex(toks, p1, tail, 1);
    assert !StartsStatement(cl, toks[p1]);
    BlockStatementRoundTrip(cl, ins.body, toks, pos + 3);
  }

  /** No name is kept back for the primitive instructions: a name that a block
      can call is exactly a name that an instruction can be defined under,
      because the identifier check is the only test made on either. So a
      primitive such as `move`, which bodies must be able to call, can be
      redefined. */
  lemma {:induction false} CallableNamesDefinable(cl: Classifier, n: string)
    requires Valid(cl)
    ensures ParseBlock(cl, [n, "END"], 0) == Success((Block([Call(n)]), 1)) <==> cl.isIdentifier(n)
    ensures cl.isIdentifier(n) <==>
              ParseInstruction(cl, ["INSTRUCTION", n, "IS", "END", n, EndOfInput], 0)
                == Success((Instruction(n, Block([])), 5))
  {
    var call: seq<string> := [n, "END"];
    if cl.isIdentifier(n) {
      assert ParseStatement(cl, call, 0) == Success((Call(n), 1));
      assert [] + [Call(n)] == [Call(n)];
      assert ParseBlockFrom(cl, call, 1, [Call(n)]) == Success(([Call(n)], 1));
      assert ParseBlockFrom(cl, call, 0, []) == Success(([Call(n)], 1));
    } else if n == "IF" || n == "WHILE" {
      // whatever the statement is, it is not a call and heads the block
      match ParseStatement(cl, call, 0)
      case Failure(_) =>
      case Success((s, next)) =>
        assert !s.Call?;
        assert [] + [s] == [s];
        var r := ParseBlockFrom(cl, call, next, [s]);
        assert ParseBlockFrom(cl, call, 0, []) == r;
        assert r.Success? ==> r.value.0[0] == s;
    } else {
      assert ParseBlock(cl, call, 0) == Success((Block([]), 0));
    }
    var def: seq<string> := ["INSTRUCTION", n, "IS", "END", n, EndOfInput];
    assert ParseBlock(cl, def, 3) == Success((Block([]), 3));
  }

  /** A program whose canonical tokens can reparse to it: a well-formed
      printable body block and printable instructions. */
  predicate PrintableProgram(cl: Classifier, p: Program) {
    && p.body.Block? && WellFormed(cl, p.body) && Printable(cl, p.body)
    && forall i :: 0 <= i < |p.context| ==> PrintableInstruction(cl, p.context[i])
  }

  /** Round trip for programs: the canonical tokens of a well-formed program
      followed by the sentinel parse back to it, leaving only the sentinel;
      if an instruction name is defined twice the parse fails, wherever the
      two definitions are. */
  lemma ProgramRoundTrip(cl: Classifier, p: Program, toks: seq<string>)
    requires Valid(cl) && PrintableProgram(cl, p)
    requires toks == ProgramTokens(p) + [EndOfInput]
    ensures DistinctNames(p.context) ==> ParseProgram(cl, toks) == Success((p, |ProgramTokens(p)|))
    ensures !DistinctNames(p.context) ==>
              var r := ParseProgram(cl, toks);
              r.Failure? && r.error.Duplicate? && DefinedTwice(p.context, r.error.name)
  {
    ProgramTokensLayout(p, toks);
    ParseLaidOutProgram(cl, p, toks);
  }

  /** The program round trip once the parts of the tokens are located. */
  lemma ParseLaidOutProgram(cl: Classifier, p: Program, toks: seq<string>)
    requires Valid(cl)
    requires p.body.Block? && WellFormed(cl, p.body) && Printable(cl, p.body)
    requires forall i :: 0 <= i < |p.context| ==> PrintableInstruction(cl, p.context[i])
    requires LaidOut(p, toks)
    ensures DistinctNames(p.context) ==> ParseProgram(cl, toks) == Success((p, |toks| - 1))
    ensures !DistinctNames(p.context) ==>
              var r := ParseProgram(cl, toks);
              r.Failure? && r.error.Duplicate? && DefinedTwice(p.context, r.error.name)
  {
    var p0 := 3 + |ContextTokens(p.context)|;
    assert [] + p.context == p.context;
    InstructionsRoundTrip(cl, p.context, [], toks, 3);
    if DistinctNames(p.context) {
      ParseDistinctProgram(cl, p, toks, p0);
    } else {
      ProgramFailsWithInstructions(cl, toks);
    }
  }

  /** A laid-out program with distinct instruction names parses back. */
  lemma ParseDistinctProgram(cl: Classifier, p: Program, toks: seq<string>, p0: nat)
    requires Valid(cl)
    requires p.body.Block? && WellFormed(cl, p.body) && Printable(cl, p.body)
    requires 3 <= |toks| && toks[0] == "PROGRAM" && toks[1] == p.name && toks[2] == "IS"
    requires ParseInstructions(cl, toks, 3, []) == Success((p.context, p0))
    requires p0 < |toks| && toks[p0] == "BEGIN" && At(toks, p0 + 1, StatementTokens(p.body))
    requires var q := p0 + 1 + |StatementTokens(p.body)|;
             |toks| == q + 3 && toks[q] == "END" && toks[q + 1] == p.name && toks[q + 2] == EndOfInput
    ensures ParseProgram(cl, toks) == Success((p, |toks| - 1))
  {
    MainRoundTrip(cl, p, toks, p0, p0 + 1 + |StatementTokens(p.body)|);
    HeaderUnfold(cl, toks, p.context, p0);
  }

  /** The main part of a program's canonical tokens parses back to it. */
  lemma MainRoundTrip(cl: Classifier, p: Program, toks: seq<string>, p0: nat, q: nat)
    requires Valid(cl)
    requires p.body.Block? && WellFormed(cl, p.body) && Printable(cl, p.body)
    requires p0 < |toks| && toks[p0] == "BEGIN"
    requires At(toks, p0 + 1, StatementTokens(p.body)) && q == p0 + 1 + |StatementTokens(p.body)|
    requires q + 2 < |toks| && toks[q] == "END" && toks[q + 1] == p.name && toks[q + 2] == EndOfInput
    ensures ParseMain(cl, toks, p.name, p.context, p0) == Success((p, q + 2))
  {
    BlockStatementRoundTrip(cl, p.body, toks, p0 + 1);
    MainUnfold(cl, toks, p.name, p.context, p0, p.body, q);
  }

  /** `toks` are a program's canonical tokens followed by the sentinel, split
      into their parts. */
  predicate LaidOut(p: Program, toks: seq<string>) {
    var p0 := 3 + |ContextTokens(p.context)|;
    var q := p0 + 1 + |StatementTokens(p.body)|;
    && |toks| == q + 3
    && toks[0] == "PROGRAM" && toks[1] == p.name && toks[2] == "IS"
    && At(toks, 3, ContextTokens(p.context)) && toks[p0] == "BEGIN"
    && At(toks, p0 + 1, StatementTokens(p.body))
    && toks[q] == "END" && toks[q + 1] == p.name && toks[q + 2] == EndOfInput
  }

  /** Where the parts of a program's canonical tokens lie. */
  lemma ProgramTokensLayout(p: Program, toks: seq<string>)
    requires toks == ProgramTokens(p) + [EndOfInput]
    ensures LaidOut(p, toks) && |toks| == |ProgramTokens(p)| + 1
  {
    var head: seq<string> := ["PROGRAM", p.name, "IS"];
    var ct := ContextTokens(p.context);
    var bt := StatementTokens(p.body);
    var tail: seq<string> := ["END", p.name, EndOfInput];
    ProgramTokensSplit(p, toks, head, ct, bt, tail);
    AtThree(toks, 0, head, ct + ["BEGIN"] + bt, tail);
    LayoutParts(toks, head, ct, bt, tail);
  }

  lemma ProgramTokensSplit(p: Program, toks: seq<string>, head: seq<string>, ct: seq<string>, bt: seq<string>,
                           tail: seq<string>)
    requires toks == ProgramTokens(p) + [EndOfInput]
    requires head == ["PROGRAM", p.name, "IS"] && ct == ContextTokens(p.context)
    requires bt == StatementTokens(p.body) && tail == ["END", p.name, EndOfInput]
    ensures toks == head + (ct + ["BEGIN"] + bt) + tail
    ensures |toks| == 3 + |ct| + 1 + |bt| + 3 == |ProgramTokens(p)| + 1
  {
  }

  lemma LayoutParts(toks: seq<string>, head: seq<string>, ct: seq<string>, bt: seq<string>, tail: seq<string>)
    requires |head| == 3 && |tail| == 3 && |toks| == 3 + |ct| + 1 + |bt| + 3
    requires At(toks, 0, head) && At(toks, 3, ct + ["BEGIN"] + bt) && At(toks, 3 + |ct| + 1 + |bt|, tail)
    ensures toks[0] == head[0] && toks[1] == head[1] && toks[2] == head[2]
    ensures At(toks, 3, ct) && toks[3 + |ct|] == "BEGIN" && At(toks, 3 + |ct| + 1, bt)
    ensures var q := 3 + |ct| + 1 + |bt|; toks[q] == tail[0] && toks[q + 1] == tail[1] && toks[q + 2] == tail[2]
  {
    AtThree(toks, 3, ct, ["BEGIN"], bt);
    AtIndex(toks, 0, head, 0);
    AtIndex(toks, 0, head, 1);
    AtIndex(toks, 0, head, 2);
    AtIndex(toks, 3 + |ct|, ["BEGIN"], 0);
    var q := 3 + |ct| + 1 + |bt|;
    AtIndex(toks, q, tail, 0);
    AtIndex(toks, q, tail, 1);
    AtIndex(toks, q, tail, 2);
  }

  /** An accepted header and instruction loop hand over to the main part. */
  lemma HeaderUnfold(cl: Classifier, toks: seq<string>, ctx: seq<Instruction>, p0: nat)
    requires 3 <= |toks| && toks[0] == "PROGRAM" && toks[2] == "IS"
    requires ParseInstructions(cl, toks, 3, []) == Success((ctx, p0))
    ensures ParseProgram(cl, toks) == ParseMain(cl, toks, toks[1], ctx, p0)
  {
  }

  /** `BEGIN`, an accepted main block, `END`, the name and the sentinel make an
      accepted main part. */
  lemma MainUnfold(cl: Classifier, toks: seq<string>, name: string, ctx: seq<Instruction>, p0: nat, body: Statement, q: nat)
    requires p0 < |toks| && toks[p0] == "BEGIN"
    requires ParseBlock(cl, toks, p0 + 1) == Success((body, q))
    requires q + 2 < |toks| && toks[q] == "END" && toks[q + 1] == name && toks[q + 2] == EndOfInput
    ensures ParseMain(cl, toks, name, ctx, p0) == Success((Program(name, ctx, body), q + 2))
  {
  }

  /** A failing instruction loop makes the program fail with its error. */
  lemma ProgramFailsWithInstructions(cl: Classifier, toks: seq<string>)
    requires 3 <= |toks| && toks[0] == "PROGRAM" && toks[2] == "IS"
    requires ParseInstructions(cl, toks, 3, []).Failure?
    ensures ParseProgram(cl, toks) == Failure(ParseInstructions(cl, toks, 3, []).error)
  {
  }
}
