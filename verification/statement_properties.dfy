/** What the statement parser guarantees: the block loop collects the
    successively parsed statements in order, the `IF` and `WHILE` productions
    have exactly the shape and error cases of the grammar, and the canonical
    tokens of any well-formed statement parse back to that statement.
 */
module StatementProperties {
  import opened Tokens
  import opened Statements
  import opened StatementParser

  /** `qs` are the cursors of a run of statements `ss`: the i-th statement
      parses from `qs[i]` and ends at `qs[i + 1]`. */
  ghost predicate StatementRun(cl: Classifier, toks: seq<string>, qs: seq<nat>, ss: seq<Statement>) {
    && |qs| == |ss| + 1
    && qs[|ss|] <= |toks|
    && forall i :: 0 <= i < |ss| ==>
         qs[i] <= |toks| && ParseStatement(cl, toks, qs[i]) == Success((ss[i], qs[i + 1]))
  }

  lemma {:induction false} BlockFromIsRun(cl: Classifier, toks: seq<string>, pos: nat, acc: seq<Statement>)
    returns (ss: seq<Statement>, qs: seq<nat>)
    requires pos <= |toks| && ParseBlockFrom(cl, toks, pos, acc).Success?
    ensures ParseBlockFrom(cl, toks, pos, acc).value.0 == acc + ss
    ensures StatementRun(cl, toks, qs, ss) && qs[0] == pos && qs[|ss|] == ParseBlockFrom(cl, toks, pos, acc).value.1
    decreases |toks| - pos
  {
    if !StartsStatement(cl, toks[pos]) {
      ss, qs := [], [pos];
    } else {
      var (s, next) := ParseStatement(cl, toks, pos).value;
      var ss', qs' := BlockFromIsRun(cl, toks, next, acc + [s]);
      ss, qs := [s] + ss', [pos] + qs';
      forall i | 0 <= i < |ss|
        ensures qs[i] <= |toks| && ParseStatement(cl, toks, qs[i]) == Success((ss[i], qs[i + 1]))
      {
        if i > 0 {
          assert ss[i] == ss'[i - 1] && qs[i] == qs'[i - 1] && qs[i + 1] == qs'[i];
        }
      }
    }
  }

  /** Block contents: a successful block parse yields the statements parsed
      one after the other from its start, in arrival order, ending where the
      block ends. */
  lemma BlockIsRun(cl: Classifier, toks: seq<string>, pos: nat)
    returns (qs: seq<nat>)
    requires pos <= |toks| && ParseBlock(cl, toks, pos).Success?
    ensures var (b, next) := ParseBlock(cl, toks, pos).value;
            StatementRun(cl, toks, qs, b.children) && qs[0] == pos && qs[|b.children|] == next
  {
    var ss;
    ss, qs := BlockFromIsRun(cl, toks, pos, []);
    assert [] + ss == ss;
  }

  lemma {:induction false} RunFillsBlockFrom(cl: Classifier, toks: seq<string>, qs: seq<nat>,
                                          ss: seq<Statement>, acc: seq<Statement>)
    requires StatementRun(cl, toks, qs, ss)
    requires qs[|ss|] < |toks| && !StartsStatement(cl, toks[qs[|ss|]])
    ensures ParseBlockFrom(cl, toks, qs[0], acc) == Success((acc + ss, qs[|ss|]))
    decreases |ss|
  {
    if ss == [] {
      assert acc + ss == acc;
    } else {
      assert ParseStatement(cl, toks, qs[0]) == Success((ss[0], qs[1]));
      assert StatementRun(cl, toks, qs[1..], ss[1..]) by {
        forall i | 0 <= i < |ss[1..]|
          ensures qs[1..][i] <= |toks| && ParseStatement(cl, toks, qs[1..][i]) == Success((ss[1..][i], qs[1..][i + 1]))
        {
          assert qs[1..][i] == qs[i + 1] && ss[1..][i] == ss[i + 1] && qs[1..][i + 1] == qs[i + 2];
        }
      }
      RunFillsBlockFrom(cl, toks, qs[1..], ss[1..], acc + [ss[0]]);
      assert (acc + [ss[0]]) + ss[1..] == acc + ss;
    }
  }

  /** Conversely, statements parsed one after the other up to a token outside
      the FIRST set are exactly what the block parse collects. */
  lemma RunFormsBlock(cl: Classifier, toks: seq<string>, qs: seq<nat>, ss: seq<Statement>)
    requires StatementRun(cl, toks, qs, ss)
    requires qs[|ss|] < |toks| && !StartsStatement(cl, toks[qs[|ss|]])
    ensures ParseBlock(cl, toks, qs[0]) == Success((Block(ss), qs[|ss|]))
  {
    RunFillsBlockFrom(cl, toks, qs, ss, []);
    assert [] + ss == ss;
  }

  /** IF versus IF-ELSE: a parsed `IF` has its condition and then-block from
      the tokens after `IF`, carries an else-block exactly when the then-block
      is followed by `ELSE`, and ends with `END` and a keyword. */
  lemma IfShape(cl: Classifier, toks: seq<string>, pos: nat)
    requires pos < |toks| && toks[pos] == "IF" && ParseIf(cl, toks, pos).Success?
    ensures pos + 3 <= |toks| && cl.isCondition(toks[pos + 1]) && toks[pos + 2] == "THEN"
    ensures ParseBlock(cl, toks, pos + 3).Success?
    ensures var (thenPart, p1) := ParseBlock(cl, toks, pos + 3).value;
            var (s, next) := ParseIf(cl, toks, pos).value;
            && s.cond == ParseCondition(cl, toks[pos + 1])
            && s.thenBranch == thenPart
            && (s.IfElse? <==> toks[p1] == "ELSE")
            && (s.If? ==> next == p1 + 2)
            && (s.IfElse? ==> p1 + 1 <= |toks| && ParseBlock(cl, toks, p1 + 1) == Success((s.elseBranch, next - 2)))
            && toks[next - 2] == "END" && cl.isKeyword(toks[next - 1])
  {
  }

  /** IF errors: a non-condition after `IF`, a missing `THEN`, and a missing
      `END` after the last block are fatal. */
  lemma IfErrors(cl: Classifier, toks: seq<string>, pos: nat)
    requires Valid(cl) && pos < |toks| && toks[pos] == "IF"
    ensures pos + 1 < |toks| && !cl.isCondition(toks[pos + 1]) ==>
              ParseIf(cl, toks, pos) == Failure(NotCondition(toks[pos + 1]))
    ensures pos + 2 < |toks| && cl.isCondition(toks[pos + 1]) && toks[pos + 2] != "THEN" ==>
              ParseIf(cl, toks, pos) == Failure(Expected("THEN", toks[pos + 2]))
    ensures pos + 3 <= |toks| && cl.isCondition(toks[pos + 1]) && toks[pos + 2] == "THEN" ==>
              var b := ParseBlock(cl, toks, pos + 3);
              b.Success? && toks[b.value.1] != "ELSE" && toks[b.value.1] != "END" ==>
                ParseIf(cl, toks, pos) == Failure(Expected("END", toks[b.value.1]))
    ensures pos + 1 == |toks| ==> ParseIf(cl, toks, pos) == Failure(UnexpectedEnd)
  {
  }

  /** WHILE shape: a parsed `WHILE` consumes exactly `WHILE c DO blk END kw`. */
  lemma WhileShape(cl: Classifier, toks: seq<string>, pos: nat)
    requires pos < |toks| && toks[pos] == "WHILE" && ParseWhile(cl, toks, pos).Success?
    ensures pos + 3 <= |toks| && cl.isCondition(toks[pos + 1]) && toks[pos + 2] == "DO"
    ensures ParseBlock(cl, toks, pos + 3).Success?
    ensures var (body, p1) := ParseBlock(cl, toks, pos + 3).value;
            ParseWhile(cl, toks, pos).value == (While(ParseCondition(cl, toks[pos + 1]), body), p1 + 2)
            && toks[p1] == "END" && cl.isKeyword(toks[p1 + 1])
  {
  }

  /** WHILE errors: a non-condition after `WHILE`, a missing `DO`, and a
      missing `END` after the body are fatal. */
  lemma WhileErrors(cl: Classifier, toks: seq<string>, pos: nat)
    requires Valid(cl) && pos < |toks| && toks[pos] == "WHILE"
    ensures pos + 1 < |toks| && !cl.isCondition(toks[pos + 1]) ==>
              ParseWhile(cl, toks, pos) == Failure(NotCondition(toks[pos + 1]))
    ensures pos + 2 < |toks| && cl.isCondition(toks[pos + 1]) && toks[pos + 2] != "DO" ==>
              ParseWhile(cl, toks, pos) == Failure(Expected("DO", toks[pos + 2]))
    ensures pos + 3 <= |toks| && cl.isCondition(toks[pos + 1]) && toks[pos + 2] == "DO" ==>
              var b := ParseBlock(cl, toks, pos + 3);
              b.Success? && toks[b.value.1] != "END" ==>
                ParseWhile(cl, toks, pos) == Failure(Expected("END", toks[b.value.1]))
    ensures pos + 1 == |toks| ==> ParseWhile(cl, toks, pos) == Failure(UnexpectedEnd)
  {
  }

  /** The closer of an `IF` or a `WHILE` is any keyword, not necessarily the
      opening one: `IF c THEN END WHILE` and `WHILE c DO END IF` parse. */
  lemma CloserIsAnyKeyword(cl: Classifier, c: string, kw: string)
    requires Valid(cl) && cl.isCondition(c) && cl.isKeyword(kw)
    ensures ParseStatement(cl, ["IF", c, "THEN", "END", kw], 0)
            == Success((If(ParseCondition(cl, c), Block([])), 5))
    ensures ParseStatement(cl, ["WHILE", c, "DO", "END", kw], 0)
            == Success((While(ParseCondition(cl, c), Block([])), 5))
  {
    var t1: seq<string> := ["IF", c, "THEN", "END", kw];
    assert !StartsStatement(cl, t1[3]);
    assert ParseBlock(cl, t1, 3) == Success((Block([]), 3));
    var t2: seq<string> := ["WHILE", c, "DO", "END", kw];
    assert !StartsStatement(cl, t2[3]);
    assert ParseBlock(cl, t2, 3) == Success((Block([]), 3));
  }

  /** Round trip: the canonical tokens of a well-formed statement parse back
      to that statement and are consumed exactly. */
  lemma {:induction false} StatementRoundTrip(cl: Classifier, s: Statement, toks: seq<string>, pos: nat)
    requires Valid(cl) && !s.Block? && WellFormed(cl, s) && Printable(cl, s)
    requires At(toks, pos, StatementTokens(s))
    ensures ParseStatement(cl, toks, pos) == Success((s, pos + |StatementTokens(s)|))
    decreases s, 3
  {
    match s
    case Call(_) => CallRoundTrip(cl, s, toks, pos);
    case If(_, _) => IfRoundTrip(cl, s, toks, pos);
    case IfElse(_, _, _) => IfElseRoundTrip(cl, s, toks, pos);
    case While(_, _) => WhileRoundTrip(cl, s, toks, pos);
  }

  lemma CallRoundTrip(cl: Classifier, s: Statement, toks: seq<string>, pos: nat)
    requires Valid(cl) && s.Call? && WellFormed(cl, s)
    requires At(toks, pos, StatementTokens(s))
    ensures ParseStatement(cl, toks, pos) == Success((s, pos + |StatementTokens(s)|))
  {
    AtIndex(toks, pos, [s.instruction], 0);
  }

  lemma {:induction false} IfRoundTrip(cl: Classifier, s: Statement, toks: seq<string>, pos: nat)
    requires Valid(cl) && s.If? && WellFormed(cl, s) && Printable(cl, s)
    requires At(toks, pos, StatementTokens(s))
    ensures ParseStatement(cl, toks, pos) == Success((s, pos + |StatementTokens(s)|))
    decreases s, 2
  {
    IfLayout(s, toks, pos);
    IfLaidOut(cl, s, toks, pos, pos + 3 + |StatementTokens(s.thenBranch)|, pos + |StatementTokens(s)|);
  }

  lemma {:induction false} IfElseRoundTrip(cl: Classifier, s: Statement, toks: seq<string>, pos: nat)
    requires Valid(cl) && s.IfElse? && WellFormed(cl, s) && Printable(cl, s)
    requires At(toks, pos, StatementTokens(s))
    ensures ParseStatement(cl, toks, pos) == Success((s, pos + |StatementTokens(s)|))
    decreases s, 2
  {
    var p1 := pos + 3 + |StatementTokens(s.thenBranch)|;
    IfElseLayout(s, toks, pos);
    IfElseLaidOut(cl, s, toks, pos, p1, p1 + 1 + |StatementTokens(s.elseBranch)|, pos + |StatementTokens(s)|);
  }

  lemma {:induction false} WhileRoundTrip(cl: Classifier, s: Statement, toks: seq<string>, pos: nat)
    requires Valid(cl) && s.While? && WellFormed(cl, s) && Printable(cl, s)
    requires At(toks, pos, StatementTokens(s))
    ensures ParseStatement(cl, toks, pos) == Success((s, pos + |StatementTokens(s)|))
    decreases s, 2
  {
    WhileLayout(s, toks, pos);
    WhileLaidOut(cl, s, toks, pos, pos + 3 + |StatementTokens(s.body)|, pos + |StatementTokens(s)|);
  }

  /** The opening `kw c sep` of an `IF` or `WHILE` in canonical tokens passes
      the checks of the production and yields the condition `c`. */
  lemma Opening(cl: Classifier, toks: seq<string>, pos: nat, kw: string, c: Condition, sep: string)
    requires Valid(cl) && (kw == "IF" || kw == "WHILE")
    requires Canonical(c.name) && cl.isCondition(Spell(c))
    requires At(toks, pos, [kw, Spell(c), sep])
    ensures pos + 3 <= |toks| && toks[pos] == kw && cl.isKeyword(kw)
    ensures toks[pos + 2] == sep && cl.isCondition(toks[pos + 1]) && ParseCondition(cl, toks[pos + 1]) == c
  {
    AtIndex(toks, pos, [kw, Spell(c), sep], 0);
    AtIndex(toks, pos, [kw, Spell(c), sep], 1);
    AtIndex(toks, pos, [kw, Spell(c), sep], 2);
    ConditionOfSpelling(cl, c);
  }

  /** The closing `END kw` of an `IF` or `WHILE` in canonical tokens stops
      the block before it and closes the statement. */
  lemma Closing(cl: Classifier, toks: seq<string>, pos: nat, kw: string, s: Statement)
    requires Valid(cl) && (kw == "IF" || kw == "WHILE")
    requires At(toks, pos, ["END", kw])
    ensures pos < |toks| && !StartsStatement(cl, toks[pos]) && toks[pos] != "ELSE"
    ensures Close(cl, toks, pos, s) == Success((s, pos + 2))
  {
    AtIndex(toks, pos, ["END", kw], 0);
    AtIndex(toks, pos, ["END", kw], 1);
  }

  /** A statement starting with `IF` is an `IF` production. */
  lemma IfDispatch(cl: Classifier, toks: seq<string>, pos: nat)
    requires pos < |toks| && toks[pos] == "IF" && cl.isKeyword(toks[pos])
    ensures ParseStatement(cl, toks, pos) == ParseIf(cl, toks, pos)
  {
  }

  /** A statement starting with `WHILE` is a `WHILE` production. */
  lemma WhileDispatch(cl: Classifier, toks: seq<string>, pos: nat)
    requires pos < |toks| && toks[pos] == "WHILE" && cl.isKeyword(toks[pos])
    ensures ParseStatement(cl, toks, pos) == ParseWhile(cl, toks, pos)
  {
  }

  /** `IF` with a then-block not followed by `ELSE`. */
  lemma IfUnfold(cl: Classifier, toks: seq<string>, pos: nat, thenPart: Statement, p1: nat)
    requires pos + 3 <= |toks| && toks[pos] == "IF" && cl.isKeyword(toks[pos])
    requires cl.isCondition(toks[pos + 1]) && toks[pos + 2] == "THEN"
    requires ParseBlock(cl, toks, pos + 3) == Success((thenPart, p1)) && toks[p1] != "ELSE"
    ensures ParseIf(cl, toks, pos) == Close(cl, toks, p1, If(ParseCondition(cl, toks[pos + 1]), thenPart))
  {
  }

  /** `IF` with a then-block followed by `ELSE` and an else-block. */
  lemma IfElseUnfold(cl: Classifier, toks: seq<string>, pos: nat, thenPart: Statement, p1: nat,
                    elsePart: Statement, p2: nat)
    requires pos + 3 <= |toks| && toks[pos] == "IF" && cl.isKeyword(toks[pos])
    requires cl.isCondition(toks[pos + 1]) && toks[pos + 2] == "THEN"
    requires ParseBlock(cl, toks, pos + 3) == Success((thenPart, p1)) && toks[p1] == "ELSE"
    requires ParseBlock(cl, toks, p1 + 1) == Success((elsePart, p2))
    ensures ParseIf(cl, toks, pos) ==
              Close(cl, toks, p2, IfElse(ParseCondition(cl, toks[pos + 1]), thenPart, elsePart))
  {
  }

  /** `WHILE` with its body. */
  lemma WhileUnfold(cl: Classifier, toks: seq<string>, pos: nat, body: Statement, p1: nat)
    requires pos + 3 <= |toks| && toks[pos] == "WHILE" && cl.isKeyword(toks[pos])
    requires cl.isCondition(toks[pos + 1]) && toks[pos + 2] == "DO"
    requires ParseBlock(cl, toks, pos + 3) == Success((body, p1))
    ensures ParseWhile(cl, toks, pos) == Close(cl, toks, p1, While(ParseCondition(cl, toks[pos + 1]), body))
  {
  }

  /** A branch or body of a statement in canonical tokens, followed by the
      `ELSE` or `END` that stops it, parses back. */
  lemma {:induction false} BranchRoundTrip(cl: Classifier, s: Statement, b: Statement, toks: seq<string>, q: nat)
    requires Valid(cl) && b.Block? && WellFormed(cl, b) && Printable(cl, b)
    requires || (s.If? && b == s.thenBranch)
             || (s.IfElse? && (b == s.thenBranch || b == s.elseBranch))
             || (s.While? && b == s.body)
    requires At(toks, q, StatementTokens(b)) && q + |StatementTokens(b)| < |toks|
    requires toks[q + |StatementTokens(b)|] == "ELSE" || toks[q + |StatementTokens(b)|] == "END"
    ensures ParseBlock(cl, toks, q) == Success((b, q + |StatementTokens(b)|))
    decreases s, 0
  {
    BlockStatementRoundTrip(cl, b, toks, q);
  }

  /** Where the parts of an `IF` statement's canonical tokens lie. */
  lemma IfLayout(s: Statement, toks: seq<string>, pos: nat)
    requires s.If? && At(toks, pos, StatementTokens(s))
    ensures var p1 := pos + 3 + |StatementTokens(s.thenBranch)|;
            && At(toks, pos, ["IF", Spell(s.cond), "THEN"])
            && At(toks, pos + 3, StatementTokens(s.thenBranch))
            && At(toks, p1, ["END", "IF"])
            && p1 + 2 == pos + |StatementTokens(s)|
  {
    var head: seq<string> := ["IF", Spell(s.cond), "THEN"];
    assert StatementTokens(s) == head + StatementTokens(s.thenBranch) + ["END", "IF"];
    AtThree(toks, pos, head, StatementTokens(s.thenBranch), ["END", "IF"]);
  }

  /** An `IF` whose parts lie at their canonical places parses back. */
  lemma {:induction false} IfLaidOut(cl: Classifier, s: Statement, toks: seq<string>, pos: nat, p1: nat, end: nat)
    requires s.If? && Valid(cl) && Canonical(s.cond.name) && cl.isCondition(Spell(s.cond))
    requires s.thenBranch.Block? && WellFormed(cl, s.thenBranch) && Printable(cl, s.thenBranch)
    requires p1 == pos + 3 + |StatementTokens(s.thenBranch)| && end == p1 + 2
    requires At(toks, pos, ["IF", Spell(s.cond), "THEN"]) && At(toks, pos + 3, StatementTokens(s.thenBranch))
    requires At(toks, p1, ["END", "IF"])
    ensures ParseStatement(cl, toks, pos) == Success((s, end))
    decreases s, 1
  {
    AtIndex(toks, p1, ["END", "IF"], 0);
    BranchRoundTrip(cl, s, s.thenBranch, toks, pos + 3);
    IfFromParts(cl, toks, pos, s.cond, s.thenBranch, p1, end);
  }

  /** An `IF` whose opening, block and closing have been read. */
  lemma IfFromParts(cl: Classifier, toks: seq<string>, pos: nat, c: Condition, thenPart: Statement, p1: nat, end: nat)
    requires Valid(cl) && Canonical(c.name) && cl.isCondition(Spell(c))
    requires At(toks, pos, ["IF", Spell(c), "THEN"])
    requires pos + 3 <= |toks| && ParseBlock(cl, toks, pos + 3) == Success((thenPart, p1))
    requires At(toks, p1, ["END", "IF"]) && end == p1 + 2
    ensures ParseStatement(cl, toks, pos) == Success((If(c, thenPart), end))
  {
    Opening(cl, toks, pos, "IF", c, "THEN");
    Closing(cl, toks, p1, "IF", If(c, thenPart));
    IfUnfold(cl, toks, pos, thenPart, p1);
    IfDispatch(cl, toks, pos);
  }

  /** Where the parts of an `IF`-`ELSE` statement's canonical tokens lie. */
  lemma IfElseLayout(s: Statement, toks: seq<string>, pos: nat)
    requires s.IfElse? && At(toks, pos, StatementTokens(s))
    ensures var t1 := StatementTokens(s.thenBranch);
            var p1 := pos + 3 + |t1|;
            var p2 := p1 + 1 + |StatementTokens(s.elseBranch)|;
            && At(toks, pos, ["IF", Spell(s.cond), "THEN"])
            && At(toks, pos + 3, t1) && At(toks, p1, ["ELSE"])
            && At(toks, p1 + 1, StatementTokens(s.elseBranch))
            && At(toks, p2, ["END", "IF"])
            && p2 + 2 == pos + |StatementTokens(s)|
  {
    var head: seq<string> := ["IF", Spell(s.cond), "THEN"];
    var t1 := StatementTokens(s.thenBranch);
    var t2 := StatementTokens(s.elseBranch);
    assert StatementTokens(s) == head + (t1 + ["ELSE"] + t2) + ["END", "IF"];
    AtThree(toks, pos, head, t1 + ["ELSE"] + t2, ["END", "IF"]);
    AtThree(toks, pos + 3, t1, ["ELSE"], t2);
  }

  /** An `IF`-`ELSE` whose parts lie at their canonical places parses back. */
  lemma {:induction false} IfElseLaidOut(cl: Classifier, s: Statement, toks: seq<string>, pos: nat,
                                         p1: nat, p2: nat, end: nat)
    requires s.IfElse? && Valid(cl) && Canonical(s.cond.name) && cl.isCondition(Spell(s.cond))
    requires s.thenBranch.Block? && WellFormed(cl, s.thenBranch) && Printable(cl, s.thenBranch)
    requires s.elseBranch.Block? && WellFormed(cl, s.elseBranch) && Printable(cl, s.elseBranch)
    requires p1 == pos + 3 + |StatementTokens(s.thenBranch)| && p2 == p1 + 1 + |StatementTokens(s.elseBranch)|
    requires end == p2 + 2
    requires At(toks, pos, ["IF", Spell(s.cond), "THEN"]) && At(toks, pos + 3, StatementTokens(s.thenBranch))
    requires At(toks, p1, ["ELSE"]) && At(toks, p1 + 1, StatementTokens(s.elseBranch))
    requires At(toks, p2, ["END", "IF"])
    ensures ParseStatement(cl, toks, pos) == Success((s, end))
    decreases s, 1
  {
    AtIndex(toks, p1, ["ELSE"], 0);
    AtIndex(toks, p2, ["END", "IF"], 0);
    BranchRoundTrip(cl, s, s.thenBranch, toks, pos + 3);
    BranchRoundTrip(cl, s, s.elseBranch, toks, p1 + 1);
    IfElseFromParts(cl, toks, pos, s.cond, s.thenBranch, p1, s.elseBranch, p2, end);
  }

  /** An `IF`-`ELSE` whose opening, blocks and closing have been read. */
  lemma IfElseFromParts(cl: Classifier, toks: seq<string>, pos: nat, c: Condition,
                        thenPart: Statement, p1: nat, elsePart: Statement, p2: nat, end: nat)
    requires Valid(cl) && Canonical(c.name) && cl.isCondition(Spell(c))
    requires At(toks, pos, ["IF", Spell(c), "THEN"])
    requires pos + 3 <= |toks| && ParseBlock(cl, toks, pos + 3) == Success((thenPart, p1))
    requires toks[p1] == "ELSE" && ParseBlock(cl, toks, p1 + 1) == Success((elsePart, p2))
    requires At(toks, p2, ["END", "IF"]) && end == p2 + 2
    ensures ParseStatement(cl, toks, pos) == Success((IfElse(c, thenPart, elsePart), end))
  {
    Opening(cl, toks, pos, "IF", c, "THEN");
    Closing(cl, toks, p2, "IF", IfElse(c, thenPart, elsePart));
    IfElseUnfold(cl, toks, pos, thenPart, p1, elsePart, p2);
    IfDispatch(cl, toks, pos);
  }

  /** Where the parts of a `WHILE` statement's canonical tokens lie. */
  lemma WhileLayout(s: Statement, toks: seq<string>, pos: nat)
    requires s.While? && At(toks, pos, StatementTokens(s))
    ensures var p1 := pos + 3 + |StatementTokens(s.body)|;
            && At(toks, pos, ["WHILE", Spell(s.cond), "DO"])
            && At(toks, pos + 3, StatementTokens(s.body))
            && At(toks, p1, ["END", "WHILE"])
            && p1 + 2 == pos + |StatementTokens(s)|
  {
    var head: seq<string> := ["WHILE", Spell(s.cond), "DO"];
    assert StatementTokens(s) == head + StatementTokens(s.body) + ["END", "WHILE"];
    AtThree(toks, pos, head, StatementTokens(s.body), ["END", "WHILE"]);
  }

  /** A `WHILE` whose parts lie at their canonical places parses back. */
  lemma {:induction false} WhileLaidOut(cl: Classifier, s: Statement, toks: seq<string>, pos: nat, p1: nat, end: nat)
    requires s.While? && Valid(cl) && Canonical(s.cond.name) && cl.isCondition(Spell(s.cond))
    requires s.body.Block? && WellFormed(cl, s.body) && Printable(cl, s.body)
    requires p1 == pos + 3 + |StatementTokens(s.body)| && end == p1 + 2
    requires At(toks, pos, ["WHILE", Spell(s.cond), "DO"]) && At(toks, pos + 3, StatementTokens(s.body))
    requires At(toks, p1, ["END", "WHILE"])
    ensures ParseStatement(cl, toks, pos) == Success((s, end))
    decreases s, 1
  {
    AtIndex(toks, p1, ["END", "WHILE"], 0);
    BranchRoundTrip(cl, s, s.body, toks, pos + 3);
    WhileFromParts(cl, toks, pos, s.cond, s.body, p1, end);
  }

  /** A `WHILE` whose opening, body and closing have been read. */
  lemma WhileFromParts(cl: Classifier, toks: seq<string>, pos: nat, c: Condition, body: Statement, p1: nat, end: nat)
    requires Valid(cl) && Canonical(c.name) && cl.isCondition(Spell(c))
    requires At(toks, pos, ["WHILE", Spell(c), "DO"])
    requires pos + 3 <= |toks| && ParseBlock(cl, toks, pos + 3) == Success((body, p1))
    requires At(toks, p1, ["END", "WHILE"]) && end == p1 + 2
    ensures ParseStatement(cl, toks, pos) == Success((While(c, body), end))
  {
    Opening(cl, toks, pos, "WHILE", c, "DO");
    Closing(cl, toks, p1, "WHILE", While(c, body));
    WhileUnfold(cl, toks, pos, body, p1);
    WhileDispatch(cl, toks, pos);
  }

  /** A parsed statement in front of a run of parsed statements extends the
      run. */
  lemma StatementRunCons(cl: Classifier, toks: seq<string>, pos: nat, next: nat, ss: seq<Statement>, qs: seq<nat>)
    requires ss != [] && pos <= |toks| && StatementRun(cl, toks, qs, ss[1..]) && qs[0] == next
    requires ParseStatement(cl, toks, pos) == Success((ss[0], next))
    ensures StatementRun(cl, toks, [pos] + qs, ss) && ([pos] + qs)[0] == pos && ([pos] + qs)[|ss|] == qs[|ss| - 1]
  {
    var qs' := [pos] + qs;
    forall i | 0 <= i < |ss|
      ensures qs'[i] <= |toks| && ParseStatement(cl, toks, qs'[i]) == Success((ss[i], qs'[i + 1]))
    {
      if i > 0 {
        assert ss[i] == ss[1..][i - 1] && qs'[i] == qs[i - 1] && qs'[i + 1] == qs[i];
      }
    }
  }

  /** The canonical tokens of a non-empty run of statements: those of the
      first statement, then those of the rest. */
  lemma BlockParts(cl: Classifier, ss: seq<Statement>, toks: seq<string>, pos: nat)
    requires ss != [] && WellFormed(cl, Block(ss)) && Printable(cl, Block(ss))
    requires At(toks, pos, BlockTokens(ss))
    ensures !ss[0].Block? && WellFormed(cl, ss[0]) && Printable(cl, ss[0])
    ensures WellFormed(cl, Block(ss[1..])) && Printable(cl, Block(ss[1..]))
    ensures At(toks, pos, StatementTokens(ss[0]))
    ensures At(toks, pos + |StatementTokens(ss[0])|, BlockTokens(ss[1..]))
    ensures |BlockTokens(ss)| == |StatementTokens(ss[0])| + |BlockTokens(ss[1..])|
  {
    BlockTokensSplit(ss, toks, pos, StatementTokens(ss[0]), BlockTokens(ss[1..]));
    WellFormedHead(cl, ss);
    WellFormedTail(cl, ss);
  }

  lemma BlockTokensSplit(ss: seq<Statement>, toks: seq<string>, pos: nat, first: seq<string>, rest: seq<string>)
    requires ss != [] && first == StatementTokens(ss[0]) && rest == BlockTokens(ss[1..])
    requires At(toks, pos, BlockTokens(ss))
    ensures At(toks, pos, first) && At(toks, pos + |first|, rest)
    ensures |BlockTokens(ss)| == |first| + |rest|
  {
    assert BlockTokens(ss) == first + rest;
    AtConcat(toks, pos, first, rest);
  }

  lemma WellFormedHead(cl: Classifier, ss: seq<Statement>)
    requires ss != [] && WellFormed(cl, Block(ss)) && Printable(cl, Block(ss))
    ensures !ss[0].Block? && WellFormed(cl, ss[0]) && Printable(cl, ss[0])
  {
  }

  /** Round trip for runs of statements: the canonical tokens of well-formed
      statements parse back one after the other. */
  lemma {:induction false} BlockRoundTrip(cl: Classifier, ss: seq<Statement>, toks: seq<string>, pos: nat)
    returns (qs: seq<nat>)
    requires Valid(cl) && WellFormed(cl, Block(ss)) && Printable(cl, Block(ss))
    requires At(toks, pos, BlockTokens(ss))
    ensures StatementRun(cl, toks, qs, ss) && qs[0] == pos && qs[|ss|] == pos + |BlockTokens(ss)|
    decreases ss, 3
  {
    if ss == [] {
      qs := [pos];
    } else {
      BlockParts(cl, ss, toks, pos);
      StatementRoundTrip(cl, ss[0], toks, pos);
      var next := pos + |StatementTokens(ss[0])|;
      var qs' := BlockRoundTrip(cl, ss[1..], toks, next);
      StatementRunCons(cl, toks, pos, next, ss, qs');
      qs := [pos] + qs';
    }
  }

  /** The statements after the first of a well-formed, printable block form
      a well-formed, printable block. */
  lemma WellFormedTail(cl: Classifier, ss: seq<Statement>)
    requires ss != [] && WellFormed(cl, Block(ss)) && Printable(cl, Block(ss))
    ensures WellFormed(cl, Block(ss[1..])) && Printable(cl, Block(ss[1..]))
  {
    assert forall i :: 0 <= i < |ss[1..]| ==> ss[1..][i] == ss[i + 1];
  }

  /** Round trip for a whole block statement. */
  lemma {:induction false} BlockStatementRoundTrip(cl: Classifier, b: Statement, toks: seq<string>, pos: nat)
    requires Valid(cl) && b.Block? && WellFormed(cl, b) && Printable(cl, b)
    requires At(toks, pos, StatementTokens(b))
    requires pos + |StatementTokens(b)| < |toks| && !StartsStatement(cl, toks[pos + |StatementTokens(b)|])
    ensures ParseBlock(cl, toks, pos) == Success((b, pos + |StatementTokens(b)|))
    decreases b, 0
  {
    var qs := BlockRoundTrip(cl, b.children, toks, pos);
    RunFormsBlock(cl, toks, qs, b.children);
  }
}
