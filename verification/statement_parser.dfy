/** The statement parser: one statement (`IF`, `IF`-`ELSE`, `WHILE` or a
    call) or a block of statements, read from a token stream at cursor `pos`.

    Each parse returns the statement together with the cursor after the last
    token it consumed, so the tokens left over are always `toks[next..]`, a
    suffix of the input. Every fatal report of the source is a `Failure`.
 */
module StatementParser {
  import opened Tokens
  import opened Statements

  /** The enumerant a condition token names. */
  function ParseCondition(cl: Classifier, t: string): (c: Condition)
    requires cl.isCondition(t)
    ensures Canonical(c.name) && |c.name| == |t|
    // the enumerant is recovered from its own spelling
    ensures Normalize(Spell(c)) == c.name
  {
    NormalizeSpell(t, Condition(Normalize(t)));
    Condition(Normalize(t))
  }

  /** The spelling of an enumerant name, read as a condition token, gives
      that enumerant back. */
  lemma ConditionOfSpelling(cl: Classifier, c: Condition)
    requires Canonical(c.name) && cl.isCondition(Spell(c))
    ensures ParseCondition(cl, Spell(c)) == c
  {
    NormalizeSpell(Spell(c), c);
  }

  /** `END` followed by any keyword closes an `IF` or a `WHILE`. */
  function Close(cl: Classifier, toks: seq<string>, pos: nat, s: Statement): (r: Result<(Statement, nat)>)
    requires pos <= |toks|
    ensures r.Success? <==> pos + 2 <= |toks| && toks[pos] == "END" && cl.isKeyword(toks[pos + 1])
    ensures r.Success? ==> r.value == (s, pos + 2)
  {
    if pos == |toks| then Failure(UnexpectedEnd)
    else if toks[pos] != "END" then Failure(Expected("END", toks[pos]))
    else if pos + 1 == |toks| then Failure(UnexpectedEnd)
    else if !cl.isKeyword(toks[pos + 1]) then Failure(NotKeyword(toks[pos + 1]))
    else Success((s, pos + 2))
  }

  /** `IF c THEN blk [ELSE blk] END kw`. */
  function ParseIf(cl: Classifier, toks: seq<string>, pos: nat): (r: Result<(Statement, nat)>)
    requires pos < |toks| && toks[pos] == "IF"
    ensures r.Success? ==> pos < r.value.1 <= |toks|
    ensures r.Success? ==> (r.value.0.If? || r.value.0.IfElse?) && WellFormed(cl, r.value.0)
    decreases |toks| - pos, 0
  {
    if !cl.isKeyword(toks[pos]) then Failure(NotKeyword(toks[pos]))
    else if pos + 1 == |toks| then Failure(UnexpectedEnd)
    else if !cl.isCondition(toks[pos + 1]) then Failure(NotCondition(toks[pos + 1]))
    else if pos + 2 == |toks| then Failure(UnexpectedEnd)
    else if toks[pos + 2] != "THEN" then Failure(Expected("THEN", toks[pos + 2]))
    else
      var c := ParseCondition(cl, toks[pos + 1]);
      match ParseBlock(cl, toks, pos + 3)
      case Failure(e) => Failure(e)
      case Success((thenPart, p1)) =>
        if toks[p1] == "ELSE" then
          match ParseBlock(cl, toks, p1 + 1)
          case Failure(e) => Failure(e)
          case Success((elsePart, p2)) => Close(cl, toks, p2, IfElse(c, thenPart, elsePart))
        else
          Close(cl, toks, p1, If(c, thenPart))
  }

  /** `WHILE c DO blk END kw`. */
  function ParseWhile(cl: Classifier, toks: seq<string>, pos: nat): (r: Result<(Statement, nat)>)
    requires pos < |toks| && toks[pos] == "WHILE"
    ensures r.Success? ==> pos < r.value.1 <= |toks|
    ensures r.Success? ==> r.value.0.While? && WellFormed(cl, r.value.0)
    decreases |toks| - pos, 0
  {
    if !cl.isKeyword(toks[pos]) then Failure(NotKeyword(toks[pos]))
    else if pos + 1 == |toks| then Failure(UnexpectedEnd)
    else if !cl.isCondition(toks[pos + 1]) then Failure(NotCondition(toks[pos + 1]))
    else if pos + 2 == |toks| then Failure(UnexpectedEnd)
    else if toks[pos + 2] != "DO" then Failure(Expected("DO", toks[pos + 2]))
    else
      var c := ParseCondition(cl, toks[pos + 1]);
      match ParseBlock(cl, toks, pos + 3)
      case Failure(e) => Failure(e)
      case Success((body, p1)) => Close(cl, toks, p1, While(c, body))
  }

  /** A call: one identifier token. */
  function ParseCall(cl: Classifier, toks: seq<string>, pos: nat): (r: Result<(Statement, nat)>)
    requires pos < |toks|
    ensures r.Success? <==> cl.isIdentifier(toks[pos])
    ensures r.Success? ==> r.value == (Call(toks[pos]), pos + 1)
    ensures r.Failure? ==> r.error == NotIdentifier(toks[pos])
  {
    var name := toks[pos];
    if cl.isIdentifier(name) then Success((Call(name), pos + 1))
    else Failure(NotIdentifier(name))
  }

  /** One statement, the production chosen by the front token. */
  function ParseStatement(cl: Classifier, toks: seq<string>, pos: nat): (r: Result<(Statement, nat)>)
    requires pos <= |toks|
    ensures r.Success? ==> pos < r.value.1 <= |toks|
    ensures r.Success? ==> !r.value.0.Block? && WellFormed(cl, r.value.0)
    ensures pos < |toks| && !cl.isIdentifier(toks[pos]) && !cl.isKeyword(toks[pos]) ==>
              r == Failure(NotStatement(toks[pos]))
    // the production follows the front token, and only FIRST-set tokens start a statement
    ensures r.Success? ==> StartsStatement(cl, toks[pos])
    ensures r.Success? ==> (r.value.0.While? <==> toks[pos] == "WHILE")
    ensures r.Success? ==> (r.value.0.If? || r.value.0.IfElse? <==> toks[pos] == "IF")
    ensures r.Success? ==> (r.value.0.Call? <==> toks[pos] != "IF" && toks[pos] != "WHILE")
    decreases |toks| - pos, 1
  {
    if pos == |toks| then Failure(UnexpectedEnd)
    else
      var name := toks[pos];
      if !(cl.isIdentifier(name) || cl.isKeyword(name)) then Failure(NotStatement(name))
      else if name == "WHILE" then ParseWhile(cl, toks, pos)
      else if name == "IF" then ParseIf(cl, toks, pos)
      else ParseCall(cl, toks, pos)
  }

  /** The block loop: statements are parsed while the front token is in the
      FIRST set, each appended to `acc`. */
  function ParseBlockFrom(cl: Classifier, toks: seq<string>, pos: nat, acc: seq<Statement>)
    : (r: Result<(seq<Statement>, nat)>)
    requires pos <= |toks|
    ensures r.Success? ==> pos <= r.value.1 < |toks| && !StartsStatement(cl, toks[r.value.1])
    ensures r.Success? ==> acc <= r.value.0
    ensures r.Success? && (forall i :: 0 <= i < |acc| ==> !acc[i].Block? && WellFormed(cl, acc[i])) ==>
              WellFormed(cl, Block(r.value.0))
    decreases |toks| - pos, 2
  {
    if pos == |toks| then Failure(UnexpectedEnd)
    else if !StartsStatement(cl, toks[pos]) then Success((acc, pos))
    else
      match ParseStatement(cl, toks, pos)
      case Failure(e) => Failure(e)
      case Success((s, next)) => ParseBlockFrom(cl, toks, next, acc + [s])
  }

  /** A block: the longest run of statements at `pos`, possibly empty. */
  function ParseBlock(cl: Classifier, toks: seq<string>, pos: nat): (r: Result<(Statement, nat)>)
    requires pos <= |toks|
    ensures r.Success? ==> pos <= r.value.1 < |toks| && !StartsStatement(cl, toks[r.value.1])
    ensures r.Success? ==> r.value.0.Block? && WellFormed(cl, r.value.0)
    ensures pos < |toks| && !StartsStatement(cl, toks[pos]) ==> r == Success((Block([]), pos))
    decreases |toks| - pos, 3
  {
    match ParseBlockFrom(cl, toks, pos, [])
    case Failure(e) => Failure(e)
    case Success((ss, next)) => Success((Block(ss), next))
  }
}
