/** BL statement trees, the conditions they test, and the canonical token
    sequence that spells a statement (the shape a pretty-printer produces).
 */
module Statements {
  import opened Tokens

  /** An enumerant of the language's condition type, identified by its
      constant name (upper case, words joined by '_'). */
  datatype Condition = Condition(name: string)

  /** A statement tree. `If`, `IfElse` and `While` own their branches, and a
      `Block` owns its children in execution order. */
  datatype Statement =
    | Block(children: seq<Statement>)
    | If(cond: Condition, thenBranch: Statement)
    | IfElse(cond: Condition, thenBranch: Statement, elseBranch: Statement)
    | While(cond: Condition, body: Statement)
    | Call(instruction: string)

  function UpperChar(ch: char): char {
    if 'a' <= ch <= 'z' then (ch as int - 32) as char else ch
  }

  function LowerChar(ch: char): char {
    if 'A' <= ch <= 'Z' then (ch as int + 32) as char else ch
  }

  /** The spelling of a condition token mapped to its enumerant name: every
      '-' becomes '_' and every letter is upper-cased. */
  function Normalize(t: string): (n: string)
    ensures |n| == |t|
  {
    seq(|t|, i requires 0 <= i < |t| => UpperChar(if t[i] == '-' then '_' else t[i]))
  }

  /** An enumerant name: no '-' and no lower-case letter. */
  predicate Canonical(n: string) {
    forall i :: 0 <= i < |n| ==> n[i] != '-' && !('a' <= n[i] <= 'z')
  }

  /** The token that spells a condition in BL source: the enumerant name in
      lower case with '_' written as '-'. */
  function Spell(c: Condition): (t: string)
    ensures |t| == |c.name|
  {
    seq(|c.name|, i requires 0 <= i < |c.name| =>
      LowerChar(if c.name[i] == '_' then '-' else c.name[i]))
  }

  /** Every normalised spelling is an enumerant name, and normalising an
      enumerant name's spelling gives the name back. */
  lemma NormalizeSpell(t: string, c: Condition)
    ensures Canonical(Normalize(t))
    ensures Canonical(c.name) ==> Normalize(Spell(c)) == c.name
  {
    if Canonical(c.name) {
      var s := Spell(c);
      forall i | 0 <= i < |c.name|
        ensures Normalize(s)[i] == c.name[i]
      {
        assert c.name[i] != '-' && !('a' <= c.name[i] <= 'z');
      }
    }
  }

  /** The shape every parsed statement has, and the invariant of the
      statement kernel: branches and bodies are blocks, blocks hold no blocks
      directly, called names are identifiers and conditions are enumerant
      names. */
  predicate WellFormed(cl: Classifier, s: Statement) {
    match s
    case Block(ss) => forall i :: 0 <= i < |ss| ==> !ss[i].Block? && WellFormed(cl, ss[i])
    case If(c, b) => Canonical(c.name) && b.Block? && WellFormed(cl, b)
    case IfElse(c, b1, b2) =>
      Canonical(c.name) && b1.Block? && b2.Block? && WellFormed(cl, b1) && WellFormed(cl, b2)
    case While(c, b) => Canonical(c.name) && b.Block? && WellFormed(cl, b)
    case Call(n) => cl.isIdentifier(n)
  }

  /** Every condition in `s` is spelled by a token the classifier accepts as a
      condition. */
  predicate Printable(cl: Classifier, s: Statement) {
    match s
    case Block(ss) => forall i :: 0 <= i < |ss| ==> Printable(cl, ss[i])
    case If(c, b) => cl.isCondition(Spell(c)) && Printable(cl, b)
    case IfElse(c, b1, b2) => cl.isCondition(Spell(c)) && Printable(cl, b1) && Printable(cl, b2)
    case While(c, b) => cl.isCondition(Spell(c)) && Printable(cl, b)
    case Call(_) => true
  }

  /** The canonical tokens of a statement: what a pretty-printer writes, with
      `END IF` and `END WHILE` as closers. */
  function StatementTokens(s: Statement): seq<string>
    decreases s, 1
  {
    match s
    case Block(ss) => BlockTokens(ss)
    case If(c, b) => ["IF", Spell(c), "THEN"] + StatementTokens(b) + ["END", "IF"]
    case IfElse(c, b1, b2) =>
      ["IF", Spell(c), "THEN"] + StatementTokens(b1) + ["ELSE"] + StatementTokens(b2) + ["END", "IF"]
    case While(c, b) => ["WHILE", Spell(c), "DO"] + StatementTokens(b) + ["END", "WHILE"]
    case Call(n) => [n]
  }

  /** The tokens of a sequence of statements, one after the other. */
  function BlockTokens(ss: seq<Statement>): seq<string>
    decreases ss, 0
  {
    if ss == [] then [] else StatementTokens(ss[0]) + BlockTokens(ss[1..])
  }
}
