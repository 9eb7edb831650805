# BL parser model

A Dafny model of the recursive-descent parser for BL, a small block-structured
language. A BL program has a name, a table of user-defined instructions (the
context), and a main body. Bodies are statement trees: blocks, `IF`, `IF`-`ELSE`,
`WHILE` and instruction calls. The model covers the two parsers of the
repository:

- the statement parser (`Statement1Parse1`): `parseCondition`, `parseIf`,
  `parseWhile`, `parseCall`, `parse` and `parseBlock`;
- the program parser (`Program1Parse1`): `parseInstruction` and `parse(Queue)`,
  including the duplicate-name check and the final install into the target
  program.

The token queue is an immutable `seq<string>` read through a cursor. Every
parse function returns the parsed value and the cursor after the last
consumed token, or a `Failure` for every place where the source reports a
fatal error. The tokenizer's three classifying predicates are a `Classifier`
passed to every parser. `Tokens.Valid` collects the only facts about them that
the proofs use: the reserved words are keywords and not identifiers, and the
end-of-input sentinel is not an identifier.

Files:

- `tokens.dfy`: the sentinel, the classifier, error kinds and occurrence facts.
- `statement.dfy`: conditions, statement trees, their invariant, and the
  canonical tokens of a statement.
- `statement_parser.dfy`: the statement productions.
- `statement_properties.dfy`: block contents, the shapes and error cases of
  the productions, and the statement round trip.
- `program_parser.dfy`: the instruction and program productions.
- `program_properties.dfy`: program shape and errors, the duplicate check, and
  the program round trip.
- `scenarios.dfy`: a sample classifier that satisfies `Valid`, and concrete
  parses derived from the general lemmas.

Where the documented grammar and the code differ, the model follows the code:

- `END` may be followed by any keyword, not just the opening one. So
  `IF c THEN END WHILE` parses (`StatementProperties.CloserIsAnyKeyword`).
- The program name after `PROGRAM` is not checked to be an identifier.
- The documented rejection of primitive instruction names
  (Program1Parse1.java:43-52) is not implemented. The only test of an
  instruction name is `isIdentifier`. A call is entered only on an
  identifier too (Statement1Parse1.java:190 and 242). So any name a block can
  call, a primitive such as `move` included, is accepted as the name of a new
  instruction (`ProgramProperties.CallableNamesDefinable`).
- Running out of tokens is a failure, `UnexpectedEnd`. In the source it is a
  violated precondition of the queue.

## Model

| member | source | states |
|---|---|---|
| Statements.NormalizeSpell | BLParser/src/Statement1Parse1.java:37 | Every normalised token is an enumerant name (no `-`, no lower case). Normalising the spelling of an enumerant name gives the name back. |
| StatementParser.ParseCondition | BLParser/src/Statement1Parse1.java:33-38 | A condition token maps to an enumerant name of the same length, with no `-` and no lower-case letter. That name is recovered from its own spelling. |
| StatementParser.ConditionOfSpelling | BLParser/src/Statement1Parse1.java:33-38 | Reading the spelling of an enumerant name as a condition token gives that enumerant back. |
| StatementParser.Close | BLParser/src/Statement1Parse1.java:98-102 | The closer succeeds exactly when `END` is followed by a keyword. On success it consumes those two tokens. |
| StatementParser.ParseIf | BLParser/src/Statement1Parse1.java:61-103 | A parsed `IF` consumes at least one token and stays in bounds. It yields an `If` or `IfElse` with block branches and conditions that are enumerant names. |
| StatementParser.ParseWhile | BLParser/src/Statement1Parse1.java:126-161 | A parsed `WHILE` consumes at least one token and yields a well-formed `While` whose body is a block. |
| StatementParser.ParseCall | BLParser/src/Statement1Parse1.java:179-194 | A call succeeds exactly on an identifier. It yields `Call(name)` and consumes one token; otherwise the failure names the token. |
| StatementParser.ParseStatement | BLParser/src/Statement1Parse1.java:212-231 | A token that is neither identifier nor keyword is fatal. A success starts with a FIRST-set token. `WHILE` gives a `While`, `IF` gives an `If`/`IfElse`, and anything else gives a `Call`. The result is never a block and is well formed. |
| StatementParser.ParseBlockFrom | BLParser/src/Statement1Parse1.java:241-247 | The loop stops on a token outside the FIRST set. It only appends to the statements collected so far, and keeps them well formed. |
| StatementParser.ParseBlock | BLParser/src/Statement1Parse1.java:234-251 | A block stops before a token outside the FIRST set and is a well-formed `Block`. A front token outside the FIRST set gives the empty block, with nothing consumed. |
| StatementProperties.BlockFromIsRun | BLParser/src/Statement1Parse1.java:241-247 | The loop's result is the accumulator followed by statements parsed back to back from the start cursor. The last one ends at the loop's final cursor. |
| StatementProperties.BlockIsRun | BLParser/src/Statement1Parse1.java:234-251 | The children of a parsed block are exactly the statements parsed one after another from its start, in arrival order. |
| StatementProperties.RunFillsBlockFrom | BLParser/src/Statement1Parse1.java:241-247 | Conversely, statements parsed back to back up to a token outside the FIRST set are appended by the loop in that order. |
| StatementProperties.RunFormsBlock | BLParser/src/Statement1Parse1.java:234-251 | Statements parsed back to back up to a token outside the FIRST set form the parsed block. |
| StatementProperties.IfShape | BLParser/src/Statement1Parse1.java:61-103 | A parsed `IF` has a condition token and `THEN`. Its then-block is the block parsed after `THEN`. It has an else-block exactly when `ELSE` follows the then-block. It ends with `END` and a keyword. |
| StatementProperties.IfErrors | BLParser/src/Statement1Parse1.java:73-102 | Each of these fails with its own error: a non-condition after `IF`, a missing `THEN`, a token other than `ELSE`/`END` after the then-block, or no token after `IF`. |
| StatementProperties.WhileShape | BLParser/src/Statement1Parse1.java:126-161 | A parsed `WHILE` is exactly `WHILE c DO blk END kw`, with the parsed condition and block. |
| StatementProperties.WhileErrors | BLParser/src/Statement1Parse1.java:137-159 | Each of these fails with its own error: a non-condition after `WHILE`, a missing `DO`, a missing `END` after the body, or no token after `WHILE`. |
| StatementProperties.CloserIsAnyKeyword | BLParser/src/Statement1Parse1.java:98-102 | `IF c THEN END kw` and `WHILE c DO END kw` parse for every keyword `kw`, including the one that does not match the opener. |
| StatementProperties.StatementRoundTrip | BLParser/src/Statement1Parse1.java:212-231 | The canonical tokens of a well-formed, printable, non-block statement parse back to it and are consumed exactly. |
| StatementProperties.CallRoundTrip | BLParser/src/Statement1Parse1.java:179-194 | The token of a call to an identifier parses back to that call. |
| StatementProperties.IfRoundTrip | BLParser/src/Statement1Parse1.java:61-103 | `IF c THEN blk END IF` parses back to the `If` it spells. |
| StatementProperties.IfElseRoundTrip | BLParser/src/Statement1Parse1.java:85-94 | `IF c THEN blk ELSE blk END IF` parses back to the `IfElse` it spells. |
| StatementProperties.WhileRoundTrip | BLParser/src/Statement1Parse1.java:126-161 | `WHILE c DO blk END WHILE` parses back to the `While` it spells. |
| StatementProperties.BranchRoundTrip | BLParser/src/Statement1Parse1.java:83-90 | A branch or body followed by `ELSE` or `END` parses back to that block. |
| StatementProperties.BlockRoundTrip | BLParser/src/Statement1Parse1.java:241-247 | The canonical tokens of a run of well-formed statements parse back one statement after another. The run ends right after its tokens. |
| StatementProperties.BlockStatementRoundTrip | BLParser/src/Statement1Parse1.java:234-251 | The tokens of a well-formed block, followed by a token outside the FIRST set, parse back to that block. |
| ProgramParser.ParseInstruction | BLParser/src/Program1Parse1.java:55-89 | Succeeds exactly on `INSTRUCTION id IS blk END id` with both names identifiers and equal. Yields the instruction named `id` with the parsed body, and the cursor after the closing name. |
| ProgramParser.ParseInstructions | BLParser/src/Program1Parse1.java:138-153 | The loop stops on a token other than `INSTRUCTION`. It only appends well-formed instructions and keeps names distinct. A name already in the table fails with `Duplicate` of that name. |
| ProgramParser.ParseProgram | BLParser/src/Program1Parse1.java:115-186 | A missing `PROGRAM` or `IS` is fatal. An accepted program starts `PROGRAM name IS` and ends with `END name` followed by the sentinel. Its context has distinct names and well-formed instructions, and its body is a well-formed block. |
| ProgramParser.ParseMain | BLParser/src/Program1Parse1.java:155-180 | The main part succeeds exactly on `BEGIN`, a block, `END`, the program name and the sentinel. It yields the program with that block as body. |
| ProgramParser.ParseInto | BLParser/src/Program1Parse1.java:182-185 | The install keeps the program invariant: a target with a well-formed context of distinct names and a well-formed body still has one afterwards. A failed parse leaves the target unchanged. A successful one installs together the name read after `PROGRAM`, the table built by the instruction loop, and the main block. |
| ProgramProperties.ProgramShape | BLParser/src/Program1Parse1.java:115-186 | An accepted program is exactly the header, the instruction loop, `BEGIN`, the main block, `END`, the program name and the sentinel. The result is built from those parts. |
| ProgramProperties.ProgramErrors | BLParser/src/Program1Parse1.java:155-180 | Each failure after the instruction loop gives its own error: a missing `BEGIN`, a missing `END`, a closing name that differs from the program's, or anything but the sentinel after it. |
| ProgramProperties.SentinelSoleLeftover | BLParser/src/Program1Parse1.java:176-180 | If the sentinel occurs only as the last token, an accepted program leaves exactly the sentinel unconsumed. |
| ProgramProperties.DistinctNamesCount | BLParser/src/Program1Parse1.java:143-150 | A table with distinct names has as many names as entries. |
| ProgramProperties.AppendDistinct | BLParser/src/Program1Parse1.java:143-150 | Adding a name not yet defined keeps the names distinct. |
| ProgramProperties.InstructionsIsRun | BLParser/src/Program1Parse1.java:138-153 | For any tokens, an accepted instruction loop adds exactly the instructions read one after the other from its start, in order. It ends at the loop's final cursor, and no instruction redefines a name defined before it. |
| ProgramProperties.FreshRunFillsInstructions | BLParser/src/Program1Parse1.java:139-151 | Conversely, for any tokens and definitions read one after the other: the loop collects them if no name repeats and the run ends before a token other than `INSTRUCTION`. Otherwise it fails with `Duplicate` of the first repeated name. |
| ProgramProperties.RunDecidesInstructions | BLParser/src/Program1Parse1.java:143-150 | For any tokens, over definitions read one after the other, the loop succeeds with them exactly when all names are distinct. If any name is defined twice, wherever the two definitions are, it fails with `Duplicate` of a name defined twice. |
| ProgramProperties.ProgramInstructions | BLParser/src/Program1Parse1.java:137-153 | The table of an accepted program is exactly the instruction definitions read one after the other from the token after `IS` up to `BEGIN`. Their names are distinct, so the table has one key per definition. |
| ProgramProperties.ContextIsRun | BLParser/src/Program1Parse1.java:139-141 | The canonical tokens of a sequence of instructions are definitions that parse back one after the other, ending right after those tokens. |
| ProgramProperties.FreshDistinct | BLParser/src/Program1Parse1.java:143-150 | Defining instructions one by one never repeats a name exactly when the whole table has distinct names. Otherwise the first repeated name is defined twice. |
| ProgramProperties.DuplicateAhead | BLParser/src/Program1Parse1.java:143-148 | A name already defined before a new instruction is defined twice in the table. |
| ProgramProperties.InstructionRoundTrip | BLParser/src/Program1Parse1.java:55-89 | The canonical tokens of a well-formed instruction parse back to it. |
| ProgramProperties.CallableNamesDefinable | BLParser/src/Program1Parse1.java:62-88 | A name that a block calls (`n END` parses to a block holding `Call(n)`) is exactly a name that `INSTRUCTION n IS END n` defines. No primitive instruction name is rejected, contrary to the documented contract. |
| ProgramProperties.InstructionsParse | BLParser/src/Program1Parse1.java:138-153 | On the canonical tokens of instructions, the loop collects them in order if no name repeats. Otherwise it fails with `Duplicate` of the first repeated name. |
| ProgramProperties.InstructionsRoundTrip | BLParser/src/Program1Parse1.java:138-153 | On the canonical tokens of instructions, the loop returns them in order exactly when all names are distinct. Otherwise it fails on a name defined twice. |
| ProgramProperties.ProgramRoundTrip | BLParser/src/Program1Parse1.java:115-186 | The canonical tokens of a program with distinct instruction names, followed by the sentinel, parse back to it, leaving only the sentinel. If any name is defined twice, the parse fails with `Duplicate`, wherever the two definitions are. |
| ProgramProperties.ParseLaidOutProgram | BLParser/src/Program1Parse1.java:115-186 | The same round trip, stated for tokens whose parts lie at their canonical places. |
| ProgramProperties.ParseDistinctProgram | BLParser/src/Program1Parse1.java:120-186 | After a successful instruction loop, the canonical main part completes the parse with the original program. |
| ProgramProperties.MainRoundTrip | BLParser/src/Program1Parse1.java:160-180 | `BEGIN`, a canonical main block, `END`, the name and the sentinel complete the program. |
| Scenarios.EmptyProgram | BLParser/src/Program1Parse1.java:115-186 | `PROGRAM p IS BEGIN END p` parses to `p` with no instructions and an empty body. |
| Scenarios.OneInstruction | BLParser/src/Program1Parse1.java:115-186 | A program with one instruction `foo` calling `x`, whose body calls `foo`, parses to exactly that program. |
| Scenarios.DuplicateInstruction | BLParser/src/Program1Parse1.java:143-148 | Two definitions of `foo` make the parse fail with `Duplicate("foo")`. |
| Scenarios.MismatchedName | BLParser/src/Program1Parse1.java:169-174 | `PROGRAM p IS BEGIN END q` fails with a name mismatch between `p` and `q`. |
| Scenarios.SimpleIf | BLParser/src/Statement1Parse1.java:61-103 | `IF next-is-empty THEN a END IF` parses to `If(NEXT_IS_EMPTY, Block([Call(a)]))` and consumes all six tokens. |

## Left out

- `main` of both classes and `parse(SimpleReader)`: console and file I/O plus tokenisation.
- The tokenizer: `Tokenizer.tokens` and the bodies of `isIdentifier`, `isKeyword` and `isCondition` are not part of this model. The classifier is a parameter, and `Valid` states what the proofs assume of it. `Scenarios.Sample` is one classifier that satisfies it.
- `Condition.valueOf`: the enum's vocabulary is not part of this model. A condition is its enumerant name. The mapping from a token is the normalisation `-` to `_` and upper case, and any token the classifier accepts is assumed to name an enumerant.
- Statements.Normalize: upper-cases ASCII letters only, which is what the no-argument `toUpperCase` does under a default locale such as English or ROOT. The model assumes such a locale. Under a Turkish or Azerbaijani default locale, the letter `i` upper-cases to a dotted capital I (U+0130). Then `next-is-empty` becomes a name that is no enumerant, and `valueOf` throws. Java's `toUpperCase` also maps letters outside ASCII, which condition tokens do not contain.
- Statements.NormalizeSpell: holds only under that assumption. Under a Turkic default locale, normalising the spelling of an enumerant name containing `I` does not give the name back. The same holds for `StatementParser.ParseCondition`'s second ensures and `StatementParser.ConditionOfSpelling`.
- The component kernel types (`Queue`, `Map`, `Statement1`, `Program1`) are replaced by values. The context is a sequence of instructions in definition order, so that order is kept.
- Error message text and process termination: only success versus failure, and the kind of failure, is modelled.
- Java `assert` preconditions that every caller meets (the front token is `IF`, `WHILE` or `INSTRUCTION`) are `requires`. The assert in `parseCall` is not met by `parse` for a keyword front token, so it is modelled by the fatal identifier check that follows it.
- Pretty-printing: the canonical tokens of a statement or program stand in for printed source.
