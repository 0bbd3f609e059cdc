# A verified model of the soft-PLC runtime

This project models the PLC runtime crate (`runtime/src`) and the gateway's tag mirror (`gateway/src`), and proves
properties of the model. `dafny verify dfyconfig.toml` checks everything.

| module | what it models |
|---|---|
| `Machine` | saturating and wrapping casts, the truncated remainder |
| `Tags`, `Plc` | typed values, forceable tags, the database; the state logic acts on, footprints, frames |
| `Timers`, `TimerCalls` | TON and TOF updates, their closed forms over call histories, their duality; timers as programs call them |
| `StTokens`, `StLexer`, `StLexing`, `StRendering` | the tokenizer; spellings and gaps; the texts it accepts are exactly the renderings of token lists |
| `StAst`, `StParser`, `StGrammar`, `StAdequacy` | the recursive-descent parser; a declarative grammar; the parser accepts exactly its sentences |
| `StPrinter`, `StLeaves`, `StSource` | printing with the fewest parentheses; conservation of identifiers and literals; source text adequacy and round trips |
| `StInterpreter`, `StBigStep`, `StLimits` | guarded execution; an unguarded relational semantics, errors and panics included; its relation to the interpreter, and where the limits bite |
| `StForLoop`, `StWork`, `StInvariants`, `TwoRuns` | the closed form of FOR; a bound on work; an invariant and frame principle; what a run depends on |
| `Ladder`, `LadderNetworks`, `LadderPower` | the rung machine with its branch stack; the series-parallel networks it encodes; power flow |
| `ScanEngine`, `Diagnostics`, `Runtime`, `RunStatistics` | the scan cycle, scan-time statistics, the controller and its events, the statistics of whole runs |
| `JsonValues`, `Project` | decoded JSON values; how project definitions become tags and programs |
| `NonInterference`, `Commutation`, `Typing`, `MotorCircuit` | whole-run theorems over ladder and Structured Text programs together |
| `Mirror` | snapshots, deltas and local writes of the gateway's tag mirror |

Each imperative part of the source -- parser, tokenizer, interpreter, rung execution, timers, tag database, scan
engine, diagnostics, runtime, mirror -- is a class or a method with the source's loops and fields, proved to compute a
function; the theorems are about those functions.

A Rust panic inside a program (MOD by a divisor that truncates to zero, the remainder of the smallest 64-bit integer
by -1, 64-bit overflow of a FOR counter) is an outcome of its own: it ends the scan, while any other error only ends
the program that met it. The overflow panics only in builds that check for it and wraps around in the others;
`Machine.OVERFLOW_CHECKS` is left open, so every result holds for both kinds of build.

## Where the code and its comments differ

The model follows the code.

- `runtime/src/scan_engine.rs:8` speaks of task order; programs run in list order and tasks are never consulted.
- `runtime/src/st/interpreter.rs:152` mentions `TON_1.Q`; only a tag named `TON_1_Q` receives the output.
- `runtime/src/st/interpreter.rs:84` and 121 guard against "infinite" loops; a WHILE or FOR that would end by itself
  after exactly 10000 iterations is an error too (`StLimits.CountingWhileLimit`, `StLimits.EmptyForLimit`).
- `gateway/src/mirror.rs:41` says no local logic mutates the mirror; OPC UA writes do, through `set_local`.
- `gateway/src/sync.rs:96` promises a sensible default for unknown types; the declared type falls back to boolean but
  the value to a string, so such a tag is mistyped until its first update (`Mirror.MirrorTypedIff`).

## Model

| member | source | states |
|---|---|---|
| `Machine.TruncatedRemainderSpec` | runtime/src/st/interpreter.rs:210 | the remainder used by MOD leaves a multiple of the divisor, is smaller than it, and takes the sign of the dividend |
| `Machine.LowI32` | runtime/src/st/interpreter.rs:114-124 | narrowing keeps the low 32 bits: congruent modulo 2^32, and the identity where it fits |
| `Machine.AddI64` | runtime/src/st/interpreter.rs:127 | 64-bit addition is exact where the sum fits and panics exactly where it does not and the build checks |
| `Tags.DefaultFor` | runtime/src/tag.rs:67-80 | the default of a type has that type and reads as false and zero |
| `Tags.ForceMasksWrites` | runtime/src/tag.rs:163-183 | a write under a force is invisible, the last write shows once the force is removed, other tags are untouched |
| `Tags.TagDatabase.AddTag` | runtime/src/tag.rs:206-208 | inserts or replaces under the tag's own name |
| `Tags.TagDatabase.SetTagValue` | runtime/src/st/interpreter.rs:44-53 | writes the value of an existing tag and keeps every force |
| `Tags.TagDatabase.WriteBool` | runtime/src/tag.rs:237-241 | writes a boolean to an existing tag, ignores unknown names |
| `Tags.TagDatabase.WriteF64` | runtime/src/tag.rs:244-248 | writes a float to an existing tag, ignores unknown names |
| `Tags.TagDatabase.ForceBool` | runtime/src/tag.rs:251-255 | the tag then reads as the force; no stored value changes |
| `Tags.TagDatabase.Unforce` | runtime/src/tag.rs:258-262 | the tag then reads as its stored value |
| `Timers.TonTimer.Update` | runtime/src/timer.rs:46-65 | the field-by-field update is the state function, and timing is enable without done |
| `Timers.TonTimer.Reset` | runtime/src/timer.rs:68-73 | back to a new timer with the same preset |
| `Timers.TofTimer.Update` | runtime/src/timer.rs:98-119 | the field-by-field update is the state function; an enabled call turns the output on and clears the time |
| `Timers.TofTimer.Reset` | runtime/src/timer.rs:121-126 | back to a new timer with the same preset |
| `Timers.TonClosedForm` | runtime/src/timer.rs:46-65 | for any history with changing presets: done exactly if some call of the current enabled run had reached the preset then in force, in unbounded time; the accumulator and timing flag before that |
| `Timers.TonLatches` | runtime/src/timer.rs:47-57 | once done, it stays done until a call with the input off |
| `Timers.TonFixedPreset` | runtime/src/timer.rs:46-65 | with one preset only the total time of the enabled run matters |
| `Timers.TonRisesAt` | runtime/src/timer.rs:46-65 | enabled every dt, the output first rises at call ceil(preset/dt) |
| `Timers.TofDualToTon` | runtime/src/timer.rs:98-119 | a TOF and a TON fed the negated input hold opposite outputs, equal accumulators and timing from the first enabled call on; before it the TOF is untouched |
| `Timers.TofClosedForm` | runtime/src/timer.rs:98-119 | the TOF output is on exactly while enabled or while the time since the last enabled call is below the preset |
| `TimerCalls.CallsFollowClosedForm` | runtime/src/st/interpreter.rs:134-157 | after any calls of one function block, whatever happens to the tags in between, the `_Q` tag says whether the enabled run has expired |
| `TimerCalls.TicksFollowClosedForm` | runtime/src/instructions.rs:147-160 | whatever the scan times, a ladder timer keeps the preset of the instruction that created it; its done tag says whether the enable tag was on that long |
| `StInterpreter.Interpreter.ExecuteStatements` | runtime/src/st/interpreter.rs:30-35 | the loop with early exit reaches the state, error and amount of work of the execution function |
| `StInterpreter.Interpreter.ExecuteStatement` | runtime/src/st/interpreter.rs:37-160 | dispatch and the assignment coercions compute the execution function |
| `StInterpreter.Interpreter.ExecuteIf` | runtime/src/st/interpreter.rs:59-82 | the ELSIF loop with its handled flag runs the first true arm, or the ELSE |
| `StInterpreter.Interpreter.ExecuteWhile` | runtime/src/st/interpreter.rs:83-92 | the counted loop computes the guarded WHILE |
| `StInterpreter.Interpreter.ExecuteRepeat` | runtime/src/st/interpreter.rs:93-105 | the counted loop computes the guarded REPEAT |
| `StInterpreter.Interpreter.ExecuteFor` | runtime/src/st/interpreter.rs:106-118 | bounds are evaluated and truncated once, then the loop runs |
| `StInterpreter.Interpreter.IterateFor` | runtime/src/st/interpreter.rs:120-133 | the counted loop computes the guarded FOR, counter overflow included, whether it panics or wraps |
| `StInterpreter.Interpreter.ExecuteFbCall` | runtime/src/st/interpreter.rs:134-157 | last IN and PT win, the timer is created or reused, the `_Q` tag is written if present |
| `StBigStep.StepsSound` | runtime/src/st/interpreter.rs:30-160 | a run that no guard stops, however it ends, ends as the unguarded semantics says and within the limits |
| `StBigStep.StepComplete` | runtime/src/st/interpreter.rs:37-160 | every unguarded run, failing ones included, is reproduced with its state and error, or cut short by a guard; within the limits always reproduced |
| `StLimits.StepDeterministic` | runtime/src/st/interpreter.rs:37-160 | the unguarded semantics ends in at most one way |
| `StLimits.InterpreterMeetsSemantics` | runtime/src/st/interpreter.rs:30-160 | the interpreter ends in a state with an error or none, and no guard stopped it, if and only if the unguarded semantics ends so with every loop returning to its head at most 9999 times |
| `StLimits.WhileDeterministic` | runtime/src/st/interpreter.rs:83-92 | the number of iterations of a WHILE is determined, as is its end |
| `StLimits.GuardsOnlyStop` | runtime/src/st/interpreter.rs:84-132 | guards only ever stop a run: without a guard error, state and error are those of the unguarded run, division errors and panics included |
| `StLimits.GuardExactly` | runtime/src/st/interpreter.rs:84-132 | a run that would end by itself meets a guard if and only if it exceeds the limits |
| `StLimits.EmptyForLimit` | runtime/src/st/interpreter.rs:120-133 | FOR over 1 to n ends by itself for every n, succeeds up to 9999, and is a guard error from 10000 on |
| `StLimits.CountingWhileLimit` | runtime/src/st/interpreter.rs:83-92 | the same for a WHILE that counts to n |
| `StForLoop.CountSpec` | runtime/src/st/interpreter.rs:120-122 | the iteration count is the number of counter values in range |
| `StForLoop.ForClosedForm` | runtime/src/st/interpreter.rs:106-133 | exactly min(count, 10000) clean bodies run; success if and only if the count is at most 9999, otherwise the guard error |
| `StForLoop.IterationStartsAt` | runtime/src/st/interpreter.rs:122-127 | iteration i runs its body from counter start + i * step |
| `StForLoop.LoopVariableAt` | runtime/src/st/interpreter.rs:123-126 | iteration i finds the low 32 bits of start + i * step in the loop variable, or its force, whatever earlier bodies stored |
| `StWork.WorkBounded` | runtime/src/st/interpreter.rs:83-133 | statements and iterations started never exceed a syntactic bound: sums, maximum over arms, 10000 per loop; for every outcome |
| `StWork.BoundAttained` | runtime/src/st/interpreter.rs:83-92 | an endless WHILE attains the bound exactly |
| `StInvariants.RunKeeps` | runtime/src/st/interpreter.rs:30-160 | an invariant kept by every primitive effect of a text is kept by its runs |
| `StInvariants.RunFrame` | runtime/src/st/interpreter.rs:39-158 | a run changes at most the values of the tags it names as targets, `_Q` tags included, and the timers it calls; never a force, a type or the set of tags |
| `TwoRuns.StatementAgrees` | runtime/src/st/interpreter.rs:37-213 | outcome, error and work depend only on the named tags and timers, and not on values hidden by forces |
| `TwoRuns.CodeAgrees` | runtime/src/instructions.rs:105-161 | the same for instruction lists, branch stack included |
| `StParser.Parser.PeekToken` | runtime/src/st/parser.rs:18-20 | the next token, if any |
| `StParser.Parser.Advance` | runtime/src/st/parser.rs:22-30 | takes one token, or none at the end |
| `StParser.Parser.ExpectToken` | runtime/src/st/parser.rs:32-43 | takes exactly the wanted token or reports what was found and stays |
| `StParser.Parser.ParseOrExpr` | runtime/src/st/parser.rs:226-242 | the OR/XOR loop computes level 0 of the parse function and stands where it stops |
| `StParser.Parser.ParseAndExpr` | runtime/src/st/parser.rs:244-256 | the AND loop computes level 1 |
| `StParser.Parser.ParseRelationalExpr` | runtime/src/st/parser.rs:258-282 | at most one relational operator: level 2 |
| `StParser.Parser.ParseAdditiveExpr` | runtime/src/st/parser.rs:284-300 | the additive loop computes level 3 |
| `StParser.Parser.ParseMultiplicativeExpr` | runtime/src/st/parser.rs:302-319 | the multiplicative loop computes level 4 |
| `StParser.Parser.ParseUnaryExpr` | runtime/src/st/parser.rs:321-339 | prefix operators nest: level 5 |
| `StParser.Parser.ParsePrimaryExpr` | runtime/src/st/parser.rs:341-356 | operands and parentheses: level 6 |
| `StParser.Parser.ParseExpr` | runtime/src/st/parser.rs:222-224 | parses a whole expression and advances on success |
| `StParser.Parser.ParseBlock` | runtime/src/st/parser.rs:111-114 | the statement loop up to a stop token or the end |
| `StParser.Parser.ParseOneStatement` | runtime/src/st/parser.rs:53-63 | dispatch on the first token; always advances on success |
| `StParser.Parser.ParseAssignmentOrFbCall` | runtime/src/st/parser.rs:65-104 | assignment or function-block call by the second token |
| `StParser.Parser.ParseFbInputs` | runtime/src/st/parser.rs:80-97 | the parameter loop |
| `StParser.Parser.ParseFbInput` | runtime/src/st/parser.rs:82-96 | one parameter with its optional mark and comma |
| `StParser.Parser.ParseIfStatement` | runtime/src/st/parser.rs:106-147 | the IF production |
| `StParser.Parser.ParseElsifBranches` | runtime/src/st/parser.rs:116-126 | the ELSIF loop |
| `StParser.Parser.ParseElsePart` | runtime/src/st/parser.rs:128-136 | an absent ELSE differs from an empty one |
| `StParser.Parser.ParseWhileStatement` | runtime/src/st/parser.rs:149-163 | the WHILE production |
| `StParser.Parser.ParseRepeatStatement` | runtime/src/st/parser.rs:165-182 | the REPEAT production |
| `StParser.Parser.ParseForStatement` | runtime/src/st/parser.rs:184-219 | the FOR production with its optional BY |
| `StParser.Parser.ParseWholeProgram` | runtime/src/st/parser.rs:45-51 | statements to the end of the input; a success has read all of it |
| `StGrammar.LevelComplete` | runtime/src/st/parser.rs:222-357 | parsing a derived expression stops exactly at its end when no operator of its level or stronger follows |
| `StGrammar.ExpressionAdequate` | runtime/src/st/parser.rs:222-357 | an expression parses completely to e if and only if the grammar derives e |
| `StAdequacy.ParserAdequate` | runtime/src/st/parser.rs:45-357 | the parser returns a program if and only if the whole token list derives it, relaxed FB-call forms included |
| `StAdequacy.GrammarUnambiguous` | runtime/src/st/parser.rs:45-357 | no token list has two readings |
| `StPrinter.RoundTrip` | runtime/src/st/parser.rs:45-357 | every program, printed and parsed, comes back exactly |
| `StPrinter.ExpressionRoundTrip` | runtime/src/st/parser.rs:222-357 | an expression printed in front of any text that no operator begins is read back with that text left over |
| `StPrinter.PrintShortest` | runtime/src/st/parser.rs:222-357 | no token list deriving the expression is shorter than the printed one |
| `StPrinter.NothingShorterParses` | runtime/src/st/parser.rs:222-357 | the printed parentheses are all needed |
| `StLeaves.ParsingConservesLeaves` | runtime/src/st/parser.rs:45-357 | identifiers and literals of the result, left to right, are exactly those of the token list |
| `StLexer.Lexer.Advance` | runtime/src/st/lexer.rs:75-77 | moves to the next character |
| `StLexer.Lexer.PeekChar` | runtime/src/st/lexer.rs:79-81 | the character after the current one |
| `StLexer.Lexer.SkipBlockComment` | runtime/src/st/lexer.rs:96-103 | stops after the first closing mark, or at the end |
| `StLexer.Lexer.SkipWhitespaceAndComments` | runtime/src/st/lexer.rs:83-108 | skips all whitespace, line and block comments |
| `StLexer.Lexer.ScanNumber` | runtime/src/st/lexer.rs:212-226 | takes the longest number with at most one dot, and that only before a digit |
| `StLexer.Lexer.ReadNumber` | runtime/src/st/lexer.rs:228-234 | integers beyond 64 bits are errors, a dot makes a float |
| `StLexer.Lexer.ReadString` | runtime/src/st/lexer.rs:198-211 | text up to the same quote, or to the end |
| `StLexer.Lexer.ReadWord` | runtime/src/st/lexer.rs:236-274 | keywords in any case, identifiers as written |
| `StLexer.Lexer.ReadSymbol` | runtime/src/st/lexer.rs:122-197 | the longest symbol |
| `StLexer.Lexer.TokenizeAll` | runtime/src/st/lexer.rs:110-282 | the loop computes the tokenize function |
| `StLexer.NumberText` | runtime/src/st/lexer.rs:212-235 | a scanned float splits at its only dot into digits on both sides |
| `StLexing.SkipGaps` | runtime/src/st/lexer.rs:83-108 | any sequence of whitespace, line and block comments vanishes |
| `StLexing.SkipTail` | runtime/src/st/lexer.rs:83-108 | so does a comment that the end of the text cuts off |
| `StLexing.KeywordTable` | runtime/src/st/lexer.rs:247-272 | keyword texts and keyword tokens correspond one to one |
| `StLexing.AnyCaseSpells` | runtime/src/st/lexer.rs:247-272 | any mix of cases spells a keyword |
| `StLexing.SpellingReads` | runtime/src/st/lexer.rs:116-278 | a spelling followed by anything that does not run on reads as its token and nothing more |
| `StLexing.RenderedReads` | runtime/src/st/lexer.rs:83-282 | any well-spaced rendering reads back as its tokens: gaps, comments, keyword case, leading zeros, quotes and an unterminated last comment or string never matter |
| `StRendering.SkippedIsGaps` | runtime/src/st/lexer.rs:83-108 | whatever is skipped is a sequence of gaps, the last of them perhaps cut off |
| `StRendering.TokenWritten` | runtime/src/st/lexer.rs:116-278 | the characters a token takes spell it, and what follows does not run on |
| `StRendering.TokenizerAdequate` | runtime/src/st/lexer.rs:110-282 | the tokenizer returns a token list if and only if the text is a well-spaced rendering of it |
| `StLexing.DecimalRoundTrip` | runtime/src/st/lexer.rs:232 | decimal text and value are inverse |
| `StSource.ParseSource` | runtime/src/st/mod.rs:16-21 | running the two objects in turn computes the source-level parse |
| `StSource.PrintableIff` | runtime/src/st/lexer.rs:198-274 | exactly which tokens can be written down; for floats the finite decimal fractions that are not negative |
| `StSource.TokensRead` | runtime/src/st/lexer.rs:110-282 | every token the tokenizer returns can be written down |
| `StSource.SourceRoundTrip` | runtime/src/st/mod.rs:16-21 | any rendering of a printed program parses to that program |
| `StSource.SourceAdequate` | runtime/src/st/mod.rs:16-21 | a text parses to a program if and only if it is a well-spaced rendering of tokens that derive the program |
| `StSource.ProgramHasSource` | runtime/src/st/mod.rs:16-21 | a program has a source text if and only if its identifiers and literals can be spelled; reformatting a text that parses keeps its program |
| `Ladder.ExecuteRung` | runtime/src/instructions.rs:95-165 | the loop over instructions computes the stack-machine function |
| `Ladder.CodeFrame` | runtime/src/instructions.rs:105-161 | a rung changes at most the values of its coil and done tags, and its timers |
| `LadderNetworks.FlattenCorrect` | runtime/src/instructions.rs:95-165 | running the encoding of a network from any power, stack and state restores the stack and gives the network's power and state |
| `LadderNetworks.WellNestedIsNetwork` | runtime/src/instructions.rs:41-51 | an instruction list encodes a network if and only if its branch instructions match up |
| `LadderNetworks.NestedRungMeaning` | runtime/src/instructions.rs:95-165 | a well-nested rung ends with an empty stack and means its network |
| `LadderPower.PowerInvariantHolds` | runtime/src/instructions.rs:105-146 | for every list, ill-nested ones too: power implies the top frame's incoming power, each OR its own frame's, inner frames outer ones |
| `LadderPower.DarkRun` | runtime/src/instructions.rs:113-146 | inside a dead region nothing is set or reset, outputs write FALSE, timers tick |
| `LadderPower.LostPowerStaysLost` | runtime/src/instructions.rs:105-164 | power lost outside every group is never regained in that rung |
| `LadderPower.DeadGroup` | runtime/src/instructions.rs:126-146 | a group entered without power stays dead until it is closed |
| `Diagnostics.ScanDiagnostics.Update` | runtime/src/scan_engine.rs:56-71 | the field updates are the statistics function |
| `Diagnostics.ExtremaExact` | runtime/src/scan_engine.rs:56-61 | count, last, minimum, maximum and overrun are exact |
| `Diagnostics.AverageBetweenExtrema` | runtime/src/scan_engine.rs:64-70 | the average lies between the extrema |
| `Diagnostics.NoOverflow` | runtime/src/scan_engine.rs:67-69 | with 64-bit times and counts the 128-bit sum and the 64-bit cast lose nothing |
| `Diagnostics.AverageDrift` | runtime/src/scan_engine.rs:64-70 | after n scans the stored average is below the true mean by at most (n-1)/2 nanoseconds |
| `Diagnostics.DriftAttained` | runtime/src/scan_engine.rs:64-70 | that bound is attained for every n |
| `ScanEngine.Engine.ExecuteScan` | runtime/src/scan_engine.rs:102-123 | runs enabled programs in order until a panic, then updates the diagnostics unless there was one |
| `ScanEngine.Engine.ExecutePrograms` | runtime/src/scan_engine.rs:110-115 | the loop over programs computes the pass |
| `ScanEngine.Engine.ExecuteProgram` | runtime/src/scan_engine.rs:126-140 | Structured Text runs its statements, every other language its rungs |
| `ScanEngine.Engine.SetScanPeriod` | runtime/src/scan_engine.rs:148-151 | changes the period in both places and nothing else |
| `ScanEngine.Engine.Reset` | runtime/src/scan_engine.rs:154-157 | forgets timers and diagnostics, keeps the period |
| `ScanEngine.ProgramFrame` | runtime/src/scan_engine.rs:126-140 | a program of any language changes only its written tags' values and its timers |
| `Project.BuildTags` | runtime/src/project.rs:97-150 | the loop over definitions computes the tag table |
| `Project.TagsOfLast` | runtime/src/project.rs:97-150 | every defined tag exists; of definitions with one name the last counts |
| `Project.TagsOfDefined` | runtime/src/project.rs:97-150 | no other tag exists; every tag starts unforced with a value of its declared type |
| `Project.LoadedTextRuns` | runtime/src/project.rs:153-168 | a Structured Text program of a project file, however it is laid out, runs as the statements it was printed from |
| `Runtime.Runtime.LoadProject` | runtime/src/runtime.rs:58-64 | replaces tags, programs, timers, statistics and period by the project's, and stops |
| `Runtime.Runtime.StartUp` | runtime/src/runtime.rs:75-86 | resets the engine unless already running |
| `Runtime.Runtime.ShutDown` | runtime/src/runtime.rs:89-92 | stops, keeping tags and timers |
| `Runtime.Runtime.ExecuteScan` | runtime/src/runtime.rs:96-103 | scans exactly if running |
| `Runtime.Runtime.RunScans` | runtime/src/runtime.rs:107-112 | starts if necessary, then is the scan loop, statistics and unchanged scan period included; after a start the statistics are those of the scans that completed |
| `Runtime.ScanLoopIsRun` | runtime/src/runtime.rs:107-112 | the scan loop is the run of scan events up to and including the first that panics |
| `RunStatistics.StatisticsOfRun` | runtime/src/scan_engine.rs:56-71 | after any run -- starts, stops, writes, forces and changes of period between scans -- count, last, extrema, average and its drift bound hold of exactly the scans completed since the last start |
| `Runtime.Runtime.WriteBoolTag` | runtime/src/runtime.rs:125-127 | a client write is the write event |
| `Runtime.Runtime.WriteF64Tag` | runtime/src/runtime.rs:130-132 | a client write is the write event |
| `Runtime.Runtime.ForceTag` | runtime/src/runtime.rs:135-137 | a client force is the force event |
| `Runtime.Runtime.UnforceTag` | runtime/src/runtime.rs:140-142 | removing a force is the unforce event |
| `NonInterference.ProgramAgrees` | runtime/src/scan_engine.rs:126-140 | errors and effects of a program depend only on the tags and timers it names, not on hidden values |
| `NonInterference.ForceNonInterference` | runtime/src/tag.rs:163-186 | controllers differing only behind forces show equal effective values, forces, timers, statistics and errors through any run, changes of period included, that does not remove those forces |
| `NonInterference.UnforceReveals` | runtime/src/tag.rs:180-183 | removing such a force does show the difference |
| `NonInterference.PassKeepsForces` | runtime/src/scan_engine.rs:102-123 | a scan never changes a force, a type or the set of tags |
| `Commutation.ProgramsCommute` | runtime/src/scan_engine.rs:110-140 | programs with independent footprints reach the same state in either order and report the same errors, even when they fail partway |
| `Commutation.ScanOrderIrrelevant` | runtime/src/scan_engine.rs:110-115 | neighbouring independent programs that do not panic can trade places anywhere in a scan: same tags and timers, and the same errors are reported |
| `Typing.TypesPreserved` | runtime/src/st/interpreter.rs:39-158 | with well-typed programs and client events every stored and forced value keeps its declared type through any run |
| `Typing.LoadedRunTyped` | runtime/src/project.rs:97-150 | so from any loaded project with well-typed programs: loading establishes the types |
| `Typing.EvalTyped` | runtime/src/st/interpreter.rs:162-213 | evaluation yields the predicted variant |
| `Typing.AssignmentTypedIff` | runtime/src/st/interpreter.rs:39-58 | an executed assignment keeps types if and only if it is well typed |
| `MotorCircuit.ShippedTextParses` | runtime/src/st/interpreter.rs:237-243 | any layout of the shipped text parses to the modelled program |
| `MotorCircuit.ShippedStart` | runtime/src/scan_engine.rs:167-178 | the shipped tags start both circuits in lockstep with the motor off |
| `MotorCircuit.LadderScan` | runtime/src/scan_engine.rs:182-209 | one scan of the two rungs latches and outputs the seal-in function of the inputs |
| `MotorCircuit.TextScan` | runtime/src/st/interpreter.rs:237-252 | one scan of the text outputs the same function |
| `MotorCircuit.MotorsAgree` | runtime/src/scan_engine.rs:182-209 | after any button events and scans both circuits agree, and the motor runs if and only if some scan saw the start button and every scan since was permissive |
| `MotorCircuit.RunningIsSafe` | runtime/src/scan_engine.rs:262-309 | after every scan of every run, a running motor in either circuit means that the tags of both hold both permissives and no stop |
| `Mirror.WireRoundTrip` | gateway/src/sync.rs:98-138 | a value survives the wire at its own type if and only if it is not unsigned |
| `Mirror.CoercedType` | gateway/src/sync.rs:98-155 | a coerced value has the declared type if and only if the wire type is one of the seven |
| `Mirror.TagMirror.ApplySnapshot` | gateway/src/mirror.rs:56-70 | the loop rebuilds the mirror from the snapshot alone |
| `Mirror.TagMirror.ApplyDelta` | gateway/src/mirror.rs:77-86 | the loop updates known paths and ignores unknown ones |
| `Mirror.TagMirror.ApplyMessage` | gateway/src/mirror.rs:92-98 | snapshots and deltas are applied, other messages change nothing |
| `Mirror.TagMirror.SetLocal` | gateway/src/mirror.rs:120-124 | sets the value of a known path |
| `Mirror.TagMirror.WriteLocally` | gateway/src/opcua_server.rs:94-104 | a client's write is coerced to the declared type of a known path |
| `Mirror.MirrorHolds` | gateway/src/mirror.rs:56-124 | after any history: the paths are those of the latest snapshot, the last duplicate wins, the value is the coercion of the latest update |
| `Mirror.MirrorTypedIff` | gateway/src/mirror.rs:56-98 | a mirrored value has its declared type if and only if its wire type was known or the path was updated since |
| `Mirror.UnknownWireTypeMistyped` | gateway/src/sync.rs:98-155 | a snapshot with an unknown wire type stores a string under a boolean declaration |

## Left out

- Floating point is idealised: f64 and f32 are reals, so rounding, infinities, NaN and signed zero are not modelled.
- Character classes and upper-casing are ASCII; Unicode letters, digits and whitespace are not modelled.
- Error texts are constructors that carry the same information, not formatted strings; log output is the list of reported errors.
- A tag's path, quality, timestamp, access mode, units and other display fields never influence logic and are not modelled.
- Runtime.Runtime.LoadProject: display names are not kept, and the log line for a source that does not parse is not modelled.
- The runtime keeps its scan engine to itself; a change of scan period is an event because the engine allows it.
- Timers inside the shared table are values that calls replace; the timer objects stand alone beside them.
- StParser.Parser.ParseWholeProgram: where the parser stands after an error is not stated, since nothing reads it.
- StWork.WorkBounded: counts statements and iterations, not the size of the expressions they evaluate.
- Decoding project files from JSON text, task scheduling, the I/O image hooks and the I/O summary: third-party parsing, unused declarations and no-ops.
- JSON text rendering is a parameter of the mirror; the message codec, WebSocket sessions, the OPC UA address space and its node map are not modelled.
- Wall-clock measurement: the duration of each scan is an input.
- Plain queries (lengths, names, membership, read accessors of the runtime): easy members.
