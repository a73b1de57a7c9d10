# Make output block reconstruction and pattern rule list

A Dafny model of two parts of the make/CMake build runner's output interpreter.

**MakeParserManager** reads make's output one line at a time. It rebuilds make's
nesting of directories as blocks in the build log. Its state is:

- a stack of open targets (`Target`: directory, description, level);
- a queue of "Making X in Y" lines waiting for their directory to be entered;
- a forward-only iterator over the main make tasks, created on first use;
- the working directory.

Each line is first checked against three markers, in this order: "Making X in Y" (queued),
"Entering directory" (may open the main task's block and/or a block of its own, then
logs the queued lines), and "Leaving directory" (may close one block).
`finishAllTargets` closes whatever is still open. The logger calls are
`blockStart`, `blockFinish` and `message`. The model records them, in order, as
a sequence of `Event`s.

**RegexParser** is a named, ordered list of patterns. `processLine` offers a line to
each pattern in turn and stops at the first one that accepts it. A pattern that throws is
reported to the manager's `parsingError`, and then the next pattern is tried.

Files:

- `wrappers.dfy`: `Option`, which also stands for a Java reference that may be null.
- `events.dfy`: logger events. `OpenBlocks` replays a log as a stack of open blocks.
- `paths.dfy`: the path library, kept abstract (see Left out).
- `make_parser_spec.dfy`: every MakeParserManager operation as a pure transition on a
  `State` value, and the lemmas about those transitions.
- `make_parser_manager.dfy`: the class `MakeParserManager`. Its methods update its
  fields as the Java methods do, with the same loops. The postcondition of each method that parses, enters,
  leaves, drains or finishes equates the new state (and result) with the transition of the
  same name in `make_parser_spec.dfy` (with `Drain` for `DrainPending`). The iterator methods
  are tied to `InitCursor` and `NextMainTarget`. The two setters state the new state as
  the old one with one field replaced. Every method that changes the stack or the log
  requires and keeps `Valid()`: replaying the log gives exactly the descriptions on the
  target stack.
- `regex_parser.dfy`: the class `RegexParser` and the functions that specify it.

Behaviour of the code that the model follows, and that is easy to misread:

- An enter or leave line without a `[n]` level is handled at level 0, not at the parent's
  level + 1. The "-1 means top level + 1" rule is only reached by calling
  `directoryStart` directly.
- An enter whose relative path is `""` outside the working directory does not drain the queue.
- When `FileUtil.getRelativePath` returns null and no line is queued, a target whose
  description is null is opened. This is why descriptions are `Option<string>`.

## Model

The one-line queries on the stack and paths (`PrevTargetDirectory`, `IsLastTargetDirectory`,
`IsLastTargetLevel`, `IsWorkingDirectory`, `RelativePath`) and the getters of `RegexParser`
are modelled by their bodies and have no rows of their own. Their meaning is proved where
they are used:

- the tests of MakeParserManager.java:54-64 through `ClosesTarget`, in `DirectoryFinish` and
  `LeaveClosesAtMostOne`;
- the relative path and previous directory of MakeParserManager.java:103-108 and 202-204
  through `OpensTarget` and `EnteredTarget`, in `EnterOpensOneTarget` and `EnterWithoutNewTarget`;
- the getters through the contracts of the constructors, `SetId`, `SetName` and `AddPattern`.

| member | source | states |
|---|---|---|
| Events.Messages | cmake-runner-agent/src/jetbrains/buildServer/cmakerunner/agent/output/MakeParserManager.java:76-79 | draining logs one message per queued line, in queue order |
| Events.OpenBlocksIgnoreMessages | cmake-runner-agent/src/jetbrains/buildServer/cmakerunner/agent/output/MakeParserManager.java:76-79 | message calls never open or close a block |
| Events.OpenBlocksBalance | cmake-runner-agent/src/jetbrains/buildServer/cmakerunner/agent/output/MakeParserManager.java:141-148 | in a well-bracketed log, open blocks = starts - finishes |
| MakeParserSpec.NextMainTarget | cmake-runner-agent/src/jetbrains/buildServer/cmakerunner/agent/output/MakeParserManager.java:206-209 | the next task name is the head of the remaining list, and it moves to the consumed prefix; None when the list is null or exhausted, and the cursor is then the initialised one (created from a non-null list even when it is empty) |
| MakeParserSpec.NextNamesFollowList | cmake-runner-agent/src/jetbrains/buildServer/cmakerunner/agent/output/MakeParserManager.java:131-136 | successive top-level starts get the task names in list order, then "unknown" for ever |
| MakeParserSpec.NextNamesWithoutList | cmake-runner-agent/src/jetbrains/buildServer/cmakerunner/agent/output/MakeParserManager.java:133-133 | with a null task list every request yields no name |
| MakeParserSpec.PrevTargetLevel | cmake-runner-agent/src/jetbrains/buildServer/cmakerunner/agent/output/MakeParserManager.java:121-123 | the level of the innermost open target, -1 when none is open; when all levels are natural, -1 means exactly that no target is open |
| MakeParserSpec.MainTaskLabelShape | cmake-runner-agent/src/jetbrains/buildServer/cmakerunner/agent/output/MakeParserManager.java:70-71 | the main target's label is "Making ", the next task name (or "unknown target"), then " in ." |
| MakeParserSpec.DirectoryStart | cmake-runner-agent/src/jetbrains/buildServer/cmakerunner/agent/output/MakeParserManager.java:66-101 | entering never pops, pushes at most two targets (main and own) and keeps the old ones below; the log is only appended to; the queue is kept or emptied; the cursor moves only when the main target is opened; working directory and task list untouched |
| MakeParserSpec.CheckMainTaskFinished | cmake-runner-agent/src/jetbrains/buildServer/cmakerunner/agent/output/MakeParserManager.java:125-129 | either nothing changes, or at level <= 1 the innermost target, in the working directory, is popped and its finish logged |
| MakeParserSpec.DirectoryFinish | cmake-runner-agent/src/jetbrains/buildServer/cmakerunner/agent/output/MakeParserManager.java:110-129 | a leave pops the innermost target exactly when ClosesTarget holds (same directory and same level, or the main target left at level <= 1 in the working directory); otherwise nothing changes |
| MakeParserSpec.LeaveClosesAtMostOne | cmake-runner-agent/src/jetbrains/buildServer/cmakerunner/agent/output/MakeParserManager.java:110-129 | a leave changes the state iff ClosesTarget; then it pops exactly one target and logs its finish; the queue and the cursor are untouched |
| MakeParserSpec.MakingInIsQueued | cmake-runner-agent/src/jetbrains/buildServer/cmakerunner/agent/output/MakeParserManager.java:165-171 | a "Making X in Y" line is appended to the queue and consumed; nothing is logged, and the enter/leave checks are not tried |
| MakeParserSpec.EnterWithEmptyStack | cmake-runner-agent/src/jetbrains/buildServer/cmakerunner/agent/output/MakeParserManager.java:66-82 | with no target open, an enter pushes the working directory's target at level 0, labelled "Making <next task> in ." (or "unknown target"), and logs its start first; if the working directory itself is entered, the queue is then logged and emptied, and nothing else is pushed |
| MakeParserSpec.EnterOpensOneTarget | cmake-runner-agent/src/jetbrains/buildServer/cmakerunner/agent/output/MakeParserManager.java:66-94 | an enter into a directory other than the working directory, with a non-empty relative path, first opens the main target when no target is open, then pushes one target on top. Its label is the queue head, or the relative path from the previous target's directory when the queue is empty. Its level is the given one, or previous + 1 for -1 (so 1 right after the main target). Its start is logged before the queued lines, the queue ends empty, and the cursor is the one left by opening the main target |
| MakeParserSpec.EnterWithoutNewTarget | cmake-runner-agent/src/jetbrains/buildServer/cmakerunner/agent/output/MakeParserManager.java:66-100 | once the main target is open (opened first when no target was), entering the working directory logs and empties the queue and changes nothing else; an empty relative path from the previous target elsewhere changes nothing more, and the queue stays undrained |
| MakeParserSpec.MarkerLinesAreEchoed | cmake-runner-agent/src/jetbrains/buildServer/cmakerunner/agent/output/MakeParserManager.java:173-198 | an enter line is logged after the enter's events, a leave line before the leave's; an absent level is 0; other lines go to the inherited parser with the state unchanged |
| MakeParserSpec.EnterThenLeaveRestoresStack | cmake-runner-agent/src/jetbrains/buildServer/cmakerunner/agent/output/MakeParserManager.java:83-119 | an enter that opens a target, followed by the leave of the same directory and level, restores the stack. The log gets start, queued lines, both lines, then finish |
| MakeParserSpec.DirectoryStartKeepsBracketed | cmake-runner-agent/src/jetbrains/buildServer/cmakerunner/agent/output/MakeParserManager.java:66-101 | entering keeps every open target matched by one logged start |
| MakeParserSpec.DirectoryFinishKeepsBracketed | cmake-runner-agent/src/jetbrains/buildServer/cmakerunner/agent/output/MakeParserManager.java:110-129 | leaving logs a finish exactly for the innermost target it pops |
| MakeParserSpec.SpecialParseKeepsBracketed | cmake-runner-agent/src/jetbrains/buildServer/cmakerunner/agent/output/MakeParserManager.java:164-199 | handling any line keeps the log bracketed with the stack |
| MakeParserSpec.BracketedBalance | cmake-runner-agent/src/jetbrains/buildServer/cmakerunner/agent/output/MakeParserManager.java:66-148 | number of starts - number of finishes = stack depth |
| MakeParserSpec.ClosingEventsAreLifo | cmake-runner-agent/src/jetbrains/buildServer/cmakerunner/agent/output/MakeParserManager.java:141-148 | the i-th finish closes the i-th target from the top |
| MakeParserSpec.ClosingEventsCloseAll | cmake-runner-agent/src/jetbrains/buildServer/cmakerunner/agent/output/MakeParserManager.java:141-148 | closing every target in turn leaves no block open |
| MakeParserSpec.FinishAllTargets | cmake-runner-agent/src/jetbrains/buildServer/cmakerunner/agent/output/MakeParserManager.java:141-148 | the stack becomes empty, exactly one event per open target is appended to the log, and no other field changes |
| MakeParserSpec.SpecialParse | cmake-runner-agent/src/jetbrains/buildServer/cmakerunner/agent/output/MakeParserManager.java:164-199 | a line that is not consumed changes nothing; a consumed one moves the stack depth by at most one pop or two pushes; the log is only appended to; working directory and task list untouched |
| MakeParserSpec.FinishAllTargetsClosesEverything | cmake-runner-agent/src/jetbrains/buildServer/cmakerunner/agent/output/MakeParserManager.java:141-148 | finishAllTargets logs one finish per open target, innermost first, and leaves the stack empty with starts = finishes. Lines still queued stay queued, unlogged. It does nothing on an empty stack, and a second call does nothing |
| MakeParser.MakeParserManager.constructor | cmake-runner-agent/src/jetbrains/buildServer/cmakerunner/agent/output/MakeParserManager.java:44-48 | starts with no targets, an empty queue, no iterator and an empty log |
| MakeParser.MakeParserManager.SetWorkingDirectory | cmake-runner-agent/src/jetbrains/buildServer/cmakerunner/agent/output/MakeParserManager.java:211-213 | only the working directory changes |
| MakeParser.MakeParserManager.SetMainTasks | cmake-runner-agent/src/jetbrains/buildServer/cmakerunner/agent/output/MakeParserManager.java:40-40 | the shared task list is replaced; the iterator, once created, keeps the old list |
| MakeParser.MakeParserManager.InitMainTasksIterator | cmake-runner-agent/src/jetbrains/buildServer/cmakerunner/agent/output/MakeParserManager.java:131-136 | the iterator is created once, from the list if it is not null; the result says whether there is one |
| MakeParser.MakeParserManager.GetNextMainTarget | cmake-runner-agent/src/jetbrains/buildServer/cmakerunner/agent/output/MakeParserManager.java:206-209 | as NextMainTarget |
| MakeParser.MakeParserManager.DrainPending | cmake-runner-agent/src/jetbrains/buildServer/cmakerunner/agent/output/MakeParserManager.java:91-94 | the loop logs the queued lines in order, then clears the queue (the state becomes Drain of the old one); Valid is kept |
| MakeParser.MakeParserManager.DirectoryStart | cmake-runner-agent/src/jetbrains/buildServer/cmakerunner/agent/output/MakeParserManager.java:66-101 | the fields change as MakeParserSpec.DirectoryStart; Valid is kept |
| MakeParser.MakeParserManager.CheckMainTaskFinished | cmake-runner-agent/src/jetbrains/buildServer/cmakerunner/agent/output/MakeParserManager.java:125-129 | the fields change as MakeParserSpec.CheckMainTaskFinished: the main target is popped only at level <= 1 in the working directory; Valid is kept |
| MakeParser.MakeParserManager.DirectoryFinish | cmake-runner-agent/src/jetbrains/buildServer/cmakerunner/agent/output/MakeParserManager.java:110-119 | the fields change as MakeParserSpec.DirectoryFinish; Valid is kept |
| MakeParser.MakeParserManager.FinishAllTargets | cmake-runner-agent/src/jetbrains/buildServer/cmakerunner/agent/output/MakeParserManager.java:141-148 | the pop loop ends in MakeParserSpec.FinishAllTargets of the old state (stack empty, closing finishes logged); Valid is kept |
| MakeParser.MakeParserManager.SpecialParse | cmake-runner-agent/src/jetbrains/buildServer/cmakerunner/agent/output/MakeParserManager.java:164-199 | result and new fields as MakeParserSpec.SpecialParse; Valid is kept |
| RegexParsing.FirstAccepting | make-runner-agent/src/jetbrains/buildServer/makerunner/agent/output/RegexParser.java:135-140 | the first pattern that accepts, or the list length if none does; no earlier pattern accepts |
| RegexParsing.ErrorReport | make-runner-agent/src/jetbrains/buildServer/makerunner/agent/output/RegexParser.java:142-142 | "Error parsing line [", the line, then "]" |
| RegexParsing.LaterPatternsNotConsulted | make-runner-agent/src/jetbrains/buildServer/makerunner/agent/output/RegexParser.java:136-140 | appending patterns after the first accepting one changes neither which pattern accepts nor the number of failures reported before it |
| RegexParsing.IndexOf | make-runner-agent/src/jetbrains/buildServer/makerunner/agent/output/RegexParser.java:87-89 | the position of the first equal element (no earlier one is equal), or the length when there is none |
| RegexParsing.RemoveFirst | make-runner-agent/src/jetbrains/buildServer/makerunner/agent/output/RegexParser.java:87-89 | an absent element leaves the list as it is; a present one shortens it by one (which copy, and the order, in RemoveFirstDropsOneCopy) |
| RegexParsing.RemoveFirstDropsOneCopy | make-runner-agent/src/jetbrains/buildServer/makerunner/agent/output/RegexParser.java:87-89 | remove deletes only the first equal element, keeps the others in order, and removes one copy from the multiset; it changes nothing when the element is absent |
| RegexParsing.RemoveUndoesAdd | make-runner-agent/src/jetbrains/buildServer/makerunner/agent/output/RegexParser.java:78-89 | removing a pattern just added (and absent before) restores the list |
| RegexParsing.RegexParser.Default | make-runner-agent/src/jetbrains/buildServer/makerunner/agent/output/RegexParser.java:49-52 | id and name are the class's canonical and simple names; no patterns |
| RegexParsing.RegexParser.constructor | make-runner-agent/src/jetbrains/buildServer/makerunner/agent/output/RegexParser.java:60-63 | the getters return the given id and name; no patterns |
| RegexParsing.RegexParser.SetId | make-runner-agent/src/jetbrains/buildServer/makerunner/agent/output/RegexParser.java:65-67 | getId returns the new id; name and patterns unchanged |
| RegexParsing.RegexParser.SetName | make-runner-agent/src/jetbrains/buildServer/makerunner/agent/output/RegexParser.java:69-71 | getName returns the new name; id and patterns unchanged |
| RegexParsing.RegexParser.AddPattern | make-runner-agent/src/jetbrains/buildServer/makerunner/agent/output/RegexParser.java:78-80 | appends at the end; the existing patterns and their order are unchanged |
| RegexParsing.RegexParser.RemovePattern | make-runner-agent/src/jetbrains/buildServer/makerunner/agent/output/RegexParser.java:87-89 | the list becomes RemoveFirst of the old list |
| RegexParsing.RegexParser.ClearPatterns | make-runner-agent/src/jetbrains/buildServer/makerunner/agent/output/RegexParser.java:94-96 | the list is empty (ProcessLine then returns false) |
| RegexParsing.RegexParser.ToString | make-runner-agent/src/jetbrains/buildServer/makerunner/agent/output/RegexParser.java:101-104 | "id=" followed by the id, ", name=", then the name |
| RegexParsing.RegexParser.ProcessLine | make-runner-agent/src/jetbrains/buildServer/makerunner/agent/output/RegexParser.java:135-146 | true exactly when some pattern accepts. The patterns are tried in order up to the first that accepts. Each one that throws before it gives exactly one "Error parsing line [<line>]". An empty list gives false |

## Left out

- Regular-expression matching of the three markers, and inside each pattern. The markers are functions passed in (`Recognizers`). A pattern's behaviour is a function passed to ProcessLine that returns Accepted, Declined or Failed (threw).
- PathUtil.toUnixStylePath, java.io.File equality and FileUtil.getRelativePath: library path semantics, passed in as `PathOps`. Only the round-trip lemma assumes File equality is reflexive.
- ParserManager.specialParse and the Logger implementation are not part of this model. The inherited parser's answer is passed through (`inherited`), and its own effects are not modelled. The logger is the recorded event sequence.
- RegexPattern.processLine's own calls on the manager are not modelled. Only the parsingError reports made by RegexParser are returned, as `errors`.
- XStream persistence (serialize, deserialize, PatternConverter, createXStreamHolder): foreign-library I/O.
- The AtomicReference wrappers are plain fields: nothing here is concurrent.
- Integer.parseInt overflow on huge level numbers: levels are unbounded naturals.
- MakeParser.MakeParserManager.constructor: the Java constructor leaves the working directory null until setWorkingDirectory. The model's constructor takes it, so the NullPointerException from a marker fed before that call is not modelled. The Logger argument is the empty event log.
- MakeParser.MakeParserManager.SetMainTasks: later in-place changes to the shared list after the iterator was created (ConcurrentModificationException) are not modelled.
- RegexParsing.RegexParser.Default: names derived from a subclass's runtime class are not modelled; the names are those of RegexParser itself.
- RegexParsing.RegexParser.GetPatterns returns the list as a value; callers changing the live Java list through it (aliasing) is not modelled.
- Null id and name strings (printed as "null" by toString) are not modelled.
- Null elements in the main task list are not modelled: a task name is a `string`, so the "Making unknown target in ." label that a null name gets is reached only when the list is null or exhausted.
- MakeRunnerBean.java only returns configuration keys. It has no logic, so it is not part of this model.
