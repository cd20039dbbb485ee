# GrammarProcessor, modelled in Dafny

This project models the orchestration core of Grammar-Kit's javac annotation
processor, `GrammarProcessor`. It runs inside the Java compiler and generates
parser sources from BNF grammar files. The model covers:

- `init` first calls `AbstractProcessor.init`, which throws
  `IllegalStateException` if the processor is already initialised. It then
  reads the `grammars` processor option. It splits the option on the platform
  path separator and puts the non-blank segments, unchanged, into a FIFO work
  queue. Last, it runs a self-check parse and reports a failure as one ERROR
  without throwing.
- `process` runs once per compiler round. It polls grammar files until the
  queue is empty, and each file is removed before it is attempted. The file is
  parsed. If it is not a grammar, one ERROR "Not a grammar file: " plus its
  canonical path is printed. If it is a grammar, the generator runs in the
  file's directory. Any `IOException` becomes one ERROR with the exception's
  text, and the loop goes on to the next file. The round returns `false`.
- The generator calls back into the processor. `openOutputInner` asks the
  host's class index about the requested class on every call. An unknown class
  gets a new source file from the Filer. A known class gets a writer over a null
  output stream. javac's Filer creates the source file of a type at most once
  per compilation; a second request for the same type fails with a
  `FilerException`, which is an `IOException`. `addWarning` forwards each
  warning as a WARNING.

Layout:

- `options.dfy` (module `GrammarOptions`) holds the option splitting as pure
  functions: Java's `String.split`, the blank filter and their round trip with
  joining.
- `host.dfy` (module `Host`) holds what the processor sees of the host and of
  the foreign code. Everything the processor does to the host is an `Event`: a
  printed message or an opened output. The parser, the canonical-path
  resolution, the generator and the Filer's file creation are functions in an
  `Env` value. The class index is the set `known`. The Filer's record of the
  types it created is a set `created`, and `OpenOutput` applies its
  create-once rule.
- `round.dfy` (module `Rounds`) specifies one round as pure functions.
  `Callbacks` is the generator's callbacks. `Generation` is one generator run.
  `Attempt` is one polled file. `Round` is the drain loop. Each takes the
  Filer's `created` set. `Callbacks`, `Round` and a completed `Attempt` give
  the set they leave. An `Attempt` that escapes leaves it unchanged.
  `Generation` gives only events; the set it leaves is that of its
  `Callbacks`. The lemmas state what the source promises about them.
- `processor.dfy` (module `Processor`) is the processor itself: a class with
  the queue, the event log, the `initialized` flag and the Filer's `created`
  set as fields. Its methods mirror `init`, `poll`, `addAll`,
  `openOutputInner`, `addWarning` and `process`.
  - `Init` is proved against `GrammarOptions.GrammarPaths`.
  - `OpenOutputInner` is proved against `Host.OpenOutput`.
  - `Generate`, `ProcessOne` and `Process` are proved against `Callbacks`,
    `Attempt` and `Round`.
  - `AddAll`, `Poll`, `PrintMessage` and `AddWarning` state their effect on
    the fields directly.

  Ghost fields record every path ever enqueued and ever polled. The class
  invariant `Valid` ties that history to the queue: what was enqueued is what
  was polled, in FIFO order, followed by what still waits, and nothing is
  enqueued before `init`. Nothing is enqueued after the first `init`:
  `Init` enqueues only on its first call, and `Process` leaves `enqueued`
  unchanged. A path named twice in the option is queued, and processed,
  twice.

Three details of the code shape the model:

- A file is parsed first (line 60). Its directory is resolved only for a
  `BnfFile` (line 62), not before parsing.
- The non-grammar branch calls `getCanonicalPath()` (line 78). That call can
  throw, and then the ERROR carries the exception's text instead of "Not a
  grammar file".
- Only `IOException` is caught (line 81). A grammar path with no directory
  part has a null `getParentFile()`. The `NullPointerException` this causes
  escapes `process` and ends the round. That file has already been polled, and
  the files behind it stay queued. The model includes this case: `Exit.Threw`
  and `RoundResult.aborted`.

## Model

| member | source | states |
|---|---|---|
| GrammarOptions.SplitAll | src/org/intellij/grammar/compiler/GrammarProcessor.java:37 | splitting gives at least one segment, and no segment contains the separator |
| GrammarOptions.DropTrailingEmpty | src/org/intellij/grammar/compiler/GrammarProcessor.java:37 | Java's removal of trailing empty strings: the result is a prefix that does not end in an empty segment, and everything after it is empty |
| GrammarOptions.JavaSplit | src/org/intellij/grammar/compiler/GrammarProcessor.java:37 | no segment of `String.split` on the quoted separator contains the separator |
| GrammarOptions.NonBlank | src/org/intellij/grammar/compiler/GrammarProcessor.java:38 | the filter keeps exactly the segments that are not empty or spaces, verbatim, and never adds any |
| GrammarOptions.GrammarPaths | src/org/intellij/grammar/compiler/GrammarProcessor.java:37-38 | every queued path is non-blank and separator-free; a missing `grammars` option gives an empty queue |
| GrammarOptions.JoinSplitAll | src/org/intellij/grammar/compiler/GrammarProcessor.java:37 | joining the split segments with the separator gives back the option string |
| GrammarOptions.SplitAllJoin | src/org/intellij/grammar/compiler/GrammarProcessor.java:37 | splitting separator-free segments after joining them gives them back |
| GrammarOptions.NonBlankAppend | src/org/intellij/grammar/compiler/GrammarProcessor.java:38 | the filter distributes over concatenation, so segment order is preserved |
| GrammarOptions.JavaSplitNonBlank | src/org/intellij/grammar/compiler/GrammarProcessor.java:37-38 | after the filter, Java's dropping of trailing empty segments and its whole-string result for a separator-free option make no difference |
| GrammarOptions.GrammarPathsOfJoined | src/org/intellij/grammar/compiler/GrammarProcessor.java:37-38 | for an option made by joining paths with the separator, the queue is exactly the non-blank paths, untrimmed and in their original order |
| GrammarOptions.GrammarPathsSegments | src/org/intellij/grammar/compiler/GrammarProcessor.java:37-38 | for every option string, the queue is exactly the non-blank segments between separators, verbatim and in order |
| Host.CreatedOnceAppend | src/org/intellij/grammar/compiler/GrammarProcessor.java:66 | two stretches of host events that each keep the Filer's create-once rule keep it together when the second starts from what the first created |
| Host.OpenOutput | src/org/intellij/grammar/compiler/GrammarProcessor.java:64-68 | a request gets a real source file exactly when the class is unknown to the index; it fails exactly when the class is unknown and the Filer refuses or fails; a class the Filer already created is refused with a `FilerException`, so no source file is created twice |
| Rounds.Callbacks | src/org/intellij/grammar/compiler/GrammarProcessor.java:64-74 | the generator's callbacks answered in order: a warning becomes a WARNING, an output request gets `OpenOutput`'s decision and an `Opened` event, and the first Filer refusal or failure stops the run; its properties are stated by CallbacksOutcome, CallbacksCreateOnce and CallbacksComplete |
| Rounds.CallbacksOutcome | src/org/intellij/grammar/compiler/GrammarProcessor.java:64-74 | every callback causes its own event in order: warnings are forwarded with their text, and each output request gets a fresh decision that follows the index; no ERROR is printed; the callbacks stop only at an unknown class whose source file the Filer refused or failed to create |
| Rounds.CallbacksCreateOnce | src/org/intellij/grammar/compiler/GrammarProcessor.java:66 | the callbacks never get a second source file for a class, nor one for a class created before, and the Filer's record grows by exactly the source files opened |
| Rounds.CallbacksComplete | src/org/intellij/grammar/compiler/GrammarProcessor.java:64-75 | callbacks complete when every unknown class is requested once, is new to the Filer and is created without failure |
| Rounds.Generation | src/org/intellij/grammar/compiler/GrammarProcessor.java:62-83 | one generator run inside the `try`: the callbacks' events, then one ERROR with the text of the first `IOException`, from `openOutputInner` before the generator's own; its properties are stated by GenerationOutcome and GenerationForwardsAll |
| Rounds.GenerationOutcome | src/org/intellij/grammar/compiler/GrammarProcessor.java:62-83 | a generator run prints at most one ERROR, as its last event, and prints one exactly when an `IOException` from `openOutputInner` or from the generator ended it; its outputs follow the index and the create-once rule |
| Rounds.GenerationForwardsAll | src/org/intellij/grammar/compiler/GrammarProcessor.java:62-75 | a run with no `IOException`, whose unknown classes are each new and requested once, forwards every warning and answers every output request, in the generator's order, with no ERROR |
| Rounds.Escapes | src/org/intellij/grammar/compiler/GrammarProcessor.java:60-62 | a polled file lets the `NullPointerException` escape when it parses as a `BnfFile` and its path has no parent directory, so `getParentFile()` is null; AttemptEscapes ties it to `Attempt` |
| Rounds.Attempt | src/org/intellij/grammar/compiler/GrammarProcessor.java:59-83 | one polled file: a parse failure, a non-grammar or a failed directory lookup gives one ERROR; a grammar with a directory runs the generator; a grammar without one escapes; its properties are stated by AttemptEscapes and AttemptOutcome |
| Rounds.AttemptEscapes | src/org/intellij/grammar/compiler/GrammarProcessor.java:59-62 | whether a polled file lets an exception escape depends only on the file: a grammar whose path has no parent |
| Rounds.AttemptOutcome | src/org/intellij/grammar/compiler/GrammarProcessor.java:59-83 | an exception escapes exactly for a `BnfFile` whose path has no parent, and then nothing is printed; a non-grammar or unreadable file gets exactly one ERROR and no generation; at most one ERROR per file, always last; outputs follow the index and the create-once rule |
| Rounds.Round | src/org/intellij/grammar/compiler/GrammarProcessor.java:57-84 | the drain loop: poll the head, attempt it, go on with the rest from the Filer record it left, and stop at the first escape; its properties are stated by RoundShape, RoundAppend, the isolation lemmas and RoundEmission |
| Rounds.RoundShape | src/org/intellij/grammar/compiler/GrammarProcessor.java:57-59 | a round polls a prefix of the queue, each path once and in FIFO order, and leaves the rest untouched; a round that ends normally has emptied the queue; an aborted round stops right after the file that escaped; the events are the concatenation of each polled file's own attempt |
| Rounds.RoundAppend | src/org/intellij/grammar/compiler/GrammarProcessor.java:57-84 | failure isolation: after files that complete, the rest of the queue is processed exactly as if it were the whole queue, from the types the Filer created for the earlier files |
| Rounds.ItemIsolated | src/org/intellij/grammar/compiler/GrammarProcessor.java:57-84 | a file that completes, between others, adds exactly its own events in its place, and the files after it are processed as a fresh queue |
| Rounds.NotAGrammarIsolated | src/org/intellij/grammar/compiler/GrammarProcessor.java:77-79 | a non-grammar file between others adds exactly one ERROR "Not a grammar file: " + canonical path in its place, and the files around it are processed as without it |
| Rounds.IOExceptionIsolated | src/org/intellij/grammar/compiler/GrammarProcessor.java:59-83 | an `IOException` on one file, from parsing, path resolution or directory resolution, adds exactly one ERROR with its text in its place, and later files are still processed |
| Rounds.GenerationIOExceptionIsolated | src/org/intellij/grammar/compiler/GrammarProcessor.java:62-83 | an `IOException` that ends a generator run, from `openOutputInner` or from the generator, adds the callbacks' events and then exactly one ERROR with the first exception's text, in the file's place, and later files are still processed |
| Rounds.RoundEmission | src/org/intellij/grammar/compiler/GrammarProcessor.java:64-67 | across a whole round, every output opened is a real source file exactly for classes the index does not know, no class gets two source files or one the Filer already created, and the Filer's record grows by exactly those files |
| Processor.GrammarProcessor.constructor | src/org/intellij/grammar/compiler/GrammarProcessor.java:31 | a new processor is not initialised, has an empty queue and has printed nothing, and the Filer has created nothing |
| Processor.GrammarProcessor.PrintMessage | src/org/intellij/grammar/compiler/GrammarProcessor.java:46 | a message is appended to the host's log, in call order |
| Processor.GrammarProcessor.AddAll | src/org/intellij/grammar/compiler/GrammarProcessor.java:38 | paths are appended at the tail in order, keeping the queue's history |
| Processor.GrammarProcessor.Poll | src/org/intellij/grammar/compiler/GrammarProcessor.java:59 | the head leaves the queue and is recorded as polled, keeping the queue's history |
| Processor.GrammarProcessor.Init | src/org/intellij/grammar/compiler/GrammarProcessor.java:35-53 | a second call throws `IllegalStateException` and changes nothing; the first call makes the queue exactly the non-blank option segments, and a failed self-check adds exactly one ERROR "Grammar parser failed to initialize" and `init` returns normally |
| Processor.GrammarProcessor.AddWarning | src/org/intellij/grammar/compiler/GrammarProcessor.java:71-74 | a generator warning is forwarded as one WARNING with the same text |
| Processor.GrammarProcessor.OpenOutputInner | src/org/intellij/grammar/compiler/GrammarProcessor.java:64-69 | each call asks the index afresh: a real source file iff the class is unknown, a null sink otherwise; a Filer refusal or failure opens nothing and is returned; a created source file is recorded by the Filer |
| Processor.GrammarProcessor.Generate | src/org/intellij/grammar/compiler/GrammarProcessor.java:62-75 | the generator's callbacks leave exactly the events and Filer record of `Callbacks`, and the run ends with the first `IOException` |
| Processor.GrammarProcessor.ProcessOne | src/org/intellij/grammar/compiler/GrammarProcessor.java:59-83 | one polled file leaves exactly the events and Filer record of `Attempt`, and an escape is reported exactly when `Attempt` escapes |
| Processor.GrammarProcessor.Process | src/org/intellij/grammar/compiler/GrammarProcessor.java:55-86 | the round leaves exactly the events, remaining queue and Filer record of `Round`; it returns `false` whenever it returns; the polled paths are exactly the head of the old queue; nothing is enqueued |

## Left out

- `LightPsi.init` and the two keyed-extension registrations (lines 40-42) are left out. They are process-wide registration into the light PSI framework, and the model treats them as an opaque step of `init`.
- The self-check parse (line 44) is an input of `Init`: whether it gave a `BnfFile` and whether its project is a `MockProject`. The `else` branch (lines 48-52) only holds commented-out code.
- `LightPsi.parseFile`, `File.getCanonicalPath`, `getParentFile().getCanonicalPath()` and `ParserGenerator.generate` are foreign code. They are functions of the path in `Env`. A generator run is a fixed sequence of callbacks followed by a normal end or an `IOException`.
- The model assumes that an `IOException` thrown by `openOutputInner` propagates out of `generate()`. The generator's own code is not part of this model.
- `Filer.createSourceFile(className).openWriter()` is one outcome per class name for a class the Filer has not created yet: success or an `IOException`. The Filer records a class only when both calls succeed. javac records it as soon as `createSourceFile` succeeds, so a later request after a failed `openWriter` is refused in javac but tried afresh here. The writers and streams, and the text written to them, are left out. Only the real-versus-null choice is kept.
- The Filer's refusal of a type it already created is javac's `FilerException` "Attempt to recreate a file for type" plus the type name. javac's Filer is not part of this model. The other cases in which javac refuses a name, such as a type among the initial inputs or an invalid name, are left out.
- `known` stands for `getElementUtils().getTypeElement(className) != null`. It is taken as fixed for the length of a round and given to `process` as the state of the host's index. The processor never caches a decision. Types created in one round become known to javac's index in later rounds. The model does not derive that: each round is given its own `known`.
- `StringUtil.isEmptyOrSpaces` is not part of this model. It is taken as `String.trim().isEmpty()`: every character is at most U+0020.
- Unchecked exceptions from the parser or the generator are left out. Two unchecked exceptions that this file's own code runs into are modelled. One is the `IllegalStateException` from `super.init` on a second `init`. The other is the `NullPointerException` from a path with no parent directory. The null checks that `AbstractProcessor.init` and `Objects.requireNonNull` make on their arguments are left out: javac never passes null there, and the queue never holds null.
- `synchronized` on `init` and the host's scheduling of rounds are left out, because they are concurrency and host lifecycle. Rounds are modelled as successive calls of `Process`.
- The `myFiles` map (line 32) is left out because it is never read or written.
- The `annotations` and `roundEnv` parameters of `process` are left out because the code never reads them.
