/** What the processor sees of its surroundings: the javac Messager and Filer,
    the host's class index, and the foreign parser and generator, each reduced
    to the outcomes the processor branches on. */
module Host {

  datatype Option<T> = None | Some(value: T)

  /** An `IOException`, by the text of its `toString()`. */
  datatype IOException = IOException(description: string)

  datatype Result<T> = Success(value: T) | Failure(error: IOException)

  /** `Diagnostic.Kind`, restricted to the two kinds the processor prints. */
  datatype Kind = Error | Warning

  /** The writer `openOutputInner` hands to the generator: one over a new
      source file created through the Filer, or one over a null output stream. */
  datatype Sink = SourceFile | NullSink

  /** One step the processor takes toward the host, in the order it happens:
      a message printed through the Messager, or an output opened for a
      generated class (a writer over a null stream for a known class). */
  datatype Event = Message(kind: Kind, text: string) | Opened(className: string, sink: Sink)

  /** What `LightPsi.parseFile(file, ...)` gives: a `BnfFile` (named by a
      handle the generator is given back), some other PSI file, or an
      `IOException` while reading. */
  datatype Parsed = BnfFile(grammar: nat) | OtherFile | ParseFailed(e: IOException)

  /** `file.getCanonicalPath()`. */
  datatype PathResult = Path(path: string) | PathFailed(e: IOException)

  /** `file.getParentFile().getCanonicalPath()`: `NoParent` is a path without a
      directory part, whose `getParentFile()` is null. */
  datatype ParentResult = ParentPath(dir: string) | NoParent | ParentFailed(e: IOException)

  /** A callback the generator makes into the processor. */
  datatype GenStep = Warn(text: string) | Open(className: string)

  /** One run of `ParserGenerator.generate()`: the callbacks it makes, in order,
      then either a normal end or an `IOException` of its own. */
  datatype GenRun = GenRun(steps: seq<GenStep>, failure: Option<IOException>)

  /** The result of the self-check parse of an empty "test.bnf" in `init`. */
  datatype SmokeParse = SmokeParse(isBnfFile: bool, inMockProject: bool)

  /** The foreign code and the file system, as functions of their inputs.
      `createSourceFile` is the outcome of creating and opening the source
      file of a class the Filer has not created before. */
  datatype Env = Env(
    parseFile: string -> Parsed,
    canonicalPath: string -> PathResult,
    parentPath: string -> ParentResult,
    generate: (nat, string) -> GenRun,
    createSourceFile: string -> Option<IOException>)

  const NotAGrammarPrefix: string := "Not a grammar file: "
  const InitFailedText: string := "Grammar parser failed to initialize"

  predicate IsError(e: Event) {
    e.Message? && e.kind == Error
  }

  /** Every output opened for a class is a real source file exactly when the
      host's class index does not know that class. */
  predicate EmissionRespectsIndex(events: seq<Event>, known: set<string>) {
    forall e :: e in events && e.Opened? ==> (e.sink == SourceFile <==> e.className !in known)
  }

  /** Whether `init`'s self-check passed: the smoke parse gave a `BnfFile`
      whose project is a `MockProject`. */
  predicate SelfCheckPasses(smoke: SmokeParse) {
    smoke.isBnfFile && smoke.inMockProject
  }

  /** The text of the `FilerException` (an `IOException`) javac's Filer
      throws when asked to create a source file for a type it already created
      in this compilation. */
  const RecreatePrefix: string :=
    "javax.annotation.processing.FilerException: Attempt to recreate a file for type "

  /** An output that is a new source file created through the Filer. */
  predicate IsSourceFile(e: Event) {
    e.Opened? && e.sink == SourceFile
  }

  /** The classes that got a new source file among `events`. */
  function SourceNames(events: seq<Event>): set<string> {
    set e | e in events && IsSourceFile(e) :: e.className
  }

  /** The Filer's create-once rule, over a log of events: no source file is
      created for a class the Filer had already created (`created`), and no
      two source files in the log are for the same class. */
  predicate CreatedOnce(events: seq<Event>, created: set<string>) {
    (forall e :: e in events && IsSourceFile(e) ==> e.className !in created) &&
    (forall i, j :: 0 <= i < j < |events| && IsSourceFile(events[i]) && IsSourceFile(events[j]) ==>
       events[i].className != events[j].className)
  }

  /** Two logs that each keep the create-once rule keep it together when the
      second starts from what the first created, and the classes created by
      both are those created by each. */
  lemma CreatedOnceAppend(a: seq<Event>, b: seq<Event>, created: set<string>)
    requires CreatedOnce(a, created) && CreatedOnce(b, created + SourceNames(a))
    ensures CreatedOnce(a + b, created)
    ensures SourceNames(a + b) == SourceNames(a) + SourceNames(b)
  {
    var ab := a + b;
    forall i, j | 0 <= i < j < |ab| && IsSourceFile(ab[i]) && IsSourceFile(ab[j])
      ensures ab[i].className != ab[j].className
    {
      if j >= |a| {
        assert ab[j] == b[j - |a|];
        if i >= |a| {
          assert ab[i] == b[i - |a|];
        } else {
          assert ab[i] == a[i] && a[i] in a;
        }
      } else {
        assert ab[i] == a[i] && ab[j] == a[j];
      }
    }
  }

  /** What the Filer does with a request to create the source file of
      `className`: it refuses a class it already created, and otherwise
      creates the file, which may fail; `None` when it succeeds. */
  function FilerFailure(env: Env, created: set<string>, className: string): Option<IOException> {
    if className in created then Some(IOException(RecreatePrefix + className))
    else env.createSourceFile(className)
  }

  /** The emission decision of `openOutputInner` for one request, made afresh:
      a class unknown to the index gets a new source file from the Filer
      (which may fail, and always does for a class it already created), a
      known one a discarding writer. */
  function OpenOutput(env: Env, known: set<string>, created: set<string>, className: string): (r: Result<Sink>)
    ensures r.Success? ==> (r.value == SourceFile <==> className !in known)
    ensures r.Success? && r.value == SourceFile ==> className !in created
    ensures r.Failure? <==> className !in known && FilerFailure(env, created, className).Some?
    ensures className !in known && className in created ==>
      r == Failure(IOException(RecreatePrefix + className))
  {
    if className in known then Success(NullSink)
    else
      match FilerFailure(env, created, className)
      case None => Success(SourceFile)
      case Some(e) => Failure(e)
  }

  /** The Filer's record of created types after one request. */
  function CreatedAfter(created: set<string>, className: string, r: Result<Sink>): set<string> {
    if r == Success(SourceFile) then created + {className} else created
  }
}
