/** The annotation processor: a work queue of grammar files filled by the one
    `init` call and drained by every `process` round, with everything it does
    to the host recorded in order. */
module Processor {
  import opened Host
  import opened GrammarOptions
  import opened Rounds

  /** How `process` leaves: by returning a value, or by an unchecked exception
      the `catch (IOException e)` does not handle. */
  datatype Exit = Returned(value: bool) | Threw(exception: string)

  /** Thrown by `file.getParentFile().getCanonicalPath()` when the path has no
      directory part. */
  const NullPointer: string := "java.lang.NullPointerException"

  /** Thrown by `AbstractProcessor.init` when the processor is already
      initialised. */
  const IllegalState: string := "java.lang.IllegalStateException"

  /** Two ways of cutting the same sequence of paths: the longer first part
      is the shorter one extended by the head of the other second part. */
  lemma PolledPrefix(before: seq<string>, waiting: seq<string>, after: seq<string>, left: seq<string>)
    requires before + waiting == after + left && |before| <= |after|
    ensures |left| <= |waiting| && after == before + waiting[..|waiting| - |left|]
  {
    var whole := before + waiting;
    assert after == whole[..|after|];
    assert whole[..|after|] == before + waiting[..|after| - |before|];
  }

  class GrammarProcessor {
    /** `myGrammarPaths`, head first. */
    var queue: seq<string>
    /** Everything printed through the Messager and every output opened
      through `openOutputInner`, oldest first. */
    var events: seq<Event>
    /** Every path ever added to the queue, and every path ever polled. */
    ghost var enqueued: seq<string>
    ghost var polled: seq<string>
    /** The `initialized` flag `AbstractProcessor.init` sets. */
    var initialized: bool
    /** The types the host's Filer has created source files for in this
        compilation. */
    var created: set<string>

    /** The history of the queue: what was added is exactly what was polled,
        in FIFO order, followed by what is still waiting; and nothing is added
        before `init`. */
    ghost predicate Valid()
      reads this
    {
      enqueued == polled + queue &&
      (!initialized ==> enqueued == [])
    }

    constructor ()
      ensures Valid()
      ensures queue == [] && events == [] && enqueued == [] && polled == []
      ensures !initialized && created == {}
    {
      queue := [];
      events := [];
      enqueued := [];
      polled := [];
      initialized := false;
      created := {};
    }

    /** `processingEnv.getMessager().printMessage(kind, text)`. */
    method PrintMessage(kind: Kind, text: string)
      modifies this`events
      ensures events == old(events) + [Message(kind, text)]
    {
      events := events + [Message(kind, text)];
    }

    /** `init`: `super.init` refuses a second call by throwing, before
        anything changes. The first call queues the non-blank segments of the
        `grammars` option, then reports a failed self-check parse as one ERROR
        without throwing. The registration of the BNF extensions in the light
        PSI environment is a process-wide step outside this model. */
    method Init(options: map<string, string>, sep: char, smoke: SmokeParse) returns (thrown: Option<string>)
      requires Valid()
      modifies this
      ensures Valid() && initialized && created == old(created)
      ensures old(initialized) ==>
        thrown == Some(IllegalState) && queue == old(queue) && events == old(events) &&
        enqueued == old(enqueued) && polled == old(polled)
      ensures !old(initialized) ==>
        thrown == None && queue == GrammarPaths(options, sep) &&
        enqueued == GrammarPaths(options, sep) && polled == [] &&
        events == old(events) + (if SelfCheckPasses(smoke) then [] else [Message(Error, InitFailedText)])
    {
      if initialized {
        return Some(IllegalState);
      }
      initialized := true;
      AddAll(GrammarPaths(options, sep));
      if !smoke.isBnfFile || !smoke.inMockProject {
        PrintMessage(Error, InitFailedText);
      }
      thrown := None;
    }

    /** `myGrammarPaths.addAll(paths)`: appended at the tail, in order. */
    method AddAll(paths: seq<string>)
      requires Valid() && initialized
      modifies this`queue, this`enqueued
      ensures Valid()
      ensures queue == old(queue) + paths && enqueued == old(enqueued) + paths
    {
      assert (polled + queue) + paths == polled + (queue + paths);
      queue := queue + paths;
      enqueued := enqueued + paths;
    }

    /** `myGrammarPaths.poll()` on a non-empty queue: the head leaves the
        queue for good. */
    method Poll() returns (path: string)
      requires Valid() && queue != []
      modifies this`queue, this`polled
      ensures Valid()
      ensures path == old(queue)[0] && queue == old(queue)[1..] && polled == old(polled) + [path]
    {
      path := queue[0];
      assert polled + queue == (polled + [path]) + queue[1..];
      queue := queue[1..];
      polled := polled + [path];
    }

    /** The generator's `addWarning`: forwarded as a WARNING with the same text. */
    method AddWarning(text: string)
      modifies this`events
      ensures events == old(events) + [Message(Warning, text)]
    {
      PrintMessage(Warning, text);
    }

    /** The generator's `openOutputInner`: asks the class index afresh on every
        call; a class it does not know gets a new source file from the Filer,
        a known one a writer over a null output stream. The Filer refuses a
        class it already created and records each one it creates. A Filer
        failure is returned as the `IOException` the generator sees. */
    method OpenOutputInner(env: Env, known: set<string>, className: string) returns (r: Result<Sink>)
      modifies this`events, this`created
      ensures r == OpenOutput(env, known, old(created), className)
      ensures r.Success? ==> (r.value == SourceFile <==> className !in known)
      ensures r.Failure? <==> className !in known && FilerFailure(env, old(created), className).Some?
      ensures r.Failure? ==> Some(r.error) == FilerFailure(env, old(created), className)
      ensures events == old(events) + (if r.Success? then [Opened(className, r.value)] else [])
      ensures created == CreatedAfter(old(created), className, r)
    {
      if className !in known {
        if className in created {
          return Failure(IOException(RecreatePrefix + className));
        }
        match env.createSourceFile(className) {
          case None =>
            r := Success(SourceFile);
            created := created + {className};
          case Some(e) =>
            r := Failure(e);
            return;
        }
      }
      else {
        r := Success(NullSink);
      }
      events := events + [Opened(className, r.value)];
    }

    /** `generate()` of the anonymous `ParserGenerator`: the generator's
        callbacks are made in the order of `run`, and the first `IOException`,
        from `openOutputInner` or from the generator itself, ends the run. */
    method Generate(env: Env, known: set<string>, run: GenRun) returns (failure: Option<IOException>)
      modifies this`events, this`created
      ensures var c := Callbacks(env, known, old(created), run.steps);
        events == old(events) + c.events && created == c.created &&
        failure == (if c.failure.Some? then c.failure else run.failure)
    {
      var i := 0;
      while i < |run.steps|
        invariant 0 <= i <= |run.steps|
        invariant old(events) + Callbacks(env, known, old(created), run.steps).events ==
                  events + Callbacks(env, known, created, run.steps[i..]).events
        invariant Callbacks(env, known, old(created), run.steps).failure ==
                  Callbacks(env, known, created, run.steps[i..]).failure
        invariant Callbacks(env, known, old(created), run.steps).created ==
                  Callbacks(env, known, created, run.steps[i..]).created
      {
        assert run.steps[i..][0] == run.steps[i] && run.steps[i..][1..] == run.steps[i + 1..];
        match run.steps[i] {
          case Warn(text) =>
            AddWarning(text);
          case Open(className) =>
            var outcome := OpenOutputInner(env, known, className);
            if outcome.Failure? {
              failure := Some(outcome.error);
              return;
            }
        }
        i := i + 1;
      }
      assert run.steps[i..] == [];
      failure := run.failure;
    }

    /** The body of the drain loop for one polled path: parse it, then either
        report it as not a grammar, or generate from it into its directory;
        an `IOException` anywhere becomes one ERROR with its text. Returns
        whether an unchecked exception escaped instead. */
    method ProcessOne(env: Env, known: set<string>, path: string) returns (escaped: bool)
      modifies this`events, this`created
      ensures var a := Attempt(env, known, old(created), path);
        events == old(events) + a.events && escaped == a.Escaped? &&
        created == (if a.Completed? then a.created else old(created))
    {
      escaped := false;
      match env.parseFile(path)
      case ParseFailed(e) =>
        PrintMessage(Error, e.description);
      case OtherFile =>
        match env.canonicalPath(path) {
          case Path(canonical) =>
            PrintMessage(Error, NotAGrammarPrefix + canonical);
          case PathFailed(e) =>
            PrintMessage(Error, e.description);
        }
      case BnfFile(grammar) =>
        match env.parentPath(path)
        case NoParent =>
          escaped := true;
        case ParentFailed(e) =>
          PrintMessage(Error, e.description);
        case ParentPath(dir) =>
          var failure := Generate(env, known, env.generate(grammar, dir));
          if failure.Some? {
            PrintMessage(Error, failure.value.description);
          }
    }

    /** `process`: poll and attempt grammar files until the queue is empty,
        each polled once and in FIFO order whatever earlier ones did, and
        return false. Only an unchecked exception ends the round early; the
        path that caused it has already been polled. */
    method Process(env: Env, known: set<string>) returns (exit: Exit)
      requires Valid()
      modifies this
      ensures Valid() && enqueued == old(enqueued) && initialized == old(initialized)
      ensures var r := Round(env, known, old(created), old(queue));
        events == old(events) + r.events && queue == r.remaining && created == r.created &&
        exit == (if r.aborted then Threw(NullPointer) else Returned(false))
      ensures |queue| <= |old(queue)| && polled == old(polled) + old(queue)[..|old(queue)| - |queue|]
    {
      ghost var start := queue;
      while queue != []
        invariant Valid() && enqueued == old(enqueued) && initialized == old(initialized)
        invariant |polled| >= |old(polled)|
        invariant old(events) + Round(env, known, old(created), start).events ==
                  events + Round(env, known, created, queue).events
        invariant Round(env, known, old(created), start).remaining == Round(env, known, created, queue).remaining
        invariant Round(env, known, old(created), start).aborted == Round(env, known, created, queue).aborted
        invariant Round(env, known, old(created), start).created == Round(env, known, created, queue).created
        decreases |queue|
      {
        var path := Poll();
        var escaped := ProcessOne(env, known, path);
        if escaped {
          exit := Threw(NullPointer);
          PolledPrefix(old(polled), start, polled, queue);
          return;
        }
      }
      exit := Returned(false);
      PolledPrefix(old(polled), start, polled, queue);
    }
  }
}
