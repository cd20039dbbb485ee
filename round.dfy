/** The effect of one `process` round as a function of the queue it starts
    with and of the types the Filer has created so far: what each polled
    grammar file leads to, and how the round ends. */
module Rounds {
  import opened Host

  /** The effect of the generator's callbacks: the events they caused, the
      `IOException` of the `openOutputInner` that threw, if one did, and the
      types the Filer has created afterwards. */
  datatype CallbackResult = CallbackResult(events: seq<Event>, failure: Option<IOException>, created: set<string>)

  /** How one polled item ends: the `try` block completed (normally or through
      the `catch (IOException e)`), or an unchecked exception escaped. */
  datatype ItemOutcome = Completed(events: seq<Event>, created: set<string>) | Escaped(events: seq<Event>)

  /** How a round ends: the events, what is left in the queue, whether an
      unchecked exception ended it, and the types the Filer has created. */
  datatype RoundResult = RoundResult(events: seq<Event>, remaining: seq<string>, aborted: bool, created: set<string>)

  /** The callback that caused an event: a printed warning came from
      `addWarning`, an opened output from `openOutputInner`. */
  function StepOf(e: Event): GenStep {
    match e
    case Message(_, text) => Warn(text)
    case Opened(className, _) => Open(className)
  }

  /** The generator's callbacks, answered one by one and in order, up to the
      first `openOutputInner` that throws. */
  function Callbacks(env: Env, known: set<string>, created: set<string>, steps: seq<GenStep>): CallbackResult
    decreases |steps|
  {
    if steps == [] then CallbackResult([], None, created)
    else
      match steps[0]
      case Warn(text) =>
        var rest := Callbacks(env, known, created, steps[1..]);
        CallbackResult([Message(Warning, text)] + rest.events, rest.failure, rest.created)
      case Open(className) =>
        var r := OpenOutput(env, known, created, className);
        match r
        case Failure(e) => CallbackResult([], Some(e), created)
        case Success(sink) =>
          var rest := Callbacks(env, known, CreatedAfter(created, className, r), steps[1..]);
          CallbackResult([Opened(className, sink)] + rest.events, rest.failure, rest.created)
  }

  /** Each callback causes its own event, in order: a warning is forwarded with
      its text, an output request gets a decision of its own (so a class
      requested twice is looked up twice), and nothing else is printed. The
      callbacks stop only at an `openOutputInner` for a class the index does
      not know whose source file the Filer, as it stands then, refused or
      failed to create. */
  lemma {:induction false} CallbacksOutcome(env: Env, known: set<string>, created: set<string>, steps: seq<GenStep>)
    ensures var r := Callbacks(env, known, created, steps);
      |r.events| <= |steps| &&
      (forall i :: 0 <= i < |r.events| ==> StepOf(r.events[i]) == steps[i]) &&
      (forall e :: e in r.events ==> !IsError(e)) &&
      EmissionRespectsIndex(r.events, known) &&
      (r.failure.None? <==> |r.events| == |steps|) &&
      (r.failure.Some? ==>
        steps[|r.events|].Open? &&
        steps[|r.events|].className !in known &&
        FilerFailure(env, r.created, steps[|r.events|].className) == r.failure)
    decreases |steps|
  {
    if steps != [] {
      match steps[0] {
        case Warn(_) =>
          CallbacksOutcome(env, known, created, steps[1..]);
        case Open(className) =>
          var o := OpenOutput(env, known, created, className);
          if o.Success? {
            CallbacksOutcome(env, known, CreatedAfter(created, className, o), steps[1..]);
          }
      }
    }
  }

  /** The Filer keeps its create-once rule through the callbacks, and what it
      records as created afterwards is exactly what it had plus the source
      files the callbacks opened. */
  lemma {:induction false} CallbacksCreateOnce(env: Env, known: set<string>, created: set<string>, steps: seq<GenStep>)
    ensures var r := Callbacks(env, known, created, steps);
      CreatedOnce(r.events, created) && r.created == created + SourceNames(r.events)
    decreases |steps|
  {
    if steps != [] {
      match steps[0] {
        case Warn(text) =>
          CallbacksCreateOnce(env, known, created, steps[1..]);
          var rest := Callbacks(env, known, created, steps[1..]);
          var head := [Message(Warning, text)];
          assert SourceNames(head) == {};
          CreatedOnceAppend(head, rest.events, created);
        case Open(className) =>
          var o := OpenOutput(env, known, created, className);
          if o.Success? {
            var after := CreatedAfter(created, className, o);
            CallbacksCreateOnce(env, known, after, steps[1..]);
            var rest := Callbacks(env, known, after, steps[1..]);
            var head := [Opened(className, o.value)];
            assert SourceNames(head) == (if o.value == SourceFile then {className} else {}) by {
              assert head[0] in head;
            }
            CreatedOnceAppend(head, rest.events, created);
          }
      }
    }
  }

  /** `new ParserGenerator(...){...}.generate()` inside the `try`: the callbacks'
      events, then one ERROR if an `IOException` ended the run. */
  function Generation(env: Env, known: set<string>, created: set<string>, run: GenRun): seq<Event> {
    var c := Callbacks(env, known, created, run.steps);
    match (if c.failure.Some? then c.failure else run.failure)
    case None => c.events
    case Some(e) => c.events + [Message(Error, e.description)]
  }

  /** A polled path whose attempt lets an unchecked exception escape: a
      `BnfFile` whose path has no directory part. */
  predicate Escapes(env: Env, path: string) {
    env.parseFile(path).BnfFile? && env.parentPath(path).NoParent?
  }

  /** One iteration of the drain loop, after the item has been polled. */
  function Attempt(env: Env, known: set<string>, created: set<string>, path: string): ItemOutcome {
    match env.parseFile(path)
    case ParseFailed(e) => Completed([Message(Error, e.description)], created)
    case OtherFile =>
      (match env.canonicalPath(path)
       case Path(canonical) => Completed([Message(Error, NotAGrammarPrefix + canonical)], created)
       case PathFailed(e) => Completed([Message(Error, e.description)], created))
    case BnfFile(grammar) =>
      match env.parentPath(path)
      case NoParent => Escaped([])
      case ParentFailed(e) => Completed([Message(Error, e.description)], created)
      case ParentPath(dir) =>
        var run := env.generate(grammar, dir);
        Completed(Generation(env, known, created, run), Callbacks(env, known, created, run.steps).created)
  }

  /** A generator run prints at most one ERROR, as its last event, and does so
      exactly when an `IOException` ended it; every output it opened follows
      the class index and the Filer's create-once rule. */
  lemma GenerationOutcome(env: Env, known: set<string>, created: set<string>, run: GenRun)
    ensures var events := Generation(env, known, created, run);
      var c := Callbacks(env, known, created, run.steps);
      (forall i :: 0 <= i < |events| - 1 ==> !IsError(events[i])) &&
      EmissionRespectsIndex(events, known) &&
      CreatedOnce(events, created) &&
      c.created == created + SourceNames(events) &&
      ((|events| > 0 && IsError(events[|events| - 1])) <==> (c.failure.Some? || run.failure.Some?))
  {
    var c := Callbacks(env, known, created, run.steps);
    CallbacksOutcome(env, known, created, run.steps);
    CallbacksCreateOnce(env, known, created, run.steps);
    assert forall i :: 0 <= i < |c.events| ==> c.events[i] in c.events;
    var events := Generation(env, known, created, run);
    if events != c.events {
      var err := events[|c.events|..];
      assert events == c.events + err;
      assert SourceNames(err) == {};
      CreatedOnceAppend(c.events, err, created);
    }
  }

  /** How one polled item ends. An exception escapes exactly for a `BnfFile`
      whose path has no directory part, before anything is printed. A file
      that is not a grammar, or whose parse throws, gets exactly one ERROR and
      no generation. Otherwise at most one ERROR is printed, as the item's
      last event, and every output opened follows the class index and the
      Filer's create-once rule. */
  lemma AttemptOutcome(env: Env, known: set<string>, created: set<string>, path: string)
    ensures var r := Attempt(env, known, created, path);
      (r.Escaped? <==> Escapes(env, path)) &&
      (r.Escaped? ==> r.events == []) &&
      (!env.parseFile(path).BnfFile? ==> |r.events| == 1 && IsError(r.events[0]) && r.created == created) &&
      (forall i :: 0 <= i < |r.events| - 1 ==> !IsError(r.events[i])) &&
      EmissionRespectsIndex(r.events, known) &&
      CreatedOnce(r.events, created) &&
      (r.Completed? ==> r.created == created + SourceNames(r.events))
  {
    match env.parseFile(path) {
      case BnfFile(grammar) =>
        match env.parentPath(path) {
          case ParentPath(dir) => GenerationOutcome(env, known, created, env.generate(grammar, dir));
          case _ =>
        }
      case _ =>
        var r := Attempt(env, known, created, path);
        assert SourceNames(r.events) == {};
    }
  }

  /** Whether an attempt escapes does not depend on the index or the Filer. */
  lemma AttemptEscapes(env: Env, known: set<string>, created: set<string>, path: string)
    ensures Attempt(env, known, created, path).Escaped? <==> Escapes(env, path)
  {
  }

  /** `while (!myGrammarPaths.isEmpty())`: poll the head, attempt it, go on
      with the rest unless an unchecked exception escaped. */
  function Round(env: Env, known: set<string>, created: set<string>, queue: seq<string>): RoundResult
    decreases |queue|
  {
    if queue == [] then RoundResult([], [], false, created)
    else
      match Attempt(env, known, created, queue[0])
      case Escaped(events) => RoundResult(events, queue[1..], true, created)
      case Completed(events, after) =>
        var rest := Round(env, known, after, queue[1..]);
        RoundResult(events + rest.events, rest.remaining, rest.aborted, rest.created)
  }

  /** The events of attempting `items` one after another, each starting from
      the types the earlier ones left created. */
  function Transcript(env: Env, known: set<string>, created: set<string>, items: seq<string>): seq<Event>
    decreases |items|
  {
    if items == [] then []
    else
      match Attempt(env, known, created, items[0])
      case Escaped(events) => events
      case Completed(events, after) => events + Transcript(env, known, after, items[1..])
  }

  /** No item of `items` lets an exception escape. */
  predicate AllComplete(env: Env, items: seq<string>) {
    forall i :: 0 <= i < |items| ==> !Escapes(env, items[i])
  }

  /** What a round does with its queue: it polls a prefix, each polled item
      once and in FIFO order, and leaves the rest untouched. A round that
      ends normally has polled everything; one that is aborted has polled
      exactly up to the item whose attempt escaped, all earlier ones having
      completed. The events are each polled item's own attempt, in order. */
  lemma {:induction false} RoundShape(env: Env, known: set<string>, created: set<string>, queue: seq<string>)
    ensures var r := Round(env, known, created, queue);
      |r.remaining| <= |queue| && r.remaining == queue[|queue| - |r.remaining|..]
    ensures var r := Round(env, known, created, queue);
      !r.aborted ==> r.remaining == [] && AllComplete(env, queue)
    ensures var r := Round(env, known, created, queue); var n := |queue| - |r.remaining|;
      r.aborted ==> 0 < n && Escapes(env, queue[n - 1]) && AllComplete(env, queue[..n - 1])
    ensures var r := Round(env, known, created, queue);
      r.events == Transcript(env, known, created, queue[..|queue| - |r.remaining|])
    decreases |queue|
  {
    if queue != [] {
      var tail := queue[1..];
      AttemptEscapes(env, known, created, queue[0]);
      match Attempt(env, known, created, queue[0])
      case Escaped(events) =>
        assert queue[..1] == [queue[0]];
      case Completed(events, after) =>
        RoundShape(env, known, after, tail);
        var rest := Round(env, known, after, tail);
        var n := |queue| - |rest.remaining|;
        assert queue[n..] == tail[n - 1..];
        assert queue[..n][1..] == tail[..n - 1];
        if rest.aborted {
          assert queue[n - 1] == tail[n - 2];
          var polledBefore := queue[..n - 1];
          forall i | 0 <= i < |polledBefore|
            ensures !Escapes(env, polledBefore[i])
          {
            if i > 0 {
              assert polledBefore[i] == tail[..n - 2][i - 1];
            }
          }
        } else {
          forall i | 0 <= i < |queue|
            ensures !Escapes(env, queue[i])
          {
            if i > 0 {
              assert queue[i] == tail[i - 1];
            }
          }
        }
    }
  }

  /** One step of the drain loop over an item that completes. */
  lemma RoundStep(env: Env, known: set<string>, created: set<string>, queue: seq<string>)
    requires queue != [] && !Escapes(env, queue[0])
    ensures var a := Attempt(env, known, created, queue[0]);
      var rest := Round(env, known, a.created, queue[1..]);
      a.Completed? &&
      Round(env, known, created, queue) == RoundResult(a.events + rest.events, rest.remaining, rest.aborted, rest.created)
  {
    AttemptEscapes(env, known, created, queue[0]);
  }

  /** Failure isolation: after items that all complete, the rest of the queue
      is processed exactly as if it had been the whole queue, starting from
      the types the Filer created for the earlier items. */
  lemma {:induction false} RoundAppend(env: Env, known: set<string>, created: set<string>,
                                       first: seq<string>, second: seq<string>)
    requires AllComplete(env, first)
    ensures var r1 := Round(env, known, created, first);
      var r2 := Round(env, known, r1.created, second);
      Round(env, known, created, first + second) ==
        RoundResult(r1.events + r2.events, r2.remaining, r2.aborted, r2.created)
    decreases |first|
  {
    if first == [] {
      assert first + second == second;
    } else {
      var whole := first + second;
      var tail := first[1..];
      assert whole[0] == first[0] && whole[1..] == tail + second;
      assert AllComplete(env, tail) by {
        forall i | 0 <= i < |tail|
          ensures !Escapes(env, tail[i])
        {
          assert tail[i] == first[i + 1];
        }
      }
      RoundStep(env, known, created, first);
      RoundStep(env, known, created, whole);
      var a := Attempt(env, known, created, first[0]);
      RoundAppend(env, known, a.created, tail, second);
    }
  }

  /** An item that completes with `events`, leaving `left` created, between
      other items: its events in its place, and the items after it processed
      as if they were the whole queue. */
  lemma ItemIsolated(env: Env, known: set<string>, created: set<string>, before: seq<string>,
                     path: string, after: seq<string>, events: seq<Event>, left: set<string>)
    requires AllComplete(env, before)
    requires Attempt(env, known, Round(env, known, created, before).created, path) == Completed(events, left)
    ensures var b := Round(env, known, created, before);
      var a := Round(env, known, left, after);
      Round(env, known, created, before + [path] + after) ==
        RoundResult(b.events + events + a.events, a.remaining, a.aborted, a.created)
  {
    var b := Round(env, known, created, before);
    var rest := [path] + after;
    assert before + [path] + after == before + rest;
    assert rest[0] == path && rest[1..] == after;
    AttemptEscapes(env, known, b.created, path);
    RoundAppend(env, known, created, before, rest);
    RoundStep(env, known, b.created, rest);
  }

  /** A file that is not a grammar, between other items: exactly one ERROR
      naming its canonical path, in its place, and the items before and
      after it are processed as they would be without it. */
  lemma NotAGrammarIsolated(env: Env, known: set<string>, created: set<string>, before: seq<string>,
                            path: string, after: seq<string>, canonical: string)
    requires AllComplete(env, before)
    requires env.parseFile(path) == OtherFile && env.canonicalPath(path) == Path(canonical)
    ensures var b := Round(env, known, created, before);
      var a := Round(env, known, b.created, after);
      Round(env, known, created, before + [path] + after) ==
        RoundResult(b.events + [Message(Error, NotAGrammarPrefix + canonical)] + a.events,
                    a.remaining, a.aborted, a.created)
  {
    var b := Round(env, known, created, before);
    ItemIsolated(env, known, created, before, path, after,
                 [Message(Error, NotAGrammarPrefix + canonical)], b.created);
  }

  /** An `IOException` on one item from parsing, path resolution or directory
      resolution, between other items: exactly one ERROR with its text, in its
      place, and the other items are processed as they would be without it. */
  lemma IOExceptionIsolated(env: Env, known: set<string>, created: set<string>, before: seq<string>,
                            path: string, after: seq<string>, e: IOException)
    requires AllComplete(env, before)
    requires env.parseFile(path) == ParseFailed(e) ||
             (env.parseFile(path) == OtherFile && env.canonicalPath(path) == PathFailed(e)) ||
             (env.parseFile(path).BnfFile? && env.parentPath(path) == ParentFailed(e))
    ensures var b := Round(env, known, created, before);
      var a := Round(env, known, b.created, after);
      Round(env, known, created, before + [path] + after) ==
        RoundResult(b.events + [Message(Error, e.description)] + a.events,
                    a.remaining, a.aborted, a.created)
  {
    var b := Round(env, known, created, before);
    assert Attempt(env, known, b.created, path) == Completed([Message(Error, e.description)], b.created) by {
      if env.parseFile(path) == ParseFailed(e) {
      } else if env.parseFile(path) == OtherFile {
      } else {
        assert env.parentPath(path) == ParentFailed(e);
      }
    }
    ItemIsolated(env, known, created, before, path, after, [Message(Error, e.description)], b.created);
  }

  /** An `IOException` that ends a generator run, from `openOutputInner` or
      from the generator itself, between other items: the callbacks' events
      up to it, then exactly one ERROR with the text of the first exception,
      in its place; the items after it are processed as they would be
      without it, from the types the run created. */
  lemma GenerationIOExceptionIsolated(env: Env, known: set<string>, created: set<string>,
                                      before: seq<string>, path: string, after: seq<string>,
                                      grammar: nat, dir: string)
    requires AllComplete(env, before)
    requires env.parseFile(path) == BnfFile(grammar) && env.parentPath(path) == ParentPath(dir)
    requires var b := Round(env, known, created, before);
      var run := env.generate(grammar, dir);
      Callbacks(env, known, b.created, run.steps).failure.Some? || run.failure.Some?
    ensures var b := Round(env, known, created, before);
      var run := env.generate(grammar, dir);
      var c := Callbacks(env, known, b.created, run.steps);
      var e := if c.failure.Some? then c.failure.value else run.failure.value;
      var a := Round(env, known, c.created, after);
      Round(env, known, created, before + [path] + after) ==
        RoundResult(b.events + c.events + [Message(Error, e.description)] + a.events,
                    a.remaining, a.aborted, a.created)
  {
    var b := Round(env, known, created, before);
    var run := env.generate(grammar, dir);
    var c := Callbacks(env, known, b.created, run.steps);
    var e := if c.failure.Some? then c.failure.value else run.failure.value;
    assert Generation(env, known, b.created, run) == c.events + [Message(Error, e.description)];
    ItemIsolated(env, known, created, before, path, after,
                 c.events + [Message(Error, e.description)], c.created);
    assert b.events + (c.events + [Message(Error, e.description)]) ==
           b.events + c.events + [Message(Error, e.description)];
  }

  /** Across a whole round, every output opened is a real source file exactly
      for the classes the host's index does not know; the Filer never creates
      a source file twice, nor one it created in an earlier round; and what
      it records as created is exactly what it had plus the round's source
      files. */
  lemma {:induction false} RoundEmission(env: Env, known: set<string>, created: set<string>, queue: seq<string>)
    ensures var r := Round(env, known, created, queue);
      EmissionRespectsIndex(r.events, known) &&
      CreatedOnce(r.events, created) &&
      r.created == created + SourceNames(r.events)
    decreases |queue|
  {
    if queue != [] {
      AttemptOutcome(env, known, created, queue[0]);
      match Attempt(env, known, created, queue[0]) {
        case Escaped(events) =>
          assert SourceNames(events) == {};
        case Completed(events, after) =>
          RoundEmission(env, known, after, queue[1..]);
          CreatedOnceAppend(events, Round(env, known, after, queue[1..]).events, created);
      }
    }
  }

  /** Callbacks in which every class the index does not know is new to the
      Filer, requested once, and created without failure all complete. */
  lemma {:induction false} CallbacksComplete(env: Env, known: set<string>, created: set<string>, steps: seq<GenStep>)
    requires forall i :: 0 <= i < |steps| && steps[i].Open? && steps[i].className !in known ==>
      steps[i].className !in created && env.createSourceFile(steps[i].className).None?
    requires forall i, j :: 0 <= i < j < |steps| && steps[i].Open? && steps[j] == steps[i] ==>
      steps[i].className in known
    ensures Callbacks(env, known, created, steps).failure.None?
    decreases |steps|
  {
    if steps != [] {
      var tail := steps[1..];
      forall i, j | 0 <= i < j < |tail| && tail[i].Open? && tail[j] == tail[i]
        ensures tail[i].className in known
      {
        assert tail[i] == steps[i + 1] && tail[j] == steps[j + 1];
      }
      match steps[0] {
        case Warn(text) =>
          CallbacksComplete(env, known, created, tail);
        case Open(className) =>
          var o := OpenOutput(env, known, created, className);
          var after := CreatedAfter(created, className, o);
          forall i | 0 <= i < |tail| && tail[i].Open? && tail[i].className !in known
            ensures tail[i].className !in after && env.createSourceFile(tail[i].className).None?
          {
            assert tail[i] == steps[i + 1];
          }
          CallbacksComplete(env, known, after, tail);
      }
    }
  }

  /** A generator run that throws nothing, and whose requests for classes the
      index does not know are each for a new class, made once, that the Filer
      creates, forwards every warning and answers every output request, in
      the order the generator made them, and prints no ERROR. */
  lemma GenerationForwardsAll(env: Env, known: set<string>, created: set<string>, run: GenRun)
    requires run.failure.None?
    requires forall i :: 0 <= i < |run.steps| && run.steps[i].Open? && run.steps[i].className !in known ==>
      run.steps[i].className !in created && env.createSourceFile(run.steps[i].className).None?
    requires forall i, j :: 0 <= i < j < |run.steps| && run.steps[i].Open? && run.steps[j] == run.steps[i] ==>
      run.steps[i].className in known
    ensures var events := Generation(env, known, created, run);
      |events| == |run.steps| &&
      (forall i :: 0 <= i < |events| ==> StepOf(events[i]) == run.steps[i]) &&
      (forall e :: e in events ==> !IsError(e))
  {
    CallbacksComplete(env, known, created, run.steps);
    CallbacksOutcome(env, known, created, run.steps);
  }
}
