/** The `grammars` processor option: a list of grammar files joined with the
    platform's path separator, read once when the processor is initialised. */
module GrammarOptions {

  /** Name of the processor option that lists the grammar files. */
  const GrammarsOption: string := "grammars"

  /** `String.trim().isEmpty()`: every character is at most U+0020, so the
      empty string is blank too. */
  predicate IsEmptyOrSpaces(s: string) {
    forall i :: 0 <= i < |s| ==> s[i] <= ' '
  }

  /** Every stretch of `s` between occurrences of `sep`, empty stretches
      included: one more segment than there are separators. */
  function SplitAll(s: string, sep: char): (parts: seq<string>)
    ensures |parts| >= 1
    ensures forall i :: 0 <= i < |parts| ==> sep !in parts[i]
    decreases |s|
  {
    if s == [] then [[]]
    else
      var rest := SplitAll(s[1..], sep);
      if s[0] == sep then [[]] + rest
      else [[s[0]] + rest[0]] + rest[1..]
  }

  /** The segments written one after another with `sep` between them. */
  function Join(parts: seq<string>, sep: char): string
    requires |parts| >= 1
    decreases |parts|
  {
    if |parts| == 1 then parts[0] else parts[0] + [sep] + Join(parts[1..], sep)
  }

  /** The longest prefix of `parts` that does not end with an empty segment. */
  function DropTrailingEmpty(parts: seq<string>): (r: seq<string>)
    ensures r <= parts
    ensures r == [] || r[|r| - 1] != []
    ensures forall i :: |r| <= i < |parts| ==> parts[i] == []
    decreases |parts|
  {
    if parts == [] then []
    else if parts[|parts| - 1] == [] then DropTrailingEmpty(parts[..|parts| - 1])
    else parts
  }

  /** `s.split(Pattern.quote(sep))` with Java's default limit: a string without
      the separator is returned whole (so "" gives [""]); otherwise the
      segments, without the trailing empty ones. */
  function JavaSplit(s: string, sep: char): (parts: seq<string>)
    ensures forall i :: 0 <= i < |parts| ==> sep !in parts[i]
  {
    if sep !in s then [s] else DropTrailingEmpty(SplitAll(s, sep))
  }

  /** The segments that are not blank, kept verbatim and in order
      (`ContainerUtil.findAll(grammars, o -> !StringUtil.isEmptyOrSpaces(o))`). */
  function NonBlank(parts: seq<string>): (r: seq<string>)
    ensures |r| <= |parts|
    ensures forall x :: x in r <==> x in parts && !IsEmptyOrSpaces(x)
    decreases |parts|
  {
    if parts == [] then []
    else if IsEmptyOrSpaces(parts[0]) then NonBlank(parts[1..])
    else [parts[0]] + NonBlank(parts[1..])
  }

  /** `StringUtil.notNullize(options.get(GRAMMARS_OPTION))`. */
  function OptionValue(options: map<string, string>): string {
    if GrammarsOption in options then options[GrammarsOption] else ""
  }

  /** The grammar files `init` adds to the work queue. */
  function GrammarPaths(options: map<string, string>, sep: char): (paths: seq<string>)
    ensures forall i :: 0 <= i < |paths| ==> !IsEmptyOrSpaces(paths[i]) && sep !in paths[i]
    ensures GrammarsOption !in options ==> paths == []
  {
    var parts := JavaSplit(OptionValue(options), sep);
    var r := NonBlank(parts);
    assert forall i :: 0 <= i < |r| ==> r[i] in parts;
    r
  }

  /** Splitting a string without the separator gives the string itself. */
  lemma {:induction false} SplitAllNoSeparator(w: string, sep: char)
    requires sep !in w
    ensures SplitAll(w, sep) == [w]
    decreases |w|
  {
    if w != [] {
      SplitAllNoSeparator(w[1..], sep);
      assert [w[0]] + w[1..] == w;
    }
  }

  /** A separator after a separator-free prefix closes exactly that segment. */
  lemma {:induction false} SplitAllCons(w: string, sep: char, t: string)
    requires sep !in w
    ensures SplitAll(w + [sep] + t, sep) == [w] + SplitAll(t, sep)
    decreases |w|
  {
    var s := w + [sep] + t;
    if w == [] {
      assert s[1..] == t;
    } else {
      assert s[1..] == w[1..] + [sep] + t;
      SplitAllCons(w[1..], sep, t);
      assert [w[0]] + w[1..] == w;
    }
  }

  /** Joining the segments gives back the string that was split. */
  lemma {:induction false} JoinSplitAll(s: string, sep: char)
    ensures Join(SplitAll(s, sep), sep) == s
    decreases |s|
  {
    if s != [] {
      var rest := SplitAll(s[1..], sep);
      JoinSplitAll(s[1..], sep);
      if s[0] == sep {
        assert ([[]] + rest)[1..] == rest;
        assert s == [sep] + s[1..];
      } else {
        var parts := [[s[0]] + rest[0]] + rest[1..];
        if |rest| == 1 {
          assert s == [s[0]] + rest[0];
        } else {
          assert parts[1..] == rest[1..];
          assert Join(rest, sep) == rest[0] + [sep] + Join(rest[1..], sep);
          assert s == [s[0]] + s[1..];
        }
      }
    }
  }

  /** Splitting separator-free segments that were joined gives them back. */
  lemma {:induction false} SplitAllJoin(parts: seq<string>, sep: char)
    requires |parts| >= 1
    requires forall i :: 0 <= i < |parts| ==> sep !in parts[i]
    ensures SplitAll(Join(parts, sep), sep) == parts
    decreases |parts|
  {
    if |parts| == 1 {
      SplitAllNoSeparator(parts[0], sep);
    } else {
      SplitAllJoin(parts[1..], sep);
      SplitAllCons(parts[0], sep, Join(parts[1..], sep));
      assert [parts[0]] + parts[1..] == parts;
    }
  }

  /** Filtering distributes over concatenation: order is kept. */
  lemma {:induction false} NonBlankAppend(a: seq<string>, b: seq<string>)
    ensures NonBlank(a + b) == NonBlank(a) + NonBlank(b)
    decreases |a|
  {
    if a == [] {
      assert a + b == b;
    } else {
      assert (a + b)[1..] == a[1..] + b;
      NonBlankAppend(a[1..], b);
    }
  }

  /** Blank segments alone leave nothing behind. */
  lemma {:induction false} NonBlankAllBlank(parts: seq<string>)
    requires forall i :: 0 <= i < |parts| ==> IsEmptyOrSpaces(parts[i])
    ensures NonBlank(parts) == []
    decreases |parts|
  {
    if parts != [] {
      NonBlankAllBlank(parts[1..]);
    }
  }

  /** Java's dropping of trailing empty segments is invisible once blank
      segments are filtered out: the queue holds exactly the non-blank
      segments between separators. */
  lemma JavaSplitNonBlank(s: string, sep: char)
    ensures NonBlank(JavaSplit(s, sep)) == NonBlank(SplitAll(s, sep))
  {
    var all := SplitAll(s, sep);
    if sep !in s {
      SplitAllNoSeparator(s, sep);
    } else {
      var kept := DropTrailingEmpty(all);
      var tail := all[|kept|..];
      assert all == kept + tail;
      NonBlankAppend(kept, tail);
      NonBlankAllBlank(tail);
    }
  }

  /** For any option string, the queue is exactly the non-blank segments
      between separators, verbatim and in order. */
  lemma GrammarPathsSegments(options: map<string, string>, sep: char)
    ensures GrammarPaths(options, sep) == NonBlank(SplitAll(OptionValue(options), sep))
  {
    JavaSplitNonBlank(OptionValue(options), sep);
  }

  /** The option round trip: when a build tool joins grammar files with the
      path separator, `init` queues exactly the non-blank ones, verbatim and
      in order. */
  lemma GrammarPathsOfJoined(options: map<string, string>, parts: seq<string>, sep: char)
    requires |parts| >= 1
    requires forall i :: 0 <= i < |parts| ==> sep !in parts[i]
    requires GrammarsOption in options && options[GrammarsOption] == Join(parts, sep)
    ensures GrammarPaths(options, sep) == NonBlank(parts)
  {
    JavaSplitNonBlank(Join(parts, sep), sep);
    SplitAllJoin(parts, sep);
  }
}
