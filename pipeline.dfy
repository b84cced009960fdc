/** The per-block pipeline of the newer engine (lib/pipeline.js): the configured task
    list is copied, the builtin gulp-concat stage is put in place of the first
    `'concat'` entry (or in front of the list), a final stage handing every file to
    `push` is appended, and the block's files are threaded through the chain. */
module Pipeline {
  import opened Common
  import opened Stages

  /** The builtin stage: gulp-concat named `name` (or "filename.temp" when `name` is
      absent) with '\n' as separator. */
  function BuiltinConcat(name: string): Stage
  {
    GulpConcat(if name != "" then name else "filename.temp", "\n")
  }

  /** The prepared task list. The first `'concat'` entry is replaced in place and
      every other entry (later `'concat'` entries included) stays where it was; when
      there is none the builtin is put in front. The push stage always comes last. */
  function Prepared(name: string, tasks: seq<Task>): (r: seq<Task>)
    ensures |r| == |tasks| + (if Named("concat") in tasks then 1 else 2)
    ensures r[|r| - 1] == Ready(Forward)
    ensures Named("concat") !in tasks ==>
      r[0] == Ready(BuiltinConcat(name)) && r[1..|r| - 1] == tasks
    ensures Named("concat") in tasks ==>
      var k := IndexOfNamed(tasks, "concat");
      && r[k] == Ready(BuiltinConcat(name))
      && Named("concat") !in tasks[..k]
      && forall j :: 0 <= j < |tasks| && j != k ==> r[j] == tasks[j]
  {
    var k := IndexOfNamed(tasks, "concat");
    (if k == -1 then [Ready(BuiltinConcat(name))] + tasks else tasks[k := Ready(BuiltinConcat(name))])
    + [Ready(Forward)]
  }

  /** Task preparation as the source does it, on a copy of the caller's list. */
  method PrepareTasks(name: string, tasks: seq<Task>) returns (prepared: seq<Task>)
    ensures prepared == Prepared(name, tasks)
  {
    prepared := tasks;
    var concatIndex := IndexOfNamed(prepared, "concat");
    if concatIndex == -1 {
      prepared := [Ready(BuiltinConcat(name))] + prepared;
    } else {
      prepared := prepared[concatIndex := Ready(BuiltinConcat(name))];
    }
    prepared := prepared + [Ready(Forward)];
  }

  /** A list entry as the chain uses it: a function is called to obtain its stage,
      a stream is used as it is, and a string cannot be piped into. */
  function Instantiate(t: Task): Result<Stage>
  {
    match t
    case Named(text) => Err(NotAStream(text))
    case Ready(s) => Ok(s)
    case Factory(s) => Ok(s)
  }

  /** The chain built from a list, or the failure of its first unusable entry. */
  function Instantiated(tasks: seq<Task>): Result<seq<Stage>>
  {
    if tasks == [] then Ok([])
    else
      match Instantiated(tasks[..|tasks| - 1])
      case Err(e) => Err(e)
      case Ok(ss) =>
        match Instantiate(tasks[|tasks| - 1])
        case Err(e) => Err(e)
        case Ok(s) => Ok(ss + [s])
  }

  /** The files flowing out of a chain, and those handed to `push` on the way. */
  datatype Flow = Flow(files: seq<File>, pushed: seq<File>)

  function Step(s: Stage, flow: Flow, ext: Transforms): Flow
  {
    var out := Apply(s, flow.files, ext);
    Flow(out, if s == Forward then flow.pushed + out else flow.pushed)
  }

  /** The files written at the head of the chain, passed through every stage in order. */
  function Thread(ss: seq<Stage>, files: seq<File>, ext: Transforms): Flow
  {
    if ss == [] then Flow(files, [])
    else Step(ss[|ss| - 1], Thread(ss[..|ss| - 1], files, ext), ext)
  }

  /** The files coming out of a list of stages. */
  function Through(ss: seq<Stage>, files: seq<File>, ext: Transforms): seq<File>
  {
    if ss == [] then files
    else Apply(ss[|ss| - 1], Through(ss[..|ss| - 1], files, ext), ext)
  }

  /** What a pipeline run hands to `push`. */
  function Pushed(name: string, files: seq<File>, tasks: seq<Task>, ext: Transforms): Result<seq<File>>
  {
    match Instantiated(Prepared(name, tasks))
    case Err(e) => Err(e)
    case Ok(ss) => Ok(Thread(ss, files, ext).pushed)
  }

  /** Once a prefix of the list fails, the whole list fails the same way. */
  lemma {:induction false} InstantiatedErrPersists(x: seq<Task>, c: seq<Task>)
    requires Instantiated(x).Err?
    ensures Instantiated(x + c) == Instantiated(x)
    decreases |c|
  {
    if c != [] {
      assert (x + c)[..|x + c| - 1] == x + c[..|c| - 1];
      InstantiatedErrPersists(x, c[..|c| - 1]);
    } else {
      assert x + c == x;
    }
  }

  /** Runs the pipeline: prepares the list, builds the chain entry by entry, writes
      the files at its head and ends it. */
  method Run(name: string, files: seq<File>, tasks: seq<Task>, ext: Transforms) returns (r: Result<seq<File>>)
    ensures r == Pushed(name, files, tasks, ext)
  {
    var prepared := PrepareTasks(name, tasks);
    var chain: seq<Stage> := [];
    var i := 0;
    while i < |prepared|
      invariant 0 <= i <= |prepared|
      invariant Instantiated(prepared[..i]) == Ok(chain)
    {
      assert prepared[..i + 1][..i] == prepared[..i];
      var s := Instantiate(prepared[i]);
      if s.Err? {
        assert Instantiated(prepared[..i + 1]) == Err(s.error);
        InstantiatedErrPersists(prepared[..i + 1], prepared[i + 1..]);
        assert prepared[..i + 1] + prepared[i + 1..] == prepared;
        return Err(s.error);
      }
      chain := chain + [s.value];
      i := i + 1;
    }
    assert prepared[..|prepared|] == prepared;
    var flow := Flow(files, []);
    for j := 0 to |chain|
      invariant flow == Thread(chain[..j], files, ext)
    {
      assert chain[..j + 1][..j] == chain[..j];
      flow := Step(chain[j], flow, ext);
    }
    assert chain[..|chain|] == chain;
    r := Ok(flow.pushed);
  }

  lemma {:induction false} InstantiatedStreams(tasks: seq<Task>)
    requires forall k :: 0 <= k < |tasks| ==> !tasks[k].Named?
    ensures Instantiated(tasks) == Ok(StagesOf(tasks))
  {
    if tasks != [] {
      InstantiatedStreams(tasks[..|tasks| - 1]);
      assert StagesOf(tasks) == StagesOf(tasks[..|tasks| - 1]) + [tasks[|tasks| - 1].stage];
    }
  }

  lemma {:induction false} ThroughAppend(a: seq<Stage>, b: seq<Stage>, files: seq<File>, ext: Transforms)
    ensures Through(a + b, files, ext) == Through(b, Through(a, files, ext), ext)
    decreases |b|
  {
    if b == [] {
      assert a + b == a;
    } else {
      assert (a + b)[..|a + b| - 1] == a + b[..|b| - 1];
      ThroughAppend(a, b[..|b| - 1], files, ext);
    }
  }

  /** Without a push stage in the chain nothing is pushed, and the chain's output is
      the threaded files. */
  lemma {:induction false} ThreadWithoutForward(ss: seq<Stage>, files: seq<File>, ext: Transforms)
    requires Forward !in ss
    ensures Thread(ss, files, ext) == Flow(Through(ss, files, ext), [])
  {
    if ss != [] {
      assert Forward !in ss[..|ss| - 1];
      ThreadWithoutForward(ss[..|ss| - 1], files, ext);
    }
  }

  lemma PreparedWithoutConcat(name: string, tasks: seq<Task>)
    requires Named("concat") !in tasks
    ensures Prepared(name, tasks) == [Ready(BuiltinConcat(name))] + tasks + [Ready(Forward)]
  {
  }

  lemma PreparedAtConcat(name: string, before: seq<Task>, after: seq<Task>)
    requires Named("concat") !in before
    ensures Prepared(name, before + [Named("concat")] + after)
         == before + [Ready(BuiltinConcat(name))] + after + [Ready(Forward)]
  {
    var tasks := before + [Named("concat")] + after;
    assert tasks[..|before|] == before;
    assert tasks[|before|] == Named("concat");
    assert IndexOfNamed(tasks, "concat") == |before|;
  }

  /** A chain of stream entries ending in the push stage hands to `push` what the
      stages before it emit. */
  lemma PushedOfChain(name: string, files: seq<File>, tasks: seq<Task>, ext: Transforms, ss: seq<Stage>)
    requires Instantiated(Prepared(name, tasks)) == Ok(ss + [Forward])
    requires Forward !in ss
    ensures Pushed(name, files, tasks, ext) == Ok(Through(ss, files, ext))
  {
    ThreadWithoutForward(ss, files, ext);
    var chain := ss + [Forward];
    assert chain[..|chain| - 1] == ss;
    assert chain[|chain| - 1] == Forward;
    var out := Through(ss, files, ext);
    assert Thread(chain, files, ext) == Step(Forward, Flow(out, []), ext);
    assert [] + out == out;
  }

  lemma NoNamedEntry(tasks: seq<Task>, text: string)
    requires forall k :: 0 <= k < |tasks| ==> !tasks[k].Named?
    ensures Named(text) !in tasks
  {
  }

  /** Streams of configured stages, none of them the push stage. */
  predicate PlainStreams(tasks: seq<Task>)
  {
    forall k :: 0 <= k < |tasks| ==> !tasks[k].Named? && tasks[k].stage != Forward
  }

  lemma StagesOfAppend(a: seq<Task>, b: seq<Task>)
    requires forall k :: 0 <= k < |a| ==> !a[k].Named?
    requires forall k :: 0 <= k < |b| ==> !b[k].Named?
    ensures forall k :: 0 <= k < |a + b| ==> !(a + b)[k].Named?
    ensures StagesOf(a + b) == StagesOf(a) + StagesOf(b)
  {
  }

  lemma StagesOfPlain(tasks: seq<Task>)
    requires PlainStreams(tasks)
    ensures Forward !in StagesOf(tasks)
  {
  }

  /** The chain of `before`, the builtin, `after` and the push stage. */
  lemma ChainAround(name: string, before: seq<Task>, after: seq<Task>)
    requires PlainStreams(before) && PlainStreams(after)
    ensures
      var ss := StagesOf(before) + [BuiltinConcat(name)] + StagesOf(after);
      && Forward !in ss
      && Instantiated(before + [Ready(BuiltinConcat(name))] + after + [Ready(Forward)]) == Ok(ss + [Forward])
  {
    var c, f := [Ready(BuiltinConcat(name))], [Ready(Forward)];
    assert StagesOf(c) == [BuiltinConcat(name)];
    assert StagesOf(f) == [Forward];
    StagesOfAppend(before, c);
    StagesOfAppend(before + c, after);
    StagesOfAppend(before + c + after, f);
    InstantiatedStreams(before + c + after + f);
    StagesOfPlain(before);
    StagesOfPlain(after);
  }

  /** The chain of the builtin, `tasks` and the push stage. */
  lemma ChainAfterBuiltin(name: string, tasks: seq<Task>)
    requires PlainStreams(tasks)
    ensures
      var ss := [BuiltinConcat(name)] + StagesOf(tasks);
      && Forward !in ss
      && Instantiated([Ready(BuiltinConcat(name))] + tasks + [Ready(Forward)]) == Ok(ss + [Forward])
  {
    var c, f := [Ready(BuiltinConcat(name))], [Ready(Forward)];
    assert StagesOf(c) == [BuiltinConcat(name)];
    assert StagesOf(f) == [Forward];
    StagesOfAppend(c, tasks);
    StagesOfAppend(c + tasks, f);
    InstantiatedStreams(c + tasks + f);
    StagesOfPlain(tasks);
  }

  /** Without a `'concat'` entry, the builtin join runs first, then the configured
      stages in list order, and `push` receives exactly what the last one emits. */
  lemma ImplicitConcatRunsFirst(name: string, files: seq<File>, tasks: seq<Task>, ext: Transforms)
    requires forall k :: 0 <= k < |tasks| ==> !tasks[k].Named? && tasks[k].stage != Forward
    ensures Pushed(name, files, tasks, ext)
         == Ok(Through(StagesOf(tasks), Apply(BuiltinConcat(name), files, ext), ext))
  {
    NoNamedEntry(tasks, "concat");
    PreparedWithoutConcat(name, tasks);
    ChainAfterBuiltin(name, tasks);
    PushedOfChain(name, files, tasks, ext, [BuiltinConcat(name)] + StagesOf(tasks));
    ThroughAppend([BuiltinConcat(name)], StagesOf(tasks), files, ext);
    assert [BuiltinConcat(name)][..0] == [];
  }

  /** A `'concat'` entry marks where the join runs: the stages before it see the
      block's separate files, those after it see the joined file. */
  lemma ExplicitConcatInPlace(name: string, files: seq<File>, before: seq<Task>, after: seq<Task>, ext: Transforms)
    requires forall k :: 0 <= k < |before| ==> !before[k].Named? && before[k].stage != Forward
    requires forall k :: 0 <= k < |after| ==> !after[k].Named? && after[k].stage != Forward
    ensures Pushed(name, files, before + [Named("concat")] + after, ext)
         == Ok(Through(StagesOf(after), Apply(BuiltinConcat(name), Through(StagesOf(before), files, ext), ext), ext))
  {
    NoNamedEntry(before, "concat");
    PreparedAtConcat(name, before, after);
    ChainAround(name, before, after);
    var ss := StagesOf(before) + [BuiltinConcat(name)] + StagesOf(after);
    PushedOfChain(name, files, before + [Named("concat")] + after, ext, ss);
    ThroughAppend(StagesOf(before) + [BuiltinConcat(name)], StagesOf(after), files, ext);
    ThroughAppend(StagesOf(before), [BuiltinConcat(name)], files, ext);
    assert [BuiltinConcat(name)][..0] == [];
  }

  /** Only the first `'concat'` entry is replaced: a second one stays a string, which
      cannot be piped into, so the run fails before any file is pushed. */
  lemma SecondConcatEntryFails(name: string, files: seq<File>, before: seq<Task>, middle: seq<Task>, after: seq<Task>, ext: Transforms)
    requires forall k :: 0 <= k < |before| ==> !before[k].Named?
    requires forall k :: 0 <= k < |middle| ==> !middle[k].Named?
    ensures Pushed(name, files, before + [Named("concat")] + middle + [Named("concat")] + after, ext)
         == Err(NotAStream("concat"))
  {
    NoNamedEntry(before, "concat");
    var n, c, f := [Named("concat")], [Ready(BuiltinConcat(name))], [Ready(Forward)];
    var rest := middle + n + after;
    SeqAppendAssoc(before + n + middle, n, after);
    SeqAppendAssoc(before + n, middle, n);
    SeqAppendAssoc(before + n, middle + n, after);
    PreparedAtConcat(name, before, rest);
    var head := before + c + middle;
    SeqAppendAssoc(before + c, middle, n);
    SeqAppendAssoc(before + c, middle + n, after);
    SeqAppendAssoc(head + n, after, f);
    StagesOfAppend(before, c);
    StagesOfAppend(before + c, middle);
    InstantiatedStreams(head);
    var h := head + n;
    assert h[..|h| - 1] == head;
    assert Instantiated(h) == Err(NotAStream("concat"));
    InstantiatedErrPersists(h, after + f);
  }
}
