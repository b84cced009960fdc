/** Transform stages and the entries of a configured task list, shared by both
    generations of the engine. A stage maps the files that reach it to the files it
    emits; third-party transforms are opaque and supplied by the caller. */
module Stages {
  import opened Common
  import opened Strings
  import Paths
  import Concat

  datatype Stage =
    | GulpConcat(name: string, newLine: string)   // the gulp-concat plugin
    | UseminConcat(eol: string)                   // src/concat.js, created without a name
    | External(id: nat)                           // a third-party transform (minifier, ...)
    | Forward                                     // hands every arriving file to `push`

  /** An entry of a configured task list: a string, a ready stream, or a function
      that returns a stream when called with no arguments. */
  datatype Task = Named(text: string) | Ready(stage: Stage) | Factory(stage: Stage)

  /** What the third-party transforms do, indexed by their `External` id. */
  type Transforms = (nat, seq<File>) -> seq<File>

  /** gulp-concat, whose source is not part of this model, taken as a single-file
      join: nothing for no input, otherwise one file under the first file's base
      holding the contents joined with `newLine`. */
  function GulpConcatOutput(name: string, newLine: string, files: seq<File>): seq<File>
  {
    if files == [] then []
    else [File(Paths.Join(files[0].base, name), files[0].base, JoinWith(ContentsOf(files), newLine))]
  }

  /** The files a stage emits for the files that reach it. */
  function Apply(s: Stage, files: seq<File>, ext: Transforms): seq<File>
  {
    match s
    case GulpConcat(name, newLine) => GulpConcatOutput(name, newLine, files)
    case UseminConcat(eol) => Concat.Output(files, "", eol)
    case External(id) => ext(id, files)
    case Forward => files
  }

  /** `tasks.indexOf(text)`: the first string entry equal to `text`, or -1. */
  function IndexOfNamed(tasks: seq<Task>, text: string): (r: int)
    ensures -1 <= r < |tasks|
    ensures r >= 0 ==> tasks[r] == Named(text) && Named(text) !in tasks[..r]
    ensures r == -1 <==> Named(text) !in tasks
  {
    if tasks == [] then -1
    else if tasks[0] == Named(text) then 0
    else
      var r := IndexOfNamed(tasks[1..], text);
      assert tasks == [tasks[0]] + tasks[1..];
      if r == -1 then -1
      else
        assert tasks[..r + 1] == [tasks[0]] + tasks[1..][..r];
        r + 1
  }

  /** The stages of task entries that are all streams or stream factories. */
  function StagesOf(tasks: seq<Task>): (r: seq<Stage>)
    requires forall k :: 0 <= k < |tasks| ==> !tasks[k].Named?
    ensures |r| == |tasks| && forall k :: 0 <= k < |tasks| ==> r[k] == tasks[k].stage
  {
    seq(|tasks|, k requires 0 <= k < |tasks| => tasks[k].stage)
  }
}
