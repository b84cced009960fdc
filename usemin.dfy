/** The older engine (index.js): splits an HTML file on its end markers, runs the
    references of every marked section through that section's task list, writes a
    fragment of tags back in the section's place and runs the rebuilt page through
    the `html` task list. Its builtin concatenation is src/concat.js. */
module Usemin {
  import opened Common
  import opened Strings
  import opened Markup
  import opened Stages
  import opened Loading
  import Paths
  import Pipeline

  /** What the plugin runs against: the glob and the disk, the platform's end of
      line, and the third-party transforms named in the task lists. */
  datatype Host = Host(fs: FileSystem, eol: string, ext: Transforms)

  /** A file arriving at the plugin: no contents, live stream contents, or a page
      already read into memory (its contents are the text of `doc`). */
  datatype Input = NullFile(file: File) | StreamFile(file: File) | BufferFile(doc: Document)

  /** What the plugin hands on for one page: the built asset files, in the order they
      are pushed, then the page itself (absent when the `html` list emits nothing). */
  datatype Emitted = Emitted(pushed: seq<File>, passed: Option<File>)

  /** A result together with the task lists as the run leaves them. */
  datatype Outcome = Outcome(result: Result<Emitted>, pipelines: map<string, seq<Task>>)

  // ---------------------------------------------------------------------------
  // getFiles

  /** A value as the index.js patterns capture it: a double quote, at least one
      character that is not a double quote, and a closing double quote. */
  predicate DoubleQuoted(v: string)
  {
    |v| >= 3 && v[0] == '"' && v[|v| - 1] == '"' && forall k :: 1 <= k < |v| - 1 ==> v[k] != '"'
  }

  /** Whether the raw body, comments and conditionals included, holds a script tag
      the script pattern matches. */
  predicate SniffsScript(body: seq<Piece>)
  {
    exists r :: r in AllTags(body) && r.Script? && DoubleQuoted(r.src)
  }

  /** The value the chosen pattern captures from one tag, without its quotes. */
  function CaptureOf(r: Reference, js: bool): seq<string>
  {
    match r
    case Script(src) => if js && DoubleQuoted(src) then [src[1..|src| - 1]] else []
    case Link(href, _) => if !js && DoubleQuoted(href) then [href[1..|href| - 1]] else []
  }

  /** A captured value resolved against the alternate path, else the page's
      directory, and re-rooted under `assetsDir` relative to the base when set. */
  function Located(v: string, alternatePath: string, rootPath: string, basePath: string, assetsDir: string): string
  {
    var p := Paths.Join(if alternatePath != "" then alternatePath else rootPath, v);
    if assetsDir != "" then Paths.Join(assetsDir, Paths.Relative(basePath, p)) else p
  }

  /** The path one tag contributes, if the chosen pattern captures it. */
  function SourceOf(r: Reference, js: bool, alternatePath: string, rootPath: string, basePath: string, assetsDir: string): seq<string>
  {
    var captured := CaptureOf(r, js);
    if captured == [] then [] else [Located(captured[0], alternatePath, rootPath, basePath, assetsDir)]
  }

  /** The paths the scan collects from the (comment-free) tags, in tag order. */
  function Sources(tags: seq<Reference>, js: bool, alternatePath: string, rootPath: string, basePath: string, assetsDir: string): (r: seq<string>)
    ensures |r| <= |tags|
  {
    if tags == [] then []
    else
      Sources(tags[..|tags| - 1], js, alternatePath, rootPath, basePath, assetsDir)
      + SourceOf(tags[|tags| - 1], js, alternatePath, rootPath, basePath, assetsDir)
  }

  lemma SourcesStep(tags: seq<Reference>, i: nat, js: bool, alternatePath: string, rootPath: string, basePath: string, assetsDir: string)
    requires i < |tags|
    ensures Sources(tags[..i + 1], js, alternatePath, rootPath, basePath, assetsDir)
         == Sources(tags[..i], js, alternatePath, rootPath, basePath, assetsDir)
            + SourceOf(tags[i], js, alternatePath, rootPath, basePath, assetsDir)
  {
    assert tags[..i + 1][..i] == tags[..i];
  }

  /** `getFiles`: the kind is sniffed on the raw body, the scan runs on the body
      with comments and conditionals removed, then every path is globbed and read. */
  function GetFilesSpec(body: seq<Piece>, alternatePath: string, rootPath: string, basePath: string, assetsDir: string, fs: FileSystem): Result<seq<File>>
  {
    LoadFrom(Sources(ScannedTags(body, false), SniffsScript(body), alternatePath, rootPath, basePath, assetsDir), fs)
  }

  /** The values the chosen pattern captures from the tags, in tag order. */
  function Captured(tags: seq<Reference>, js: bool): seq<string>
  {
    if tags == [] then [] else Captured(tags[..|tags| - 1], js) + CaptureOf(tags[|tags| - 1], js)
  }

  /** The scan collects exactly the captured values, each located, in tag order:
      one path per double-quoted value of the chosen kind and none for any other tag. */
  lemma {:induction false} SourcesLocated(tags: seq<Reference>, js: bool, alternatePath: string, rootPath: string, basePath: string, assetsDir: string)
    ensures var r := Sources(tags, js, alternatePath, rootPath, basePath, assetsDir);
      var vs := Captured(tags, js);
      |r| == |vs| && forall k :: 0 <= k < |vs| ==> r[k] == Located(vs[k], alternatePath, rootPath, basePath, assetsDir)
  {
    if tags != [] {
      var init := tags[..|tags| - 1];
      SourcesLocated(init, js, alternatePath, rootPath, basePath, assetsDir);
      var r0 := Sources(init, js, alternatePath, rootPath, basePath, assetsDir);
      var v0 := Captured(init, js);
      var r := Sources(tags, js, alternatePath, rootPath, basePath, assetsDir);
      var vs := Captured(tags, js);
      assert r == r0 + SourceOf(tags[|tags| - 1], js, alternatePath, rootPath, basePath, assetsDir);
      assert vs == v0 + CaptureOf(tags[|tags| - 1], js);
      forall k | 0 <= k < |vs| ensures r[k] == Located(vs[k], alternatePath, rootPath, basePath, assetsDir) {
        if k < |v0| {
          assert r[k] == r0[k] && vs[k] == v0[k];
        }
      }
    }
  }

  /** One tag's `replace` callback: the captured value, located, if any. */
  method LocateTag(r: Reference, js: bool, alternatePath: string, rootPath: string, basePath: string, assetsDir: string)
    returns (found: seq<string>)
    ensures found == SourceOf(r, js, alternatePath, rootPath, basePath, assetsDir)
  {
    var captured := CaptureOf(r, js);
    found := [];
    if captured != [] {
      found := [Located(captured[0], alternatePath, rootPath, basePath, assetsDir)];
    }
  }

  /** The `replace` callback run over the scanned tags: every captured value is
      located and collected, in tag order. */
  method CollectPaths(tags: seq<Reference>, js: bool, alternatePath: string, rootPath: string, basePath: string, assetsDir: string)
    returns (paths: seq<string>)
    ensures paths == Sources(tags, js, alternatePath, rootPath, basePath, assetsDir)
  {
    paths := [];
    var i := 0;
    while i < |tags|
      invariant 0 <= i <= |tags|
      invariant paths == Sources(tags[..i], js, alternatePath, rootPath, basePath, assetsDir)
    {
      SourcesStep(tags, i, js, alternatePath, rootPath, basePath, assetsDir);
      var found := LocateTag(tags[i], js, alternatePath, rootPath, basePath, assetsDir);
      paths := paths + found;
      i := i + 1;
    }
    assert tags[..|tags|] == tags;
  }

  method GetFiles(body: seq<Piece>, alternatePath: string, rootPath: string, basePath: string, assetsDir: string, fs: FileSystem)
    returns (r: Result<seq<File>>)
    ensures r == GetFilesSpec(body, alternatePath, rootPath, basePath, assetsDir, fs)
  {
    var js := SniffsScript(body);
    var paths := CollectPaths(ScannedTags(body, false), js, alternatePath, rootPath, basePath, assetsDir);
    r := LoadFiles(paths, fs);
  }

  /** With `assetsDir` set, a reference whose root (the alternate path, else the
      HTML file's directory) lies in or below the base directory keeps its place
      below the base and moves under `assetsDir`. */
  lemma AssetsDirReroot(v: string, alternatePath: string, rootPath: string, basePath: string, sub: string, assetsDir: string)
    requires assetsDir != "" && basePath != "" && v != ""
    requires (if alternatePath != "" then alternatePath else rootPath) == Paths.Join(basePath, sub)
    ensures Located(v, alternatePath, rootPath, basePath, assetsDir)
         == Paths.Join(assetsDir, Paths.Join(sub, v))
  {
    if sub != "" {
      Paths.JoinAssociative(basePath, sub, v);
    }
    Paths.RelativeJoin(basePath, Paths.Join(sub, v));
  }

  /** The scans of one tag on its own. */
  lemma LoneTag(r: Reference)
    ensures TagsOf([Tag(r)]) == [r]
    ensures AllTags([Plain(Tag(r))]) == [r]
    ensures ScannedTags([Plain(Tag(r))], false) == [r]
  {
    assert [Tag(r)][1..] == [];
    assert [Plain(Tag(r))][1..] == [];
  }

  /** A script tag inside a comment still decides the kind, but the scan no longer
      sees it: a stylesheet block with a commented-out script loads nothing. */
  lemma CommentedScriptHidesStylesheets(rootPath: string, basePath: string, fs: FileSystem)
    ensures
      var body := [Plain(Tag(Link("\"a.css\"", None))), Commented([Tag(Script("\"x.js\""))])];
      GetFilesSpec(body, "", rootPath, basePath, "", fs) == Ok([])
  {
    var body := [Plain(Tag(Link("\"a.css\"", None))), Commented([Tag(Script("\"x.js\""))])];
    var rest := [Commented([Tag(Script("\"x.js\""))])];
    assert body[1..] == rest;
    assert rest[1..] == [];
    LoneTag(Link("\"a.css\"", None));
    LoneTag(Script("\"x.js\""));
    assert AllTags(rest) == [Script("\"x.js\"")];
    assert AllTags(body) == [Link("\"a.css\"", None), Script("\"x.js\"")];
    assert Script("\"x.js\"") in AllTags(body);
    assert DoubleQuoted("\"x.js\"");
    assert SniffsScript(body);
    assert ScannedTags(rest, false) == [];
    var tags := ScannedTags(body, false);
    assert tags == [Link("\"a.css\"", None)];
    assert tags[..0] == [];
    assert Sources(tags, true, "", rootPath, basePath, "") == [];
  }

  /** A stylesheet reference in single quotes is not captured at all. */
  lemma SingleQuotedLinkSkipped(rootPath: string, basePath: string, fs: FileSystem)
    ensures GetFilesSpec([Plain(Tag(Link("'a.css'", None)))], "", rootPath, basePath, "", fs) == Ok([])
  {
    var body := [Plain(Tag(Link("'a.css'", None)))];
    LoneTag(Link("'a.css'", None));
    var tags := ScannedTags(body, false);
    assert tags[..0] == [];
    assert !DoubleQuoted("'a.css'");
  }

  /** One double-quoted script resolved against the page's directory. */
  lemma OneScriptReference(rootPath: string, basePath: string, fs: FileSystem)
    requires rootPath != ""
    ensures
      var body := [Plain(Tag(Script("\"app.js\"")))];
      GetFilesSpec(body, "", rootPath, basePath, "", fs) == LoadFrom([rootPath + "/app.js"], fs)
  {
    var body := [Plain(Tag(Script("\"app.js\"")))];
    LoneTag(Script("\"app.js\""));
    assert Script("\"app.js\"") in AllTags(body);
    assert DoubleQuoted("\"app.js\"");
    var tags := ScannedTags(body, false);
    assert tags[..0] == [];
    assert "\"app.js\""[1..7] == "app.js";
    assert CaptureOf(Script("\"app.js\""), true) == ["app.js"];
    assert Located("app.js", "", rootPath, basePath, "") == rootPath + "/app.js";
    assert Sources(tags, true, "", rootPath, basePath, "") == [rootPath + "/app.js"];
  }

  // ---------------------------------------------------------------------------
  // process

  /** `options[id] || []`. */
  function TasksOf(pipelines: map<string, seq<Task>>, id: string): seq<Task>
  {
    if id in pipelines then pipelines[id] else []
  }

  /** The list `process` pipes through: the first 'concat' entry becomes the
      builtin, or the builtin is put in front of an empty list or of any list when
      `skipConcat` is off. */
  function IndexPrepared(tasks: seq<Task>, skipConcat: bool, eol: string): (r: seq<Task>)
    ensures r != []
    ensures |r| == |tasks| + (if Named("concat") in tasks || (tasks != [] && skipConcat) then 0 else 1)
  {
    var k := IndexOfNamed(tasks, "concat");
    if k != -1 then tasks[k := Ready(UseminConcat(eol))]
    else if tasks == [] || !skipConcat then [Ready(UseminConcat(eol))] + tasks
    else tasks
  }

  /** The task lists after `process` prepared list `id`: the list is edited in the
      options themselves, while a missing list is a fresh one that is not kept. */
  function Stored(pipelines: map<string, seq<Task>>, id: string, skipConcat: bool, eol: string): map<string, seq<Task>>
  {
    if id in pipelines then pipelines[id := IndexPrepared(pipelines[id], skipConcat, eol)] else pipelines
  }

  /** How an entry that cannot be piped into is reported. */
  function EntryText(t: Task): string
  {
    match t
    case Named(text) => text
    case Ready(_) => ""
    case Factory(_) => "function"
  }

  /** `multipipe(tasks)`: every entry is used as the stream it is; a string or a
      function fails. */
  function Streams(tasks: seq<Task>): Result<seq<Stage>>
  {
    if tasks == [] then Ok([])
    else if !tasks[0].Ready? then Err(NotAStream(EntryText(tasks[0])))
    else Prefixed([tasks[0].stage], Streams(tasks[1..]))
  }

  /** The files coming out of `files.pipe(multipipe(tasks))`. */
  function Multipiped(tasks: seq<Task>, files: seq<File>, ext: Transforms): Result<seq<File>>
  {
    match Streams(tasks)
    case Err(e) => Err(e)
    case Ok(ss) => Ok(Pipeline.Through(ss, files, ext))
  }

  /** The chain builds exactly when every entry is a stream; its stages are the
      entries in order, and otherwise the first other entry is reported. */
  lemma {:induction false} StreamsResult(tasks: seq<Task>)
    ensures Streams(tasks).Ok? <==> forall k :: 0 <= k < |tasks| ==> tasks[k].Ready?
    ensures Streams(tasks).Ok? ==>
      |Streams(tasks).value| == |tasks|
      && forall k :: 0 <= k < |tasks| ==> Streams(tasks).value[k] == tasks[k].stage
    ensures Streams(tasks).Err? ==>
      exists k :: 0 <= k < |tasks| && !tasks[k].Ready?
        && Streams(tasks).error == NotAStream(EntryText(tasks[k]))
        && forall j :: 0 <= j < k ==> tasks[j].Ready?
  {
    if tasks != [] && tasks[0].Ready? {
      var rest := tasks[1..];
      StreamsResult(rest);
      if Streams(tasks).Ok? {
        var ss := Streams(tasks).value;
        assert ss == [tasks[0].stage] + Streams(rest).value;
        forall k | 0 <= k < |tasks| ensures tasks[k].Ready? && ss[k] == tasks[k].stage {
          if k > 0 { assert tasks[k] == rest[k - 1]; }
        }
      } else {
        var k :| 0 <= k < |rest| && !rest[k].Ready? && Streams(rest).error == NotAStream(EntryText(rest[k]))
          && forall j :: 0 <= j < k ==> rest[j].Ready?;
        assert tasks[k + 1] == rest[k];
        forall j | 0 <= j < k + 1 ensures tasks[j].Ready? {
          if j > 0 { assert tasks[j] == rest[j - 1]; }
        }
      }
      if forall k :: 0 <= k < |tasks| ==> tasks[k].Ready? {
        forall k | 0 <= k < |rest| ensures rest[k].Ready? {
          assert rest[k] == tasks[k + 1];
        }
      }
    }
  }

  /** Builds the chain entry by entry; the first entry that is not a stream fails. */
  method BuildChain(tasks: seq<Task>) returns (r: Result<seq<Stage>>)
    ensures r == Streams(tasks)
  {
    var stages: seq<Stage> := [];
    var i := 0;
    PrefixedAppend([], [], Streams(tasks));
    assert tasks[0..] == tasks;
    while i < |tasks|
      invariant 0 <= i <= |tasks|
      invariant Streams(tasks) == Prefixed(stages, Streams(tasks[i..]))
    {
      assert tasks[i..][1..] == tasks[i + 1..];
      if !tasks[i].Ready? {
        return Err(NotAStream(EntryText(tasks[i])));
      }
      PrefixedAppend(stages, [tasks[i].stage], Streams(tasks[i + 1..]));
      stages := stages + [tasks[i].stage];
      i := i + 1;
    }
    assert tasks[|tasks|..] == [];
    assert stages + [] == stages;
    return Ok(stages);
  }

  /** Writes the files at the head of the chain and collects what comes out. */
  method PipeThrough(stages: seq<Stage>, files: seq<File>, ext: Transforms) returns (out: seq<File>)
    ensures out == Pipeline.Through(stages, files, ext)
  {
    out := files;
    var k := 0;
    while k < |stages|
      invariant 0 <= k <= |stages|
      invariant out == Pipeline.Through(stages[..k], files, ext)
    {
      assert stages[..k + 1][..k] == stages[..k];
      out := Apply(stages[k], out, ext);
      k := k + 1;
    }
    assert stages[..|stages|] == stages;
  }

  /** `files.pipe(multipipe(tasks))`. */
  method RunStreams(tasks: seq<Task>, files: seq<File>, ext: Transforms) returns (r: Result<seq<File>>)
    ensures r == Multipiped(tasks, files, ext)
  {
    var chain := BuildChain(tasks);
    if chain.Err? {
      return Err(chain.error);
    }
    var out := PipeThrough(chain.value, files, ext);
    return Ok(out);
  }

  /** Preparing a list without a 'concat' string twice (as two runs over the same
      configured list do) puts two builtins in front; with a 'concat' string, the
      second run finds no string left and puts one more in front. */
  lemma PreparedTwice(tasks: seq<Task>, eol: string)
    ensures Named("concat") !in tasks ==>
      IndexPrepared(IndexPrepared(tasks, false, eol), false, eol)
      == [Ready(UseminConcat(eol)), Ready(UseminConcat(eol))] + tasks
    ensures forall before: seq<Task>, after: seq<Task> ::
      tasks == before + [Named("concat")] + after && Named("concat") !in before + after ==>
      IndexPrepared(IndexPrepared(tasks, false, eol), false, eol)
      == [Ready(UseminConcat(eol))] + before + [Ready(UseminConcat(eol))] + after
  {
    var c := Ready(UseminConcat(eol));
    if Named("concat") !in tasks {
      assert Named("concat") !in [c] + tasks;
    }
    forall before: seq<Task>, after: seq<Task> |
      tasks == before + [Named("concat")] + after && Named("concat") !in before + after
      ensures IndexPrepared(IndexPrepared(tasks, false, eol), false, eol) == [c] + before + [c] + after
    {
      ConcatEntryReplaced(before, after, false, eol);
      var once := before + [c] + after;
      assert Named("concat") !in once by {
        forall k | 0 <= k < |once| ensures once[k] != Named("concat") {
          if k < |before| { assert once[k] == (before + after)[k]; }
          else if k > |before| { assert once[k] == (before + after)[k - 1]; }
        }
      }
    }
  }

  /** A 'concat' string is replaced by the builtin at its own position, whatever
      `skipConcat` says. */
  lemma ConcatEntryReplaced(before: seq<Task>, after: seq<Task>, skipConcat: bool, eol: string)
    requires Named("concat") !in before
    ensures IndexPrepared(before + [Named("concat")] + after, skipConcat, eol)
         == before + [Ready(UseminConcat(eol))] + after
  {
    var tasks := before + [Named("concat")] + after;
    var k := IndexOfNamed(tasks, "concat");
    assert tasks[|before|] == Named("concat");
    assert tasks[..|before|] == before;
    assert k == |before|;
  }

  /** Without a 'concat' string: the builtin goes in front unless the list is
      non-empty and `skipConcat` is set, in which case the list is left alone. */
  lemma PreparedWithoutConcatEntry(tasks: seq<Task>, skipConcat: bool, eol: string)
    requires Named("concat") !in tasks
    ensures skipConcat && tasks != [] ==> IndexPrepared(tasks, skipConcat, eol) == tasks
    ensures !skipConcat || tasks == [] ==> IndexPrepared(tasks, skipConcat, eol) == [Ready(UseminConcat(eol))] + tasks
  {
  }

  /** Only a configured list is edited: two runs over a configured list without a
      'concat' string leave two builtins in front of it, and a missing list stays
      missing. */
  lemma StoredLists(pipelines: map<string, seq<Task>>, id: string, eol: string)
    ensures id !in pipelines ==> Stored(pipelines, id, false, eol) == pipelines
    ensures id in pipelines && Named("concat") !in pipelines[id] ==>
      var twice := Stored(Stored(pipelines, id, false, eol), id, false, eol);
      twice.Keys == pipelines.Keys
      && twice[id] == [Ready(UseminConcat(eol)), Ready(UseminConcat(eol))] + pipelines[id]
      && forall other :: other in pipelines && other != id ==> twice[other] == pipelines[other]
  {
    if id in pipelines {
      PreparedTwice(pipelines[id], eol);
    }
  }

  /** With streams only and `skipConcat` off, the files are concatenated by
      src/concat.js before they reach the configured streams. */
  lemma ImplicitConcatFirst(tasks: seq<Task>, files: seq<File>, eol: string, ext: Transforms)
    requires forall k :: 0 <= k < |tasks| ==> tasks[k].Ready?
    ensures Multipiped(IndexPrepared(tasks, false, eol), files, ext).Ok?
    ensures Multipiped(IndexPrepared(tasks, false, eol), files, ext).value
         == Multipiped(tasks, Concat.Output(files, "", eol), ext).value
  {
    var c := Ready(UseminConcat(eol));
    assert Named("concat") !in tasks by {
      forall k | 0 <= k < |tasks| ensures tasks[k] != Named("concat") { }
    }
    var all := [c] + tasks;
    assert IndexPrepared(tasks, false, eol) == all;
    StreamsResult(tasks);
    StreamsResult(all);
    var ss := Streams(tasks).value;
    assert forall k :: 0 <= k < |all| ==> all[k].Ready? by {
      forall k | 0 <= k < |all| ensures all[k].Ready? {
        if k > 0 { assert all[k] == tasks[k - 1]; }
      }
    }
    var whole := Streams(all).value;
    assert whole == [UseminConcat(eol)] + ss by {
      forall k | 0 <= k < |whole| ensures whole[k] == ([UseminConcat(eol)] + ss)[k] {
        if k > 0 { assert all[k] == tasks[k - 1]; }
      }
    }
    Pipeline.ThroughAppend([UseminConcat(eol)], ss, files, ext);
    assert [UseminConcat(eol)][..0] == [];
  }

  // ---------------------------------------------------------------------------
  // processHtml

  /** A section the start pattern matches: a marker with a non-empty path. */
  predicate IsMarker(s: Section)
  {
    s.Marked? && s.marker.path.Some? && s.marker.path.value != ""
  }

  function ScriptRef(target: string): string
  {
    "<script src=\"" + target + "\"></script>"
  }

  function LinkRef(target: string): string
  {
    "<link rel=\"stylesheet\" href=\"" + target + "\"/>"
  }

  /** The tag one built file adds to its fragment, chosen by its extension. */
  function TagFor(target: string, f: File): seq<string>
  {
    var e := Paths.Extname(f.path);
    if e == ".js" then [ScriptRef(target)]
    else if e == ".css" then [LinkRef(target)]
    else []
  }

  /** The tags of the built files, in their order. */
  function FileTags(target: string, files: seq<File>): seq<string>
  {
    if files == [] then []
    else FileTags(target, files[..|files| - 1]) + TagFor(target, files[|files| - 1])
  }

  /** The conditional opener and closer of a body, echoed only as a pair. */
  function CondParts(body: seq<Piece>): (seq<string>, seq<string>)
  {
    match (FirstCondOpen(body), FirstCondClose(body))
    case (Some(o), Some(c)) => ([o], [c])
    case _ => ([], [])
  }

  /** What a marked section becomes once its list has produced `files`: the prefix
      alone when nothing came out, else the prefix, the opener, one tag per
      script or stylesheet file and the closer. */
  function Fragment(prefix: string, body: seq<Piece>, target: string, files: seq<File>): string
  {
    if files == [] then prefix
    else prefix + Strings.Concat(CondParts(body).0 + FileTags(target, files) + CondParts(body).1)
  }

  /** Where a built file is pushed: the marker path taken relative to the page's
      directory. */
  function PushedPath(rootPath: string, target: string): string
  {
    Paths.Relative(rootPath, Paths.Join(rootPath, target))
  }

  /** The built files as pushed, each one renamed to `path`. */
  function Renamed(files: seq<File>, path: string): (r: seq<File>)
    ensures |r| == |files|
    ensures forall k :: 0 <= k < |files| ==> r[k] == files[k].(path := path)
  {
    if files == [] then []
    else Renamed(files[..|files| - 1], path) + [files[|files| - 1].(path := path)]
  }

  /** One more built file adds its own tag, if any, at the end. */
  lemma FileTagsStep(target: string, files: seq<File>, i: nat)
    requires i < |files|
    ensures FileTags(target, files[..i + 1]) == FileTags(target, files[..i]) + TagFor(target, files[i])
  {
    assert files[..i + 1][..i] == files[..i];
  }

  /** One more built file is pushed, renamed, at the end. */
  lemma RenamedStep(files: seq<File>, path: string, i: nat)
    requires i < |files|
    ensures Renamed(files[..i + 1], path) == Renamed(files[..i], path) + [files[i].(path := path)]
  {
    assert files[..i + 1][..i] == files[..i];
  }

  /** The tag of one built file, by its extension. */
  method ChooseTag(target: string, f: File) returns (tag: seq<string>)
    ensures tag == TagFor(target, f)
  {
    var ext := Paths.Extname(f.path);
    tag := [];
    if ext == ".js" {
      tag := [ScriptRef(target)];
    } else if ext == ".css" {
      tag := [LinkRef(target)];
    }
  }

  /** The per-file loop: the tag each built file gets, and the file as pushed. */
  method RenderFiles(target: string, path: string, files: seq<File>) returns (tags: seq<string>, pushed: seq<File>)
    ensures tags == FileTags(target, files)
    ensures pushed == Renamed(files, path)
  {
    tags, pushed := [], [];
    var i := 0;
    while i < |files|
      invariant 0 <= i <= |files|
      invariant tags == FileTags(target, files[..i])
      invariant pushed == Renamed(files[..i], path)
    {
      FileTagsStep(target, files, i);
      RenamedStep(files, path, i);
      var tag := ChooseTag(target, files[i]);
      tags := tags + tag;
      assert tags == FileTags(target, files[..i + 1]);
      pushed := pushed + [files[i].(path := path)];
      i := i + 1;
    }
    assert files[..|files|] == files;
  }

  /** Builds one section's fragment and the files it pushes. */
  method BuildFragment(prefix: string, body: seq<Piece>, target: string, path: string, files: seq<File>)
    returns (text: string, pushed: seq<File>)
    requires files != []
    ensures text == Fragment(prefix, body, target, files)
    ensures pushed == Renamed(files, path)
  {
    var html: seq<string> := [prefix];
    var open := FirstCondOpen(body);
    var close := FirstCondClose(body);
    if open.Some? && close.Some? {
      html := html + [open.value];
    } else {
      SeqAppendEmpty(html);
    }
    var tags;
    tags, pushed := RenderFiles(target, path, files);
    html := html + tags;
    if open.Some? && close.Some? {
      html := html + [close.value];
    } else {
      SeqAppendEmpty(html);
    }
    FragmentParts(prefix, body, target, files, html);
    text := Strings.Concat(html);
  }

  /** The joined parts of a fragment: the prefix, then the rest. */
  lemma FragmentParts(prefix: string, body: seq<Piece>, target: string, files: seq<File>, html: seq<string>)
    requires files != []
    requires html == [prefix] + CondParts(body).0 + FileTags(target, files) + CondParts(body).1
    ensures Strings.Concat(html) == Fragment(prefix, body, target, files)
  {
    var parts := CondParts(body).0 + FileTags(target, files) + CondParts(body).1;
    SeqAppendAssoc([prefix], CondParts(body).0, FileTags(target, files));
    SeqAppendAssoc([prefix], CondParts(body).0 + FileTags(target, files), CondParts(body).1);
    ConcatAppend([prefix], parts);
    assert Strings.Concat([prefix]) == prefix + Strings.Concat([]);
  }

  /** The loop's state after some sections: the section texts so far, the files
      pushed, the task lists, the number of markers met, and the first failure. */
  datatype Progress = Progress(
    texts: seq<string>,
    pushed: seq<File>,
    pipelines: map<string, seq<Task>>,
    markers: nat,
    failure: Option<Error>)

  /** What the section loop works with: the page's directory, the flags `process`
      reads, how a marked section's files are loaded (`getFiles`), how a prepared
      list is run over files (`files.pipe(multipipe(tasks))`), and how a marked
      section's fragment and pushed files are built from the list's output. */
  datatype Env = Env(
    rootPath: string,
    skipConcat: bool,
    eol: string,
    load: Section -> Result<seq<File>>,
    run: (seq<Task>, seq<File>) -> Result<seq<File>>,
    render: (Section, seq<File>) -> string,
    rename: (Section, seq<File>) -> seq<File>)

  /** The marker path of a marked section. */
  function Target(s: Section): string
  {
    if s.Marked? && s.marker.path.Some? then s.marker.path.value else ""
  }

  /** The loop's surroundings for page `doc`. */
  function EnvOf(doc: Document, skipConcat: bool, assetsDir: string, host: Host): Env
  {
    var rootPath := Paths.Dirname(doc.path);
    Env(rootPath, skipConcat, host.eol,
        (s: Section) => if s.Marked? then GetFilesSpec(s.body, s.marker.alternatePath, rootPath, doc.base, assetsDir, host.fs) else Ok([]),
        (tasks: seq<Task>, files: seq<File>) => Multipiped(tasks, files, host.ext),
        (s: Section, out: seq<File>) => if s.Marked? then Fragment(s.prefix, s.body, Target(s), out) else "",
        (s: Section, out: seq<File>) => Renamed(out, PushedPath(rootPath, Target(s))))
  }

  /** `env` loads, runs and builds as `EnvOf` does for page `doc`. */
  ghost predicate Serves(env: Env, doc: Document, skipConcat: bool, assetsDir: string, host: Host)
  {
    && env.rootPath == Paths.Dirname(doc.path) && env.skipConcat == skipConcat && env.eol == host.eol
    && (forall s: Section :: s.Marked? ==>
          env.load(s) == GetFilesSpec(s.body, s.marker.alternatePath, env.rootPath, doc.base, assetsDir, host.fs))
    && (forall tasks: seq<Task>, files: seq<File> ::
          env.run(tasks, files) == Multipiped(tasks, files, host.ext))
    && (forall s: Section, out: seq<File> :: s.Marked? ==>
          env.render(s, out) == Fragment(s.prefix, s.body, Target(s), out))
    && (forall s: Section, out: seq<File> ::
          env.rename(s, out) == Renamed(out, PushedPath(env.rootPath, Target(s))))
  }

  lemma EnvOfServes(doc: Document, skipConcat: bool, assetsDir: string, host: Host)
    ensures Serves(EnvOf(doc, skipConcat, assetsDir, host), doc, skipConcat, assetsDir, host)
  {
  }

  /** A marked section's text starts with the text before its marker. */
  ghost predicate KeepsPrefix(env: Env)
  {
    forall s: Section, out: seq<File> :: s.Marked? ==> s.prefix <= env.render(s, out)
  }

  lemma EnvOfKeepsPrefix(doc: Document, skipConcat: bool, assetsDir: string, host: Host)
    ensures KeepsPrefix(EnvOf(doc, skipConcat, assetsDir, host))
  {
  }

  /** What one section does to the state: an unmarked section is kept as it is; a
      marked one loads its files, prepares and runs its list, and contributes its
      fragment and renamed files. */
  function SectionStep(p: Progress, s: Section, env: Env): Progress
  {
    if !IsMarker(s) then p.(texts := p.texts + [SectionText(s)])
    else MarkedStep(p, s, env)
  }

  /** A marked section: its files are loaded, its list is prepared and run, and
      its fragment and renamed files are added. */
  function MarkedStep(p: Progress, s: Section, env: Env): Progress
    requires IsMarker(s)
  {
    match env.load(s)
    case Err(e) => p.(failure := Some(e))
    case Ok(files) =>
      var tasks := IndexPrepared(TasksOf(p.pipelines, s.marker.kind), env.skipConcat, env.eol);
      var stored := Stored(p.pipelines, s.marker.kind, env.skipConcat, env.eol);
      match env.run(tasks, files)
      case Err(e) => p.(pipelines := stored, failure := Some(e))
      case Ok(out) =>
        Progress(p.texts + [env.render(s, out)], p.pushed + env.rename(s, out), stored, p.markers + 1, None)
  }

  /** The section loop from state `p`, stopping at the first failure. */
  function Sweep(sections: seq<Section>, p: Progress, env: Env): Progress
    decreases |sections|
  {
    if sections == [] || p.failure.Some? then p
    else Sweep(sections[1..], SectionStep(p, sections[0], env), env)
  }

  /** One step of the section loop. */
  lemma SweepStep(sections: seq<Section>, p: Progress, env: Env)
    requires sections != [] && p.failure.None?
    ensures Sweep(sections, p, env) == Sweep(sections[1..], SectionStep(p, sections[0], env), env)
  {
  }

  /** After a failure the loop does nothing more. */
  lemma SweepFailed(sections: seq<Section>, p: Progress, env: Env)
    requires p.failure.Some?
    ensures Sweep(sections, p, env) == p
  {
  }

  /** The page as it arrives, its contents the text of its sections. */
  function HtmlFile(doc: Document): File
  {
    File(doc.path, doc.base, DocumentText(doc))
  }

  /** `processHtml`: a page without markers is handed on as it is; otherwise its
      contents become the sections joined without end markers, and the page goes
      through the `html` list, whose first output is handed on. */
  function ProcessedHtml(doc: Document, pipelines: map<string, seq<Task>>, skipConcat: bool, assetsDir: string, host: Host): Outcome
  {
    var p := Sweep(doc.sections, Progress([], [], pipelines, 0, None), EnvOf(doc, skipConcat, assetsDir, host));
    if p.failure.Some? then Outcome(Err(p.failure.value), p.pipelines)
    else if p.markers == 0 then Outcome(Ok(Emitted([], Some(HtmlFile(doc)))), p.pipelines)
    else
      var page := HtmlFile(doc).(contents := Strings.Concat(p.texts));
      var tasks := IndexPrepared(TasksOf(p.pipelines, "html"), skipConcat, host.eol);
      var stored := Stored(p.pipelines, "html", skipConcat, host.eol);
      match Multipiped(tasks, [page], host.ext)
      case Err(e) => Outcome(Err(e), stored)
      case Ok(out) => Outcome(Ok(Emitted(p.pushed, if out == [] then None else Some(out[0]))), stored)
  }

  /** The plugin's options: the configured task lists, which `process` edits in
      place, and the flags it reads. */
  class Options {
    var pipelines: map<string, seq<Task>>
    const skipConcat: bool
    const assetsDir: string

    constructor (pipelines: map<string, seq<Task>>, skipConcat: bool, assetsDir: string)
      ensures this.pipelines == pipelines
      ensures this.skipConcat == skipConcat && this.assetsDir == assetsDir
    {
      this.pipelines := pipelines;
      this.skipConcat := skipConcat;
      this.assetsDir := assetsDir;
    }

    /** `process`: prepares the list for `id` (in the options when configured) and
        pipes the files through it. */
    method Process(files: seq<File>, id: string, host: Host) returns (r: Result<seq<File>>)
      modifies this
      ensures pipelines == Stored(old(pipelines), id, skipConcat, host.eol)
      ensures r == Multipiped(IndexPrepared(TasksOf(old(pipelines), id), skipConcat, host.eol), files, host.ext)
    {
      var tasks := if id in pipelines then pipelines[id] else [];
      var k := IndexOfNamed(tasks, "concat");
      if k != -1 {
        tasks := tasks[k := Ready(UseminConcat(host.eol))];
      } else if |tasks| == 0 || !skipConcat {
        tasks := [Ready(UseminConcat(host.eol))] + tasks;
      }
      if id in pipelines {
        pipelines := pipelines[id := tasks];
      }
      r := RunStreams(tasks, files, host.ext);
    }

    /** One marked section of `processHtml`: its files are loaded and run through
        its list, and its fragment and renamed files are built; `failure` is the
        first error met. */
    method ProcessSection(doc: Document, s: Section, host: Host, ghost p: Progress, ghost env: Env)
      returns (text: string, renamed: seq<File>, failure: Option<Error>)
      requires IsMarker(s) && p.pipelines == pipelines && p.failure.None?
      requires Serves(env, doc, skipConcat, assetsDir, host)
      modifies this
      ensures MarkedStep(p, s, env)
           == if failure.Some? then p.(pipelines := pipelines, failure := failure)
              else Progress(p.texts + [text], p.pushed + renamed, pipelines, p.markers + 1, None)
    {
      var rootPath := Paths.Dirname(doc.path);
      var target := s.marker.path.value;
      var files := GetFiles(s.body, s.marker.alternatePath, rootPath, doc.base, assetsDir, host.fs);
      if files.Err? {
        return "", [], Some(files.error);
      }
      var out := Process(files.value, s.marker.kind, host);
      if out.Err? {
        return "", [], Some(out.error);
      }
      failure := None;
      if out.value != [] {
        text, renamed := BuildFragment(s.prefix, s.body, target, PushedPath(rootPath, target), out.value);
      } else {
        text, renamed := s.prefix, [];
        assert Renamed([], PushedPath(rootPath, target)) == [];
      }
    }

    /** The section loop of `processHtml`: every section's text is written back in
        place, marked ones replaced by their fragments, until the first failure. */
    method SweepSections(doc: Document, host: Host, ghost env: Env)
      returns (sections: seq<string>, pushed: seq<File>, markers: nat, failure: Option<Error>)
      requires Serves(env, doc, skipConcat, assetsDir, host)
      modifies this
      ensures
        var q := Sweep(doc.sections, Progress([], [], old(pipelines), 0, None), env);
        && failure == q.failure && pipelines == q.pipelines
        && (failure.None? ==> sections == q.texts && pushed == q.pushed && markers == q.markers)
    {
      sections := SectionTexts(doc.sections);
      pushed := [];
      markers := 0;
      ghost var start := Progress([], [], pipelines, 0, None);
      var i := 0;
      assert doc.sections[0..] == doc.sections;
      while i < |doc.sections|
        invariant 0 <= i <= |doc.sections| == |sections|
        invariant forall k :: i <= k < |sections| ==> sections[k] == SectionText(doc.sections[k])
        invariant Sweep(doc.sections, start, env)
               == Sweep(doc.sections[i..], Progress(sections[..i], pushed, pipelines, markers, None), env)
      {
        var s := doc.sections[i];
        assert doc.sections[i..][1..] == doc.sections[i + 1..];
        ghost var p := Progress(sections[..i], pushed, pipelines, markers, None);
        SweepStep(doc.sections[i..], p, env);
        if IsMarker(s) {
          var text, renamed, failed := ProcessSection(doc, s, host, p, env);
          ghost var q := MarkedStep(p, s, env);
          if failed.Some? {
            SweepFailed(doc.sections[i + 1..], q, env);
            return sections, pushed, markers, failed;
          }
          UpdatedPrefix(sections, i, text);
          sections := sections[i := text];
          pushed := pushed + renamed;
          markers := markers + 1;
          assert q == Progress(sections[..i + 1], pushed, pipelines, markers, None);
        } else {
          assert sections[..i + 1] == sections[..i] + [SectionText(s)];
        }
        i := i + 1;
      }
      assert sections[..|sections|] == sections;
      failure := None;
    }

    /** `processHtml`: the section loop, then the page through the `html` list. */
    method ProcessHtml(doc: Document, host: Host) returns (r: Result<Emitted>)
      modifies this
      ensures Outcome(r, pipelines) == ProcessedHtml(doc, old(pipelines), skipConcat, assetsDir, host)
    {
      EnvOfServes(doc, skipConcat, assetsDir, host);
      var sections, pushed, markers, failure := SweepSections(doc, host, EnvOf(doc, skipConcat, assetsDir, host));
      if failure.Some? {
        return Err(failure.value);
      }
      if markers == 0 {
        return Ok(Emitted([], Some(HtmlFile(doc))));
      }
      var page := HtmlFile(doc).(contents := Strings.Concat(sections));
      var out := Process([page], "html", host);
      if out.Err? {
        return Err(out.error);
      }
      r := Ok(Emitted(pushed, if out.value == [] then None else Some(out.value[0])));
    }

    /** The plugin's transform for one arriving file. */
    method Transform(input: Input, host: Host) returns (r: Result<Emitted>)
      modifies this
      ensures input.NullFile? ==> r == Ok(Emitted([], Some(input.file))) && pipelines == old(pipelines)
      ensures input.StreamFile? ==> r == Err(StreamsNotSupported) && pipelines == old(pipelines)
      ensures input.BufferFile? ==>
        Outcome(r, pipelines) == ProcessedHtml(input.doc, old(pipelines), skipConcat, assetsDir, host)
    {
      match input {
        case NullFile(f) => r := Ok(Emitted([], Some(f)));
        case StreamFile(_) => r := Err(StreamsNotSupported);
        case BufferFile(doc) => r := ProcessHtml(doc, host);
      }
    }
  }

  // ---------------------------------------------------------------------------
  // Properties of the section loop

  /** Sections without a marker are kept as they are and touch nothing else. */
  lemma {:induction false} SweepWithoutMarkers(sections: seq<Section>, p: Progress, env: Env)
    requires p.failure.None?
    requires forall k :: 0 <= k < |sections| ==> !IsMarker(sections[k])
    ensures Sweep(sections, p, env) == p.(texts := p.texts + SectionTexts(sections))
    decreases |sections|
  {
    if sections == [] {
      assert SectionTexts(sections) == [];
      SeqAppendEmpty(p.texts);
    } else {
      var q := SectionStep(p, sections[0], env);
      assert q == p.(texts := p.texts + [SectionText(sections[0])]);
      forall k | 0 <= k < |sections| - 1 ensures !IsMarker(sections[1..][k]) {
        assert sections[1..][k] == sections[k + 1];
      }
      SweepWithoutMarkers(sections[1..], q, env);
      SectionTextsCons(sections);
      SeqAppendAssoc(p.texts, [SectionText(sections[0])], SectionTexts(sections[1..]));
    }
  }

  /** A page without markers is handed on unchanged, nothing is pushed and no task
      list is touched. */
  lemma NoMarkersPassThrough(doc: Document, pipelines: map<string, seq<Task>>, skipConcat: bool, assetsDir: string, host: Host)
    requires forall k :: 0 <= k < |doc.sections| ==> !IsMarker(doc.sections[k])
    ensures ProcessedHtml(doc, pipelines, skipConcat, assetsDir, host)
         == Outcome(Ok(Emitted([], Some(HtmlFile(doc)))), pipelines)
  {
    SweepWithoutMarkers(doc.sections, Progress([], [], pipelines, 0, None), EnvOf(doc, skipConcat, assetsDir, host));
  }

  /** The number of marked sections. */
  function MarkerCount(sections: seq<Section>): nat
  {
    if sections == [] then 0 else (if IsMarker(sections[0]) then 1 else 0) + MarkerCount(sections[1..])
  }

  /** The text the loop writes back for a section: an unmarked section as it
      stands, a marked one as a text that starts with its prefix. */
  ghost predicate Written(s: Section, text: string)
  {
    if IsMarker(s) then s.prefix <= text else text == SectionText(s)
  }

  /** One section that does not fail adds exactly one text. */
  lemma StepAppendsOne(p: Progress, s: Section, env: Env)
    ensures
      var q := SectionStep(p, s, env);
      q.failure.None? ==>
        && q.texts == p.texts + [q.texts[|p.texts|]]
        && q.markers == p.markers + (if IsMarker(s) then 1 else 0)
  {
  }

  /** ... and writes it back as above. */
  lemma StepWrites(p: Progress, s: Section, env: Env)
    requires KeepsPrefix(env)
    ensures
      var q := SectionStep(p, s, env);
      q.failure.None? ==> |q.texts| == |p.texts| + 1 && Written(s, q.texts[|p.texts|])
  {
    if IsMarker(s) {
      match env.load(s)
      case Err(_) =>
      case Ok(files) =>
        var tasks := IndexPrepared(TasksOf(p.pipelines, s.marker.kind), env.skipConcat, env.eol);
        match env.run(tasks, files)
        case Err(_) =>
        case Ok(out) =>
          assert s.prefix <= env.render(s, out);
    }
  }

  /** A loop that runs to the end adds one text per section after the texts it
      started with, and counts every marker. */
  lemma {:induction false} SweepKeepsSectionOrder(sections: seq<Section>, p: Progress, env: Env)
    requires p.failure.None?
    ensures
      var q := Sweep(sections, p, env);
      q.failure.None? ==>
        && |q.texts| == |p.texts| + |sections|
        && q.texts[..|p.texts|] == p.texts
        && q.markers == p.markers + MarkerCount(sections)
    decreases |sections|
  {
    if sections != [] {
      var s := sections[0];
      var step := SectionStep(p, s, env);
      assert Sweep(sections, p, env) == Sweep(sections[1..], step, env);
      if step.failure.None? {
        StepAppendsOne(p, s, env);
        SweepKeepsSectionOrder(sections[1..], step, env);
        var q := Sweep(sections, p, env);
        if q.failure.None? {
          var n := |p.texts|;
          assert q.texts[..n] == q.texts[..n + 1][..n];
        }
      }
    }
  }

  /** ... and the text at each section's place is what the loop writes for it. */
  lemma {:induction false} SweepWritesSections(sections: seq<Section>, p: Progress, env: Env)
    requires p.failure.None? && KeepsPrefix(env)
    ensures
      var q := Sweep(sections, p, env);
      q.failure.None? ==>
        |q.texts| == |p.texts| + |sections|
        && forall k :: 0 <= k < |sections| ==> Written(sections[k], q.texts[|p.texts| + k])
    decreases |sections|
  {
    SweepKeepsSectionOrder(sections, p, env);
    if sections != [] {
      var s := sections[0];
      var step := SectionStep(p, s, env);
      assert Sweep(sections, p, env) == Sweep(sections[1..], step, env);
      if step.failure.None? {
        StepWrites(p, s, env);
        SweepKeepsSectionOrder(sections[1..], step, env);
        SweepWritesSections(sections[1..], step, env);
        var q := Sweep(sections, p, env);
        if q.failure.None? {
          var n := |p.texts|;
          assert q.texts[..n + 1] == step.texts;
          forall k | 0 <= k < |sections| ensures Written(sections[k], q.texts[n + k]) {
            if k == 0 {
              assert q.texts[n] == step.texts[n];
            } else {
              assert sections[k] == sections[1..][k - 1];
              assert n + k == |step.texts| + (k - 1);
            }
          }
        }
      }
    }
  }

  /** Every tag of a fragment points at the marker path, whatever the built file is
      called: a script tag or a stylesheet link, nothing else. */
  lemma {:induction false} TagsPointAtMarker(target: string, files: seq<File>)
    ensures forall t :: t in FileTags(target, files) ==> t == ScriptRef(target) || t == LinkRef(target)
  {
    if files != [] {
      var init := files[..|files| - 1];
      TagsPointAtMarker(target, init);
      TagForPoints(target, files[|files| - 1]);
    }
  }

  lemma TagForPoints(target: string, f: File)
    ensures forall t :: t in TagFor(target, f) ==> t == ScriptRef(target) || t == LinkRef(target)
  {
  }

  /** One tag per `.js` or `.css` file, none for any other file. */
  lemma {:induction false} OneTagPerAsset(target: string, files: seq<File>)
    ensures |FileTags(target, files)| == |Tagged(files)|
  {
    if files != [] {
      OneTagPerAsset(target, files[..|files| - 1]);
    }
  }

  /** Whether a built file gets a tag: a script or a stylesheet. */
  predicate GetsTag(f: File)
  {
    var e := Paths.Extname(f.path);
    e == ".js" || e == ".css"
  }

  /** The built files that get a tag. */
  function Tagged(files: seq<File>): (r: seq<File>)
    ensures forall f :: f in r ==> GetsTag(f)
  {
    if files == [] then []
    else Tagged(files[..|files| - 1]) + (if GetsTag(files[|files| - 1]) then [files[|files| - 1]] else [])
  }

  /** Every pushed file carries the marker path as written, when that path does not
      start with '/': taken relative to the page's directory, it comes back
      unchanged. */
  lemma PushedUnderMarkerPath(doc: Document, target: string)
    requires |target| == 0 || target[0] != '/'
    ensures PushedPath(Paths.Dirname(doc.path), target) == target
  {
    var rootPath := Paths.Dirname(doc.path);
    assert rootPath != "" by {
      var k := Paths.LastIndexOf(doc.path, '/');
      if k > 0 { assert rootPath == doc.path[..k]; assert |rootPath| == k; }
    }
    Paths.RelativeJoin(rootPath, target);
  }

  /** With no `html` list and `skipConcat` off, the rebuilt page comes out of
      src/concat.js unchanged apart from its path, which is its base joined with its
      basename. */
  lemma DefaultHtmlList(page: File, pipelines: map<string, seq<Task>>, eol: string, ext: Transforms)
    requires "html" !in pipelines
    ensures Multipiped(IndexPrepared(TasksOf(pipelines, "html"), false, eol), [page], ext)
         == Ok([page.(path := Paths.Join(page.base, Paths.Basename(page.path)))])
  {
    var tasks := IndexPrepared(TasksOf(pipelines, "html"), false, eol);
    assert tasks == [Ready(UseminConcat(eol))];
    assert tasks[1..] == [];
    assert Streams(tasks[1..]) == Ok([]);
    assert [UseminConcat(eol)] + [] == [UseminConcat(eol)];
    assert Streams(tasks) == Ok([UseminConcat(eol)]);
    var ss := [UseminConcat(eol)];
    assert ss[..0] == [];
    assert Pipeline.Through(ss, [page], ext) == Concat.Output([page], "", eol);
    assert ContentsOf([page]) == [page.contents];
    assert Concat.Spliced([page.contents], eol) == [page.contents];
    assert Strings.Concat([page.contents]) == page.contents;
  }
}
