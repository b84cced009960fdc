# gulp-usemin, modelled in Dafny

gulp-usemin rewrites an annotated HTML page. Each section between
`<!-- build:<kind>(<alternate path>) <path> -->` and `<!-- endbuild -->` lists
script or stylesheet references. The plugin:

- resolves those references to files;
- runs the files through the task list configured for `<kind>` (concatenation
  and minifiers);
- pushes the built files downstream;
- puts tags pointing at the built files in the section's place;
- runs the rebuilt page through the `html` task list.

The repository contains two generations of this engine. Each is modelled as its
own set of modules.

- **The older engine**, `index.js` with its concatenation transform `src/concat.js`:
  - `Concat` is the stateful transform: a class that remembers the first file and
    collects contents, and a flush that splices end-of-line separators in.
  - `Usemin` covers `getFiles`, `process` (task-list preparation with
    `skipConcat`, which edits the configured list in place, so the options are a
    class with a mutable `pipelines` field), and `processHtml` with its fragment
    builder. It also holds the plugin's per-file transform.
- **The newer engine**, `lib/*`:
  - `BlocksBuilder` turns the sections into verbatim strings and block records.
    It also does reference resolution, the media-query check and the "not
    found" error.
  - `Pipeline` prepares the per-block task list (builtin gulp-concat, push stage)
    and threads the files through the chain.
  - `HtmlBuilder` covers `createHTMLAttributes`, `createFile`, the rendering of
    each block into its slot, and the final join.
- **Shared modules**:
  - `Loading`: glob expansion and file reading.
  - `Markup`: the page as already-parsed captures of the engine's regular
    expressions.
  - `Stages`: stages and task-list entries.
  - `Paths`: a '/'-only reading of Node's `path`.
  - `Strings` and `Common`.

The HTML is represented by what the regular expressions capture, not by raw text.

- A `Document` is its list of sections: the text between two end markers.
- A section is `Unmarked`, or `Marked`: the text before the marker, the marker's
  captures, and a body.
- A body is a list of pieces: plain text, reference tags with their attribute
  values as written (quotes included), HTML comments, and conditional-comment
  openers and closers.

The file system is a glob map plus a disk map. Third-party transforms are opaque
functions indexed by id. The empty string stands for a JavaScript-falsy option or
capture.

Every loop of the source is a Dafny method. Each method is proved equal to a
specification function, and the properties are lemmas about those functions. The
asynchronous fan-out and fan-in over blocks (promises, `merge-stream`) is
modelled as a sequential loop in block order.

## Model

Some specification functions model source lines without a row of their own, because their properties are stated by the members in the table:

- `BlocksBuilder.ResolveReference`: lib/blocksBuilder.js:37-43.
- `BlocksBuilder.OutputName` and `BlocksBuilder.MakeBlock`: lib/blocksBuilder.js:88-106. A path-less marker gets `outputRelativePath` followed by "undefined" as its name.
- `HtmlBuilder.Retargeted`: lib/htmlBuilder.js:62.
- `HtmlBuilder.CreateFile`: lib/htmlBuilder.js:10-16.
- `Usemin.Located`: index.js:46-50.
- `Usemin.Fragment`: index.js:117-146.
- `Usemin.PushedPath`: index.js:129-130.

Rows whose third column starts with "example:" state a single concrete case, which shows a quirk of the source; they are not general properties.

| member | source | states |
|---|---|---|
| Concat.Spliced | src/concat.js:30-32 | the flushed buffer list has 2n-1 entries for n files, none when no file arrived |
| Concat.InsertSeparators | src/concat.js:30-32 | the splice loop, with its bound fixed before the list grows, leaves the first contents, then all n-1 separators, then the remaining contents |
| Concat.ConcatTransform.constructor | src/concat.js:7-9 | a new transform has received nothing and remembers no first file |
| Concat.ConcatTransform.Transform | src/concat.js:11-22 | each received file is appended; the first one is remembered and fixes the output name; the collected contents stay the contents of the received files in order |
| Concat.ConcatTransform.Flush | src/concat.js:24-41 | flush pushes exactly the joined clone of the first file (nothing when no file arrived), splices the separators into the collected list and leaves the received files, the first file and the output name untouched |
| Concat.RunConcat | src/concat.js:11-41 | writing files one by one and ending the stream pushes the joined output of those files |
| Concat.OutputIsCloneOfFirst | src/concat.js:13-28 | no output without input, else exactly one file: the first input's base, its path the base joined with `name`, or with the first basename when no name was given |
| Concat.JoinedLayout | src/concat.js:30-33 | the joined contents are c0, then n-1 end-of-line buffers, then c1..c(n-1) in arrival order |
| Concat.JoinedLength | src/concat.js:21-33 | output length is the sum of the input lengths plus (n-1) times the end-of-line length |
| Concat.PairwiseUpToTwo | src/concat.js:30-33 | for one or two inputs the result equals the join with a separator between neighbours |
| Concat.ThreeInputsClusterSeparators | src/concat.js:30-33 | example: for three inputs it does not: "a","b","c" give "a\n\nbc" where the neighbour join gives "a\nb\nc" |
| Stages.IndexOfNamed | lib/pipeline.js:8 | `indexOf` of a string entry: -1 exactly when absent, else the position of its first occurrence |
| Pipeline.Prepared | lib/pipeline.js:6-17 | prepared list: the first 'concat' entry replaced by the builtin in place and every other entry kept (length +1), or the builtin put in front (length +2); the push stage always last |
| Pipeline.PrepareTasks | lib/pipeline.js:6-17 | the copy-then-mutate preparation yields the prepared list, and the caller's list (a value) is not changed |
| Pipeline.Run | lib/pipeline.js:21-30 | building the chain entry by entry and writing the files at its head pushes exactly what the specification of the pipeline pushes, or fails at the first entry that is not a stream |
| Pipeline.InstantiatedErrPersists | lib/pipeline.js:25-27 | once an entry cannot be piped into, the whole chain fails with that entry |
| Pipeline.InstantiatedStreams | lib/pipeline.js:25-27 | a list of streams and factories becomes the chain of their stages, in list order |
| Pipeline.ThroughAppend | lib/pipeline.js:25-27 | chaining two runs of stages is feeding the output of the first into the second |
| Pipeline.ThreadWithoutForward | lib/pipeline.js:14-17 | before the push stage nothing is pushed and the files are the threaded ones |
| Pipeline.PreparedWithoutConcat | lib/pipeline.js:8-10 | without 'concat' the prepared list is builtin, tasks, push stage |
| Pipeline.PreparedAtConcat | lib/pipeline.js:8-12 | with 'concat' first at position k, the builtin takes position k and the rest is unchanged |
| Pipeline.PushedOfChain | lib/pipeline.js:14-30 | a chain ending in the push stage pushes what the stages before it emit |
| Pipeline.ChainAround | lib/pipeline.js:8-27 | streams before and after the builtin become one chain with the builtin between them and the push stage last |
| Pipeline.ChainAfterBuiltin | lib/pipeline.js:8-27 | the builtin, then the configured streams, then the push stage form the chain |
| Pipeline.ImplicitConcatRunsFirst | lib/pipeline.js:3-30 | without a 'concat' entry the files are joined by gulp-concat (name or "filename.temp", '\n') first, then pass the configured stages in order, and `push` receives what the last stage emits |
| Pipeline.ExplicitConcatInPlace | lib/pipeline.js:3-30 | with a 'concat' entry the stages before it see the separate files and those after it the joined file |
| Pipeline.SecondConcatEntryFails | lib/pipeline.js:8-27 | only the first 'concat' entry is replaced; a second one stays a string and the run fails on it |
| BlocksBuilder.StripDoubleQuotes | lib/blocksBuilder.js:39 | a double-quoted value loses its quotes |
| BlocksBuilder.StripSingleQuotes | lib/blocksBuilder.js:39 | a single-quoted value loses its quotes |
| BlocksBuilder.StripNoQuotes | lib/blocksBuilder.js:39 | a value without quotes is kept |
| BlocksBuilder.AssetsDirReroot | lib/blocksBuilder.js:37-43 | with `assetsDir`, when the root the reference is resolved against (alternate path, else `options.path`, else the page's directory) is the base or a directory below it, the reference keeps its place below the base and moves under `assetsDir` |
| BlocksBuilder.ResolvedPaths | lib/blocksBuilder.js:36-45 | one resolved path per captured value, in order, each resolved against alternate path, else `options.path`, else the page directory |
| BlocksBuilder.ResolvePaths | lib/blocksBuilder.js:30-46 | the scan's `replace` callback collects exactly the resolved paths, in document order |
| BlocksBuilder.CheckMedia | lib/blocksBuilder.js:48-59 | the media loop records the first value, fails on a different later value and keeps going on an equal one, as the media fold specifies |
| BlocksBuilder.MediaFoldFrom | lib/blocksBuilder.js:52-57 | from a recorded value the check passes exactly when the remaining values are consistent with it, and keeps the last value |
| BlocksBuilder.MediaCheckAccepts | lib/blocksBuilder.js:48-59 | the media check passes if and only if once a non-empty value is seen every later value equals it; the block's media query is then the last value (none when there is none) |
| BlocksBuilder.GetFiles | lib/blocksBuilder.js:25-75 | `getFiles` returns the files of the resolved paths together with the recorded media query, or the first media or not-found error |
| BlocksBuilder.Build | lib/blocksBuilder.js:77-115 | the builder loop produces each section's items in section order, or the first error |
| BlocksBuilder.UnmarkedSectionsVerbatim | lib/blocksBuilder.js:77-113 | without start markers the result is the sections themselves, verbatim and in order, with the end markers gone |
| BlocksBuilder.RemoveBlockDropsBody | lib/blocksBuilder.js:81-110 | a `remove` block never fails and leaves only the prefix plus the conditional pair when both halves are present |
| BlocksBuilder.MarkedBlockLayout | lib/blocksBuilder.js:79-110 | a block's items are prefix, opener (only with closer), record, closer; js vs css follows the body's script tag, inline follows the kind, tasks are `options[kind]`, names follow the marker and only css blocks carry a media query |
| BlocksBuilder.MarkedBlockFiles | lib/blocksBuilder.js:88-106 | the record's files are the loaded files of the references the chosen pattern captures |
| Loading.ReadAll | lib/blocksBuilder.js:66-71 | reading the matches of one path: all of them in glob order, or the first unreadable one |
| Loading.LoadFiles | lib/blocksBuilder.js:61-72 | the glob loop loads every path's matches, failing with "not found" on the first path without match |
| Loading.ReadMatchesResult | lib/blocksBuilder.js:66-71 | reading succeeds exactly when every match is on disk, and then yields one file per match in order |
| Loading.LoadResult | lib/blocksBuilder.js:61-74 | loading succeeds exactly when every path matches and every match is readable; the files then come in reference order, then glob order, one per match, duplicates kept |
| Markup.ScanWithCommentsIsRaw | lib/blocksBuilder.js:33-35 | with `enableHtmlComment` the scan sees the tags inside comments as well, i.e. the raw body's tags |
| HtmlBuilder.CreateHTMLAttributes | lib/htmlBuilder.js:18-43 | the attribute string: "" for falsy attributes, else a space and the items (bare name for true, none for false, indexed list element, scalar) joined by spaces |
| HtmlBuilder.AttributeItemsAppend | lib/htmlBuilder.js:23-41 | items are produced key by key, in key order |
| HtmlBuilder.IndexMattersOnlyForLists | lib/htmlBuilder.js:27-39 | without list values the attribute string does not depend on the script number |
| HtmlBuilder.AttributeEdgeCases | lib/htmlBuilder.js:19-42 | example: a list past its end gives "undefined" (no wrap-around), an empty object gives " ", and `false` adds nothing |
| HtmlBuilder.RetargetKeepsDirectory | lib/htmlBuilder.js:62 | when the basename first occurs at the end, only the basename is replaced |
| HtmlBuilder.RetargetHitsDirectoryFirst | lib/htmlBuilder.js:62 | example: the replacement hits the first occurrence: "js/js" with "app.js" gives "app.js/js" |
| HtmlBuilder.JsTagsOutcome | lib/htmlBuilder.js:57-64 | a js block fails exactly when it produced a `.js` file and its marker has no path |
| HtmlBuilder.JsTagsCounter | lib/htmlBuilder.js:60-62 | the script counter advances by the number of `.js` files produced |
| HtmlBuilder.JsTagsRendering | lib/htmlBuilder.js:57-64 | a js block appends one script tag per `.js` file, in order, numbered from the counter |
| HtmlBuilder.LinkTagsRendering | lib/htmlBuilder.js:66-72 | a css block appends one link per produced file whatever its extension, and fails only without a marker path |
| HtmlBuilder.RenderScripts | lib/htmlBuilder.js:57-64 | the js push callback over the produced files renders the specified tags and counter |
| HtmlBuilder.RenderLinks | lib/htmlBuilder.js:66-72 | the css push callback over the produced files renders the specified links |
| HtmlBuilder.RenderInline | lib/htmlBuilder.js:74-86 | inline callbacks overwrite the slot, so the last produced file is inlined, as `<script>` or as `<style>` with the media query |
| HtmlBuilder.RenderSlot | lib/htmlBuilder.js:47-87 | one block's slot: strings copied, blocks without files "", otherwise its pipeline's output rendered by kind; a pipeline that emits nothing never completes |
| HtmlBuilder.CreatedFileAtBase | lib/htmlBuilder.js:10-16 | a page right below its base keeps its name as path |
| HtmlBuilder.CreatedFileBelowBase | lib/htmlBuilder.js:10-16 | a page deeper down keeps its path relative to the base |
| HtmlBuilder.BuildHtml | lib/htmlBuilder.js:45-95 | slots are filled in block order with the counter carried along, joined into the created page, and the page is run through the `html` tasks |
| HtmlBuilder.SlotsInBlockOrder | lib/htmlBuilder.js:47-56 | one slot per entry at the entry's own position; strings copied, blocks without files empty |
| HtmlBuilder.VerbatimOnly | lib/htmlBuilder.js:49-53 | a document of strings only is their concatenation, and nothing is pushed |
| HtmlBuilder.SlotPushes | lib/htmlBuilder.js:57-86 | js and css blocks push every produced file; inline blocks push nothing and hold the last file; only js blocks move the counter |
| HtmlBuilder.JsSlot | lib/htmlBuilder.js:57-64 | a js slot is the numbered script tags of its `.js` files, and the counter advances by their count |
| HtmlBuilder.CssSlot | lib/htmlBuilder.js:66-72 | a css slot is one link per produced file with the block's media query |
| Usemin.LocateTag | index.js:45-53 | the per-tag step of CollectPaths: a tag contributes its double-quoted captured value, resolved and re-rooted, or nothing (the general statement is SourcesLocated) |
| Usemin.CollectPaths | index.js:41-53 | the scan collects the located values of the comment-free tags, in tag order |
| Usemin.SourcesLocated | index.js:41-53 | the scan yields exactly one path per captured value of the chosen kind, that value located, in tag order, and none for any other tag |
| Usemin.GetFiles | index.js:36-71 | `getFiles` sniffs script vs link on the raw body, scans the stripped body and loads every path, failing on the first path without match |
| Usemin.AssetsDirReroot | index.js:46-50 | with `assetsDir`, when the root the reference is resolved against (alternate path, else the page's directory) is the base or a directory below it, the reference moves under `assetsDir` keeping its place below the base |
| Usemin.CommentedScriptHidesStylesheets | index.js:41-45 | example: a commented-out script still selects the script pattern, so a stylesheet block loads nothing |
| Usemin.SingleQuotedLinkSkipped | index.js:21 | example: a single-quoted href is not captured |
| Usemin.OneScriptReference | index.js:45-46 | example: a double-quoted script resolves against the page's directory |
| Usemin.IndexPrepared | index.js:76-81 | the prepared list is never empty and grows by one exactly when it had no 'concat' and is empty or `skipConcat` is off |
| Usemin.StreamsResult | index.js:84 | the chain builds exactly when every entry is a ready stream; its stages are the entries in order, else the first other entry is reported |
| Usemin.BuildChain | index.js:84 | building the chain entry by entry gives the specified chain or first failure |
| Usemin.PipeThrough | index.js:83-84 | the files leave the chain as the stages, applied in order, make them |
| Usemin.RunStreams | index.js:83-84 | piping files through `multipipe(tasks)` gives the specified output |
| Usemin.PreparedTwice | index.js:76-80 | two preparations of the same list prepend the builtin twice, or replace the 'concat' string and then prepend |
| Usemin.ConcatEntryReplaced | index.js:77-78 | a 'concat' string is replaced in place whatever `skipConcat` says |
| Usemin.PreparedWithoutConcatEntry | index.js:79-81 | without 'concat' the builtin goes in front unless the list is non-empty and `skipConcat` is set |
| Usemin.StoredLists | index.js:76-81 | a configured list is edited in the options (two runs leave two builtins, other lists unchanged); a missing list stays missing |
| Usemin.ImplicitConcatFirst | index.js:79-84 | with streams only and `skipConcat` off, src/concat.js joins the files before the configured streams |
| Usemin.Renamed | index.js:130 | every built file is pushed renamed to the same path, one for one |
| Usemin.ChooseTag | index.js:128-135 | the per-file step of RenderFiles: a built file's tag follows its extension, script for `.js`, link for `.css`, none otherwise (the general statements are TagsPointAtMarker and OneTagPerAsset) |
| Usemin.RenderFiles | index.js:127-137 | the per-file loop yields the tags of the built files and the renamed files, in order |
| Usemin.BuildFragment | index.js:117-146 | the fragment is prefix, opener, tags, closer, with opener and closer only as a pair |
| Usemin.FragmentParts | index.js:117-146 | joining the fragment's parts gives the fragment |
| Usemin.Options.constructor | index.js:15-16 | the options hold the configured lists and flags |
| Usemin.Options.Process | index.js:74-89 | `process` stores the prepared list back when configured and pipes the files through it |
| Usemin.Options.ProcessSection | index.js:101-150 | one marked section loads, processes and renders as the loop step specifies, stopping at the first error |
| Usemin.Options.SweepSections | index.js:99-154 | the section loop writes each section's text back in place, marked ones replaced by fragments, until the first failure, and leaves the task lists as the steps do |
| Usemin.Options.ProcessHtml | index.js:91-168 | `processHtml`'s result and the task lists it leaves are those of the specification: pass-through without markers, else the rebuilt page through `html` |
| Usemin.Options.Transform | index.js:170-181 | a null file passes, stream contents fail with "Streams are not supported!", a buffer is processed |
| Usemin.SweepWithoutMarkers | index.js:99-112 | sections without markers are kept as they stand and change nothing else |
| Usemin.NoMarkersPassThrough | index.js:157 | a page without markers is handed on unchanged, nothing pushed, no list touched |
| Usemin.StepAppendsOne | index.js:99-146 | a section that does not fail adds exactly one text and counts a marker |
| Usemin.StepWrites | index.js:105-146 | that text is the section as it stands, or starts with the prefix for a marked section |
| Usemin.SweepKeepsSectionOrder | index.js:99-161 | a successful loop writes one text per section after the earlier ones and counts every marker |
| Usemin.SweepWritesSections | index.js:105-161 | the text at each section's place is the one written for that section |
| Usemin.TagsPointAtMarker | index.js:129-135 | every tag of a fragment points at the marker path, as a script or a link |
| Usemin.OneTagPerAsset | index.js:127-135 | one tag per `.js` or `.css` file, none for other files |
| Usemin.PushedUnderMarkerPath | index.js:129-130 | a pushed file's path is the marker path as written, for a marker path that does not start with '/' (see the Node `path` line under Left out) |
| Usemin.DefaultHtmlList | index.js:160-165 | with no `html` list and `skipConcat` off the page comes out of src/concat.js unchanged except its path (base joined with basename) |

## Left out

- Streams and asynchrony (through2, multipipe, merge-stream, `Readable`, `gutil.buffer`, promises). Blocks are handled one after another in block order. So `jsCounter` follows block order, and pushed files are in block order, not completion order.
- The JavaScript regular expressions are not modelled. Pages and bodies are given as parsed captures. Left out with them:
  - the global `lastIndex` state;
  - the `split`-with-captures array layout when a section holds several start markers;
  - lazy and case-insensitive matching;
  - the slightly different start patterns of `index.js` and `lib/blocksBuilder.js`.
  A path-less marker counts as a marker only in the newer engine.
- Node `path`:
  - `path.join` does not normalise: no `.`/`..` handling and no collapsing of a doubled '/'. A marker path or reference that starts with '/' is therefore joined as "dir//x" where Node gives "dir/x". As a result the pushed path keeps the leading '/' that index.js:129-130 drops.
  - `path.relative` gives back the target unchanged when it does not lie below the directory, where Node gives a `../` path.
  - `path.basename` does not strip a trailing '/'.
  - There are no platform separators, and `path.resolve` is the identity.
- Disk and glob are given maps. An unreadable glob match is reported as an error.
- gulp-concat's source is not part of this model. It is taken as a single-file join with '\n' under the first file's base.
- Third-party transforms are opaque functions of the files, and they always succeed.
- The OS end of line is a parameter, and Buffer contents are text: there is no encoding.
- `String.prototype.replace` with a string pattern is modelled as a plain first-occurrence replacement. The `$` patterns in the replacement text are not modelled.
- The callbacks' error reporting: a thrown `PluginError` or `TypeError` becomes an `Err` value, and the first error ends the run. So a callback invoked several times, or work that continues after a throw, is not modelled.
- In `index.js`, one `concat()` stream stored in the options and reused by a later run is treated as a fresh stage.
- `$index` tagging is implicit: the sequential loop knows the section index.
- In `index.js`, a task-list entry that is a function is reported as unusable by `multipipe`. It is never called.
- An `html` list that emits nothing leaves the page absent. An `html` list that emits several files hands on the first.
- test/main.js is not part of this model.
- Usemin.SweepWritesSections: states only that a marked section's text starts with its prefix. The full text is given by Usemin.Fragment through Usemin.Options.ProcessHtml.
