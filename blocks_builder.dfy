/** The block model builder of the newer engine (lib/blocksBuilder.js): turns an HTML
    file's sections into an ordered list of verbatim strings and block records, and
    resolves each block's references to files. */
module BlocksBuilder {
  import opened Common
  import opened Strings
  import opened Markup
  import Paths
  import Stages
  import opened Loading

  /** The options the builder reads. Strings stand for JavaScript values where "" is
      falsy, like an option that was not given. */
  datatype Options = Options(
    path: string,                 // global fallback directory for references
    assetsDir: string,            // directory to re-root resolved references under
    outputRelativePath: string,   // prefix of every block's output name
    enableHtmlComment: bool,      // scan references inside HTML comments too
    pipelines: map<string, seq<Stages.Task>>)

  datatype BlockType = Js | Css | InlineJs | InlineCss

  /** A block record: its type, the marker path as written, the output name, the
      resolved files, the configured tasks and (css blocks only) the media query. */
  datatype Block = Block(
    kind: BlockType,
    nameInHTML: Option<string>,
    name: string,
    files: seq<File>,
    tasks: seq<Stages.Task>,
    mediaQuery: Option<string>)

  /** An entry of the builder's result: a string copied verbatim, or a block. */
  datatype Item = Verbatim(text: string) | Asset(block: Block)

  /** What `getFiles` hands back: the files and the media query it recorded. */
  datatype Resolved = Resolved(files: seq<File>, mediaQuery: Option<string>)

  /** `options[kind]`; a missing list behaves as an empty one. */
  function TasksFor(opts: Options, kind: string): seq<Stages.Task>
  {
    if kind in opts.pipelines then opts.pipelines[kind] else []
  }

  /** Whether the raw body holds a script tag (comments included). */
  predicate HasScript(body: seq<Piece>)
  {
    exists r :: r in AllTags(body) && r.Script?
  }

  /** The attribute values the reference scan captures: script sources, or
      stylesheet hrefs. */
  function RefValues(tags: seq<Reference>, css: bool): seq<string>
  {
    if tags == [] then []
    else
      (match tags[0]
       case Script(src) => if css then [] else [src]
       case Link(href, _) => if css then [href] else [])
      + RefValues(tags[1..], css)
  }

  function StripLeadingQuote(v: string): string
  {
    if |v| > 0 && (v[0] == '\'' || v[0] == '"') then v[1..] else v
  }

  function StripTrailing(v: string, c: char): string
  {
    if |v| > 0 && v[|v| - 1] == c then v[..|v| - 1] else v
  }

  /** One leading quote of either kind, then one trailing `'`, then one trailing `"`
      are removed. */
  function StripQuotes(v: string): string
  {
    StripTrailing(StripTrailing(StripLeadingQuote(v), '\''), '"')
  }

  predicate Unquoted(x: string)
  {
    '\'' !in x && '"' !in x
  }

  /** A value in double quotes yields the bare path. */
  lemma StripDoubleQuotes(x: string)
    requires Unquoted(x)
    ensures StripQuotes("\"" + x + "\"") == x
  {
    var d := "\"" + x + "\"";
    assert d[1..] == x + "\"";
    assert (x + "\"")[..|x|] == x;
    if |x| > 0 {
      assert x[|x| - 1] in x;
    }
  }

  /** A value in single quotes yields the bare path. */
  lemma StripSingleQuotes(x: string)
    requires Unquoted(x)
    ensures StripQuotes("'" + x + "'") == x
  {
    var s := "'" + x + "'";
    assert s[1..] == x + "'";
    assert (x + "'")[..|x|] == x;
    if |x| > 0 {
      assert x[|x| - 1] in x;
    }
  }

  /** A value without quotes is kept as it is. */
  lemma StripNoQuotes(x: string)
    requires Unquoted(x)
    ensures StripQuotes(x) == x
  {
    if |x| > 0 {
      assert x[|x| - 1] in x;
      assert x[0] in x;
    }
  }

  /** A reference resolved against the alternate path, else `options.path`, else the
      HTML file's directory, and re-rooted under `assetsDir` relative to the base. */
  function ResolveReference(value: string, alternatePath: string, doc: Document, opts: Options): string
  {
    var root := if alternatePath != "" then alternatePath
                else if opts.path != "" then opts.path
                else Paths.Dirname(doc.path);
    var p := Paths.Join(root, StripQuotes(value));
    if opts.assetsDir != "" then Paths.Join(opts.assetsDir, Paths.Relative(doc.base, p)) else p
  }

  /** With `assetsDir` set, a reference whose root (the alternate path, else
      `options.path`, else the HTML file's directory) lies in or below the base
      directory keeps its place below the base and moves under `assetsDir`. */
  lemma AssetsDirReroot(value: string, alternatePath: string, doc: Document, opts: Options, sub: string)
    requires opts.assetsDir != "" && doc.base != "" && StripQuotes(value) != ""
    requires (if alternatePath != "" then alternatePath
              else if opts.path != "" then opts.path
              else Paths.Dirname(doc.path)) == Paths.Join(doc.base, sub)
    ensures ResolveReference(value, alternatePath, doc, opts)
         == Paths.Join(opts.assetsDir, Paths.Join(sub, StripQuotes(value)))
  {
    if sub != "" {
      Paths.JoinAssociative(doc.base, sub, StripQuotes(value));
    }
    Paths.RelativeJoin(doc.base, Paths.Join(sub, StripQuotes(value)));
  }

  function ResolvedPaths(values: seq<string>, alternatePath: string, doc: Document, opts: Options): (r: seq<string>)
    ensures |r| == |values|
    ensures forall k :: 0 <= k < |values| ==> r[k] == ResolveReference(values[k], alternatePath, doc, opts)
  {
    seq(|values|, k requires 0 <= k < |values| => ResolveReference(values[k], alternatePath, doc, opts))
  }

  /** The reference scan: every captured value resolved, in document order. */
  method ResolvePaths(values: seq<string>, alternatePath: string, doc: Document, opts: Options)
    returns (paths: seq<string>)
    ensures paths == ResolvedPaths(values, alternatePath, doc, opts)
  {
    paths := [];
    var k := 0;
    while k < |values|
      invariant 0 <= k <= |values|
      invariant paths == ResolvedPaths(values[..k], alternatePath, doc, opts)
    {
      paths := paths + [ResolveReference(values[k], alternatePath, doc, opts)];
      k := k + 1;
    }
    assert values[..|values|] == values;
  }

  /** The media values of every stylesheet tag in the raw body, quotes stripped. */
  function MediaValues(tags: seq<Reference>): seq<string>
  {
    if tags == [] then []
    else
      (if tags[0].Link? && tags[0].media.Some? then [StripQuotes(tags[0].media.value)] else [])
      + MediaValues(tags[1..])
  }

  /** JavaScript falsiness of the recorded media query. */
  predicate Falsy(q: Option<string>)
  {
    q == None || q == Some("")
  }

  /** The media check as the scan performs it, from the recorded value `q`: a falsy
      record takes the next value; a different value fails. */
  function MediaFold(values: seq<string>, q: Option<string>): Result<Option<string>>
  {
    if values == [] then Ok(q)
    else if Falsy(q) then MediaFold(values[1..], Some(values[0]))
    else if q.value != values[0] then Err(IncompatibleMedia(q.value, values[0]))
    else MediaFold(values[1..], q)
  }

  /** The media check: the record starts out empty and every value is compared. */
  method CheckMedia(values: seq<string>) returns (r: Result<Option<string>>)
    ensures r == MediaFold(values, None)
  {
    var cssMediaQuery: Option<string> := None;
    var k := 0;
    while k < |values|
      invariant 0 <= k <= |values|
      invariant MediaFold(values, None) == MediaFold(values[k..], cssMediaQuery)
    {
      assert values[k..][1..] == values[k + 1..];
      var media := values[k];
      if Falsy(cssMediaQuery) {
        cssMediaQuery := Some(media);
      } else if cssMediaQuery.value != media {
        return Err(IncompatibleMedia(cssMediaQuery.value, media));
      }
      k := k + 1;
    }
    return Ok(cssMediaQuery);
  }

  /** Media values agree: once a non-empty value has been seen, every later value
      equals it. */
  ghost predicate Consistent(values: seq<string>)
  {
    forall i, j :: 0 <= i < j < |values| && values[i] != "" ==> values[j] == values[i]
  }

  lemma ConsistentConsEmpty(w: seq<string>)
    ensures Consistent([""] + w) <==> Consistent(w)
  {
    var v := [""] + w;
    if Consistent(w) {
      forall i, j | 0 <= i < j < |v| && v[i] != "" ensures v[j] == v[i] {
        assert v[i] == w[i - 1] && v[j] == w[j - 1];
      }
    }
    if Consistent(v) {
      forall i, j | 0 <= i < j < |w| && w[i] != "" ensures w[j] == w[i] {
        assert v[i + 1] == w[i] && v[j + 1] == w[j];
      }
    }
  }

  lemma ConsistentConsSame(c: string, u: seq<string>)
    requires u != [] && u[0] == c
    ensures Consistent([c] + u) <==> Consistent(u)
  {
    var v := [c] + u;
    if Consistent(u) {
      forall i, j | 0 <= i < j < |v| && v[i] != "" ensures v[j] == v[i] {
        if i == 0 {
          assert v[j] == u[j - 1];
          if j - 1 > 0 { assert u[0] != ""; }
        } else {
          assert v[i] == u[i - 1] && v[j] == u[j - 1];
        }
      }
    }
    if Consistent(v) {
      forall i, j | 0 <= i < j < |u| && u[i] != "" ensures u[j] == u[i] {
        assert v[i + 1] == u[i] && v[j + 1] == u[j];
      }
    }
  }

  lemma {:induction false} MediaFoldFrom(c: string, w: seq<string>)
    ensures MediaFold(w, Some(c)).Ok? <==> Consistent([c] + w)
    ensures MediaFold(w, Some(c)).Ok? ==> MediaFold(w, Some(c)).value == Some(([c] + w)[|w|])
    decreases |w|
  {
    if w == [] {
    } else if c == "" {
      MediaFoldFrom(w[0], w[1..]);
      assert [w[0]] + w[1..] == w;
      ConsistentConsEmpty(w);
    } else if c != w[0] {
      var v := [c] + w;
      assert v[0] != "" && v[1] != v[0];
    } else {
      MediaFoldFrom(c, w[1..]);
      assert [c] + w[1..] == w;
      ConsistentConsSame(c, w);
    }
  }

  /** The media check passes exactly when the values are consistent, and then the
      block's media query is the last value seen (none when there is no value). */
  lemma MediaCheckAccepts(values: seq<string>)
    ensures MediaFold(values, None).Ok? <==> Consistent(values)
    ensures MediaFold(values, None).Ok? ==>
      MediaFold(values, None).value == if values == [] then None else Some(values[|values| - 1])
  {
    if values != [] {
      MediaFoldFrom(values[0], values[1..]);
      assert [values[0]] + values[1..] == values;
    }
  }


  /** `getFiles`: the scan, the media check (stylesheets only) and the glob loop,
      in that order. */
  function GetFilesSpec(body: seq<Piece>, css: bool, alternatePath: string, doc: Document, opts: Options, fs: FileSystem): Result<Resolved>
  {
    var paths := ResolvedPaths(RefValues(ScannedTags(body, opts.enableHtmlComment), css), alternatePath, doc, opts);
    var media := if css then MediaFold(MediaValues(AllTags(body)), None) else Ok(None);
    match media
    case Err(e) => Err(e)
    case Ok(q) =>
      match LoadFrom(paths, fs)
      case Err(e) => Err(e)
      case Ok(files) => Ok(Resolved(files, q))
  }

  method GetFiles(body: seq<Piece>, css: bool, alternatePath: string, doc: Document, opts: Options, fs: FileSystem)
    returns (r: Result<Resolved>)
    ensures r == GetFilesSpec(body, css, alternatePath, doc, opts, fs)
  {
    var cssMediaQuery: Option<string> := None;
    var values := RefValues(ScannedTags(body, opts.enableHtmlComment), css);
    var paths := ResolvePaths(values, alternatePath, doc, opts);
    if css {
      var media := CheckMedia(MediaValues(AllTags(body)));
      if media.Err? {
        return Err(media.error);
      }
      cssMediaQuery := media.value;
    }
    var files := LoadFiles(paths, fs);
    if files.Err? {
      return Err(files.error);
    }
    return Ok(Resolved(files.value, cssMediaQuery));
  }

  /** The output name capture: the marker path without one leading '/'. */
  function OutputName(path: string): string
  {
    if |path| >= 2 && path[0] == '/' then path[1..] else path
  }

  /** The block record of a marked, non-`remove` section. */
  function MakeBlock(m: Marker, js: bool, res: Resolved, opts: Options): Block
  {
    var inline := Contains(m.kind, "inline");
    Block(
      if js then (if inline then InlineJs else Js) else (if inline then InlineCss else Css),
      m.path,
      opts.outputRelativePath + (match m.path case Some(p) => OutputName(p) case None => "undefined"),
      res.files,
      TasksFor(opts, m.kind),
      if js then None else res.mediaQuery)
  }

  /** The conditional opener and closer echoed around a block: both or neither. */
  function CondPair(body: seq<Piece>): (Option<string>, Option<string>)
  {
    var open := FirstCondOpen(body);
    var close := FirstCondClose(body);
    if open.Some? && close.Some? then (open, close) else (None, None)
  }

  function Echo(o: Option<string>): seq<Item>
  {
    match o case Some(t) => [Verbatim(t)] case None => []
  }

  /** What one section contributes to the result. */
  function SectionItems(s: Section, doc: Document, opts: Options, fs: FileSystem): Result<seq<Item>>
  {
    match s
    case Unmarked(text) => Ok([Verbatim(text)])
    case Marked(prefix, m, body) =>
      var (open, close) := CondPair(body);
      if m.kind == "remove" then Ok([Verbatim(prefix)] + Echo(open) + Echo(close))
      else
        var js := HasScript(body);
        match GetFilesSpec(body, !js, m.alternatePath, doc, opts, fs)
        case Err(e) => Err(e)
        case Ok(res) => Ok([Verbatim(prefix)] + Echo(open) + [Asset(MakeBlock(m, js, res, opts))] + Echo(close))
  }

  /** The builder's result for a list of sections, in section order. */
  function BuildFrom(sections: seq<Section>, doc: Document, opts: Options, fs: FileSystem): Result<seq<Item>>
  {
    if sections == [] then Ok([])
    else
      match SectionItems(sections[0], doc, opts, fs)
      case Err(e) => Err(e)
      case Ok(items) => Prefixed(items, BuildFrom(sections[1..], doc, opts, fs))
  }

  /** The builder loop over the sections of `doc`. */
  method Build(doc: Document, opts: Options, fs: FileSystem) returns (r: Result<seq<Item>>)
    ensures r == BuildFrom(doc.sections, doc, opts, fs)
  {
    var sections := doc.sections;
    var blocks: seq<Item> := [];
    var i := 0;
    PrefixedAppend([], [], BuildFrom(sections, doc, opts, fs));
    assert sections[0..] == sections;
    while i < |sections|
      invariant 0 <= i <= |sections|
      invariant BuildFrom(sections, doc, opts, fs) == Prefixed(blocks, BuildFrom(sections[i..], doc, opts, fs))
    {
      assert sections[i..][1..] == sections[i + 1..];
      var items: seq<Item>;
      match sections[i] {
        case Unmarked(text) =>
          items := [Verbatim(text)];
        case Marked(prefix, m, body) =>
          var (open, close) := CondPair(body);
          items := [Verbatim(prefix)] + Echo(open);
          if m.kind != "remove" {
            var js := HasScript(body);
            var res := GetFiles(body, !js, m.alternatePath, doc, opts, fs);
            if res.Err? {
              return Err(res.error);
            }
            items := items + [Asset(MakeBlock(m, js, res.value, opts))];
          }
          items := items + Echo(close);
      }
      assert SectionItems(sections[i], doc, opts, fs) == Ok(items);
      PrefixedAppend(blocks, items, BuildFrom(sections[i + 1..], doc, opts, fs));
      blocks := blocks + items;
      i := i + 1;
    }
    assert sections[|sections|..] == [];
    assert blocks + [] == blocks;
    return Ok(blocks);
  }

  /** A document without start markers comes out as its sections, verbatim and in
      order; the end markers between them are gone. */
  lemma {:induction false} UnmarkedSectionsVerbatim(sections: seq<Section>, doc: Document, opts: Options, fs: FileSystem)
    requires forall k :: 0 <= k < |sections| ==> sections[k].Unmarked?
    ensures BuildFrom(sections, doc, opts, fs).Ok?
    ensures var items := BuildFrom(sections, doc, opts, fs).value;
      |items| == |sections| && forall k :: 0 <= k < |sections| ==> items[k] == Verbatim(sections[k].text)
  {
    if sections != [] {
      UnmarkedSectionsVerbatim(sections[1..], doc, opts, fs);
      var rest := BuildFrom(sections[1..], doc, opts, fs).value;
      var items := BuildFrom(sections, doc, opts, fs).value;
      assert items == [Verbatim(sections[0].text)] + rest;
      forall k | 0 <= k < |sections| ensures items[k] == Verbatim(sections[k].text) {
        if k > 0 { assert items[k] == rest[k - 1]; }
      }
    }
  }

  /** A `remove` block never touches the file system and never fails: it leaves the
      prefix, then the conditional opener and closer when the body has both. */
  lemma RemoveBlockDropsBody(prefix: string, m: Marker, body: seq<Piece>, doc: Document, opts: Options, fs: FileSystem)
    requires m.kind == "remove"
    ensures SectionItems(Marked(prefix, m, body), doc, opts, fs).Ok?
    ensures var items := SectionItems(Marked(prefix, m, body), doc, opts, fs).value;
      && items[0] == Verbatim(prefix)
      && (forall k :: 0 <= k < |items| ==> items[k].Verbatim?)
      && |items| == (if FirstCondOpen(body).Some? && FirstCondClose(body).Some? then 3 else 1)
  {
  }

  /** A marked block's layout: the prefix, the conditional opener only when the
      closer is there too, the block record, then the closer. Its type follows the
      body (script tag or not), its inline flag, task list and names follow the
      marker, and only stylesheet blocks carry a media query. */
  lemma MarkedBlockLayout(prefix: string, m: Marker, body: seq<Piece>, doc: Document, opts: Options, fs: FileSystem)
    requires m.kind != "remove"
    requires SectionItems(Marked(prefix, m, body), doc, opts, fs).Ok?
    ensures var items := SectionItems(Marked(prefix, m, body), doc, opts, fs).value;
      var paired := FirstCondOpen(body).Some? && FirstCondClose(body).Some?;
      var at := if paired then 2 else 1;
      && |items| == at + (if paired then 2 else 1)
      && items[0] == Verbatim(prefix)
      && (paired ==> (items[1] == Verbatim(FirstCondOpen(body).value)
                      && items[3] == Verbatim(FirstCondClose(body).value)))
      && items[at].Asset?
      && var b := items[at].block;
      && ((b.kind == Js || b.kind == InlineJs) <==> HasScript(body))
      && ((b.kind == InlineJs || b.kind == InlineCss) <==> Contains(m.kind, "inline"))
      && b.tasks == TasksFor(opts, m.kind)
      && b.nameInHTML == m.path
      && (m.path.Some? ==> b.name == opts.outputRelativePath + OutputName(m.path.value))
      && (b.mediaQuery.Some? ==> b.kind == Css || b.kind == InlineCss)
  {
  }

  /** A marked block's files are those its references resolve to: the scan picks
      script sources when the body holds a script tag, stylesheet hrefs otherwise. */
  lemma MarkedBlockFiles(prefix: string, m: Marker, body: seq<Piece>, doc: Document, opts: Options, fs: FileSystem)
    requires m.kind != "remove"
    requires SectionItems(Marked(prefix, m, body), doc, opts, fs).Ok?
    ensures var items := SectionItems(Marked(prefix, m, body), doc, opts, fs).value;
      var at := if FirstCondOpen(body).Some? && FirstCondClose(body).Some? then 2 else 1;
      var paths := ResolvedPaths(RefValues(ScannedTags(body, opts.enableHtmlComment), !HasScript(body)), m.alternatePath, doc, opts);
      && LoadFrom(paths, fs).Ok?
      && items[at].block.files == LoadFrom(paths, fs).value
  {
  }
}
