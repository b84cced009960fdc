/** The HTML reassembly of the newer engine (lib/htmlBuilder.js): every block is run
    through its pipeline and rendered into the slot at its own position; the slots are
    joined into the new HTML file, which goes through the `html` pipeline. */
module HtmlBuilder {
  import opened Common
  import opened Strings
  import Paths
  import opened Stages
  import Pipeline
  import opened BlocksBuilder

  /** The value of one entry of `jsAttributes`. */
  datatype AttributeValue = Flag(on: bool) | Scalar(text: string) | List(items: seq<string>)

  /** The options the reassembly reads: the script attributes (None when falsy) and
      the `html` task list. */
  datatype HtmlOptions = HtmlOptions(jsAttributes: Option<seq<(string, AttributeValue)>>, html: seq<Task>)

  /** The text an attribute contributes for the script tag numbered `index`: nothing
      for `false`, the bare name for `true`, the indexed element of a list
      ("undefined" past its end) or the scalar value. */
  function AttributeItem(name: string, v: AttributeValue, index: nat): seq<string>
  {
    match v
    case Flag(on) => if on then [name] else []
    case Scalar(t) => [name + "=\"" + t + "\""]
    case List(items) => [name + "=\"" + (if index < |items| then items[index] else "undefined") + "\""]
  }

  /** The attribute texts in key order. */
  function AttributeItems(attrs: seq<(string, AttributeValue)>, index: nat): seq<string>
  {
    if attrs == [] then []
    else
      var (name, v) := attrs[|attrs| - 1];
      AttributeItems(attrs[..|attrs| - 1], index) + AttributeItem(name, v, index)
  }

  function AttributesText(attributes: Option<seq<(string, AttributeValue)>>, index: nat): string
  {
    match attributes
    case None => ""
    case Some(attrs) => " " + JoinWith(AttributeItems(attrs, index), " ")
  }

  /** `createHTMLAttributes`: the items are collected key by key, then joined. */
  method CreateHTMLAttributes(attributes: Option<seq<(string, AttributeValue)>>, index: nat) returns (r: string)
    ensures r == AttributesText(attributes, index)
  {
    if attributes.None? {
      return "";
    }
    var attrs := attributes.value;
    var attrArray: seq<string> := [];
    for k := 0 to |attrs|
      invariant attrArray == AttributeItems(attrs[..k], index)
    {
      assert attrs[..k + 1][..k] == attrs[..k];
      var (attribute, attributeValue) := attrs[k];
      if attributeValue == Flag(true) {
        attrArray := attrArray + [attribute];
        continue;
      }
      if attributeValue == Flag(false) {
        continue;
      }
      if attributeValue.List? {
        var items := attributeValue.items;
        attrArray := attrArray + [attribute + "=\"" + (if index < |items| then items[index] else "undefined") + "\""];
      } else {
        attrArray := attrArray + [attribute + "=\"" + attributeValue.text + "\""];
      }
    }
    assert attrs[..|attrs|] == attrs;
    return " " + JoinWith(attrArray, " ");
  }

  /** The attribute texts of two runs of keys follow each other. */
  lemma {:induction false} AttributeItemsAppend(a: seq<(string, AttributeValue)>, b: seq<(string, AttributeValue)>, index: nat)
    ensures AttributeItems(a + b, index) == AttributeItems(a, index) + AttributeItems(b, index)
    decreases |b|
  {
    if b == [] {
      assert a + b == a;
    } else {
      var c := a + b;
      var front := b[..|b| - 1];
      var item := AttributeItem(b[|b| - 1].0, b[|b| - 1].1, index);
      assert c[..|c| - 1] == a + front && c[|c| - 1] == b[|b| - 1];
      assert AttributeItems(c, index) == AttributeItems(a + front, index) + item;
      AttributeItemsAppend(a, front, index);
      var x, y := AttributeItems(a, index), AttributeItems(front, index);
      assert x + y + item == x + (y + item);
    }
  }

  /** Only list-valued attributes depend on the script's number. */
  lemma {:induction false} IndexMattersOnlyForLists(attrs: seq<(string, AttributeValue)>, i: nat, j: nat)
    requires forall k :: 0 <= k < |attrs| ==> !attrs[k].1.List?
    ensures AttributeItems(attrs, i) == AttributeItems(attrs, j)
  {
    if attrs != [] {
      IndexMattersOnlyForLists(attrs[..|attrs| - 1], i, j);
    }
  }

  /** A list does not wrap around: past its end the attribute reads "undefined";
      an empty attribute object still gives one space; `false` adds nothing. */
  lemma AttributeEdgeCases(name: string, items: seq<string>, index: nat, attrs: seq<(string, AttributeValue)>)
    requires |items| <= index
    ensures AttributesText(Some([(name, List(items))]), index) == AttributesText(Some([(name, Scalar("undefined"))]), index)
    ensures AttributesText(Some([]), index) == " "
    ensures AttributeItems(attrs + [(name, Flag(false))], index) == AttributeItems(attrs, index)
  {
    assert [(name, List(items))][..0] == [];
    assert [(name, Scalar("undefined"))][..0] == [];
    assert (attrs + [(name, Flag(false))])[..|attrs|] == attrs;
  }

  /** The HTML path with the first occurrence of its basename replaced by the
      produced file's basename. */
  function Retargeted(nameInHTML: string, file: File): string
  {
    ReplaceFirst(nameInHTML, Paths.Basename(nameInHTML), Paths.Basename(file.path))
  }

  /** When the basename occurs first at the end, only the basename changes. */
  lemma RetargetKeepsDirectory(nameInHTML: string, file: File)
    requires IndexOf(nameInHTML, Paths.Basename(nameInHTML)) == |nameInHTML| - |Paths.Basename(nameInHTML)|
    ensures Retargeted(nameInHTML, file)
         == nameInHTML[..|nameInHTML| - |Paths.Basename(nameInHTML)|] + Paths.Basename(file.path)
  {
  }

  /** The replacement takes the first occurrence, which may lie in the directory:
      "js/js" retargeted to "app.js" reads "app.js/js". */
  lemma RetargetHitsDirectoryFirst()
    ensures Retargeted("js/js", File("out/app.js", "", "")) == "app.js/js"
  {
    BasenamesOfExample();
    assert OccursAt("js/js", "js", 0);
    assert IndexOf("js/js", "js") == 0;
    assert "js/js"[2..] == "/js";
  }

  lemma BasenamesOfExample()
    ensures Paths.Basename("js/js") == "js"
    ensures Paths.Basename("out/app.js") == "app.js"
  {
    assert Paths.LastIndexOf("js/js", '/') == 2;
    assert Paths.LastIndexOf("out/app.js", '/') == 3;
  }

  /** ` media="…"` exactly when the media query is truthy. */
  function MediaAttribute(media: Option<string>): string
  {
    if media.Some? && media.value != "" then " media=\"" + media.value + "\"" else ""
  }

  function ScriptTag(nameInHTML: string, file: File, attributes: Option<seq<(string, AttributeValue)>>, counter: nat): string
  {
    "<script src=\"" + Retargeted(nameInHTML, file) + "\"" + AttributesText(attributes, counter) + "></script>"
  }

  function LinkTag(nameInHTML: string, file: File, media: Option<string>): string
  {
    "<link rel=\"stylesheet\" href=\"" + Retargeted(nameInHTML, file) + "\"" + MediaAttribute(media) + "/>"
  }

  function InlineScript(file: File): string
  {
    "<script>" + file.contents + "</script>"
  }

  function InlineStyle(media: Option<string>, file: File): string
  {
    "<style" + MediaAttribute(media) + ">" + file.contents + "</style>"
  }

  predicate IsJs(file: File)
  {
    Paths.Extname(file.path) == ".js"
  }

  function CountJs(files: seq<File>): nat
  {
    if files == [] then 0 else (if IsJs(files[0]) then 1 else 0) + CountJs(files[1..])
  }

  /** A js block's push callback, file after file, from the slot text `html` and the
      script counter: only `.js` files get a tag, each tag takes the next number, and
      a tag needs the marker path. */
  function JsTagsFrom(name: Option<string>, files: seq<File>, html: string, counter: nat,
                      attributes: Option<seq<(string, AttributeValue)>>): Result<(string, nat)>
  {
    if files == [] then Ok((html, counter))
    else if !IsJs(files[0]) then JsTagsFrom(name, files[1..], html, counter, attributes)
    else
      match name
      case None => Err(MarkerWithoutPath)
      case Some(n) => JsTagsFrom(name, files[1..], html + ScriptTag(n, files[0], attributes, counter), counter + 1, attributes)
  }

  /** The tag a produced file gets under the given number: a script tag for a `.js`
      file, nothing otherwise. */
  function NumberedTag(n: string, file: File, attributes: Option<seq<(string, AttributeValue)>>, number: nat): string
  {
    if IsJs(file) then ScriptTag(n, file, attributes, number) else ""
  }

  /** The tag of each produced file, the `.js` ones numbered consecutively from
      `counter`: the reference rendering a js block is compared with. */
  function ScriptTags(n: string, files: seq<File>, counter: nat, attributes: Option<seq<(string, AttributeValue)>>): (r: seq<string>)
    ensures |r| == |files|
  {
    if files == [] then []
    else [NumberedTag(n, files[0], attributes, counter)]
         + ScriptTags(n, files[1..], counter + (if IsJs(files[0]) then 1 else 0), attributes)
  }

  lemma ScriptTagsCons(n: string, files: seq<File>, counter: nat, attributes: Option<seq<(string, AttributeValue)>>)
    requires files != []
    ensures Strings.Concat(ScriptTags(n, files, counter, attributes))
         == NumberedTag(n, files[0], attributes, counter)
            + Strings.Concat(ScriptTags(n, files[1..], counter + (if IsJs(files[0]) then 1 else 0), attributes))
  {
    var tags := ScriptTags(n, files, counter, attributes);
    assert tags[1..] == ScriptTags(n, files[1..], counter + (if IsJs(files[0]) then 1 else 0), attributes);
  }

  /** A js block fails only when a tag is needed and the marker has no path. */
  lemma {:induction false} JsTagsOutcome(name: Option<string>, files: seq<File>, html: string, counter: nat,
                                         attributes: Option<seq<(string, AttributeValue)>>)
    ensures JsTagsFrom(name, files, html, counter, attributes).Ok? <==> (name.Some? || CountJs(files) == 0)
    decreases |files|
  {
    if files != [] {
      if IsJs(files[0]) && name.Some? {
        JsTagsOutcome(name, files[1..], html + ScriptTag(name.value, files[0], attributes, counter), counter + 1, attributes);
      } else {
        JsTagsOutcome(name, files[1..], html, counter, attributes);
      }
    }
  }

  /** A js block advances the script counter by its number of `.js` files. */
  lemma {:induction false} JsTagsCounter(name: Option<string>, files: seq<File>, html: string, counter: nat,
                                         attributes: Option<seq<(string, AttributeValue)>>)
    ensures JsTagsFrom(name, files, html, counter, attributes).Ok? ==>
      JsTagsFrom(name, files, html, counter, attributes).value.1 == counter + CountJs(files)
    decreases |files|
  {
    if files != [] {
      var f := files[0];
      if IsJs(f) && name.Some? {
        JsTagsCounter(name, files[1..], html + ScriptTag(name.value, f, attributes, counter), counter + 1, attributes);
      } else if !IsJs(f) {
        JsTagsCounter(name, files[1..], html, counter, attributes);
      }
    }
  }

  /** A js block renders one script tag per `.js` file, in order, numbered
      consecutively from the counter it starts at. */
  lemma {:induction false} JsTagsRendering(name: Option<string>, files: seq<File>, html: string, counter: nat,
                                           attributes: Option<seq<(string, AttributeValue)>>)
    requires name.Some?
    ensures JsTagsFrom(name, files, html, counter, attributes).Ok? ==>
      JsTagsFrom(name, files, html, counter, attributes).value.0
      == html + Strings.Concat(ScriptTags(name.value, files, counter, attributes))
    decreases |files|
  {
    if files != [] {
      var f := files[0];
      if IsJs(f) {
        var tag := ScriptTag(name.value, f, attributes, counter);
        JsTagsRendering(name, files[1..], html + tag, counter + 1, attributes);
        ScriptTagsCons(name.value, files, counter, attributes);
        AppendAssoc(html, tag, Strings.Concat(ScriptTags(name.value, files[1..], counter + 1, attributes)));
      } else {
        JsTagsRendering(name, files[1..], html, counter, attributes);
        ScriptTagsCons(name.value, files, counter, attributes);
        assert "" + Strings.Concat(ScriptTags(name.value, files[1..], counter, attributes))
            == Strings.Concat(ScriptTags(name.value, files[1..], counter, attributes));
      }
    } else {
      assert html + "" == html;
    }
  }

  /** A css block's push callback, file after file: one link per file whatever its
      extension. */
  function LinkTagsFrom(name: Option<string>, files: seq<File>, html: string, media: Option<string>): Result<string>
  {
    if files == [] then Ok(html)
    else
      match name
      case None => Err(MarkerWithoutPath)
      case Some(n) => LinkTagsFrom(name, files[1..], html + LinkTag(n, files[0], media), media)
  }

  /** The link of each produced file: the reference rendering a css block is
      compared with. */
  function LinkTags(n: string, files: seq<File>, media: Option<string>): (r: seq<string>)
    ensures |r| == |files|
  {
    if files == [] then [] else [LinkTag(n, files[0], media)] + LinkTags(n, files[1..], media)
  }

  lemma LinkTagsCons(n: string, files: seq<File>, media: Option<string>)
    requires files != []
    ensures Strings.Concat(LinkTags(n, files, media))
         == LinkTag(n, files[0], media) + Strings.Concat(LinkTags(n, files[1..], media))
  {
    assert LinkTags(n, files, media)[1..] == LinkTags(n, files[1..], media);
  }

  /** A css block renders exactly one link per produced file, in order. */
  lemma {:induction false} LinkTagsRendering(name: Option<string>, files: seq<File>, html: string, media: Option<string>)
    ensures LinkTagsFrom(name, files, html, media).Ok? <==> (name.Some? || files == [])
    ensures LinkTagsFrom(name, files, html, media).Ok? && name.Some? ==>
      LinkTagsFrom(name, files, html, media).value == html + Strings.Concat(LinkTags(name.value, files, media))
    decreases |files|
  {
    if files != [] && name.Some? {
      var n := name.value;
      var tag := LinkTag(n, files[0], media);
      LinkTagsRendering(name, files[1..], html + tag, media);
      LinkTagsCons(n, files, media);
      AppendAssoc(html, tag, Strings.Concat(LinkTags(n, files[1..], media)));
    } else if files == [] {
      assert html + Strings.Concat([]) == html;
    }
  }

  /** What a slot holds once its block has been handled: its text, the files handed
      downstream and the script counter after it. */
  datatype Slot = Slot(text: string, pushed: seq<File>, counter: nat)

  /** The slot of one entry. A string is copied, a block without files leaves "",
      a block whose pipeline produces nothing never resolves; inline blocks take the
      last produced file and push nothing. */
  function SlotOf(item: Item, counter: nat, opts: HtmlOptions, ext: Transforms): Result<Slot>
  {
    match item
    case Verbatim(t) => Ok(Slot(t, [], counter))
    case Asset(b) =>
      if b.files == [] then Ok(Slot("", [], counter))
      else
        match Pipeline.Pushed(b.name, b.files, b.tasks, ext)
        case Err(e) => Err(e)
        case Ok(out) =>
          if out == [] then Err(NeverCompletes)
          else
            match b.kind
            case Js =>
              (match JsTagsFrom(b.nameInHTML, out, "", counter, opts.jsAttributes)
               case Err(e) => Err(e)
               case Ok((h, c)) => Ok(Slot(h, out, c)))
            case Css =>
              (match LinkTagsFrom(b.nameInHTML, out, "", b.mediaQuery)
               case Err(e) => Err(e)
               case Ok(h) => Ok(Slot(h, out, counter)))
            case InlineJs => Ok(Slot(InlineScript(out[|out| - 1]), [], counter))
            case InlineCss => Ok(Slot(InlineStyle(b.mediaQuery, out[|out| - 1]), [], counter))
  }

  /** The js push callback as a loop over the produced files. */
  method RenderScripts(name: Option<string>, out: seq<File>, counter: nat,
                       attributes: Option<seq<(string, AttributeValue)>>) returns (r: Result<(string, nat)>)
    ensures r == JsTagsFrom(name, out, "", counter, attributes)
  {
    var html := "";
    var jsCounter := counter;
    for k := 0 to |out|
      invariant JsTagsFrom(name, out, "", counter, attributes) == JsTagsFrom(name, out[k..], html, jsCounter, attributes)
    {
      assert out[k..][1..] == out[k + 1..];
      var file := out[k];
      if IsJs(file) {
        if name.None? {
          return Err(MarkerWithoutPath);
        }
        var attrs := CreateHTMLAttributes(attributes, jsCounter);
        html := html + ("<script src=\"" + Retargeted(name.value, file) + "\"" + attrs + "></script>");
        jsCounter := jsCounter + 1;
      }
    }
    return Ok((html, jsCounter));
  }

  /** The css push callback as a loop over the produced files. */
  method RenderLinks(name: Option<string>, out: seq<File>, media: Option<string>) returns (r: Result<string>)
    ensures r == LinkTagsFrom(name, out, "", media)
  {
    var html := "";
    for k := 0 to |out|
      invariant LinkTagsFrom(name, out, "", media) == LinkTagsFrom(name, out[k..], html, media)
    {
      assert out[k..][1..] == out[k + 1..];
      if name.None? {
        return Err(MarkerWithoutPath);
      }
      html := html + LinkTag(name.value, out[k], media);
    }
    return Ok(html);
  }

  /** One entry of `blocks.map`: runs the block's pipeline and fills its slot. */
  method RenderSlot(item: Item, counter: nat, opts: HtmlOptions, ext: Transforms) returns (r: Result<Slot>)
    ensures r == SlotOf(item, counter, opts, ext)
  {
    if item.Verbatim? {
      return Ok(Slot(item.text, [], counter));
    }
    var b := item.block;
    if b.files == [] {
      return Ok(Slot("", [], counter));
    }
    var produced := Pipeline.Run(b.name, b.files, b.tasks, ext);
    if produced.Err? {
      return Err(produced.error);
    }
    var out := produced.value;
    if out == [] {
      return Err(NeverCompletes);
    }
    match b.kind {
      case Js =>
        var tags := RenderScripts(b.nameInHTML, out, counter, opts.jsAttributes);
        if tags.Err? {
          return Err(tags.error);
        }
        return Ok(Slot(tags.value.0, out, tags.value.1));
      case Css =>
        var links := RenderLinks(b.nameInHTML, out, b.mediaQuery);
        if links.Err? {
          return Err(links.error);
        }
        return Ok(Slot(links.value, out, counter));
      case InlineJs =>
        var html := RenderInline(out, None, true);
        return Ok(Slot(html, [], counter));
      case InlineCss =>
        var html := RenderInline(out, b.mediaQuery, false);
        return Ok(Slot(html, [], counter));
    }
  }

  /** The inline push callbacks as a loop: every produced file overwrites the slot,
      so the last one's contents are inlined. */
  method RenderInline(out: seq<File>, media: Option<string>, js: bool) returns (html: string)
    requires out != []
    ensures html == if js then InlineScript(out[|out| - 1]) else InlineStyle(media, out[|out| - 1])
  {
    html := "";
    for k := 0 to |out|
      invariant k > 0 ==> html == if js then InlineScript(out[k - 1]) else InlineStyle(media, out[k - 1])
    {
      html := if js then InlineScript(out[k]) else InlineStyle(media, out[k]);
    }
  }

  /** Slot texts and pushed files of a run of entries, extended in front. */
  function Gathered(texts: seq<string>, pushed: seq<File>, r: Result<(seq<string>, seq<File>)>): Result<(seq<string>, seq<File>)>
  {
    match r
    case Err(e) => Err(e)
    case Ok((ts, ps)) => Ok((texts + ts, pushed + ps))
  }

  lemma GatheredAppend(t1: seq<string>, p1: seq<File>, t2: seq<string>, p2: seq<File>, r: Result<(seq<string>, seq<File>)>)
    ensures Gathered(t1, p1, Gathered(t2, p2, r)) == Gathered(t1 + t2, p1 + p2, r)
    ensures Gathered([], [], r) == r
  {
    match r {
      case Err(e) =>
      case Ok((ts, ps)) =>
        assert t1 + (t2 + ts) == (t1 + t2) + ts;
        assert p1 + (p2 + ps) == (p1 + p2) + ps;
        assert [] + ts == ts && [] + ps == ps;
    }
  }

  /** Every entry's slot in entry order, with the script counter carried from block
      to block. */
  function SlotsFrom(items: seq<Item>, counter: nat, opts: HtmlOptions, ext: Transforms): Result<(seq<string>, seq<File>)>
  {
    if items == [] then Ok(([], []))
    else
      match SlotOf(items[0], counter, opts, ext)
      case Err(e) => Err(e)
      case Ok(s) => Gathered([s.text], s.pushed, SlotsFrom(items[1..], s.counter, opts, ext))
  }

  /** `createFile`: the HTML basename below the HTML directory taken relative to the
      base; the new file's base is the working directory. */
  function CreateFile(htmlFile: File, content: string, cwd: string): File
  {
    var mainPath := Paths.Dirname(htmlFile.path);
    File(Paths.Join(Paths.Relative(htmlFile.base, mainPath), Paths.Basename(htmlFile.path)), cwd, content)
  }

  /** An HTML file right below its base keeps its name. */
  lemma CreatedFileAtBase(base: string, name: string, contents: string, content: string, cwd: string)
    requires base != "" && name != "" && '/' !in name
    ensures CreateFile(File(base + "/" + name, base, contents), content, cwd).path == name
  {
    var p := base + "/" + name;
    assert p[|base|] == '/' && p[|base| + 1..] == name;
    assert Paths.LastIndexOf(p, '/') == |base|;
    assert p[..|base|] == base;
  }

  /** An HTML file further down keeps its path relative to the base. */
  lemma CreatedFileBelowBase(base: string, dir: string, name: string, contents: string, content: string, cwd: string)
    requires base != "" && name != "" && dir != "" && '/' !in name && '/' !in dir
    ensures CreateFile(File(base + "/" + dir + "/" + name, base, contents), content, cwd).path == dir + "/" + name
  {
    var q := base + "/" + dir + "/" + name;
    var k := |base| + 1 + |dir|;
    assert q[k] == '/' && q[k + 1..] == name;
    assert Paths.LastIndexOf(q, '/') == k;
    assert q[..k] == base + "/" + dir;
    Paths.RelativeJoin(base, dir);
  }

  /** What the reassembly produces: the files pushed by the blocks, and the files the
      `html` pipeline hands to the final callback. */
  datatype Built = Built(pushed: seq<File>, emitted: seq<File>)

  function HtmlOutput(htmlFile: File, blocks: seq<Item>, opts: HtmlOptions, cwd: string, ext: Transforms): Result<Built>
  {
    match SlotsFrom(blocks, 0, opts, ext)
    case Err(e) => Err(e)
    case Ok((slots, pushed)) =>
      var created := CreateFile(htmlFile, Strings.Concat(slots), cwd);
      match Pipeline.Pushed(created.path, [created], opts.html, ext)
      case Err(e) => Err(e)
      case Ok(emitted) => Ok(Built(pushed, emitted))
  }

  /** The exported function: every block fills its slot, in block order; the slots
      are joined into the new HTML file, which is run through the `html` tasks. */
  method BuildHtml(htmlFile: File, blocks: seq<Item>, opts: HtmlOptions, cwd: string, ext: Transforms) returns (r: Result<Built>)
    ensures r == HtmlOutput(htmlFile, blocks, opts, cwd, ext)
  {
    var html: seq<string> := [];
    var pushed: seq<File> := [];
    var jsCounter := 0;
    GatheredAppend([], [], [], [], SlotsFrom(blocks, 0, opts, ext));
    assert blocks[0..] == blocks;
    for i := 0 to |blocks|
      invariant SlotsFrom(blocks, 0, opts, ext) == Gathered(html, pushed, SlotsFrom(blocks[i..], jsCounter, opts, ext))
    {
      assert blocks[i..][1..] == blocks[i + 1..];
      var slot := RenderSlot(blocks[i], jsCounter, opts, ext);
      if slot.Err? {
        return Err(slot.error);
      }
      GatheredAppend(html, pushed, [slot.value.text], slot.value.pushed, SlotsFrom(blocks[i + 1..], slot.value.counter, opts, ext));
      html := html + [slot.value.text];
      pushed := pushed + slot.value.pushed;
      jsCounter := slot.value.counter;
    }
    assert blocks[|blocks|..] == [];
    assert html + [] == html && pushed + [] == pushed;
    var createdFile := CreateFile(htmlFile, Strings.Concat(html), cwd);
    var emitted := Pipeline.Run(createdFile.path, [createdFile], opts.html, ext);
    if emitted.Err? {
      return Err(emitted.error);
    }
    return Ok(Built(pushed, emitted.value));
  }

  /** Slots follow block order: one slot per entry, strings copied into their own
      slot and blocks without files leaving theirs empty, whatever the other blocks
      render. */
  lemma {:induction false} SlotsInBlockOrder(items: seq<Item>, counter: nat, opts: HtmlOptions, ext: Transforms)
    requires SlotsFrom(items, counter, opts, ext).Ok?
    ensures var slots := SlotsFrom(items, counter, opts, ext).value.0;
      && |slots| == |items|
      && (forall k :: 0 <= k < |items| && items[k].Verbatim? ==> slots[k] == items[k].text)
      && (forall k :: 0 <= k < |items| && items[k].Asset? && items[k].block.files == [] ==> slots[k] == "")
  {
    if items != [] {
      var s := SlotOf(items[0], counter, opts, ext).value;
      SlotsInBlockOrder(items[1..], s.counter, opts, ext);
      var slots := SlotsFrom(items, counter, opts, ext).value.0;
      var rest := SlotsFrom(items[1..], s.counter, opts, ext).value.0;
      assert slots == [s.text] + rest;
      forall k | 1 <= k < |items| ensures slots[k] == rest[k - 1] && items[k] == items[1..][k - 1] {
      }
    }
  }

  /** A document of strings only is reassembled as their concatenation, and no file
      is pushed downstream. */
  lemma {:induction false} VerbatimOnly(items: seq<Item>, counter: nat, opts: HtmlOptions, ext: Transforms)
    requires forall k :: 0 <= k < |items| ==> items[k].Verbatim?
    ensures SlotsFrom(items, counter, opts, ext).Ok?
    ensures SlotsFrom(items, counter, opts, ext).value.1 == []
    ensures Strings.Concat(SlotsFrom(items, counter, opts, ext).value.0)
         == Strings.Concat(seq(|items|, k requires 0 <= k < |items| => items[k].text))
  {
    if items != [] {
      VerbatimOnly(items[1..], counter, opts, ext);
      var texts := seq(|items|, k requires 0 <= k < |items| => items[k].text);
      var tail := seq(|items[1..]|, k requires 0 <= k < |items[1..]| => items[1..][k].text);
      assert texts[1..] == tail;
      var rest := SlotsFrom(items[1..], counter, opts, ext).value;
      assert SlotsFrom(items, counter, opts, ext).value == ([items[0].text] + rest.0, [] + rest.1);
      assert ([items[0].text] + rest.0)[1..] == rest.0;
    }
  }

  /** Inline blocks push nothing and hold the last produced file; js and css blocks
      push every produced file. */
  lemma SlotPushes(b: Block, counter: nat, opts: HtmlOptions, ext: Transforms)
    requires b.files != []
    requires SlotOf(Asset(b), counter, opts, ext).Ok?
    ensures Pipeline.Pushed(b.name, b.files, b.tasks, ext).Ok?
    ensures var out := Pipeline.Pushed(b.name, b.files, b.tasks, ext).value;
      var s := SlotOf(Asset(b), counter, opts, ext).value;
      && out != []
      && (b.kind == InlineJs ==> s.pushed == [] && s.text == InlineScript(out[|out| - 1]))
      && (b.kind == InlineCss ==> s.pushed == [] && s.text == InlineStyle(b.mediaQuery, out[|out| - 1]))
      && ((b.kind == Js || b.kind == Css) ==> s.pushed == out)
      && (b.kind != Js ==> s.counter == counter)
  {
  }

  /** A js block's slot holds one numbered script tag per `.js` file it produced, and
      the counter moves on by that many. */
  lemma JsSlot(b: Block, counter: nat, opts: HtmlOptions, ext: Transforms)
    requires b.kind == Js && b.files != [] && b.nameInHTML.Some?
    requires SlotOf(Asset(b), counter, opts, ext).Ok?
    ensures var out := Pipeline.Pushed(b.name, b.files, b.tasks, ext).value;
      var s := SlotOf(Asset(b), counter, opts, ext).value;
      && s.text == Strings.Concat(ScriptTags(b.nameInHTML.value, out, counter, opts.jsAttributes))
      && s.counter == counter + CountJs(out)
  {
    var out := Pipeline.Pushed(b.name, b.files, b.tasks, ext).value;
    JsTagsOutcome(b.nameInHTML, out, "", counter, opts.jsAttributes);
    JsTagsCounter(b.nameInHTML, out, "", counter, opts.jsAttributes);
    JsTagsRendering(b.nameInHTML, out, "", counter, opts.jsAttributes);
    assert "" + Strings.Concat(ScriptTags(b.nameInHTML.value, out, counter, opts.jsAttributes))
        == Strings.Concat(ScriptTags(b.nameInHTML.value, out, counter, opts.jsAttributes));
  }

  /** A css block's slot holds one link per produced file, each with the block's
      media query when it has one. */
  lemma CssSlot(b: Block, counter: nat, opts: HtmlOptions, ext: Transforms)
    requires b.kind == Css && b.files != [] && b.nameInHTML.Some?
    requires SlotOf(Asset(b), counter, opts, ext).Ok?
    ensures var out := Pipeline.Pushed(b.name, b.files, b.tasks, ext).value;
      SlotOf(Asset(b), counter, opts, ext).value.text
      == Strings.Concat(LinkTags(b.nameInHTML.value, out, b.mediaQuery))
  {
    var out := Pipeline.Pushed(b.name, b.files, b.tasks, ext).value;
    LinkTagsRendering(b.nameInHTML, out, "", b.mediaQuery);
    assert "" + Strings.Concat(LinkTags(b.nameInHTML.value, out, b.mediaQuery))
        == Strings.Concat(LinkTags(b.nameInHTML.value, out, b.mediaQuery));
  }
}
