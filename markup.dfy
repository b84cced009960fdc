/** The annotated HTML as the engine's regular expressions see it, stated as already
    parsed captures, plus the glob/disk view of the file system.

    A document is the list of its sections: the text between two `<!-- endbuild -->`
    markers. A section either holds no start marker (`Unmarked`) or is split by the
    first one into the text before it, the marker's captures and the block body. A body
    is a list of pieces: plain text and reference tags, HTML comments holding text and
    tags, and conditional-comment openers and closers. */
module Markup {
  import opened Common
  import opened Strings

  /** A reference tag, with its attribute value exactly as written (quotes included). */
  datatype Reference =
    | Script(src: string)
    | Link(href: string, media: Option<string>)

  datatype Chunk = Text(text: string) | Tag(reference: Reference)

  datatype Piece =
    | Plain(chunk: Chunk)
    | Commented(chunks: seq<Chunk>)    // `<!-- ... -->`
    | CondOpen(text: string)           // `<!--[if ...]>`
    | CondClose(text: string)          // `<![endif]-->`

  /** The captures of a start marker `<!-- build:kind(alternatePath) path -->`: the
      kind, the alternate path ("" when absent) and the path as written. */
  datatype Marker = Marker(kind: string, alternatePath: string, path: Option<string>)

  datatype Section =
    | Unmarked(text: string)
    | Marked(prefix: string, marker: Marker, body: seq<Piece>)

  /** An HTML file: its path, its base directory and its sections. */
  datatype Document = Document(path: string, base: string, sections: seq<Section>)

  /** Glob expansion and file reading. Files read from disk get `cwd` as their base. */
  datatype FileSystem = FileSystem(cwd: string, glob: map<string, seq<string>>, disk: map<string, string>)

  const EndMarker: string := "<!-- endbuild -->"

  /** `glob.sync(pattern)`: no entry means no match. */
  function Matches(fs: FileSystem, pattern: string): seq<string>
  {
    if pattern in fs.glob then fs.glob[pattern] else []
  }

  function ReferenceText(r: Reference): string
  {
    match r
    case Script(src) => "<script src=" + src + "></script>"
    case Link(href, media) =>
      "<link rel=\"stylesheet\" href=" + href
      + (match media case Some(m) => " media=" + m case None => "") + ">"
  }

  function ChunkText(c: Chunk): string
  {
    match c
    case Text(t) => t
    case Tag(r) => ReferenceText(r)
  }

  function ChunksText(cs: seq<Chunk>): string
  {
    if cs == [] then "" else ChunkText(cs[0]) + ChunksText(cs[1..])
  }

  function PieceText(p: Piece): string
  {
    match p
    case Plain(c) => ChunkText(c)
    case Commented(cs) => "<!--" + ChunksText(cs) + "-->"
    case CondOpen(t) => t
    case CondClose(t) => t
  }

  function BodyText(body: seq<Piece>): string
  {
    if body == [] then "" else PieceText(body[0]) + BodyText(body[1..])
  }

  function MarkerText(m: Marker): string
  {
    "<!-- build:" + m.kind
    + (if m.alternatePath != "" then "(" + m.alternatePath + ")" else "")
    + (match m.path case Some(p) => " " + p case None => "")
    + " -->"
  }

  /** The text of a section as it stands in the document. */
  function SectionText(s: Section): string
  {
    match s
    case Unmarked(t) => t
    case Marked(prefix, m, body) => prefix + MarkerText(m) + BodyText(body)
  }

  function SectionTexts(sections: seq<Section>): (r: seq<string>)
    ensures |r| == |sections|
    ensures forall k :: 0 <= k < |sections| ==> r[k] == SectionText(sections[k])
  {
    seq(|sections|, k requires 0 <= k < |sections| => SectionText(sections[k]))
  }

  lemma SectionTextsCons(sections: seq<Section>)
    requires sections != []
    ensures SectionTexts(sections) == [SectionText(sections[0])] + SectionTexts(sections[1..])
  {
    var r := [SectionText(sections[0])] + SectionTexts(sections[1..]);
    assert |r| == |sections|;
    forall k | 0 <= k < |sections| ensures SectionTexts(sections)[k] == r[k] {
      if k > 0 { assert sections[k] == sections[1..][k - 1]; }
    }
  }

  /** The document text: the sections with an end marker between each pair. */
  function DocumentText(d: Document): string
  {
    JoinWith(SectionTexts(d.sections), EndMarker)
  }

  /** The first conditional opener of a body (`body.match(startCondReg)[0]`). */
  function FirstCondOpen(body: seq<Piece>): Option<string>
  {
    if body == [] then None
    else if body[0].CondOpen? then Some(body[0].text)
    else FirstCondOpen(body[1..])
  }

  /** The first conditional closer of a body. */
  function FirstCondClose(body: seq<Piece>): Option<string>
  {
    if body == [] then None
    else if body[0].CondClose? then Some(body[0].text)
    else FirstCondClose(body[1..])
  }

  /** The tags of a body that a scan of its raw text meets, comments included. */
  function AllTags(body: seq<Piece>): seq<Reference>
  {
    if body == [] then []
    else
      (match body[0]
       case Plain(c) => TagsOf([c])
       case Commented(cs) => TagsOf(cs)
       case _ => [])
      + AllTags(body[1..])
  }

  /** The tags a scan meets once comments are removed, or kept when `keepComments`. */
  function ScannedTags(body: seq<Piece>, keepComments: bool): seq<Reference>
  {
    if body == [] then []
    else
      (match body[0]
       case Plain(c) => TagsOf([c])
       case Commented(cs) => if keepComments then TagsOf(cs) else []
       case _ => [])
      + ScannedTags(body[1..], keepComments)
  }

  function TagsOf(cs: seq<Chunk>): seq<Reference>
  {
    if cs == [] then []
    else (if cs[0].Tag? then [cs[0].reference] else []) + TagsOf(cs[1..])
  }

  /** Keeping comments only adds tags: the comment-free scan is the raw scan when
      `keepComments` is set. */
  lemma {:induction false} ScanWithCommentsIsRaw(body: seq<Piece>)
    ensures ScannedTags(body, true) == AllTags(body)
  {
    if body != [] {
      ScanWithCommentsIsRaw(body[1..]);
    }
  }
}
