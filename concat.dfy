/** The concatenation transform of the older engine (src/concat.js): it remembers the
    first file it receives, collects every file's contents, and on flush pushes one
    clone of the first file holding all contents with end-of-line separators. */
module Concat {
  import opened Common
  import opened Strings
  import Paths

  /** `n` copies of the end-of-line buffer. */
  function Separators(eol: string, n: nat): (r: seq<string>)
    ensures |r| == n && forall k :: 0 <= k < n ==> r[k] == eol
  {
    seq(n, _ => eol)
  }

  /** The buffer list once the flush loop is done: every one of the n-1 separators is
      spliced in at index i+1 for a growing i, so all of them end up right after the
      first file's contents. */
  function Spliced(chunks: seq<string>, eol: string): (r: seq<string>)
    ensures |r| == if chunks == [] then 0 else 2 * |chunks| - 1
  {
    if chunks == [] then [] else [chunks[0]] + Separators(eol, |chunks| - 1) + chunks[1..]
  }

  /** The flush loop: the bound is taken once, before the list grows, and each
      separator is inserted at index i+1. */
  method InsertSeparators(chunks: seq<string>, eol: string) returns (r: seq<string>)
    ensures r == Spliced(chunks, eol)
  {
    r := chunks;
    var i, l := 0, |chunks|;
    while i < l - 1
      invariant 0 <= i && (l == 0 || i <= l - 1)
      invariant l > 0 ==> r == [chunks[0]] + Separators(eol, i) + chunks[1..]
      invariant l == 0 ==> r == []
    {
      assert r[..i + 1] == [chunks[0]] + Separators(eol, i);
      assert r[i + 1..] == chunks[1..];
      assert Separators(eol, i) + [eol] == Separators(eol, i + 1);
      r := r[..i + 1] + [eol] + r[i + 1..];
      i := i + 1;
    }
  }

  /** The joined file's name: `name`, or the first file's basename when `name` is
      absent. */
  function FileName(name: string, first: File): string
  {
    if name != "" then name else Paths.Basename(first.path)
  }

  /** What flush pushes, as a function of the files the transform received. */
  function Output(files: seq<File>, name: string, eol: string): seq<File>
  {
    if files == [] then []
    else
      [files[0].(path := Paths.Join(files[0].base, FileName(name, files[0])),
                 contents := Concat(Spliced(ContentsOf(files), eol)))]
  }

  class ConcatTransform {
    const name: string      // "" when the transform was created without a name
    const eol: string
    var firstFile: Option<File>
    var fileName: string
    var concat: seq<string>
    ghost var received: seq<File>

    ghost predicate Valid()
      reads this
    {
      && concat == ContentsOf(received)
      && (received == [] <==> firstFile == None)
      && (received != [] ==> firstFile == Some(received[0]) && fileName == FileName(name, received[0]))
    }

    constructor (name: string, eol: string)
      ensures Valid() && received == []
      ensures this.name == name && this.eol == eol
    {
      this.name := name;
      this.eol := eol;
      firstFile := None;
      fileName := "";
      concat := [];
      received := [];
    }

    /** Receives one file: the first one is remembered and fixes the output name;
        every file's contents are appended. */
    method Transform(file: File)
      requires Valid()
      modifies this
      ensures Valid() && received == old(received) + [file]
    {
      if firstFile == None {
        firstFile := Some(file);
        fileName := FileName(name, file);
        concat := [];
      }
      concat := concat + [file.contents];
      received := received + [file];
    }

    /** Pushes the joined clone of the first file, or nothing when no file arrived.
        The received files are left as they are. */
    method Flush() returns (pushed: seq<File>)
      requires Valid()
      modifies this
      ensures pushed == Output(received, name, eol)
      ensures concat == Spliced(old(concat), eol)
      ensures received == old(received) && firstFile == old(firstFile) && fileName == old(fileName)
    {
      pushed := [];
      if firstFile.Some? {
        var joined := firstFile.value;
        joined := joined.(path := Paths.Join(joined.base, fileName));
        concat := InsertSeparators(concat, eol);
        joined := joined.(contents := Concat(concat));
        pushed := [joined];
      }
    }
  }

  /** The transform as a stream drives it: every file is written in order, then the
      stream is ended. */
  method RunConcat(files: seq<File>, name: string, eol: string) returns (pushed: seq<File>)
    ensures pushed == Output(files, name, eol)
  {
    var t := new ConcatTransform(name, eol);
    var i := 0;
    while i < |files|
      invariant 0 <= i <= |files|
      invariant t.Valid() && t.received == files[..i]
    {
      assert files[..i + 1] == files[..i] + [files[i]];
      t.Transform(files[i]);
      i := i + 1;
    }
    assert files[..|files|] == files;
    pushed := t.Flush();
  }

  /** At most one file comes out, exactly one when any came in; it is the first input
      with only its path and contents replaced. */
  lemma OutputIsCloneOfFirst(files: seq<File>, name: string, eol: string)
    ensures |Output(files, name, eol)| == if files == [] then 0 else 1
    ensures files != [] ==>
      var out := Output(files, name, eol)[0];
      && out.base == files[0].base
      && out.path == Paths.Join(files[0].base, if name != "" then name else Paths.Basename(files[0].path))
  {
  }

  /** The joined contents are the first file's contents, then n-1 end-of-line
      buffers, then the other contents in arrival order. */
  lemma {:induction false} JoinedLayout(chunks: seq<string>, eol: string)
    requires chunks != []
    ensures Concat(Spliced(chunks, eol)) == chunks[0] + Concat(Separators(eol, |chunks| - 1)) + Concat(chunks[1..])
  {
    ConcatAppend([chunks[0]] + Separators(eol, |chunks| - 1), chunks[1..]);
    ConcatAppend([chunks[0]], Separators(eol, |chunks| - 1));
    assert Concat([chunks[0]]) == chunks[0] + Concat([]);
  }

  lemma {:induction false} SeparatorsLength(eol: string, n: nat)
    ensures TotalLength(Separators(eol, n)) == n * |eol|
  {
    if n > 0 {
      assert Separators(eol, n)[1..] == Separators(eol, n - 1);
      SeparatorsLength(eol, n - 1);
    }
  }

  /** Output length: the sum of the input lengths plus n-1 end-of-line buffers. */
  lemma JoinedLength(files: seq<File>, name: string, eol: string)
    requires files != []
    ensures |Output(files, name, eol)[0].contents|
         == TotalLength(ContentsOf(files)) + (|files| - 1) * |eol|
  {
    var c := ContentsOf(files);
    var sp := Spliced(c, eol);
    ConcatLength(sp);
    TotalLengthAppend([c[0]] + Separators(eol, |c| - 1), c[1..]);
    TotalLengthAppend([c[0]], Separators(eol, |c| - 1));
    SeparatorsLength(eol, |c| - 1);
    assert c == [c[0]] + c[1..];
    TotalLengthAppend([c[0]], c[1..]);
  }

  /** With one or two inputs the layout is the usual separator-between-neighbours join. */
  lemma PairwiseUpToTwo(chunks: seq<string>, eol: string)
    requires 1 <= |chunks| <= 2
    ensures Concat(Spliced(chunks, eol)) == JoinWith(chunks, eol)
  {
    JoinedLayout(chunks, eol);
    if |chunks| == 2 {
      assert chunks[1..] == [chunks[1]];
      assert Concat([chunks[1]]) == chunks[1] + Concat([]);
      assert Separators(eol, 1) == [eol];
      assert Concat([eol]) == eol + Concat([]);
      assert JoinWith(chunks, eol) == chunks[0] + eol + JoinWith(chunks[1..], eol);
    } else {
      assert Separators(eol, 0) == [];
      assert chunks[1..] == [];
    }
  }

  /** With three inputs the separators no longer sit between neighbours:
      "a", "b", "c" join to "a\n\nbc", not "a\nb\nc". */
  lemma ThreeInputsClusterSeparators()
    ensures Concat(Spliced(["a", "b", "c"], "\n")) == "a\n\nbc"
    ensures JoinWith(["a", "b", "c"], "\n") == "a\nb\nc"
  {
    JoinedLayout(["a", "b", "c"], "\n");
    assert Separators("\n", 2) == ["\n", "\n"];
    assert ["a", "b", "c"][1..] == ["b", "c"];
    assert Concat(["\n", "\n"]) == "\n" + ("\n" + Concat([]));
    assert Concat(["b", "c"]) == "b" + ("c" + Concat([]));
    assert JoinWith(["a", "b", "c"], "\n") == "a" + "\n" + ("b" + "\n" + "c");
  }
}
