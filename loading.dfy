/** Expanding resolved references with the glob and reading every match from disk:
    the loop both generations of the engine run after scanning a block body. */
module Loading {
  import opened Common
  import opened Markup

  /** A file as the disk supplies it. */
  function FileAt(p: string, fs: FileSystem): File
    requires p in fs.disk
  {
    File(p, fs.cwd, fs.disk[p])
  }

  /** Reading every glob match, in glob order. */
  function ReadMatches(matches: seq<string>, fs: FileSystem): Result<seq<File>>
  {
    if matches == [] then Ok([])
    else if matches[0] !in fs.disk then Err(Unreadable(matches[0]))
    else Prefixed([FileAt(matches[0], fs)], ReadMatches(matches[1..], fs))
  }

  /** Expanding and reading every resolved path, in reference order; a path whose
      glob matches nothing fails. */
  function LoadFrom(paths: seq<string>, fs: FileSystem): Result<seq<File>>
  {
    if paths == [] then Ok([])
    else if Matches(fs, paths[0]) == [] then Err(PathNotFound(paths[0]))
    else
      match ReadMatches(Matches(fs, paths[0]), fs)
      case Err(e) => Err(e)
      case Ok(first) => Prefixed(first, LoadFrom(paths[1..], fs))
  }

  /** All glob matches of the paths, in reference order then glob order. */
  function Expanded(paths: seq<string>, fs: FileSystem): seq<string>
  {
    if paths == [] then [] else Matches(fs, paths[0]) + Expanded(paths[1..], fs)
  }

  /** Reading the matches of one path: a match missing from the disk throws,
      every other one is read and kept. */
  method ReadAll(matches: seq<string>, fs: FileSystem) returns (r: Result<seq<File>>)
    ensures r == ReadMatches(matches, fs)
  {
    var read: seq<File> := [];
    var j := 0;
    PrefixedAppend([], [], ReadMatches(matches, fs));
    assert matches[0..] == matches;
    while j < |matches|
      invariant 0 <= j <= |matches|
      invariant ReadMatches(matches, fs) == Prefixed(read, ReadMatches(matches[j..], fs))
    {
      assert matches[j..][1..] == matches[j + 1..];
      if matches[j] !in fs.disk {
        return Err(Unreadable(matches[j]));
      }
      PrefixedAppend(read, [FileAt(matches[j], fs)], ReadMatches(matches[j + 1..], fs));
      read := read + [FileAt(matches[j], fs)];
      j := j + 1;
    }
    assert matches[|matches|..] == [];
    SeqAppendEmpty(read);
    return Ok(read);
  }

  /** The glob loop: a path without match throws, every match is read and kept. */
  method LoadFiles(paths: seq<string>, fs: FileSystem) returns (r: Result<seq<File>>)
    ensures r == LoadFrom(paths, fs)
  {
    var files: seq<File> := [];
    var i := 0;
    PrefixedAppend([], [], LoadFrom(paths, fs));
    assert paths[0..] == paths;
    while i < |paths|
      invariant 0 <= i <= |paths|
      invariant LoadFrom(paths, fs) == Prefixed(files, LoadFrom(paths[i..], fs))
    {
      assert paths[i..][1..] == paths[i + 1..];
      var filepaths := Matches(fs, paths[i]);
      if filepaths == [] {
        return Err(PathNotFound(paths[i]));
      }
      var read := ReadAll(filepaths, fs);
      if read.Err? {
        return Err(read.error);
      }
      PrefixedAppend(files, read.value, LoadFrom(paths[i + 1..], fs));
      files := files + read.value;
      i := i + 1;
    }
    assert paths[|paths|..] == [];
    SeqAppendEmpty(files);
    return Ok(files);
  }

  lemma {:induction false} ReadMatchesResult(ms: seq<string>, fs: FileSystem)
    ensures ReadMatches(ms, fs).Ok? <==> forall k :: 0 <= k < |ms| ==> ms[k] in fs.disk
    ensures ReadMatches(ms, fs).Ok? ==>
      var files := ReadMatches(ms, fs).value;
      |files| == |ms| && forall k :: 0 <= k < |ms| ==> ms[k] in fs.disk && files[k] == FileAt(ms[k], fs)
  {
    if ms != [] {
      ReadMatchesResult(ms[1..], fs);
      if ReadMatches(ms, fs).Ok? {
        var files := ReadMatches(ms, fs).value;
        forall k | 0 <= k < |ms| ensures ms[k] in fs.disk && files[k] == FileAt(ms[k], fs) {
          if k > 0 { assert ms[k] == ms[1..][k - 1]; }
        }
      }
      if forall k :: 0 <= k < |ms| ==> ms[k] in fs.disk {
        forall k | 0 <= k < |ms| - 1 ensures ms[1..][k] in fs.disk {
          assert ms[1..][k] == ms[k + 1];
        }
      }
    }
  }

  /** Loading succeeds exactly when every reference matches something and every match
      can be read; the files then come in reference order, then glob order, one per
      match, without removing duplicates. */
  lemma {:induction false} LoadResult(paths: seq<string>, fs: FileSystem)
    ensures LoadFrom(paths, fs).Ok? <==>
      (forall i :: 0 <= i < |paths| ==> Matches(fs, paths[i]) != [])
      && (forall q :: q in Expanded(paths, fs) ==> q in fs.disk)
    ensures LoadFrom(paths, fs).Ok? ==>
      var files := LoadFrom(paths, fs).value;
      var all := Expanded(paths, fs);
      |files| == |all| && forall k :: 0 <= k < |all| ==> all[k] in fs.disk && files[k] == FileAt(all[k], fs)
  {
    if paths != [] {
      var ms := Matches(fs, paths[0]);
      var all := Expanded(paths, fs);
      assert all == ms + Expanded(paths[1..], fs);
      LoadResult(paths[1..], fs);
      ReadMatchesResult(ms, fs);
      if LoadFrom(paths, fs).Ok? {
        var files := LoadFrom(paths, fs).value;
        var first := ReadMatches(ms, fs).value;
        var rest := LoadFrom(paths[1..], fs).value;
        assert files == first + rest;
        forall i | 0 <= i < |paths| ensures Matches(fs, paths[i]) != [] {
          if i > 0 { assert paths[i] == paths[1..][i - 1]; }
        }
        forall k | 0 <= k < |all| ensures all[k] in fs.disk && files[k] == FileAt(all[k], fs) {
          if k >= |ms| {
            assert all[k] == Expanded(paths[1..], fs)[k - |ms|];
            assert files[k] == rest[k - |ms|];
          }
        }
      }
      if (forall i :: 0 <= i < |paths| ==> Matches(fs, paths[i]) != [])
         && (forall q :: q in all ==> q in fs.disk) {
        assert Matches(fs, paths[0]) != [];
        forall i | 0 <= i < |paths| - 1 ensures Matches(fs, paths[1..][i]) != [] {
          assert paths[1..][i] == paths[i + 1];
        }
        forall k | 0 <= k < |ms| ensures ms[k] in fs.disk {
          assert ms[k] == all[k];
        }
      }
    }
  }
}
