/** Values shared by both generations of the engine: optional values, the plugin's
    errors, and in-memory file records. */
module Common {

  datatype Option<+T> = None | Some(value: T)

  /** The failures the engine reports. Each stands for a `PluginError` (or a thrown
      `TypeError`) of the source; the message text is reduced to the offending value. */
  datatype Error =
    | PathNotFound(path: string)                 // a reference whose glob matched nothing
    | Unreadable(path: string)                   // a glob match the disk cannot supply
    | IncompatibleMedia(recorded: string, found: string)
    | NotAStream(entry: string)                  // a task-list entry that cannot be piped into
    | StreamsNotSupported                        // an HTML file whose contents are a live stream
    | MarkerWithoutPath                          // a referenced block whose marker has no path
    | NeverCompletes                             // a block whose pipeline emits no file

  datatype Result<+T> = Ok(value: T) | Err(error: Error)

  /** A vinyl file: its path, its base directory and its (text) contents. */
  datatype File = File(path: string, base: string, contents: string)

  /** Contents of a list of files, in order. */
  function ContentsOf(files: seq<File>): (r: seq<string>)
    ensures |r| == |files|
    ensures forall k :: 0 <= k < |files| ==> r[k] == files[k].contents
  {
    seq(|files|, k requires 0 <= k < |files| => files[k].contents)
  }

  /** A successful result extended in front by already collected files. */
  function Prefixed<T>(front: seq<T>, r: Result<seq<T>>): Result<seq<T>>
  {
    match r
    case Err(e) => Err(e)
    case Ok(rest) => Ok(front + rest)
  }

  lemma PrefixedAppend<T>(a: seq<T>, b: seq<T>, r: Result<seq<T>>)
    ensures Prefixed(a, Prefixed(b, r)) == Prefixed(a + b, r)
    ensures Prefixed([], r) == r
  {
    match r {
      case Err(e) =>
      case Ok(x) =>
        assert a + (b + x) == (a + b) + x;
        assert [] + x == x;
    }
  }

  /** Regrouping three concatenated sequences; stated over an arbitrary element type
      so that no element is ever compared. */
  lemma SeqAppendAssoc<T>(a: seq<T>, b: seq<T>, c: seq<T>)
    ensures a + b + c == a + (b + c)
  {
  }

  lemma SeqAppendEmpty<T>(a: seq<T>)
    ensures a + [] == a
  {
  }

  /** Overwriting the element at `i` and cutting just after it. */
  lemma UpdatedPrefix<T>(s: seq<T>, i: nat, x: T)
    requires i < |s|
    ensures s[i := x][..i + 1] == s[..i] + [x]
  {
  }
}
