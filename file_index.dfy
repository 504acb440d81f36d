/** The file-level index manager (app/core/index_manager.py).

    The vector store holds points whose payload may name the file they came
    from. Before adding files, the manager reads the names already present
    and skips every input with one of those names. Parsing the files,
    embedding and the store's own insert and scroll are foreign: the store's
    points, in scroll order, are the state here, and what an insert makes of
    them is a parameter. */
module FileIndex {
  import opened Common

  // File names, as `pathlib` takes them from a POSIX path.

  /** The parts `pathlib` keeps from the "/"-separated pieces of a path:
      empty pieces and "." are dropped. */
  function Parts(pieces: seq<string>): (r: seq<string>)
    ensures |r| <= |pieces|
    ensures forall i :: 0 <= i < |r| ==> r[i] != "" && r[i] != "." && r[i] in pieces
  {
    if pieces == [] then []
    else
      var earlier := Parts(pieces[..|pieces| - 1]);
      var last := pieces[|pieces| - 1];
      assert forall i :: 0 <= i < |earlier| ==> earlier[i] in pieces[..|pieces| - 1];
      if last == "" || last == "." then earlier else earlier + [last]
  }

  /** `Path(path).name`: the last part of the path, or "" when it has none. */
  function FileName(path: string): (r: string)
    ensures r == "" || (r != "." && r in Split(path, "/"))
  {
    var parts := Parts(Split(path, "/"));
    if parts == [] then "" else parts[|parts| - 1]
  }

  /** A name that is not "" or "." and holds no "/" is its own file name. */
  lemma FileNameOfName(name: string)
    requires name != "" && name != "."
    requires forall i :: 0 <= i < |name| ==> name[i] != '/'
    ensures FileName(name) == name
  {
    SplitWithoutSep(name, '/');
  }

  /** Whatever directory a file sits in, its name is what follows the last
      "/". */
  lemma FileNameInDirectory(dir: string, name: string)
    requires name != "" && name != "."
    requires forall i :: 0 <= i < |name| ==> name[i] != '/'
    ensures FileName(dir + "/" + name) == name
  {
    SplitLastAfterSep(dir, '/', name);
  }

  // The names already in the store.

  /** A stored point. Its payload is absent, or maps payload keys to values;
      only "file_name" is read here. */
  datatype Point = Point(payload: Option<map<string, string>>)

  /** How many points one scroll request returns at most. */
  const ScrollLimit: nat := 1000

  /** The points one scroll request returns: the first `ScrollLimit`. */
  function Scrolled(points: seq<Point>): (r: seq<Point>)
    ensures |r| <= ScrollLimit && r <= points
    ensures |points| <= ScrollLimit ==> r == points
  {
    if |points| <= ScrollLimit then points else points[..ScrollLimit]
  }

  /** Python's `not payload`: an absent or empty payload is skipped. */
  predicate HasPayload(point: Point)
  {
    point.payload.Some? && point.payload.value != map[]
  }

  /** `payload.get("file_name")`: None when the key is missing. */
  function PayloadFileName(payload: map<string, string>): (r: Option<string>)
    ensures r.Some? <==> "file_name" in payload
  {
    if "file_name" in payload then Some(payload["file_name"]) else None
  }

  /** The point adds `name` to the set of added files. */
  predicate Contributes(point: Point, name: Option<string>)
  {
    HasPayload(point) && PayloadFileName(point.payload.value) == name
  }

  /** The set the loop of `get_added_files` collects over some points. */
  function FileNames(points: seq<Point>): set<Option<string>>
  {
    if points == [] then {}
    else
      var earlier := FileNames(points[..|points| - 1]);
      var point := points[|points| - 1];
      if HasPayload(point) then earlier + {PayloadFileName(point.payload.value)} else earlier
  }

  lemma {:induction false} FileNamesMembers(points: seq<Point>, name: Option<string>)
    ensures name in FileNames(points) <==> exists i :: 0 <= i < |points| && Contributes(points[i], name)
  {
    if points != [] {
      var n := |points| - 1;
      FileNamesMembers(points[..n], name);
      if exists i :: 0 <= i < |points| && Contributes(points[i], name) {
        var i :| 0 <= i < |points| && Contributes(points[i], name);
        if i < n {
          assert Contributes(points[..n][i], name);
        }
      }
      if exists i :: 0 <= i < n && Contributes(points[..n][i], name) {
        var i :| 0 <= i < n && Contributes(points[..n][i], name);
        assert Contributes(points[i], name);
      }
    }
  }

  /** `get_added_files` as a function of the store's points. */
  function AddedFiles(points: seq<Point>): set<Option<string>>
  {
    FileNames(Scrolled(points))
  }

  /** A value is among the added files exactly when one of the first 1000
      points has a non-empty payload whose "file_name" lookup gives it; a
      payload without "file_name" gives None. Points past the first 1000
      are never looked at. */
  lemma AddedFilesMembers(points: seq<Point>, name: Option<string>)
    ensures name in AddedFiles(points) <==>
      exists i :: 0 <= i < |points| && i < ScrollLimit && Contributes(points[i], name)
  {
    var scrolled := Scrolled(points);
    FileNamesMembers(scrolled, name);
    if exists i :: 0 <= i < |points| && i < ScrollLimit && Contributes(points[i], name) {
      var i :| 0 <= i < |points| && i < ScrollLimit && Contributes(points[i], name);
      assert Contributes(scrolled[i], name);
    }
  }

  /** Points stored after the first 1000 change nothing. */
  lemma AddedFilesIgnoresLaterPoints(points: seq<Point>, more: seq<Point>)
    requires |points| >= ScrollLimit
    ensures AddedFiles(points + more) == AddedFiles(points)
  {
    if |points + more| > ScrollLimit {
      assert (points + more)[..ScrollLimit] == points[..ScrollLimit];
    } else {
      assert more == [];
      assert points + more == points;
    }
  }

  // The filter of `add_documents`.

  /** The inputs `add_documents` keeps, in input order: those whose file
      name is not among the added files. */
  function ToAdd(paths: seq<string>, added: set<Option<string>>): (r: seq<string>)
    ensures |r| <= |paths|
    ensures forall i :: 0 <= i < |r| ==> Some(FileName(r[i])) !in added
  {
    if paths == [] then []
    else
      var earlier := ToAdd(paths[..|paths| - 1], added);
      var path := paths[|paths| - 1];
      if Some(FileName(path)) in added then earlier else earlier + [path]
  }

  /** An input is kept exactly when its name is new. */
  lemma {:induction false} ToAddMembers(paths: seq<string>, added: set<Option<string>>, path: string)
    ensures path in ToAdd(paths, added) <==> path in paths && Some(FileName(path)) !in added
  {
    if paths != [] {
      var n := |paths| - 1;
      ToAddMembers(paths[..n], added, path);
      SplitLast([], paths);
    }
  }

  /** Filtering works input by input, so the kept inputs stay in input
      order. */
  lemma {:induction false} ToAddAppend(a: seq<string>, b: seq<string>, added: set<Option<string>>)
    ensures ToAdd(a + b, added) == ToAdd(a, added) + ToAdd(b, added)
    decreases |b|
  {
    if b == [] {
      assert a + b == a;
    } else {
      var n := |b| - 1;
      ToAddAppend(a, b[..n], added);
      ToAddSnoc(a + b[..n], b[n], added);
      ToAddSnoc(b[..n], b[n], added);
      SplitLast(a, b);
      AppendAssoc(ToAdd(a, added), ToAdd(b[..n], added), [b[n]]);
    }
  }

  lemma ToAddSnoc(paths: seq<string>, path: string, added: set<Option<string>>)
    ensures ToAdd(paths + [path], added)
      == if Some(FileName(path)) in added then ToAdd(paths, added) else ToAdd(paths, added) + [path]
  {
    assert (paths + [path])[..|paths|] == paths;
  }

  /** The names are read once, before the loop, so an input with a new name
      is kept as often as it is given, even when the same name comes twice
      in one call. */
  lemma {:induction false} ToAddKeepsRepeats(paths: seq<string>, added: set<Option<string>>, path: string)
    requires Some(FileName(path)) !in added
    ensures multiset(ToAdd(paths, added))[path] == multiset(paths)[path]
  {
    if paths != [] {
      var n := |paths| - 1;
      ToAddKeepsRepeats(paths[..n], added, path);
      SplitLast([], paths);
    }
  }

  /** What `add_documents` returns: the names of the kept inputs. */
  function NewFileNames(paths: seq<string>, added: set<Option<string>>): (r: seq<string>)
    ensures |r| == |ToAdd(paths, added)|
    ensures forall i :: 0 <= i < |r| ==> Some(r[i]) !in added && r[i] == FileName(ToAdd(paths, added)[i])
  {
    var kept := ToAdd(paths, added);
    seq(|kept|, i requires 0 <= i < |kept| => FileName(kept[i]))
  }

  // The reader's checks.

  /** The message of the reader's ValueError when it is given no files. */
  const NoInputFiles: string := "Must provide either `input_dir` or `input_files`."

  /** The first of the paths, in input order, that is not a file. */
  function FirstMissing(paths: seq<string>, isFile: string -> bool): (r: Option<string>)
    ensures r.Some? ==> r.value in paths && !isFile(r.value)
    ensures r.None? ==> forall i :: 0 <= i < |paths| ==> isFile(paths[i])
  {
    if paths == [] then None
    else if !isFile(paths[0]) then Some(paths[0])
    else FirstMissing(paths[1..], isFile)
  }

  /** What the directory reader raises before reading the kept paths: a
      ValueError for an empty list, or for the first path that is not a
      file; None when it goes on to read them. */
  function ReaderCheck(kept: seq<string>, isFile: string -> bool): (r: Option<Error>)
    ensures r.None? <==> kept != [] && forall i :: 0 <= i < |kept| ==> isFile(kept[i])
    ensures r.Some? ==> r.value.ValueError?
  {
    if kept == [] then Some(ValueError(NoInputFiles))
    else
      match FirstMissing(kept, isFile)
      case Some(path) => Some(ValueError("File " + path + " does not exist."))
      case None => None
  }

  /** What `add_documents` returns: the reader's error, or the names of the
      kept inputs. */
  function AddReply(paths: seq<string>, added: set<Option<string>>, isFile: string -> bool): Result<seq<string>>
  {
    match ReaderCheck(ToAdd(paths, added), isFile)
    case Some(error) => Err(error)
    case None => Ok(NewFileNames(paths, added))
  }

  /** The call succeeds exactly when some input has a new name and every
      input with a new name is a file. */
  lemma AddReplySucceeds(paths: seq<string>, added: set<Option<string>>, isFile: string -> bool)
    ensures AddReply(paths, added, isFile).Ok? <==>
      (exists i :: 0 <= i < |paths| && Some(FileName(paths[i])) !in added) &&
      (forall i :: 0 <= i < |paths| && Some(FileName(paths[i])) !in added ==> isFile(paths[i]))
  {
    var kept := ToAdd(paths, added);
    if exists i :: 0 <= i < |paths| && Some(FileName(paths[i])) !in added {
      var i :| 0 <= i < |paths| && Some(FileName(paths[i])) !in added;
      ToAddMembers(paths, added, paths[i]);
    } else if kept != [] {
      ToAddMembers(paths, added, kept[0]);
      assert false;
    }
    forall i | 0 <= i < |paths| && Some(FileName(paths[i])) !in added
      ensures paths[i] in kept
    {
      ToAddMembers(paths, added, paths[i]);
    }
    forall k | 0 <= k < |kept|
      ensures kept[k] in paths && Some(FileName(kept[k])) !in added
    {
      ToAddMembers(paths, added, kept[k]);
    }
  }

  /** Giving only files that are already in the store, or no files at all,
      fails with the reader's ValueError: nothing is left to read. */
  lemma NothingNewFails(paths: seq<string>, added: set<Option<string>>, isFile: string -> bool)
    requires forall i :: 0 <= i < |paths| ==> Some(FileName(paths[i])) in added
    ensures AddReply(paths, added, isFile) == Err(ValueError(NoInputFiles))
  {
    var kept := ToAdd(paths, added);
    if kept != [] {
      ToAddMembers(paths, added, kept[0]);
      assert false;
    }
  }

  /** The manager of one collection: its name and the collection's points,
      in the order a scroll request returns them. */
  class VectorIndexManager {
    const collectionName: string
    var points: seq<Point>

    constructor(collectionName: string, stored: seq<Point>)
      ensures this.collectionName == collectionName && points == stored
    {
      this.collectionName := collectionName;
      points := stored;
    }

    /** `get_added_files`: one scroll request, then every non-empty payload
        adds its "file_name" lookup to the set. */
    method GetAddedFiles() returns (files: set<Option<string>>)
      ensures files == AddedFiles(points)
    {
      var scrolled := Scrolled(points);
      files := {};
      var i := 0;
      while i < |scrolled|
        invariant 0 <= i <= |scrolled|
        invariant files == FileNames(scrolled[..i])
      {
        assert scrolled[..i + 1][..i] == scrolled[..i];
        var point := scrolled[i];
        if HasPayload(point) {
          files := files + {PayloadFileName(point.payload.value)};
        }
        i := i + 1;
      }
      assert scrolled[..i] == scrolled;
    }

    /** `add_documents`: reads the added files once and keeps the inputs
        whose name is new. The reader then raises for an empty list or a
        path that is not a file, and the store is left as it was; otherwise
        what the reader makes of the kept paths is inserted and their names
        are returned. `isFile` is the file system and `insert` is what the
        store holds after the inserts. */
    method AddDocuments(filePaths: seq<string>, isFile: string -> bool,
                        insert: (seq<Point>, seq<string>) -> seq<Point>)
      returns (r: Result<seq<string>>)
      modifies this
      ensures r == AddReply(filePaths, AddedFiles(old(points)), isFile)
      ensures points == if r.Ok? then insert(old(points), ToAdd(filePaths, AddedFiles(old(points))))
                        else old(points)
    {
      var added := GetAddedFiles();
      var filesToAdd: seq<string> := [];
      var i := 0;
      while i < |filePaths|
        invariant 0 <= i <= |filePaths|
        invariant filesToAdd == ToAdd(filePaths[..i], added)
        invariant points == old(points)
      {
        var path := filePaths[i];
        TakeOneMore(filePaths, i);
        ToAddSnoc(filePaths[..i], path, added);
        if Some(FileName(path)) in added {
          i := i + 1;
          continue;
        }
        filesToAdd := filesToAdd + [path];
        i := i + 1;
      }
      assert filePaths[..i] == filePaths;
      var failure := ReaderCheck(filesToAdd, isFile);
      if failure.Some? {
        return Err(failure.value);
      }
      points := insert(points, filesToAdd);
      var names := seq(|filesToAdd|, k requires 0 <= k < |filesToAdd| => FileName(filesToAdd[k]));
      r := Ok(names);
    }
  }
}
