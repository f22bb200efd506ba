/** The file system the service reads and writes: files with their
    contents, directories with their entries in the order the operating
    system enumerates them (`iterdir`, `glob`), and the set of paths where
    opening a file for writing fails (the model of an I/O error). */
module Disk {
  import opened Strings
  import opened Paths

  /** The sidecar record `save_metadata` writes as JSON. */
  datatype MetaRecord = MetaRecord(source: string, convertedAt: int, format: string, imageExportMode: string)

  /** What a file holds: raw bytes (an image), UTF-8 text (an exported
      document) or a metadata record (a `.meta.json` file). */
  datatype Content = Blob(bytes: seq<Byte>) | Text(text: string) | Meta(record: MetaRecord)

  datatype FsState = FsState(files: map<string, Content>, dirs: map<string, seq<string>>, unwritable: set<string>)
  {
    predicate IsFile(p: string) { p in files }

    predicate IsDir(p: string) { p in dirs }

    /** Entry names of a directory, in enumeration order. */
    function Entries(d: string): seq<string>
    {
      if d in dirs then dirs[d] else []
    }

    /** Whether `open(p, "w")` succeeds. */
    predicate Writable(p: string)
    {
      p !in unwritable && p !in dirs && Parent(p) in dirs
    }
  }

  /** The parent directory lists a new entry once. */
  function AddEntry(dirs: map<string, seq<string>>, p: string): map<string, seq<string>>
  {
    var parent := Parent(p);
    if parent in dirs && Name(p) !in dirs[parent] then dirs[parent := dirs[parent] + [Name(p)]]
    else dirs
  }

  /** `open(p, "w").write(c)`: on success `p` holds exactly `c` and no other
      file changes; on failure nothing changes. */
  function WriteFile(fs: FsState, p: string, c: Content): (r: (bool, FsState))
    ensures r.0 == fs.Writable(p)
    ensures r.0 ==> r.1.files == fs.files[p := c]
    ensures !r.0 ==> r.1 == fs
    ensures r.1.unwritable == fs.unwritable && r.1.dirs.Keys == fs.dirs.Keys
  {
    if fs.Writable(p) then (true, fs.(files := fs.files[p := c], dirs := AddEntry(fs.dirs, p)))
    else (false, fs)
  }

  /** `shutil.copy2(src, dst)`: fails when `src` is not a file or `dst`
      cannot be written; the copy holds the bytes of the source. */
  function CopyFile(fs: FsState, src: string, dst: string): (r: (bool, FsState))
    ensures r.0 == (fs.IsFile(src) && fs.Writable(dst))
    ensures r.0 ==> r.1.files == fs.files[dst := fs.files[src]]
    ensures !r.0 ==> r.1 == fs
    ensures r.1.unwritable == fs.unwritable && r.1.dirs.Keys == fs.dirs.Keys
  {
    if src in fs.files then WriteFile(fs, dst, fs.files[src]) else (false, fs)
  }

  /** `Path(d).mkdir(parents=True, exist_ok=True)`: fails only when a file
      is in the way; an existing directory is kept as it is. */
  function MakeDir(fs: FsState, d: string): (r: (bool, FsState))
    ensures r.0 == !fs.IsFile(d)
    ensures r.0 ==> r.1.IsDir(d) && r.1.files == fs.files
    ensures r.0 && fs.IsDir(d) ==> r.1 == fs
    ensures !r.0 ==> r.1 == fs
  {
    if d in fs.files then (false, fs)
    else if d in fs.dirs then (true, fs)
    else (true, fs.(dirs := AddEntry(fs.dirs, d)[d := []]))
  }

  /** A listing without one name. */
  function Without(names: seq<string>, n: string): (r: seq<string>)
    ensures n !in r
    ensures forall m :: m in r <==> m in names && m != n
  {
    if names == [] then []
    else (if names[0] == n then [] else [names[0]]) + Without(names[1..], n)
  }

  /** `Path(p).unlink()` of a file: the file and its directory entry go;
      nothing else changes. */
  function RemoveFile(fs: FsState, p: string): (r: FsState)
    requires fs.IsFile(p)
    ensures r.files == fs.files - {p}
    ensures r.unwritable == fs.unwritable && r.dirs.Keys == fs.dirs.Keys
  {
    var parent := Parent(p);
    var dirs := if parent in fs.dirs then fs.dirs[parent := Without(fs.dirs[parent], Name(p))] else fs.dirs;
    fs.(files := fs.files - {p}, dirs := dirs)
  }

  /** The disk as an object whose methods change it in place. */
  class FileSystem {
    var files: map<string, Content>
    var dirs: map<string, seq<string>>
    const unwritable: set<string>

    function State(): FsState
      reads this
    {
      FsState(files, dirs, unwritable)
    }

    constructor (initial: FsState)
      ensures State() == initial
    {
      files, dirs, unwritable := initial.files, initial.dirs, initial.unwritable;
    }

    method Write(p: string, c: Content) returns (ok: bool)
      modifies this
      ensures (ok, State()) == WriteFile(old(State()), p, c)
    {
      var r := WriteFile(State(), p, c);
      ok := r.0;
      files, dirs := r.1.files, r.1.dirs;
    }

    method Copy(src: string, dst: string) returns (ok: bool)
      modifies this
      ensures (ok, State()) == CopyFile(old(State()), src, dst)
    {
      var r := CopyFile(State(), src, dst);
      ok := r.0;
      files, dirs := r.1.files, r.1.dirs;
    }

    method Remove(p: string)
      requires p in files
      modifies this
      ensures State() == RemoveFile(old(State()), p)
    {
      var r := RemoveFile(State(), p);
      files, dirs := r.files, r.dirs;
    }

    method MakeDirs(d: string) returns (ok: bool)
      modifies this
      ensures (ok, State()) == MakeDir(old(State()), d)
    {
      var r := MakeDir(State(), d);
      ok := r.0;
      files, dirs := r.1.files, r.1.dirs;
    }
  }
}
