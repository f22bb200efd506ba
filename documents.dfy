/** The document pages: `view_document` shows an output file with the
    format its name implies and the source recorded in its metadata
    sidecar; `list_documents` lists the outputs of the supported formats,
    newest first. */
module Documents {
  import opened Wrappers
  import opened Strings
  import opened Paths
  import opened Disk
  import opened Sorting
  import opened FileService
  import opened Models

  // ---------------------------------------------------------------- formats

  /** The format a file is shown as, from the end of its name; "markdown"
      when no other ending matches. */
  function ViewFormat(filename: string): (f: string)
    ensures IsRequestFormat(f)
  {
    if EndsWith(filename, ".json") then "json"
    else if EndsWith(filename, ".yaml") || EndsWith(filename, ".yml") then "yaml"
    else if EndsWith(filename, ".html") then "html"
    else if EndsWith(filename, ".txt") then "text"
    else if EndsWith(filename, ".doctags") then "doctags"
    else "markdown"
  }

  /** The extensions `list_documents` globs for, in the order it globs. */
  const SupportedExtensions: seq<string> := [".md", ".json", ".yaml", ".yml", ".html", ".txt", ".doctags"]

  /** The format the listing gives a globbed extension. */
  function ExtensionFormat(ext: string): string
  {
    if ext == ".json" then "json"
    else if ext == ".yaml" || ext == ".yml" then "yaml"
    else if ext == ".html" then "html"
    else if ext == ".txt" then "text"
    else if ext == ".doctags" then "doctags"
    else if ext == ".md" then "markdown"
    else "unknown"
  }

  /** The `k`-th character from the end of a name ending with `e` is that
      of `e`. */
  lemma CharFromEnd(name: string, e: string, k: nat)
    requires 0 < k <= |e|
    ensures EndsWith(name, e) ==> name[|name| - k] == e[|e| - k]
  {
    if EndsWith(name, e) {
      assert name[|name| - |e|..][|e| - k] == name[|name| - k];
    }
  }

  /** A ".md" name ends in 'd', which no other ending does. */
  lemma MarkdownShown(name: string)
    requires EndsWith(name, ".md")
    ensures ViewFormat(name) == "markdown"
  {
    CharFromEnd(name, ".md", 1);
    CharFromEnd(name, ".json", 1);
    CharFromEnd(name, ".yaml", 1);
    CharFromEnd(name, ".yml", 1);
    CharFromEnd(name, ".html", 1);
    CharFromEnd(name, ".txt", 1);
    CharFromEnd(name, ".doctags", 1);
  }

  /** A ".yaml" name is not a ".json" one. */
  lemma YamlShown(name: string)
    requires EndsWith(name, ".yaml")
    ensures ViewFormat(name) == "yaml"
  {
    CharFromEnd(name, ".yaml", 1);
    CharFromEnd(name, ".json", 1);
  }

  /** A ".yml" name is not a ".json" one. */
  lemma YmlShown(name: string)
    requires EndsWith(name, ".yml")
    ensures ViewFormat(name) == "yaml"
  {
    CharFromEnd(name, ".yml", 1);
    CharFromEnd(name, ".json", 1);
  }

  /** A ".html" name ends in 'l' like the YAML endings, but its third-to-last
      character is 't'. */
  lemma HtmlShown(name: string)
    requires EndsWith(name, ".html")
    ensures ViewFormat(name) == "html"
  {
    CharFromEnd(name, ".html", 1);
    CharFromEnd(name, ".json", 1);
    CharFromEnd(name, ".html", 3);
    CharFromEnd(name, ".yaml", 3);
    CharFromEnd(name, ".yml", 3);
  }

  /** A ".txt" name ends in 't'. */
  lemma TextShown(name: string)
    requires EndsWith(name, ".txt")
    ensures ViewFormat(name) == "text"
  {
    CharFromEnd(name, ".txt", 1);
    CharFromEnd(name, ".json", 1);
    CharFromEnd(name, ".yaml", 1);
    CharFromEnd(name, ".yml", 1);
    CharFromEnd(name, ".html", 1);
  }

  /** A ".doctags" name ends in 's'. */
  lemma DoctagsShown(name: string)
    requires EndsWith(name, ".doctags")
    ensures ViewFormat(name) == "doctags"
  {
    CharFromEnd(name, ".doctags", 1);
    CharFromEnd(name, ".json", 1);
    CharFromEnd(name, ".yaml", 1);
    CharFromEnd(name, ".yml", 1);
    CharFromEnd(name, ".html", 1);
    CharFromEnd(name, ".txt", 1);
  }

  /** The listing and the view agree on the format of every listed file:
      a name ending with a supported extension is shown as the format the
      listing gives that extension. */
  lemma FormatsAgree(name: string, i: nat)
    requires i < |SupportedExtensions| && EndsWith(name, SupportedExtensions[i])
    ensures ViewFormat(name) == ExtensionFormat(SupportedExtensions[i])
  {
    var ext := SupportedExtensions[i];
    if i == 0 { assert ext == ".md"; MarkdownShown(name); }
    else if i == 1 { assert ext == ".json"; }
    else if i == 2 { assert ext == ".yaml"; YamlShown(name); }
    else if i == 3 { assert ext == ".yml"; YmlShown(name); }
    else if i == 4 { assert ext == ".html"; HtmlShown(name); }
    else if i == 5 { assert ext == ".txt"; TextShown(name); }
    else { assert ext == ".doctags"; DoctagsShown(name); }
  }

  /** An output named with the extension of its format is shown as that
      format. */
  lemma ViewFormatOfOutput(name: string, format: RequestFormat)
    requires EndsWith(name, FileExtension(format))
    ensures ViewFormat(name) == format
  {
    if format == "markdown" { MarkdownShown(name); }
    else if format == "yaml" { assert FileExtension(format) == ".yaml"; YamlShown(name); }
    else if format == "html" { assert FileExtension(format) == ".html"; HtmlShown(name); }
    else if format == "text" { TextShown(name); }
    else if format == "doctags" { DoctagsShown(name); }
    else { assert FileExtension(format) == ".json"; }
  }

  // ---------------------------------------------------------------- view_document

  /** What the host's runtime makes of a file: its UTF-8 text (`None` when
      reading raises), and for a sidecar, what `json.load(...).get("source")`
      gives (`None` when parsing raises, `Some(None)` for a record without
      a source). */
  datatype Reader = Reader(text: Content -> Option<string>, source: Content -> Option<Option<string>>)

  /** A reader that reads back what the service wrote: an exported text is
      its own text, and a metadata record parses and carries its source. */
  ghost predicate ReadsBack(rd: Reader)
  {
    && (forall t :: rd.text(Text(t)) == Some(t))
    && (forall m :: rd.source(Meta(m)) == Some(Some(m.source)))
  }

  datatype DocView = DocView(filename: string, content: string, format: string, sourceInfo: string)

  /** The source shown for the sidecar at `metaPath`: "未知來源" when it does
      not exist, "無法讀取來源資訊" when it cannot be read or parsed,
      "無法讀取來源" when it has no source. */
  function SourceInfo(fs: FsState, rd: Reader, metaPath: string): (s: string)
    ensures !fs.IsFile(metaPath) && !fs.IsDir(metaPath) ==> s == "未知來源"
  {
    if fs.IsFile(metaPath) then
      match rd.source(fs.files[metaPath])
      case None => "無法讀取來源資訊"
      case Some(None) => "無法讀取來源"
      case Some(Some(source)) => source
    else if fs.IsDir(metaPath) then "無法讀取來源資訊"
    else "未知來源"
  }

  /** `view_document`: 404 when nothing exists at `OUTPUT_DIR/filename`,
      500 when it cannot be read as text (a directory, or bytes that are not
      UTF-8); otherwise its text, its format and the source from the sidecar
      at `with_suffix('.meta.json')`. The route's path segment is a
      non-empty name without '/'. */
  function ViewDocument(fs: FsState, outputDir: string, rd: Reader, filename: string): (r: Result<DocView, int>)
    requires filename != "" && '/' !in filename
    ensures r.Err? <==> !fs.IsFile(Join(outputDir, filename)) || rd.text(fs.files[Join(outputDir, filename)]).None?
    ensures r.Err? ==> r.error == (if fs.IsFile(Join(outputDir, filename)) || fs.IsDir(Join(outputDir, filename)) then 500 else 404)
    ensures r.Ok? ==> r.value.filename == filename && r.value.format == ViewFormat(filename)
                      && r.value.content == rd.text(fs.files[Join(outputDir, filename)]).value
                      && r.value.sourceInfo == SourceInfo(fs, rd, MetadataPath(Join(outputDir, filename)))
  {
    var path := Join(outputDir, filename);
    if !fs.IsFile(path) && !fs.IsDir(path) then Err(404)
    else if !fs.IsFile(path) then Err(500)
    else
      match rd.text(fs.files[path])
      case None => Err(500)
      case Some(content) => Ok(DocView(filename, content, ViewFormat(filename), SourceInfo(fs, rd, MetadataPath(path))))
  }

  /** A name's `.meta.json` sidecar is never the name itself: a suffix has
      no dot after its first character. */
  lemma MetadataPathDiffers(p: string)
    ensures MetadataPath(p) != p
  {
    var n := Name(p);
    var stem := Stem(n);
    var m := ".meta.json";
    assert m[1..][4] == '.';
    SuffixOneDot(n);
    assert Suffix(n) != m;
    assert (stem + m)[|stem|..] == m;
    assert n == stem + Suffix(n) && n[|stem|..] == Suffix(n);
    assert stem + m != n;
    assert Name(MetadataPath(p)) != Name(p);
  }

  /** Past its leading dot, a suffix holds no dot. */
  lemma SuffixOneDot(name: string)
    ensures Suffix(name) == [] || '.' !in Suffix(name)[1..]
  {
    var i := LastIndexOf(name, '.');
    var s := Suffix(name);
    if s != [] {
      assert s == name[i..];
      forall k | 0 <= k < |s| - 1 ensures s[1..][k] != '.' {
        assert s[1..][k] == name[i + 1 + k];
      }
    }
  }

  /** Once an output's metadata is saved, viewing the output shows the
      source recorded for it, the output's text and the format its name
      implies. */
  lemma ViewShowsSavedSource(fs: FsState, outputDir: string, rd: Reader, filename: string, text: string,
                             source: string, now: int, format: string, mode: string)
    requires filename != "" && '/' !in filename && ReadsBack(rd)
    requires Join(outputDir, filename) in fs.files && fs.files[Join(outputDir, filename)] == Text(text)
    requires fs.Writable(MetadataPath(Join(outputDir, filename)))
    ensures var path := Join(outputDir, filename);
            var saved := WriteFile(fs, MetadataPath(path), Meta(MetadataRecord(source, now, format, mode))).1;
            ViewDocument(saved, outputDir, rd, filename) == Ok(DocView(filename, text, ViewFormat(filename), source))
  {
    var path := Join(outputDir, filename);
    var meta := MetadataPath(path);
    MetadataPathDiffers(path);
    var saved := WriteFile(fs, meta, Meta(MetadataRecord(source, now, format, mode))).1;
    assert saved.files[path] == Text(text);
    assert rd.text(Text(text)) == Some(text);
    assert saved.files[meta] == Meta(MetaRecord(source, now, format, mode));
    assert rd.source(Meta(MetaRecord(source, now, format, mode))) == Some(Some(source));
  }

  // ---------------------------------------------------------------- list_documents

  /** `stat()` of a path: the modification time (as an integer) and the
      size, or the text of the exception. */
  datatype Stat = Stat(mtime: int, size: nat)

  datatype DocEntry = DocEntry(filename: string, created: int, size: nat, format: string, error: Option<string>)

  /** The sort key of the listing. */
  function Created(e: DocEntry): int
  {
    e.created
  }

  /** A globbed name that is listed: it ends with the extension and is not
      a metadata sidecar. */
  predicate Listed(name: string, ext: string)
  {
    EndsWith(name, ext) && !EndsWith(name, ".meta.json")
  }

  /** The entry of one listed file; a failed `stat()` gives 0 for both the
      time and the size, and the error. */
  function Entry(dir: string, stat: string -> Result<Stat, string>, name: string, ext: string): (e: DocEntry)
    ensures e.filename == name && e.format == ExtensionFormat(ext)
    ensures e.error.Some? ==> e.created == 0 && e.size == 0
  {
    match stat(Join(dir, name))
    case Ok(st) => DocEntry(name, st.mtime, st.size, ExtensionFormat(ext), None)
    case Err(reason) => DocEntry(name, 0, 0, ExtensionFormat(ext), Some("無法讀取狀態: " + reason))
  }

  /** The inner loop: the entries of `OUTPUT_DIR.glob("*" + ext)` over
      the directory's names, in enumeration order. */
  function Globbed(dir: string, stat: string -> Result<Stat, string>, names: seq<string>, ext: string): (r: seq<DocEntry>)
  {
    if names == [] then []
    else
      var last := names[|names| - 1];
      Globbed(dir, stat, names[..|names| - 1], ext) + (if Listed(last, ext) then [Entry(dir, stat, last, ext)] else [])
  }

  /** The outer loop over the extensions. */
  function Collected(dir: string, stat: string -> Result<Stat, string>, names: seq<string>, exts: seq<string>): (r: seq<DocEntry>)
  {
    if exts == [] then []
    else Collected(dir, stat, names, exts[..|exts| - 1]) + Globbed(dir, stat, names, exts[|exts| - 1])
  }

  /** `list_documents`: the collected entries sorted by `created`, newest
      first (a permutation of them). */
  function Listing(fs: FsState, dir: string, stat: string -> Result<Stat, string>): (r: seq<DocEntry>)
    ensures SortedDesc(r, Created)
    ensures multiset(r) == multiset(Collected(dir, stat, fs.Entries(dir), SupportedExtensions))
  {
    var files := Collected(dir, stat, fs.Entries(dir), SupportedExtensions);
    SortDescSorted(files, Created);
    SortDesc(files, Created)
  }

  /** `list_documents` as it runs: a loop over the extensions appending
      each glob's entries to `files`, then the sort. */
  method ListDocuments(fs: FsState, dir: string, stat: string -> Result<Stat, string>) returns (docs: seq<DocEntry>)
    ensures docs == Listing(fs, dir, stat)
  {
    var names := fs.Entries(dir);
    var exts := SupportedExtensions;
    var files: seq<DocEntry> := [];
    var i := 0;
    while i < |exts|
      invariant 0 <= i <= |exts|
      invariant files == Collected(dir, stat, names, exts[..i])
    {
      files := AppendGlobbed(dir, stat, names, exts[i], files);
      assert exts[..i + 1][..i] == exts[..i];
      i := i + 1;
    }
    assert exts[..i] == exts;
    docs := SortDesc(files, Created);
  }

  /** The inner loop: the globbed names of one extension, the sidecars
      skipped, each appended with its entry. */
  method AppendGlobbed(dir: string, stat: string -> Result<Stat, string>, names: seq<string>, ext: string, files: seq<DocEntry>)
    returns (files': seq<DocEntry>)
    ensures files' == files + Globbed(dir, stat, names, ext)
  {
    files' := files;
    var j := 0;
    while j < |names|
      invariant 0 <= j <= |names|
      invariant files' == files + Globbed(dir, stat, names[..j], ext)
    {
      var name := names[j];
      assert names[..j + 1][..j] == names[..j];
      if EndsWith(name, ext) && !EndsWith(name, ".meta.json") {
        ConcatAssoc(files, Globbed(dir, stat, names[..j], ext), [Entry(dir, stat, name, ext)]);
        files' := files' + [Entry(dir, stat, name, ext)];
      } else {
        assert Globbed(dir, stat, names[..j + 1], ext) == Globbed(dir, stat, names[..j], ext) + [];
      }
      j := j + 1;
    }
    assert names[..j] == names;
  }

  /** Every globbed entry is the entry of a listed name, and every listed
      name has its entry. */
  lemma {:induction false} GlobbedEntries(dir: string, stat: string -> Result<Stat, string>, names: seq<string>, ext: string)
    ensures forall e :: e in Globbed(dir, stat, names, ext) ==> e.filename in names && Listed(e.filename, ext) && e == Entry(dir, stat, e.filename, ext)
    ensures forall k :: 0 <= k < |names| && Listed(names[k], ext) ==> Entry(dir, stat, names[k], ext) in Globbed(dir, stat, names, ext)
  {
    if names != [] {
      var init := names[..|names| - 1];
      GlobbedEntries(dir, stat, init, ext);
      assert forall k :: 0 <= k < |init| ==> init[k] == names[k];
      assert forall n :: n in init ==> n in names;
    }
  }

  /** `e` is the entry of its name under one of `exts` that lists it. */
  predicate EntryUnder(dir: string, stat: string -> Result<Stat, string>, exts: seq<string>, e: DocEntry)
  {
    exists i :: 0 <= i < |exts| && Listed(e.filename, exts[i]) && e == Entry(dir, stat, e.filename, exts[i])
  }

  /** Every collected entry is the entry of a name listed under one of the
      extensions. */
  lemma {:induction false} CollectedSound(dir: string, stat: string -> Result<Stat, string>, names: seq<string>, exts: seq<string>)
    ensures forall e :: e in Collected(dir, stat, names, exts) ==> e.filename in names && EntryUnder(dir, stat, exts, e)
  {
    if exts != [] {
      var init := exts[..|exts| - 1];
      var ext := exts[|exts| - 1];
      CollectedSound(dir, stat, names, init);
      GlobbedEntries(dir, stat, names, ext);
      forall e | e in Collected(dir, stat, names, exts)
        ensures e.filename in names && EntryUnder(dir, stat, exts, e)
      {
        if e in Collected(dir, stat, names, init) {
          var i :| 0 <= i < |init| && Listed(e.filename, init[i]) && e == Entry(dir, stat, e.filename, init[i]);
          assert init[i] == exts[i];
        } else {
          assert e in Globbed(dir, stat, names, ext);
        }
      }
    }
  }

  /** Every name listed under one of the extensions has its entry among
      the collected ones. */
  lemma {:induction false} CollectedComplete(dir: string, stat: string -> Result<Stat, string>, names: seq<string>, exts: seq<string>)
    ensures forall k, i :: 0 <= k < |names| && 0 <= i < |exts| && Listed(names[k], exts[i]) ==>
              Entry(dir, stat, names[k], exts[i]) in Collected(dir, stat, names, exts)
  {
    if exts != [] {
      var init := exts[..|exts| - 1];
      CollectedComplete(dir, stat, names, init);
      GlobbedEntries(dir, stat, names, exts[|exts| - 1]);
      forall k, i | 0 <= k < |names| && 0 <= i < |exts| && Listed(names[k], exts[i])
        ensures Entry(dir, stat, names[k], exts[i]) in Collected(dir, stat, names, exts)
      {
        if i < |init| {
          assert init[i] == exts[i];
        }
      }
    }
  }

  /** A name with one of the supported extensions. */
  predicate Supported(name: string)
  {
    exists i :: 0 <= i < |SupportedExtensions| && EndsWith(name, SupportedExtensions[i])
  }

  /** What one collected entry says about itself. */
  lemma CollectedEntry(dir: string, stat: string -> Result<Stat, string>, names: seq<string>, e: DocEntry)
    requires e in Collected(dir, stat, names, SupportedExtensions)
    ensures e.filename in names && Supported(e.filename) && !EndsWith(e.filename, ".meta.json")
    ensures e.format == ViewFormat(e.filename)
    ensures e.error.Some? ==> e.created == 0 && e.size == 0
  {
    CollectedSound(dir, stat, names, SupportedExtensions);
    var i :| 0 <= i < |SupportedExtensions| && Listed(e.filename, SupportedExtensions[i])
             && e == Entry(dir, stat, e.filename, SupportedExtensions[i]);
    FormatsAgree(e.filename, i);
  }

  /** Every listed entry is one of the directory's names that ends with a
      supported extension and is not a sidecar; it carries the format the
      view would show, and a failed `stat()` lists 0 and 0. */
  lemma ListingSound(fs: FsState, dir: string, stat: string -> Result<Stat, string>)
    ensures forall e :: e in Listing(fs, dir, stat) ==>
              e.filename in fs.Entries(dir) && Supported(e.filename) && !EndsWith(e.filename, ".meta.json")
              && e.format == ViewFormat(e.filename)
              && (e.error.Some? ==> e.created == 0 && e.size == 0)
  {
    var names := fs.Entries(dir);
    var docs := Listing(fs, dir, stat);
    forall e | e in docs
      ensures e.filename in names && Supported(e.filename) && !EndsWith(e.filename, ".meta.json")
              && e.format == ViewFormat(e.filename)
              && (e.error.Some? ==> e.created == 0 && e.size == 0)
    {
      assert e in multiset(docs);
      CollectedEntry(dir, stat, names, e);
    }
  }

  /** Every name of the directory that ends with a supported extension and
      is not a sidecar is listed. */
  lemma ListingComplete(fs: FsState, dir: string, stat: string -> Result<Stat, string>, name: string)
    requires name in fs.Entries(dir) && Supported(name) && !EndsWith(name, ".meta.json")
    ensures exists e :: e in Listing(fs, dir, stat) && e.filename == name
  {
    var names := fs.Entries(dir);
    var files := Collected(dir, stat, names, SupportedExtensions);
    CollectedComplete(dir, stat, names, SupportedExtensions);
    var k :| 0 <= k < |names| && names[k] == name;
    var i :| 0 <= i < |SupportedExtensions| && EndsWith(name, SupportedExtensions[i]);
    var e := Entry(dir, stat, name, SupportedExtensions[i]);
    assert e in files;
    assert e in multiset(files);
    assert e in multiset(Listing(fs, dir, stat));
  }
}
